/** The library's custom path-segment encoding: every character becomes its
    decimal character code followed by the delimiter `-`. It is not percent
    encoding; the server undoes it by splitting on `-` and reading the codes
    back, which `DecodeParam` models. */
module PathEncoding {
  import opened Wrappers
  import opened Decimal
  import opened SplitJoin

  /** The delimiter written after every character code. */
  const Delimiter: char := '-'

  /** A character of an encoded segment: a decimal digit or the delimiter. */
  predicate IsEncodingChar(c: char)
  {
    IsDigit(c) || c == Delimiter
  }

  /** The numeric code of a character. */
  function CharCode(c: char): nat
  {
    c as int
  }

  /** The numbers that are the code of some character. */
  predicate IsCharCode(n: nat)
  {
    n < 0xD800 || 0xE000 <= n < 0x11_0000
  }

  /** The encoding of one character: its code in decimal, then the delimiter. */
  function EncodeChar(c: char): string
  {
    NatToString(CharCode(c)) + [Delimiter]
  }

  /** `encodeParam(text)`: the character encodings of `text`, in order. Every
      character takes at least two output characters, so the result is empty
      only for the empty text. */
  function EncodeParam(text: string): (r: string)
    ensures 2 * |text| <= |r|
    ensures r == "" <==> text == ""
  {
    if |text| == 0 then ""
    else EncodeChar(text[0]) + EncodeParam(text[1..])
  }

  /** An encoding consists of digits and delimiters only. */
  lemma {:induction false} EncodeParamAlphabet(text: string)
    ensures forall i :: 0 <= i < |EncodeParam(text)| ==> IsEncodingChar(EncodeParam(text)[i])
    decreases |text|
  {
    if |text| > 0 {
      EncodeParamAlphabet(text[1..]);
      var head := EncodeChar(text[0]);
      assert forall i :: 0 <= i < |head| ==> IsEncodingChar(head[i]);
    }
  }

  /** An encoding holds exactly one delimiter per character of the text. */
  lemma {:induction false} EncodeParamDelimiterCount(text: string)
    ensures multiset(EncodeParam(text))[Delimiter] == |text|
    decreases |text|
  {
    if |text| > 0 {
      EncodeParamDelimiterCount(text[1..]);
      var digits := NatToString(CharCode(text[0]));
      NonDigitAbsent(digits, Delimiter);
      assert multiset(EncodeChar(text[0])) == multiset(digits) + multiset{Delimiter};
    }
  }

  /** The loop of `encodeParam`, appending one character encoding per step. */
  method EncodeParamLoop(text: string) returns (encoded: string)
    ensures encoded == EncodeParam(text)
  {
    encoded := "";
    var i := 0;
    while i < |text|
      invariant 0 <= i <= |text|
      invariant encoded == EncodeParam(text[..i])
    {
      EncodeParamAppend(text[..i], [text[i]]);
      assert text[..i + 1] == text[..i] + [text[i]];
      assert EncodeParam([text[i]]) == EncodeChar(text[i]);
      encoded := encoded + EncodeChar(text[i]);
      i := i + 1;
    }
    assert text[..i] == text;
  }

  /** The encoding of a concatenation is the concatenation of the encodings. */
  lemma {:induction false} EncodeParamAppend(a: string, b: string)
    ensures EncodeParam(a + b) == EncodeParam(a) + EncodeParam(b)
    decreases |a|
  {
    if |a| > 0 {
      assert (a + b)[0] == a[0];
      assert (a + b)[1..] == a[1..] + b;
      EncodeParamAppend(a[1..], b);
    } else {
      assert a + b == b;
    }
  }

  /** The encoding of the empty text is empty, and a one-character text
      encodes to its decimal code followed by the delimiter. */
  lemma EncodeParamUnits(c: char)
    ensures EncodeParam("") == ""
    ensures EncodeParam([c]) == NatToString(CharCode(c)) + "-"
  {
  }

  /** The worked example: `"AB"` encodes to `"65-66-"`. */
  lemma EncodeParamExample()
    ensures EncodeParam("AB") == "65-66-"
  {
    assert NatToString(65) == "65";
    assert NatToString(66) == "66";
  }

  /** The decimal codes of the characters of `text`, one string per character. */
  function CodeStrings(text: string): (codes: seq<string>)
    ensures |codes| == |text|
  {
    if |text| == 0 then [] else [NatToString(CharCode(text[0]))] + CodeStrings(text[1..])
  }

  /** Reads a list of decimal character codes back into characters. */
  function DecodeCodes(codes: seq<string>): (r: Option<string>)
    ensures r.Some? ==> |r.value| == |codes|
  {
    if |codes| == 0 then Some("")
    else match ParseNat(codes[0])
      case None => None
      case Some(n) =>
        if !IsCharCode(n) then None
        else match DecodeCodes(codes[1..])
          case None => None
          case Some(rest) => Some([n as char] + rest)
  }

  /** The server's inverse of `EncodeParam`: split on the delimiter, insist
      that the text ends with a delimiter, and read every piece before it as a
      character code. */
  function DecodeParam(s: string): Option<string>
  {
    var parts := Split(s, [Delimiter]);
    if parts[|parts| - 1] != "" then None
    else DecodeCodes(parts[..|parts| - 1])
  }

  /** Splitting an encoding on the delimiter yields the decimal codes, then
      one empty piece for the text after the last delimiter. */
  lemma {:induction false} SplitEncoding(text: string)
    ensures Split(EncodeParam(text), [Delimiter]) == CodeStrings(text) + [""]
    decreases |text|
  {
    if |text| == 0 {
      SplitWithoutChar("", Delimiter);
    } else {
      var head := NatToString(CharCode(text[0]));
      NonDigitAbsent(head, Delimiter);
      var tail := EncodeParam(text[1..]);
      assert EncodeParam(text) == head + [Delimiter] + tail;
      SplitAtChar(head, Delimiter, tail);
      SplitEncoding(text[1..]);
      assert CodeStrings(text) == [head] + CodeStrings(text[1..]);
      assert [head] + (CodeStrings(text[1..]) + [""]) == [head] + CodeStrings(text[1..]) + [""];
    }
  }

  lemma {:induction false} DecodeCodeStrings(text: string)
    ensures DecodeCodes(CodeStrings(text)) == Some(text)
    decreases |text|
  {
    if |text| > 0 {
      var codes := CodeStrings(text);
      ParseNatToString(CharCode(text[0]));
      assert codes[0] == NatToString(CharCode(text[0]));
      assert codes[1..] == CodeStrings(text[1..]);
      DecodeCodeStrings(text[1..]);
      assert text == [text[0]] + text[1..];
    }
  }

  /** Decoding recovers the encoded text exactly. */
  lemma DecodeEncodeParam(text: string)
    ensures DecodeParam(EncodeParam(text)) == Some(text)
  {
    SplitEncoding(text);
    var parts := CodeStrings(text) + [""];
    assert parts[..|parts| - 1] == CodeStrings(text);
    DecodeCodeStrings(text);
  }

  /** Distinct texts have distinct encodings. */
  lemma EncodeParamInjective(a: string, b: string)
    requires EncodeParam(a) == EncodeParam(b)
    ensures a == b
  {
    DecodeEncodeParam(a);
    DecodeEncodeParam(b);
  }

  /** An encoding never contains the path separator `/`. */
  lemma EncodeParamHasNoSlash(text: string)
    ensures '/' !in EncodeParam(text)
  {
    var r := EncodeParam(text);
    EncodeParamAlphabet(text);
    forall i | 0 <= i < |r|
      ensures r[i] != '/'
    {
      assert IsEncodingChar(r[i]);
    }
  }

  /** A resource path assembled from its segments, separated by `/`. */
  function Path(segments: seq<string>): string
  {
    Join(segments, "/")
  }

  /** Joins up to six segments with `/`, written out without recursion. */
  function JoinedSegments(ps: seq<string>): string
    requires 1 <= |ps| <= 6
  {
    if |ps| == 1 then ps[0]
    else if |ps| == 2 then ps[0] + "/" + ps[1]
    else if |ps| == 3 then ps[0] + "/" + ps[1] + "/" + ps[2]
    else if |ps| == 4 then ps[0] + "/" + ps[1] + "/" + ps[2] + "/" + ps[3]
    else if |ps| == 5 then ps[0] + "/" + ps[1] + "/" + ps[2] + "/" + ps[3] + "/" + ps[4]
    else ps[0] + "/" + ps[1] + "/" + ps[2] + "/" + ps[3] + "/" + ps[4] + "/" + ps[5]
  }

  lemma JoinAllUnfolded(ps: seq<string>)
    requires 1 <= |ps| <= 6
    ensures Path(ps) == JoinedSegments(ps)
  {
    if |ps| >= 2 { JoinUnfold(ps, "/"); }
    if |ps| >= 3 { JoinUnfold(ps[1..], "/"); assert ps[1..][1..] == ps[2..]; }
    if |ps| >= 4 { JoinUnfold(ps[2..], "/"); assert ps[2..][1..] == ps[3..]; }
    if |ps| >= 5 { JoinUnfold(ps[3..], "/"); assert ps[3..][1..] == ps[4..]; }
    if |ps| >= 6 { JoinUnfold(ps[4..], "/"); assert ps[4..][1..] == ps[5..]; }
  }

  /** A path whose segments are free of `/` splits back into those segments,
      so the server sees every encoded parameter as exactly one segment. */
  lemma PathSplitsIntoSegments(segments: seq<string>)
    requires |segments| > 0
    requires forall i :: 0 <= i < |segments| ==> '/' !in segments[i]
    ensures Split(Path(segments), "/") == segments
  {
    forall i | 0 <= i < |segments|
      ensures Absent(segments[i], "/")
    {
      CharAbsent(segments[i], '/');
    }
    SplitOfJoin(segments, "/");
  }
}
