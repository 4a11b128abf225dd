/** JavaScript's `String.prototype.split` with a string separator (no limit),
    `Array.prototype.join`, and the library's `replaceAll`, which is the two
    composed. */
module SplitJoin {
  import opened Wrappers

  /** `pat` occurs in `t` starting at index `i`. */
  predicate OccursAt(t: string, pat: string, i: nat)
  {
    i + |pat| <= |t| && t[i..i + |pat|] == pat
  }

  /** No occurrence of `pat` in `t` starts at or after `from` (none can
      start past the end of `t`). */
  predicate AbsentFrom(t: string, pat: string, from: nat)
  {
    forall j: nat :: from <= j <= |t| ==> !OccursAt(t, pat, j)
  }

  /** `pat` does not occur anywhere in `t`. */
  predicate Absent(t: string, pat: string)
  {
    AbsentFrom(t, pat, 0)
  }

  /** The leftmost occurrence of `pat` in `t` at or after `from`, as
      `indexOf(pat, from)` finds it. */
  function IndexOf(t: string, pat: string, from: nat): (r: Option<nat>)
    ensures r.Some? ==> from <= r.value && OccursAt(t, pat, r.value)
    ensures r.Some? ==> forall j: nat :: from <= j < r.value ==> !OccursAt(t, pat, j)
    ensures r.None? <==> AbsentFrom(t, pat, from)
    decreases |t| - from
  {
    if from + |pat| > |t| then None
    else if OccursAt(t, pat, from) then Some(from)
    else IndexOf(t, pat, from + 1)
  }

  /** Splits `t` at every non-overlapping occurrence of `sep`, scanning left to
      right. An empty separator splits into single characters, and then an
      empty text gives no parts at all. */
  function Split(t: string, sep: string): (parts: seq<string>)
    ensures |sep| == 0 ==> |parts| == |t| && forall i :: 0 <= i < |parts| ==> parts[i] == [t[i]]
    ensures |sep| > 0 ==> |parts| > 0 && forall i :: 0 <= i < |parts| ==> Absent(parts[i], sep)
    decreases |t|
  {
    if |sep| == 0 then seq(|t|, i requires 0 <= i < |t| => [t[i]])
    else match IndexOf(t, sep, 0)
      case None => [t]
      case Some(k) =>
        var head := t[..k];
        assert Absent(head, sep) by {
          forall j: nat | OccursAt(head, sep, j)
            ensures false
          {
            assert t[j..j + |sep|] == head[j..j + |sep|];
            assert OccursAt(t, sep, j);
          }
        }
        [head] + Split(t[k + |sep|..], sep)
  }

  /** Concatenates `parts` with `sep` between neighbours. */
  function Join(parts: seq<string>, sep: string): string
  {
    if |parts| == 0 then ""
    else if |parts| == 1 then parts[0]
    else parts[0] + sep + Join(parts[1..], sep)
  }

  /** The source's `replaceAll(text, oldString, newString)`. */
  function ReplaceAll(text: string, oldString: string, newString: string): string
  {
    Join(Split(text, oldString), newString)
  }

  /** An independent reference for replacement: walk the text from the left,
      and wherever `oldString` starts, emit `newString` and skip past it. */
  function ReplaceScan(text: string, oldString: string, newString: string): string
    requires |oldString| > 0
    decreases |text|
  {
    if OccursAt(text, oldString, 0) then newString + ReplaceScan(text[|oldString|..], oldString, newString)
    else if |text| == 0 then ""
    else [text[0]] + ReplaceScan(text[1..], oldString, newString)
  }

  lemma JoinCons(p: string, ps: seq<string>, sep: string)
    requires |ps| > 0
    ensures Join([p] + ps, sep) == p + sep + Join(ps, sep)
  {
    assert ([p] + ps)[1..] == ps;
  }

  /** Unfolds a join of two or more parts at its first separator. */
  lemma JoinUnfold(parts: seq<string>, sep: string)
    requires |parts| >= 2
    ensures Join(parts, sep) == parts[0] + sep + Join(parts[1..], sep)
  {
  }

  /** Joining the parts of a split with the same non-empty separator gives the
      text back. */
  lemma {:induction false} JoinOfSplit(t: string, sep: string)
    requires |sep| > 0
    ensures Join(Split(t, sep), sep) == t
    decreases |t|
  {
    match IndexOf(t, sep, 0)
    case None =>
    case Some(k) =>
      var rest := t[k + |sep|..];
      JoinOfSplit(rest, sep);
      JoinCons(t[..k], Split(rest, sep), sep);
      assert t == t[..k] + sep + rest by {
        assert t[k..k + |sep|] == sep;
      }
  }

  /** Splitting a separator-joined list of separator-free parts recovers the
      parts. The separator is one character: a longer one could straddle a
      part and the separator after it (`["x", ""]` joined by `"xx"`). */
  lemma {:induction false} SplitOfJoin(parts: seq<string>, sep: string)
    requires |sep| == 1 && |parts| > 0
    requires forall i :: 0 <= i < |parts| ==> Absent(parts[i], sep)
    ensures Split(Join(parts, sep), sep) == parts
    decreases |parts|
  {
    var t := Join(parts, sep);
    if |parts| == 1 {
      assert IndexOf(t, sep, 0).None?;
    } else {
      var p := parts[0];
      var rest := Join(parts[1..], sep);
      assert t == p + sep + rest;
      SplitAfterPrefix(p, sep, rest);
      SplitOfJoin(parts[1..], sep);
      assert parts == [p] + parts[1..];
    }
  }

  /** Splitting `p + sep + rest`, where `p` is free of `sep`, cuts off
      exactly `p`. */
  lemma SplitAfterPrefix(p: string, sep: string, rest: string)
    requires |sep| == 1 && Absent(p, sep)
    ensures Split(p + sep + rest, sep) == [p] + Split(rest, sep)
  {
    var t := p + sep + rest;
    FirstOccurrenceAfterPrefix(p, sep, rest);
    assert t[..|p|] == p;
    assert t[|p| + |sep|..] == rest;
  }

  /** When the one-character `sep` does not occur in `p`, the first
      occurrence of `sep` in `p + sep + rest` is right after `p`. */
  lemma FirstOccurrenceAfterPrefix(p: string, sep: string, rest: string)
    requires |sep| == 1 && Absent(p, sep)
    ensures IndexOf(p + sep + rest, sep, 0) == Some(|p|)
  {
    var t := p + sep + rest;
    assert OccursAt(t, sep, |p|) by {
      assert t[|p|..|p| + |sep|] == sep;
    }
    forall j: nat | j < |p|
      ensures !OccursAt(t, sep, j)
    {
      assert t[j..j + 1] == p[j..j + 1];
      assert !OccursAt(p, sep, j);
    }
    IndexOfFindsFirst(t, sep, 0, |p|);
  }

  /** `IndexOf` returns the first occurrence it meets. */
  lemma {:induction false} IndexOfFindsFirst(t: string, pat: string, from: nat, k: nat)
    requires from <= k && OccursAt(t, pat, k)
    requires forall j: nat :: from <= j < k ==> !OccursAt(t, pat, j)
    ensures IndexOf(t, pat, from) == Some(k)
    decreases k - from
  {
    if from < k {
      IndexOfFindsFirst(t, pat, from + 1, k);
    }
  }

  /** Replacing a pattern that does not occur leaves the text unchanged. (The
      empty pattern occurs everywhere, so it is excluded by the premise.) */
  lemma ReplaceAllAbsent(text: string, oldString: string, newString: string)
    requires Absent(text, oldString)
    ensures ReplaceAll(text, oldString, newString) == text
  {
    assert !OccursAt(text, oldString, 0);
  }

  /** Replacing a pattern by itself leaves the text unchanged, for the empty
      pattern (split into characters, joined by nothing) as well. */
  lemma ReplaceAllSelf(text: string, pattern: string)
    ensures ReplaceAll(text, pattern, pattern) == text
  {
    if |pattern| == 0 {
      JoinSingletons(text);
    } else {
      JoinOfSplit(text, pattern);
    }
  }

  lemma {:induction false} JoinSingletons(t: string)
    ensures Join(seq(|t|, i requires 0 <= i < |t| => [t[i]]), "") == t
    decreases |t|
  {
    var parts := seq(|t|, i requires 0 <= i < |t| => [t[i]]);
    if |t| > 1 {
      JoinSingletons(t[1..]);
      assert parts[1..] == seq(|t[1..]|, i requires 0 <= i < |t[1..]| => [t[1..][i]]);
      assert t == [t[0]] + t[1..];
    }
  }

  /** `replaceAll` with a non-empty pattern agrees with the left-to-right
      scanning replacement. */
  lemma {:induction false} ReplaceAllMatchesScan(text: string, oldString: string, newString: string)
    requires |oldString| > 0
    ensures ReplaceAll(text, oldString, newString) == ReplaceScan(text, oldString, newString)
    decreases |text|
  {
    match IndexOf(text, oldString, 0)
    case None =>
      ScanAbsent(text, oldString, newString);
    case Some(k) =>
      var rest := text[k + |oldString|..];
      ReplaceAllMatchesScan(rest, oldString, newString);
      JoinCons(text[..k], Split(rest, oldString), newString);
      ScanUpToFirst(text, oldString, newString, k);
  }

  lemma {:induction false} ScanAbsent(text: string, oldString: string, newString: string)
    requires |oldString| > 0 && Absent(text, oldString)
    ensures ReplaceScan(text, oldString, newString) == text
    decreases |text|
  {
    assert !OccursAt(text, oldString, 0);
    if |text| > 0 {
      var tail := text[1..];
      assert Absent(tail, oldString) by {
        forall j: nat | j <= |tail|
          ensures !OccursAt(tail, oldString, j)
        {
          assert !OccursAt(text, oldString, j + 1);
          if j + |oldString| <= |tail| {
            assert tail[j..j + |oldString|] == text[j + 1..j + 1 + |oldString|];
          }
        }
      }
      ScanAbsent(tail, oldString, newString);
      assert text == [text[0]] + tail;
    }
  }

  /** Up to the first occurrence at `k`, the scan copies the text and then
      emits the replacement. */
  lemma {:induction false} ScanUpToFirst(text: string, oldString: string, newString: string, k: nat)
    requires |oldString| > 0 && OccursAt(text, oldString, k)
    requires forall j: nat :: j < k ==> !OccursAt(text, oldString, j)
    ensures ReplaceScan(text, oldString, newString)
         == text[..k] + newString + ReplaceScan(text[k + |oldString|..], oldString, newString)
    decreases k
  {
    if k > 0 {
      var tail := text[1..];
      assert !OccursAt(text, oldString, 0);
      ShiftOccurrence(text, oldString, k);
      NoEarlierInTail(text, oldString, k);
      ScanUpToFirst(tail, oldString, newString, k - 1);
      ScanPrepend(text, oldString, newString, k, ReplaceScan(text[k + |oldString|..], oldString, newString));
    } else {
      assert text[..0] + newString == newString;
    }
  }

  lemma ScanPrepend(text: string, oldString: string, newString: string, k: nat, after: string)
    requires 0 < k <= |text| && |oldString| > 0 && !OccursAt(text, oldString, 0)
    requires ReplaceScan(text[1..], oldString, newString) == text[1..][..k - 1] + (newString + after)
    ensures ReplaceScan(text, oldString, newString) == text[..k] + (newString + after)
  {
    ScanCopies(text, oldString, newString);
    PrependPrefix(text, k, newString + after);
  }

  lemma PrependPrefix(text: string, k: nat, rest: string)
    requires 0 < k <= |text|
    ensures [text[0]] + (text[1..][..k - 1] + rest) == text[..k] + rest
  {
    assert text[..k] == [text[0]] + text[1..][..k - 1];
  }

  lemma ShiftOccurrence(text: string, oldString: string, k: nat)
    requires 0 < k && OccursAt(text, oldString, k)
    ensures OccursAt(text[1..], oldString, k - 1)
    ensures text[1..][k - 1 + |oldString|..] == text[k + |oldString|..]
  {
    assert text[1..][k - 1..k - 1 + |oldString|] == text[k..k + |oldString|];
  }

  lemma ScanCopies(text: string, oldString: string, newString: string)
    requires |oldString| > 0 && |text| > 0 && !OccursAt(text, oldString, 0)
    ensures ReplaceScan(text, oldString, newString) == [text[0]] + ReplaceScan(text[1..], oldString, newString)
  {
  }

  lemma NoEarlierInTail(text: string, oldString: string, k: nat)
    requires 0 < k <= |text|
    requires forall j: nat :: j < k ==> !OccursAt(text, oldString, j)
    ensures forall j: nat :: j < k - 1 ==> !OccursAt(text[1..], oldString, j)
  {
    var tail := text[1..];
    forall j: nat | j < k - 1
      ensures !OccursAt(tail, oldString, j)
    {
      assert !OccursAt(text, oldString, j + 1);
      if j + |oldString| <= |tail| {
        assert tail[j..j + |oldString|] == text[j + 1..j + 1 + |oldString|];
      }
    }
  }

  /** A character that is not in `t` does not occur in it as a pattern. */
  lemma CharAbsent(t: string, c: char)
    requires c !in t
    ensures Absent(t, [c])
  {
    forall j: nat | j <= |t|
      ensures !OccursAt(t, [c], j)
    {
      if j + 1 <= |t| {
        assert t[j..j + 1] == [t[j]];
      }
    }
  }

  /** Splitting on a character peels off a leading segment free of it. */
  lemma SplitAtChar(w: string, c: char, rest: string)
    requires c !in w
    ensures Split(w + [c] + rest, [c]) == [w] + Split(rest, [c])
  {
    CharAbsent(w, c);
    FirstOccurrenceAfterPrefix(w, [c], rest);
    var t := w + [c] + rest;
    assert t[..|w|] == w;
    assert t[|w| + 1..] == rest;
  }

  /** A text free of the separator character splits into itself alone. */
  lemma SplitWithoutChar(w: string, c: char)
    requires c !in w
    ensures Split(w, [c]) == [w]
  {
    CharAbsent(w, c);
  }
}
