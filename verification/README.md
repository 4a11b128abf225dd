# are-rest in Dafny

A model of the client library `are-rest`: the JavaScript functions that let a
web page talk to the AsTeRICS Runtime Environment (ARE) over REST and
server-sent events (SSE). It covers four things:

- the path-parameter encoding `encodeParam` and the helper `replaceAll`;
- the REST wrappers, each of which either returns at once because a required
  argument is empty, or sends one request and reports the outcome to one of
  two callbacks;
- the SSE subscription registry, which maps an event type to its stream:
  `subscribe`, `closeEventSource` and `unsubscribe`;
- the callbacks a stream invokes: the `"event"` listener and the error
  handler, which classifies the stream's ready state.

The HTTP client and the `EventSource` transport are not modelled as code:
- a request is a value (`RestRequests.Request`);
- the reply to a request is a parameter (`Callbacks.Reply`);
- a stream is a `Subscriptions.Session` record;
- every open or close made of the transport is appended to a log.

Modules, in dependency order:

| module | file | what it holds |
|---|---|---|
| `Wrappers` | wrappers.dfy | `Option` |
| `Decimal` | decimal.dfy | decimal rendering of naturals (`String(n)`), and a strict digit-string parser that stands for the server's decoder |
| `SplitJoin` | split_join.dfy | `String.prototype.split` with a string separator, `Array.prototype.join`, `replaceAll` |
| `PathEncoding` | path_encoding.dfy | `encodeParam`, its inverse as the server reads it, `/`-joined paths |
| `EventTypes` | event_types.dfy | `ServerEventTypes` and the event type → resource `switch` of `subscribe` |
| `Subscriptions` | subscriptions.dfy | the event-source map, `subscribe`, `closeEventSource`, `unsubscribe`, stream callbacks |
| `RestRequests` | rest_requests.dfy | the 38 REST wrappers: guards, request paths, verbs, headers |
| `Callbacks` | callbacks.dfy | `axiosSuccessCallback`, `axiosErrorCallback`, one wrapper call end to end |

Characters are Dafny `char`s, which are Unicode scalar values. `charCodeAt`
returns UTF-16 code units, so the two agree on the Basic Multilingual Plane
(see "Left out").

## Model

| member | source | states |
|---|---|---|
| Decimal.NatToString | src/index.js:67 | The decimal text of a character code is non-empty and all digits. It starts with `0` only for zero, and it is one digit long exactly when the code is below ten. |
| Decimal.ParseNatToString | src/index.js:67 | Reading the decimal text of a code back as a number gives the code. |
| Decimal.NatToStringInjective | src/index.js:67 | Different codes have different decimal texts. |
| SplitJoin.IndexOf | src/index.js:74-76 | The separator search finds the leftmost occurrence at or after the start index. It reports none exactly when there is no occurrence there. |
| SplitJoin.Split | src/index.js:74-76 | An empty separator splits the text into one part per character. Any other separator gives at least one part, and no part contains the separator. |
| SplitJoin.JoinOfSplit | src/index.js:74-76 | Joining the parts of a split with the same non-empty separator gives back the text. |
| SplitJoin.SplitOfJoin | src/index.js:74-76 | Splitting a one-character-separator join of separator-free parts gives back the parts. |
| SplitJoin.ReplaceAllSelf | src/index.js:74-76 | Replacing a string by itself leaves every text unchanged. This includes the empty pattern. |
| SplitJoin.ReplaceAllAbsent | src/index.js:74-76 | A text that does not contain the pattern is returned unchanged. |
| SplitJoin.ReplaceAllMatchesScan | src/index.js:74-76 | For a non-empty pattern, `replaceAll` equals the independent left-to-right scan: it rewrites every non-overlapping occurrence, leftmost first. |
| PathEncoding.EncodeParam | src/index.js:64-71 | Each character costs at least two output characters. The encoding is empty exactly when the text is. |
| PathEncoding.EncodeParamAlphabet | src/index.js:64-71 | An encoding contains only decimal digits and the delimiter `-`. |
| PathEncoding.EncodeParamDelimiterCount | src/index.js:64-71 | An encoding contains exactly one delimiter per input character. |
| PathEncoding.EncodeParamLoop | src/index.js:64-71 | The `for` loop that appends `code + "-"` per character computes the encoding. |
| PathEncoding.EncodeParamAppend | src/index.js:64-71 | Encoding a concatenation gives the concatenation of the encodings. |
| PathEncoding.EncodeParamUnits | src/index.js:64-71 | The empty text encodes to `""`. A single character encodes to its decimal code followed by `-`. |
| PathEncoding.EncodeParamExample | src/index.js:64-71 | `"AB"` encodes to `"65-66-"`. |
| PathEncoding.DecodeEncodeParam | src/index.js:64-71 | Splitting an encoding on `-` and reading each piece as a code gives back the text. |
| PathEncoding.EncodeParamInjective | src/index.js:64-71 | Different texts have different encodings. |
| PathEncoding.EncodeParamHasNoSlash | src/index.js:64-71 | An encoding never contains `/`, so an encoded argument is always exactly one path segment. |
| PathEncoding.PathSplitsIntoSegments | src/index.js:191 | A path made of `/`-free segments joined by `/` splits back into those segments. |
| EventTypes.ParseEventType | src/index.js:525-544 | The `switch` accepts exactly the five `ServerEventTypes` values, each mapped to the type of that name. Every other value falls to `default`. |
| EventTypes.ParseName | src/index.js:35-41 | Each event type is recognised by its own name, so the five names are distinct. |
| EventTypes.ResourceIsPath | src/index.js:525-544 | Each resource literal in the `switch` is its segments joined by `/`. The data channel resource has the encoded channel id as its fifth segment. |
| EventTypes.ResourceIdentifiesSubscription | src/index.js:525-544 | Two subscriptions that connect to the same resource have the same event type. For data channel transmissions they also have the same channel id. |
| EventTypes.DataChannelIdRecoverable | src/index.js:536 | The server can decode the channel id from the fifth segment of the data channel resource. |
| Subscriptions.Init | src/index.js:27-29 | The client starts with the default base URI and an empty map. This state satisfies the registry invariant. |
| Subscriptions.SetBaseUri | src/index.js:55-61 | Setting the base URI stores exactly the given URI. It changes neither the event-source support flag, the map, the streams nor the transport. It keeps the invariant. |
| Subscriptions.Subscribe | src/index.js:511-547 | A stream is opened exactly when SSE is supported, the type is one of the five, and a data channel subscription has a channel id. Without SSE support nothing changes. |
| Subscriptions.SubscribeValid | src/index.js:518-547 | `subscribe` keeps the invariant. The map holds only known types, each mapped to a stream opened for that type. Every stream that is not closed is the one the map holds. |
| Subscriptions.SubscribeReplaces | src/index.js:518-547 | A successful `subscribe` does the following: it closes the previous stream of that type, if any, and logs that close before the open; it opens a new connecting stream on base URI + resource; it maps the type to the new stream. Other entries and streams, the base URI and the event-source support flag are unchanged. |
| Subscriptions.AtMostOneLiveSessionPerType | src/index.js:518-547 | In a reachable state, at most one stream per event type is not closed, and it is the stream the map holds. |
| Subscriptions.SubscribeLeavesOneLiveSession | src/index.js:518-547 | After a successful `subscribe`, the new stream is the only stream of that type that is not closed. |
| Subscriptions.SubscribeTwice | src/index.js:518-547 | Subscribing twice to a type closes the first stream and keeps the second in the map. |
| Subscriptions.SubscribeUnknownType | src/index.js:518-544 | An unknown type changes nothing, not even the transport log, and the outcome is "unknown event type". |
| Subscriptions.SubscribeUndefinedChannel | src/index.js:518-536 | A data channel subscription without a channel id first closes the stream held for that type. It then fails before opening a new one, so the stale entry stays in the map. Only that stream's state changes; the other streams, the base URI and the support flag are unchanged. |
| Subscriptions.CloseEventSource | src/index.js:586-595 | The result is true exactly when the type had an entry. On true, the entry is removed, its stream alone is marked closed, one close of that stream is logged, and the base URI and support flag stay as they were. On false, nothing changes. The invariant is kept. |
| Subscriptions.CloseEventSourceTwice | src/index.js:586-595 | A second `closeEventSource` for the same type returns false and changes nothing. |
| Subscriptions.NoLiveSessionAfterClose | src/index.js:586-595 | After `closeEventSource`, no stream of that type is open or connecting. |
| Subscriptions.Unsubscribe | src/index.js:582-584 | `unsubscribe` removes the type's entry and keeps every other entry. If the type had a stream, that stream alone is marked closed and one close of it is logged. Otherwise nothing changes. The base URI and support flag stay as they were. The invariant is kept. |
| Subscriptions.UnsubscribeWithoutSubscription | src/index.js:582-595 | Unsubscribing from a type that has no entry changes nothing. |
| Subscriptions.ClassifyError | src/index.js:564-579 | The error reason is "reconnecting" exactly for a connecting target and "connectionLost" exactly for a closed one. It is "someErrorOccurred" exactly for an open target or a missing one. |
| Subscriptions.ReasonTextDistinct | src/index.js:564-579 | The three reason strings are pairwise distinct. |
| Subscriptions.Deliver | src/index.js:550-579 | Delivering a stream event has these effects. An `"event"` message on a live stream produces one success callback with the data and status 200; other message names produce nothing. An error produces one error callback with status 400 and the classified reason. A handshake on a live stream marks it open. A message leaves the client unchanged. An error moves the stream to the state it reports, and leaves the stream's state as it was when it reports none. A closed stream dispatches nothing. The map, the transport, the other streams, the base URI and the support flag are untouched. |
| Subscriptions.ConnectionLostKeepsEntry | src/index.js:570-573 | An error whose target is closed reports "connectionLost", but the stream's entry stays in the map. |
| RestRequests.RequestFor | src/index.js:82-505 | Each wrapper's request goes to the path its segments spell. Every read asks for the response type that matches its `Accept` header: `document` with `text/xml`, `text` with `text/plain`, `json` with `application/json`. A GET sends no body. A body is sent only by PUT or POST, always with an explicit content type. |
| RestRequests.ParamsAreRequired | src/index.js:106-461 | Every argument spliced into a request path is one that the wrapper's guard checks against `""`. |
| RestRequests.PathCarriesArguments | src/index.js:82-505 | Splitting a wrapper's path on `/` gives its segments. The server, decoding the segments that decode, recovers exactly the spliced arguments, in order. |
| RestRequests.SentPathHasNoEmptySegment | src/index.js:92-461 | A request that passes its guard has no empty path segment. |
| RestRequests.DataChannelTargetRequestsSource | src/index.js:292-314 | `getDataChannelTarget` sends the same request as `getDataChannelSource`. |
| RestRequests.EventChannelTargetDiffersFromSource | src/index.js:246-268 | `getEventChannelTarget` and `getEventChannelSource` send different requests. |
| RestRequests.ComponentPropertyPath | src/index.js:187-197 | `getRuntimeComponentProperty` requests `runtime/model/components/<enc id>/<enc key>`. |
| Callbacks.SuccessReport | src/index.js:12-16 | The success callback receives the response body and its status text. |
| Callbacks.ErrorReport | src/index.js:18-26 | The error callback receives the error itself. Its reason is the response's status text when a response arrived, and the error message otherwise. |
| Callbacks.ReportOf | src/index.js:12-26 | A settled request triggers the success callback exactly when it was fulfilled, with the response body and status text. A rejection passes the error through unchanged. Its reason is the response's status text when a response arrived, and the error message otherwise. |
| Callbacks.Perform | src/index.js:82-505 | A wrapper sends nothing and calls no callback exactly when a guarded argument is empty. Otherwise it sends the wrapper's request, with its path, verb and media types, and calls exactly one callback. That callback is the success callback, with the body and status text, exactly when the reply is fulfilled. Otherwise it is the error callback, with the error and its reason. |

## Left out

- Network I/O is abstract. `axios` is represented by requests as values and replies as parameters, and `EventSource` by sessions and a transport log. Nothing models timing, retries or the browser's reconnection schedule.
- Asynchrony is not modelled. Each callback and transport event is handled as one atomic step, and interleavings of several clients are not modelled.
- `console.log`, `console.error` and `alert` are not modelled. The alert for missing SSE support and the console error for an unknown event type become the outcomes `NotSupported` and `UnknownEventType`, because the source only logs them and returns nothing.
- `JSmap` (`./JSmap`) is not part of this model. It is taken to behave as a map: `get` of a missing key gives `null`, `add` overwrites, and `remove` returns the removed value or `null`.
- How `axios` joins `baseURL` with a relative path is not modelled. Paths are relative to the base URI, and `Subscribe` prefixes the base URI by plain concatenation, as the source does.
- `PortDatatype` (lines 44-52) is an exported table that no modelled function uses.
- Characters are Unicode scalar values, not UTF-16 code units. For text outside the Basic Multilingual Plane, `charCodeAt` gives two surrogate codes where the model gives one code point.
- JavaScript's loose `==` against `""` is modelled for string arguments only. A wrapper called with `0`, `null` or a non-string value is not modelled.
- The `.then(...).catch(...)` chain: a success callback that throws would also trigger the error callback. Callbacks are assumed not to throw.
- `Subscriptions.Subscribe`, `Subscriptions.CloseEventSource`, `Subscriptions.Unsubscribe` and `Subscriptions.Deliver` require the registry invariant `Valid`. Every state reachable from `Init` satisfies it (`SubscribeValid`, `CloseEventSource`, `Unsubscribe`, `Deliver` keep it). The source has no such check.
- In these places the model follows the code where a reader might expect otherwise:
  - a `CLOSED` error does not remove the entry from the map (`ConnectionLostKeepsEntry`);
  - `unsubscribe` returns nothing;
  - an empty channel id is not rejected, and gives `runtime/model/channels/data//listener`;
  - `getDataChannelTarget` requests `/source`, like `getDataChannelSource` (`DataChannelTargetRequestsSource`).
- Subscriptions.Deliver: the callback receives the reason value `ErrorReason`, not the string. `ReasonText` gives the exact strings, and `ReasonTextDistinct` shows that nothing is lost. A closed stream dispatches nothing, which is assumed of the transport rather than written in the source.
- SplitJoin.SplitOfJoin: stated only for one-character separators, because a longer separator can straddle a part and the separator after it. Every path in the library is joined with `/`.
- A new stream starts as connecting, as a fresh `EventSource` does (ready state 0). It becomes open when a handshake, or an error event reporting OPEN, is delivered. `subscribe` itself never produces an open stream.
- The test files and the webpack configuration are not modelled.
