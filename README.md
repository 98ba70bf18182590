# Sumo Logic JavaScript logger: queue, flush and line encoding

This project models the client-side core of the Sumo Logic JavaScript
logging SDK, which exists in two variants:

- **The full logger** (`src/sumoLogger.ts`). It keeps a pending queue of encoded lines, a sending flag,
  an interval timer and a configuration that can be partially updated.
  - `log` validates a message and encodes every element into a line: a JSON record, a raw value, or a
    Graphite line `path value seconds`. It appends the lines and may start a send when
    `batchReadyToSend` says the batch is large enough.
  - A send captures how many lines it carries. On success it removes that many lines from the front of
    whatever the queue holds by then. On failure it leaves the queue alone and reports the error.
- **The basic logger** (`src/sumoLogger.basic.ts`). `log` only queues.
  - A flush moves the whole queue into a retained batch and sends it.
  - A failed batch stays retained, and the next flush sends exactly that batch again.

Each variant's `SumoLogger` is a Dafny `class` holding the source's fields. The timer handle is modelled
as an `armed` flag, and a timer firing is an explicit `Tick`. The full variant's class has two fields that
are not in the source:

- `inFlight` holds the suspended send's local `numberOfLogs`.
- `notifications` records the calls made to `onSuccess` and `onError`.

The one `await` in a send splits it into two atomic steps:

- `BeginSend`: the guard, the flag, the headers, the captured count and the body.
- `CompleteSend`: the transport's outcome, success or failure, given as a parameter.

Any other call may be made between the two steps. The message encoder is pure and is modelled by
functions. JavaScript values, `Object.assign` over ordered property lists, `JSON.stringify`, `join` and
`split` are modelled in `values.dfy` and `json.dfy`. The encoding pieces both variants share are in
`codec.dfy`.

Main results:

- Every JSON record a batch body carries can be recovered by splitting the body on newlines
  (`Codec.BodySplitsIntoLines`). Raw-mode strings may themselves contain newlines, so this does not hold
  for them.
- Full variant:
  - A successful send removes exactly the lines it carried, and lines logged meanwhile survive in order.
  - Removal is by count, so lines logged after `emptyLogQueue` during a send can be removed unsent.
  - The batch-size test is a sum over entries of message length plus one, and a reached threshold stays
    reached as lines are added. Lengths are JavaScript lengths: UTF-16 code units.
- Basic variant: no line is lost or duplicated except by a successful send, which removes exactly the
  retained batch, or by `emptyLogQueue`. `Outstanding()` is the retained batch followed by the pending
  queue, and every operation's contract states how it changes it.

## Model

| member | source | states |
|---|---|---|
| `JsValues.Truthy` | src/sumoLogger.ts:154 | `!!v`: a truthy value is neither undefined nor null; every object is truthy; a string is truthy iff non-empty |
| `JsValues.Utf16Length` | src/sumoLogger.ts:73 | `s.length`: UTF-16 code units, between the number of characters and twice it, equal to it without characters beyond the Basic Multilingual Plane |
| `JsValues.Utf16Append` | src/sumoLogger.ts:70 | the length of a concatenation is the sum of the lengths |
| `JsValues.Utf16AstralExample` | src/sumoLogger.ts:73 | a two-character string with one character beyond the Basic Multilingual Plane has length 3 |
| `JsValues.IntRoundTrip` | src/sumoLogger.ts:190 | the decimal text `toString(10)` gives for an integer reads back as that integer |
| `JsValues.ToText` | src/sumoLogger.ts:235-239 | the `toString` helper: a string is itself; a number's text reads back as the number; undefined and null become "undefined" and "null" once concatenated |
| `JsonText.Get` | src/sumoLogger.ts:208 | reading a property: defined exactly for the object's keys, the last occurrence winning |
| `JsonText.Put` | src/sumoLogger.ts:208 | setting one property keeps keys distinct, adds the key, changes only that key's value |
| `JsonText.Assign` | src/sumoLogger.ts:208 | `Object.assign`: the key set is the union, and keys stay distinct |
| `JsonText.AssignGet` | src/sumoLogger.ts:208 | after `Object.assign(t, s)` a key has the source's value if the source has it, else the target's |
| `JsonText.Escape` | src/sumoLogger.ts:196-208 | a JSON string escape never yields a raw newline |
| `JsonText.Stringify` | src/sumoLogger.ts:196-208 | `JSON.stringify` of a record never contains a newline |
| `JsonText.Join` | src/sumoLogger.ts:114 | `join(sep)`: empty for no piece, starting with the first piece, followed by the separator when there is a second |
| `JsonText.SplitJoin` | src/sumoLogger.ts:114 | splitting a newline-join of newline-free lines gives the lines back |
| `Codec.First` | src/sumoLogger.ts:159 | `testEl`: the value itself, or an array's first element, undefined for an empty array |
| `Codec.Items` | src/sumoLogger.ts:159-180 | the message as an array, its first element being `testEl` |
| `Codec.IsEmpty` | src/sumoLogger.ts:230-233 | `isEmpty`: an array is empty iff it has no element, an object iff it has no key |
| `Codec.Property` | src/sumoLogger.ts:166 | `v.path`/`v.value`: a defined result is an own property of an object |
| `Codec.ContextFor` | src/sumoLogger.ts:182-186 | a non-empty per-call session key or url wins, else the configured one; the per-call timestamp's text is used |
| `Codec.BaseRecord` | src/sumoLogger.ts:208 | the base record has exactly the keys sessionId, timestamp, url |
| `Codec.StringRecord` | src/sumoLogger.ts:195-206 | a string becomes a record with exactly msg, sessionId, timestamp and url (url present even when empty) carrying the context's values |
| `Codec.ObjectRecord` | src/sumoLogger.ts:208 | an object becomes the base fields overridden by the caller's keys: key set is the union, the caller's value wins on a clash |
| `Codec.JsonRecord` | src/sumoLogger.ts:195-208 | a JSON-mode element as a record with distinct keys: a string gives exactly msg, sessionId, timestamp and url with msg the string; anything else gives the base keys plus its own |
| `Codec.LineText` | src/sumoLogger.ts:114 | an entry's text in the joined body: a record's JSON has no newline, a Graphite line is itself, a raw string is itself, a raw null or undefined is "" |
| `Codec.Texts` | src/sumoLogger.ts:114 | one text per entry, newline-free for every record |
| `Codec.Body` | src/sumoLogger.ts:114 | a one-entry body is that entry's text; with more entries the first text is followed by a newline |
| `Codec.BodySplitsIntoLines` | src/sumoLogger.ts:114 | the body of a queue of JSON records splits back into exactly those records' texts, in order |
| `Codec.RoundSeconds` | src/sumoLogger.ts:190 | `Math.round(ms / 1000)`: the result is the whole second within half a second of ms |
| `Codec.GraphiteLine` | src/sumoLogger.ts:190 | the line starts with the path's text and a space and ends with a space and the rounded seconds |
| `Codec.GraphiteLineOf` | src/sumoLogger.ts:189-191 | a `{path, value}` message becomes `path value seconds`, the seconds reading back as the rounded time |
| `Codec.Headers` | src/sumoLogger.ts:93-106 | client header always; Graphite content type iff graphite, JSON otherwise; name, category and host headers present iff non-empty, with those values |
| `SumoLoggerFull.ConfigFrom` | src/sumoLogger.ts:32-49 | every configuration field is the option when given and truthy, else its default; returnPromise defaults to true; the session key defaults to the generated identifier |
| `SumoLoggerFull.Updated` | src/sumoLogger.ts:51-62 | only batchSize, endpoint, returnPromise, sourceCategory, useIntervalOnly and interval change, each only when the update is truthy; every other field is unchanged |
| `SumoLoggerFull.UpdateIdempotent` | src/sumoLogger.ts:51-62 | applying the same update twice equals applying it once |
| `SumoLoggerFull.Check` | src/sumoLogger.ts:154-176 | refusals in order: falsy message, undefined first element, Graphite without path/value, single keyless object; in JSON mode a message is accepted iff it is truthy, its first element is defined and it is not a single keyless object (so an array holding an empty object is accepted); in Graphite mode iff the first element is an object with defined path and value |
| `SumoLoggerFull.EncodeItem` | src/sumoLogger.ts:189-191 | encoding an element throws exactly when Graphite mode meets a null or undefined element |
| `SumoLoggerFull.EncodeItemKinds` | src/sumoLogger.ts:189-208 | Graphite checked before raw: Graphite gives a text line; raw (not Graphite) passes the element through unchanged; JSON mode gives a record with distinct keys |
| `SumoLoggerFull.EncodeAll` | src/sumoLogger.ts:188-209 | one line per element, in order; encoding throws exactly when Graphite mode meets a null or undefined element |
| `SumoLoggerFull.JsonModeEncodesRecords` | src/sumoLogger.ts:195-208 | in JSON mode encoding never throws and yields only records |
| `SumoLoggerFull.MsgText` | src/sumoLogger.ts:69-70 | `log.msg` appended to a string: a string msg is itself, a missing msg is "undefined" |
| `SumoLoggerFull.PendingMessages` | src/sumoLogger.ts:68-71 | the reduce's string: its UTF-16 length is the sum over entries of message length plus one, it is empty iff the queue is, and otherwise ends with a newline |
| `SumoLoggerFull.MessageCharsAppend` | src/sumoLogger.ts:68-71 | the aggregated size of two queues concatenated is the sum of their sizes |
| `SumoLoggerFull.BatchReady` | src/sumoLogger.ts:64-77 | with no batch size, ready iff the interval is 0; otherwise ready iff the aggregated UTF-16 size reaches the batch size |
| `SumoLoggerFull.AstralMessageCounts` | src/sumoLogger.ts:68-73 | with batch size 3, one record whose msg is a single character beyond the Basic Multilingual Plane makes the batch ready |
| `SumoLoggerFull.BatchReadyStays` | src/sumoLogger.ts:68-73 | a reached threshold stays reached when lines are added, and readiness after adding lines is decided by the sum of both sizes |
| `SumoLoggerFull.RequestFor` | src/sumoLogger.ts:111-115 | the request goes to the endpoint, with the configured headers and the newline-join of the whole queue as body |
| `SumoLoggerFull.Slice` | src/sumoLogger.ts:81 | `slice(n)`: the entries after the first n, or none when there are fewer |
| `SumoLoggerFull.SuccessKeepsArrivals` | src/sumoLogger.ts:80-86 | a successful send removes the lines it carried, and lines logged during the flight survive in order |
| `SumoLoggerFull.SuccessAfterEmptyDropsUnsent` | src/sumoLogger.ts:81 | after the queue was emptied during a send of n lines, success removes up to n later lines that were never sent |
| `SumoLoggerFull.LogLines` | src/sumoLogger.ts:182-209 | the lines of one call: encoding throws exactly when Graphite mode meets a null or undefined element; otherwise one line per element; in raw mode the elements themselves |
| `SumoLoggerFull.LogLinesFacts` | src/sumoLogger.ts:178-211 | an accepted call appends one line per element, at least one, and in JSON mode only records |
| `SumoLoggerFull.SumoLogger.constructor` | src/sumoLogger.ts:22-30 | the configuration from the options, an empty queue, no send in flight, and the timer armed iff the interval is positive |
| `SumoLoggerFull.SumoLogger.SetConfig` | src/sumoLogger.ts:32-49 | the configuration becomes the one built from the options |
| `SumoLoggerFull.SumoLogger.UpdateConfig` | src/sumoLogger.ts:51-62 | the configuration is updated; a truthy interval restarts the timer, which is armed iff the new interval is positive (or was already armed) |
| `SumoLoggerFull.SumoLogger.BatchReadyToSend` | src/sumoLogger.ts:64-77 | answers `BatchReady` (UTF-16 length of the reduce's string against the batch size, or interval 0 without one) and disarms the timer exactly when it answers true with a batch size |
| `SumoLoggerFull.SumoLogger.PostSuccess` | src/sumoLogger.ts:80-86 | queue loses its first n entries, flag cleared, timer re-armed when the interval is positive, onSuccess called |
| `SumoLoggerFull.SumoLogger.BeginSend` | src/sumoLogger.ts:88-115 | refused with nothing changed when a send is in flight or the queue is empty; otherwise the flag is set, the captured count is the queue length and the body is the whole queue |
| `SumoLoggerFull.SumoLogger.CompleteSend` | src/sumoLogger.ts:116-126 | success: the captured count leaves the front of the current queue, timer re-armed, onSuccess called; failure: queue and timer untouched, onError gets the error; the flag is false after either |
| `SumoLoggerFull.SumoLogger.StartLogSending` | src/sumoLogger.ts:129-135 | the timer is armed when the interval is positive, replacing any armed one, and otherwise left as it is |
| `SumoLoggerFull.SumoLogger.StopLogSending` | src/sumoLogger.ts:137-140 | the timer is disarmed |
| `SumoLoggerFull.SumoLogger.EmptyLogQueue` | src/sumoLogger.ts:142-144 | the queue is emptied |
| `SumoLoggerFull.SumoLogger.FlushLogs` | src/sumoLogger.ts:146-148 | the same effect as the first half of a send |
| `SumoLoggerFull.SumoLogger.Tick` | src/sumoLogger.ts:133 | the armed timer firing runs the first half of a send |
| `SumoLoggerFull.SumoLogger.Log` | src/sumoLogger.ts:153-218 | refused or throwing calls change nothing; an accepted call appends its lines in order and starts a send exactly when not interval-only and the batch is ready; the configuration never changes |
| `SumoLoggerFull.SumoLogger.SendIfReady` | src/sumoLogger.ts:213-217 | a send starts exactly when not interval-only and the batch is ready; otherwise timer and flag are untouched |
| `SumoLoggerBasic.ConfigFrom` | src/sumoLogger.basic.ts:16-23 | absent strings become empty (`??`); an absent or empty session key becomes the generated identifier |
| `SumoLoggerBasic.Check` | src/sumoLogger.basic.ts:59-74 | refusals in order: falsy message, null or undefined first element, single keyless object; a message is accepted iff it is truthy, its first element is neither null nor undefined, and it is not a single keyless object |
| `SumoLoggerBasic.ChecksDifferOnlyOnNullFirst` | src/sumoLogger.basic.ts:66-69 | the two variants (full in JSON mode) refuse the same messages for the same reasons, except an array whose first element is null, which only the basic one refuses |
| `SumoLoggerBasic.LogLines` | src/sumoLogger.basic.ts:80-86 | one record with distinct keys per element, in order; a string element is the record's msg |
| `SumoLoggerBasic.EncodeRecords` | src/sumoLogger.basic.ts:84-86 | the loop pushes exactly the records of the elements, one each, in order, under the call's context |
| `SumoLoggerBasic.EncodersAgree` | src/sumoLogger.basic.ts:85 | the basic variant's lines equal those the full variant queues in JSON mode with the same session key and client url |
| `SumoLoggerBasic.RequestFor` | src/sumoLogger.basic.ts:33-47 | the request goes to the endpoint with the JSON content type and the newline-join of the batch as body |
| `SumoLoggerBasic.SumoLogger.constructor` | src/sumoLogger.basic.ts:8-24 | endpoint and configuration from the options; no batch retained, empty queue, nothing in flight |
| `SumoLoggerBasic.SumoLogger.EmptyLogQueue` | src/sumoLogger.basic.ts:26 | only the pending queue is cleared; the retained batch stays outstanding |
| `SumoLoggerBasic.SumoLogger.BeginSend` | src/sumoLogger.basic.ts:29-47 | refused with nothing changed when in flight or nothing is waiting; otherwise the whole queue becomes the batch when none is retained, a retained batch is resent as it is, and no outstanding line is lost or duplicated |
| `SumoLoggerBasic.SumoLogger.CompleteSend` | src/sumoLogger.basic.ts:47-53 | success removes exactly the retained batch from the outstanding lines; failure keeps it for the next flush; the flag is false after either |
| `SumoLoggerBasic.SumoLogger.FlushLogs` | src/sumoLogger.basic.ts:28-54 | the first half of a flush, with the effect stated for BeginSend |
| `SumoLoggerBasic.SumoLogger.Log` | src/sumoLogger.basic.ts:58-89 | refused calls change nothing; an accepted call appends exactly one record per element, in order, to the outstanding lines, and never starts a flush |

## Left out

- Network I/O: `makeRequest`, `makeNodeRequest`, `makeFetchRequest` and `appendChunk` are not modelled.
  The transport's outcome is a parameter of `CompleteSend`, and the response value is not modelled.
- `getUUID` uses `Math.random`, so the generated session key is a parameter `uuid`.
- Real timing of `setInterval`/`clearInterval` is not modelled. The timer is an `armed` flag, and a timer
  firing is an explicit `Tick`.
- `Date` is given as its `toJSON()` text and its `getTime()` integer. ISO-8601 formatting is not modelled.
- Numbers are integers. Floating point, `NaN` and the exponent notation JavaScript uses for very large
  numbers are not modelled.
- Arrays inside messages and array-valued properties are not modelled.
- `JSON.stringify` keeps insertion order. JavaScript places integer-like keys first, and that is not
  modelled.
- `console.error` diagnostics become a `Rejection` value.
- Promise plumbing is not modelled.
- `onSuccess`/`onError` are recorded only as a log of calls. A callback that throws, or that calls back
  into the logger, is not modelled.
- `returnPromise` is stored and updated but never read, so it has no effect in the model.
- `SumoLoggerFull.SumoLogger.constructor`: requires a non-empty endpoint. The inert instance a rejected
  endpoint produces, with its undefined configuration, is not modelled.
- `SumoLoggerBasic.SumoLogger.constructor`: requires a non-empty endpoint, for the same reason.
- `SumoLoggerFull.SumoLogger.SetConfig`: requires an endpoint. A configuration whose endpoint is
  undefined is not modelled.
- `SumoLoggerFull.SumoLogger.Log`: requires that every queued entry be a JSON record whenever
  `batchReadyToSend` will read the queue (not interval-only, non-zero batch size).
  - The source's reduce parses only string entries (src/sumoLogger.ts:69).
  - Graphite lines and raw strings that are not JSON make that `JSON.parse` throw. The throw is not
    modelled.
  - Raw objects, and raw strings that are valid JSON, do not throw. They are excluded as well, because
    the whole of raw mode is outside this precondition.
- `SumoLoggerFull.BatchReady`: likewise defined only for queues of JSON records.
- `JsValues.Utf16Length`: Dafny strings cannot hold a lone surrogate, which a JavaScript string can.
  Such strings are not modelled.
- The code always puts a `url` field in a JSON record, even when it is empty (src/sumoLogger.ts:184 and
  196-208; src/sumoLogger.basic.ts:80 and 85). `Codec.StringRecord` and `Codec.ObjectRecord` model this.
