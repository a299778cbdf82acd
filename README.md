# 1M5 clearnet server: a verified model of the HTTP and WebSocket bridge

The clearnet server connects the 1M5 service bus to plain HTTP. It has three Jetty handlers:
the proxy handler, the JSON data handler and the 1M5 UI handler. Each one works the same way:
1. It turns an HTTP request into an envelope.
2. It files a hold for the request in its `requests` table, keyed by envelope id.
3. It hands the envelope to the `ClearnetServerSensor` and puts the request thread to sleep.
4. When the bus replies, the handler's `reply` writes into the held response and wakes the
   thread. The woken thread then removes the entry.

The sensor keeps a registry of handlers under a Byte counter, routes replies by the `HANDLER_ID`
header, and starts one Jetty listener for the UI and one per configured entry. It stops all
of them on shutdown. A WebSocket endpoint forwards text frames to the bus as events and pushes
messages back to the browser.

The model has the following modules:
- `Wrappers` holds the Option and Outcome types. Outcome records whether an operation
  returned or threw, and which Java exception it threw.
- `Text` models the Java string operations the code relies on: `split` with its dropped
  trailing empties, `Integer.parseInt`, `Integer.toString`, `toUpperCase`, `startsWith` and
  `contains`.
- `Envelopes` is an abstract envelope record.
- `Requests` holds the translation steps the three handlers share: the method map, header
  folding, the query string and the text-part loop.
- `ProxyRequests`, `JsonRequests` and `HttpRequests` each hold one handler's `parseEnvelope` (a
  specification function plus the method that computes it) and the write its `reply` prepares.
- `Correlation` is the `requests` table. Sleeping and interrupting are replaced by explicit
  events: dispatch, reply, and the end of a hold.
- `Routing` holds the handler registry and reply routing.
- `Listeners` covers the start-up configuration and `startServer`.
- `Server` holds the objects that change state: the sensor and the three handlers as classes.
- `Sockets` is the WebSocket.

Every imperative method is proved against the functions next to it. The properties are lemmas
about those functions.

The model follows the code, including these behaviours that its comments or evident intent do not suggest:
- A part over the size ceiling stops the proxy's part loop.
  - The parts read before it stay in the envelope.
  - The request is still dispatched.
  - The envelope is not marked external.
- With a repeated query key, the last value wins, as `HashMap.put` gives.
- A hold that runs out stays in the table. A late reply still writes into its response and
  interrupts a thread that is no longer waiting.
- A configuration entry with missing fields throws out of `start`. It does not just skip the
  entry.
- The sensor's `reply` answers `true` or `false` and suspends envelopes. It never calls the
  registered handler.
- The registry stores each handler under the counter before the increment but returns the
  value after it. A handler's own id therefore names the handler registered after it, and the
  replies of the last-registered handler are never accepted (`Routing.StampedReplyVerdict`).

## Model

All paths are under `src/main/java/io/onemfive/clearnet/server/`. The table gives them in full.

| member | source | states |
|---|---|---|
| Text.JoinRawSplit | src/main/java/io/onemfive/clearnet/server/ClearnetServerSensor.java:121 | joining the pieces of a split on a character with that character gives back the string |
| Text.RawSplitPiecesFree | src/main/java/io/onemfive/clearnet/server/ClearnetServerSensor.java:121 | no piece of a split contains the separator |
| Text.SplitKeepsPrefix | src/main/java/io/onemfive/clearnet/server/ClearnetServerSensor.java:121 | Java's split is the raw split with only trailing empty pieces removed |
| Text.SplitOnce | src/main/java/io/onemfive/clearnet/server/EnvelopeProxyDataHandler.java:258 | splitting `a=b` with separator-free `a` and a non-empty separator-free `b` gives exactly `[a, b]` |
| Text.SplitJoin | src/main/java/io/onemfive/clearnet/server/ClearnetServerSensor.java:121 | split inverts join for separator-free fields with a non-empty last field |
| Text.ParseIntDecimal | src/main/java/io/onemfive/clearnet/server/ClearnetServerSensor.java:132 | `parseInt` reads back the decimal form of any non-negative int |
| Text.ParseIntNegativeDecimal | src/main/java/io/onemfive/clearnet/server/ClearnetServerSensor.java:132 | `parseInt` reads a minus sign and the decimal form of n back as -n, for every n down to Integer.MIN_VALUE |
| Text.DecimalInjective | src/main/java/io/onemfive/clearnet/server/ClearnetServerSensor.java:187 | distinct ports have distinct decimal forms |
| Text.SplitPieces | src/main/java/io/onemfive/clearnet/server/ClearnetServerSensor.java:121 | `Split`, `String.split` on a one-character literal: no piece holds the separator, and when the separator occurs the last piece is not empty |
| Text.ParseInt | src/main/java/io/onemfive/clearnet/server/ClearnetServerSensor.java:132 | a parsed value lies in the 32-bit range and comes from an optional sign followed only by digits; the empty string, a lone sign and a string not starting with a sign or digit fail; unsigned or `+`-signed digits read as their decimal value and `-`-signed digits as its negation, each failing when outside the 32-bit range |
| Requests.ActionFor | src/main/java/io/onemfive/clearnet/server/EnvelopeProxyDataHandler.java:158-170 | a null method is VIEW; otherwise ADD, UPDATE or REMOVE exactly when the upper-cased method is POST, PUT or DELETE, and VIEW for anything else |
| Requests.ActionForIgnoresCase | src/main/java/io/onemfive/clearnet/server/EnvelopeJSONDataHandler.java:143-155 | methods that upper-case alike map alike; post, Delete, put and PATCH give ADD, REMOVE, UPDATE and VIEW |
| Requests.HeaderKeyInjective | src/main/java/io/onemfive/clearnet/server/EnvelopeProxyDataHandler.java:173-189 | the keys one header's values are folded under are pairwise distinct |
| Requests.FoldFromRecords | src/main/java/io/onemfive/clearnet/server/EnvelopeProxyDataHandler.java:178-186 | the inner loop stores value t under the bare name for t = 1 and under name + t after that, and leaves every other key as it was |
| Requests.FoldHeaderRecords | src/main/java/io/onemfive/clearnet/server/EnvelopeProxyDataHandler.java:173-189 | one header stores its j-th value under its j-th key and touches no other key |
| Requests.FoldHeadersKeepsOthers | src/main/java/io/onemfive/clearnet/server/HttpEnvelopeHandler.java:128-144 | the header loop leaves every key that no header's keys produce as it was, whether present or absent |
| Requests.FoldHeadersRecords | src/main/java/io/onemfive/clearnet/server/EnvelopeJSONDataHandler.java:157-173 | when headers have distinct keys, every value of every header ends up under its suffixed key |
| Requests.FoldFrom | src/main/java/io/onemfive/clearnet/server/EnvelopeProxyDataHandler.java:178-186 | the inner loop over one header's values never drops a key already in the map |
| Requests.FoldHeader | src/main/java/io/onemfive/clearnet/server/EnvelopeProxyDataHandler.java:175-187 | folding one header never drops a key already in the map |
| Requests.FoldHeaders | src/main/java/io/onemfive/clearnet/server/EnvelopeProxyDataHandler.java:173-189 | folding the headers into the map never drops a key already there |
| Requests.HandlerIdKept | src/main/java/io/onemfive/clearnet/server/EnvelopeJSONDataHandler.java:133 | when no client header produces the `HANDLER_ID` key, the envelope keeps the handler's id there |
| Requests.HandlerIdSpoofed | src/main/java/io/onemfive/clearnet/server/EnvelopeProxyDataHandler.java:173-189 | a client header named `HANDLER_ID` replaces the handler's Byte with a String |
| Requests.FoldHeadersCanOverwrite | src/main/java/io/onemfive/clearnet/server/EnvelopeProxyDataHandler.java:181-184 | a second value of `Accept` and a header named `Accept2` collide, and the later one wins |
| Requests.FoldRequestHeaders | src/main/java/io/onemfive/clearnet/server/EnvelopeProxyDataHandler.java:173-189 | the nested header loops compute `FoldHeaders` |
| Requests.ParseQueryString | src/main/java/io/onemfive/clearnet/server/EnvelopeProxyDataHandler.java:254-264 | the query loop computes `ParseQuery`, throwing where it throws |
| Requests.QueryIntoThrows | src/main/java/io/onemfive/clearnet/server/EnvelopeProxyDataHandler.java:257-260 | the loop throws exactly when some pair splits into fewer than two fields on `=` |
| Requests.QueryIntoKeys | src/main/java/io/onemfive/clearnet/server/EnvelopeJSONDataHandler.java:215-226 | the keys of the map are the keys of the pairs, plus any that were there before |
| Requests.QueryIntoValues | src/main/java/io/onemfive/clearnet/server/HttpEnvelopeHandler.java:186-195 | a key maps to the value of the last pair with that key |
| Requests.ParseQueryThrows | src/main/java/io/onemfive/clearnet/server/EnvelopeProxyDataHandler.java:256-260 | parsing a query throws iff some `&`-separated pair lacks a value |
| Requests.ParseQueryLastWins | src/main/java/io/onemfive/clearnet/server/EnvelopeProxyDataHandler.java:258-260 | for every pair that no later pair shares a key with, the map holds that pair's value under its key |
| Requests.ParseQueryExample | src/main/java/io/onemfive/clearnet/server/EnvelopeProxyDataHandler.java:254-264 | `a=1&b=2` parses to `{a: 1, b: 2}` |
| Requests.ParseQuery | src/main/java/io/onemfive/clearnet/server/EnvelopeProxyDataHandler.java:254-264 | parsing a query throws only an ArrayIndexOutOfBoundsException, and the empty query always throws |
| Requests.QueryInto | src/main/java/io/onemfive/clearnet/server/EnvelopeProxyDataHandler.java:256-261 | the pairs loop throws only an ArrayIndexOutOfBoundsException and never drops a key already in the map |
| Requests.PairFields | src/main/java/io/onemfive/clearnet/server/EnvelopeProxyDataHandler.java:258-260 | a pair written as key, `=`, value has two fields and reads back as that key and value |
| Requests.ParseQueryTwoPairs | src/main/java/io/onemfive/clearnet/server/EnvelopeProxyDataHandler.java:254-264 | two pairs joined with `&` parse to the map of both, the second winning on an equal key |
| Requests.WithQuery | src/main/java/io/onemfive/clearnet/server/EnvelopeJSONDataHandler.java:215-226 | a null query adds nothing; otherwise it throws iff parsing throws, and else adds the parsed map as query data |
| Requests.StreamParts | src/main/java/io/onemfive/clearnet/server/HttpEnvelopeHandler.java:147-184 | only parts that have a stream are kept, in order |
| Requests.ReadTextParts | src/main/java/io/onemfive/clearnet/server/HttpEnvelopeHandler.java:147-184 | the parts loop of the JSON and UI handlers computes `TextParts` |
| Requests.TextPartsAppendAll | src/main/java/io/onemfive/clearnet/server/EnvelopeJSONDataHandler.java:199-206 | once `data[0]` is filled, and with no read error, every later readable part is appended as its own map, in order |
| Requests.TextPartsPlacement | src/main/java/io/onemfive/clearnet/server/EnvelopeJSONDataHandler.java:175-213 | with no read error, the first readable part's content fills `data[0]`, the rest are appended in order, and nothing else changes |
| Requests.TextParts | src/main/java/io/onemfive/clearnet/server/EnvelopeJSONDataHandler.java:175-213 | the parts loop of the JSON and UI handlers has no size ceiling: it ends only when all parts are read or a read fails |
| ProxyRequests.NormaliseUri | src/main/java/io/onemfive/clearnet/server/EnvelopeProxyDataHandler.java:139-149 | the URI is unchanged iff it starts with `http://` or `https://`; otherwise `https://` is prefixed iff it contains `:443`, else `http://` |
| ProxyRequests.NormaliseUriIdempotent | src/main/java/io/onemfive/clearnet/server/EnvelopeProxyDataHandler.java:139-149 | normalising twice is normalising once |
| ProxyRequests.ProxyParts | src/main/java/io/onemfive/clearnet/server/EnvelopeProxyDataHandler.java:192-244 | the part loop never removes data maps |
| ProxyRequests.ReadProxyParts | src/main/java/io/onemfive/clearnet/server/EnvelopeProxyDataHandler.java:196-243 | the proxy's part loop computes `ProxyParts`, including its early exit on an oversize part |
| ProxyRequests.AdmissibleTail | src/main/java/io/onemfive/clearnet/server/EnvelopeProxyDataHandler.java:214-218 | a run of parts within the ceiling stays within it after its first part |
| ProxyRequests.ProxyPartsAppendAll | src/main/java/io/onemfive/clearnet/server/EnvelopeProxyDataHandler.java:230-238 | once `data[0]` is filled, every later readable part within the ceiling is appended with its content type and content, in order |
| ProxyRequests.ProxyPartsPlacement | src/main/java/io/onemfive/clearnet/server/EnvelopeProxyDataHandler.java:219-239 | the first readable part fills `data[0]` with its content type and content; the others follow in order; parts without a stream are skipped |
| ProxyRequests.ProxyPartsPrefix | src/main/java/io/onemfive/clearnet/server/EnvelopeProxyDataHandler.java:209-240 | reading an admissible prefix and then the rest is the same as reading the whole list |
| ProxyRequests.ProxyPartsOversize | src/main/java/io/onemfive/clearnet/server/EnvelopeProxyDataHandler.java:214-218 | the first part above 1,000,000 bytes ends the loop with what was read before it; a size of exactly 1,000,000 is still admissible |
| ProxyRequests.ProxyBase | src/main/java/io/onemfive/clearnet/server/EnvelopeProxyDataHandler.java:133-190 | the envelope before parts has exactly one data map |
| ProxyRequests.ProxyEnvelope | src/main/java/io/onemfive/clearnet/server/EnvelopeProxyDataHandler.java:132-274 | the envelope keeps the URL, action and folded headers, with data as the part loop leaves it; an oversize part returns it at once, not external and with nothing else added; otherwise it throws iff a non-empty form body is not a JSON object or the query is malformed, and else is external with exactly `TailExtras` added: the form data, the query map, then the parameter map, each only when present |
| ProxyRequests.ProxyTail | src/main/java/io/onemfive/clearnet/server/EnvelopeProxyDataHandler.java:246-271 | after the parts, the envelope throws iff a non-empty form body is not a JSON object (a ClassCastException) or the query is malformed; otherwise it is marked external and gains exactly `TailExtras`: the form data, the query map and the parameter map, in that order, each only when present |
| ProxyRequests.ProxyOversizeStops | src/main/java/io/onemfive/clearnet/server/EnvelopeProxyDataHandler.java:214-218 | when the content type is multipart and part i is the first oversize one, the envelope carries exactly the parts before i and is not external |
| ProxyRequests.ParseEnvelope | src/main/java/io/onemfive/clearnet/server/EnvelopeProxyDataHandler.java:132-274 | the imperative `parseEnvelope` computes `ProxyEnvelope` |
| ProxyRequests.BuildBase | src/main/java/io/onemfive/clearnet/server/EnvelopeProxyDataHandler.java:133-190 | the statements before the part loop compute `ProxyBase` |
| ProxyRequests.Finish | src/main/java/io/onemfive/clearnet/server/EnvelopeProxyDataHandler.java:247-273 | the statements after the part loop compute `ProxyTail` |
| ProxyRequests.ReplyWriteOf | src/main/java/io/onemfive/clearnet/server/EnvelopeProxyDataHandler.java:118-126 | null content throws a NullPointerException and content that is not a byte array throws a ClassCastException, both before anything is written; otherwise the body is the bytes, or status 500 and no body when the writer fails, and handled is set |
| JsonRequests.JsonUrl | src/main/java/io/onemfive/clearnet/server/EnvelopeJSONDataHandler.java:135-141 | the URL is `http://127.0.0.1` + target + `.json`, with a null target printed as `null` |
| JsonRequests.VerifyRequest | src/main/java/io/onemfive/clearnet/server/EnvelopeJSONDataHandler.java:124-127 | verification always answers 200 |
| JsonRequests.JsonBase | src/main/java/io/onemfive/clearnet/server/EnvelopeJSONDataHandler.java:131-173 | the envelope before parts has exactly one data map |
| JsonRequests.JsonEnvelope | src/main/java/io/onemfive/clearnet/server/EnvelopeJSONDataHandler.java:129-228 | it throws iff a query is present and malformed; otherwise it carries the handler id, the command path, the URL and the method's action, reads parts only for exactly `multipart/form-data`, adds the query data, and is external |
| JsonRequests.ParseEnvelope | src/main/java/io/onemfive/clearnet/server/EnvelopeJSONDataHandler.java:129-228 | the imperative `parseEnvelope` computes `JsonEnvelope` |
| JsonRequests.BuildBase | src/main/java/io/onemfive/clearnet/server/EnvelopeJSONDataHandler.java:131-173 | the header and method statements compute `JsonBase` |
| JsonRequests.ReplyWriteOf | src/main/java/io/onemfive/clearnet/server/EnvelopeJSONDataHandler.java:231-245 | the reply writes an empty `application/json` body with status 200, or 500 when the writer fails, and sets handled |
| HttpRequests.VerifyRequest | src/main/java/io/onemfive/clearnet/server/HttpEnvelopeHandler.java:99-102 | verification always answers 200 |
| HttpRequests.HttpBase | src/main/java/io/onemfive/clearnet/server/HttpEnvelopeHandler.java:105-145 | the envelope before parts has exactly one data map |
| HttpRequests.HttpEnvelope | src/main/java/io/onemfive/clearnet/server/HttpEnvelopeHandler.java:104-198 | an unchecked failure reading the parts escapes; a null query throws a NullPointerException; a malformed query throws; otherwise parts are read whatever the content type, with read errors swallowed, the query is added and the envelope is external |
| HttpRequests.HttpPartsIgnoreContentType | src/main/java/io/onemfive/clearnet/server/HttpEnvelopeHandler.java:147-184 | changing the request's headers, content type included, does not change the data the parts produce |
| HttpRequests.ParseEnvelope | src/main/java/io/onemfive/clearnet/server/HttpEnvelopeHandler.java:104-198 | the imperative `parseEnvelope` computes `HttpEnvelope` |
| HttpRequests.ReplyWriteOf | src/main/java/io/onemfive/clearnet/server/HttpEnvelopeHandler.java:200-208 | the reply writes the content, or `null` for none, as `application/json` with status 200, or 500 and no body when the writer fails; it never sets handled |
| Correlation.Dispatched | src/main/java/io/onemfive/clearnet/server/EnvelopeProxyDataHandler.java:86-104 | after routing, an envelope with errors has no entry, one without errors is held asleep, and one whose routing threw keeps its unheld entry; other entries are untouched |
| Correlation.Delivered | src/main/java/io/onemfive/clearnet/server/EnvelopeProxyDataHandler.java:118-128 | a reply writes into the held response and turns a sleeping hold into a waking one, keeping every key and every other entry |
| Correlation.Ended | src/main/java/io/onemfive/clearnet/server/EnvelopeProxyDataHandler.java:324-331 | a woken holder removes its entry; a hold that runs out only marks it lapsed; nothing else changes |
| Correlation.StepKeepsKeyed | src/main/java/io/onemfive/clearnet/server/EnvelopeProxyDataHandler.java:87 | every event keeps each entry filed under its own envelope's id |
| Correlation.RemovedOnlyByWokenHolder | src/main/java/io/onemfive/clearnet/server/EnvelopeJSONDataHandler.java:263-270 | an entry disappears only when its woken holder ends or a dispatch reports errors; a reply never removes one |
| Correlation.Step | src/main/java/io/onemfive/clearnet/server/EnvelopeProxyDataHandler.java:86-130 | one event adds a key only by a dispatch of that envelope id; a reply keeps the keys; an entry leaves only when its woken holder ends or its own dispatch removes it |
| Correlation.Run | src/main/java/io/onemfive/clearnet/server/EnvelopeProxyDataHandler.java:86-130 | every key a run of events adds is the envelope id of one of its dispatches, and a run without dispatches adds no key |
| Correlation.LapsedEntryStays | src/main/java/io/onemfive/clearnet/server/HttpEnvelopeHandler.java:226-233 | a lapsed entry survives any later replies and hold endings that do not reuse its id |
| Correlation.ReplyThenWake | src/main/java/io/onemfive/clearnet/server/EnvelopeProxyDataHandler.java:111-130 | a reply to a sleeping hold, then its end, removes exactly that entry, and the response carries the write |
| Correlation.ExpiryThenLateReply | src/main/java/io/onemfive/clearnet/server/EnvelopeProxyDataHandler.java:324-335 | a hold that ran out keeps its entry, the late reply still writes into it, and its wake interrupts a thread that is no longer waiting |
| Correlation.Replied | src/main/java/io/onemfive/clearnet/server/EnvelopeProxyDataHandler.java:111-130 | a missing hold is ignored or throws, as each handler does; a write that throws leaves the table alone; otherwise the write is delivered, and waking a hold that never slept throws |
| Correlation.RepliedIsReplyEvent | src/main/java/io/onemfive/clearnet/server/HttpEnvelopeHandler.java:90-97 | a reply that prepares its write changes the table exactly as the reply event does |
| Correlation.StatusPage | src/main/java/io/onemfive/clearnet/server/EnvelopeProxyDataHandler.java:77-83 | the status page is 200, `text/html`, handled, and names the service, with a null name printed as `null` |
| Correlation.AfterRouting | src/main/java/io/onemfive/clearnet/server/EnvelopeProxyDataHandler.java:92-104 | if routing throws, the exception escapes and the entry stays unheld; otherwise the request fails iff it has errors and is held iff its entry sleeps; the table is the dispatch of the envelope with the bus's errors added |
| Correlation.AfterRoutingIgnoresPut | src/main/java/io/onemfive/clearnet/server/EnvelopeJSONDataHandler.java:85-98 | the hold put before routing does not change what routing leaves |
| Routing.ByteInc | src/main/java/io/onemfive/clearnet/server/ClearnetServerSensor.java:38 | the incremented Byte counter stays a Byte |
| Routing.RegistrationOffByOne | src/main/java/io/onemfive/clearnet/server/ClearnetServerSensor.java:46-49 | a handler is stored under the old counter, given a different id, and that id is where the next handler is stored |
| Routing.RegisterAllFrom | src/main/java/io/onemfive/clearnet/server/ClearnetServerSensor.java:46-49 | registering n handlers without wrapping stores the k-th under counter + k, keeps the other entries and advances the counter by n |
| Routing.OwnIdLookup | src/main/java/io/onemfive/clearnet/server/ClearnetServerSensor.java:80-86 | the k-th handler gets id k + 1, and looking it up finds the next handler, or nothing for the last |
| Routing.CounterWraps | src/main/java/io/onemfive/clearnet/server/ClearnetServerSensor.java:38 | after 127 registrations the id handed out is -128 and the counter has wrapped |
| Routing.ReplyVerdict | src/main/java/io/onemfive/clearnet/server/ClearnetServerSensor.java:79-94 | accepted iff a Byte header names a registered handler; no id iff the header is missing or null; unregistered iff a Byte names nothing; a String header throws a ClassCastException |
| Routing.ReplyResult | src/main/java/io/onemfive/clearnet/server/ClearnetServerSensor.java:79-94 | reply answers true exactly when accepted and throws exactly when the cast does |
| Routing.SendResult | src/main/java/io/onemfive/clearnet/server/ClearnetServerSensor.java:67-76 | outside test mode send answers true; in test mode only the reply's failing cast escapes |
| Routing.StampedReplyVerdict | src/main/java/io/onemfive/clearnet/server/ClearnetServerSensor.java:46-49 | an envelope stamped by the k-th handler is accepted iff another handler was registered after it |
| Listeners.Instantiate | src/main/java/io/onemfive/clearnet/server/ClearnetServerSensor.java:138-150 | the two data handlers instantiate; the UI handler, a missing, inaccessible or constructor-less class are skipped; a class that is not a handler throws a ClassCastException; an initializer or constructor that throws escapes as that exception |
| Listeners.PlanEntry | src/main/java/io/onemfive/clearnet/server/ClearnetServerSensor.java:121-152 | an entry throws iff it has fewer than three fields, a bad port, a failing cast, or an instantiated handler and no fourth field; it is skipped iff the class is not instantiated; else it serves `m[0]` on the parsed port, launching iff `m[3]` is `true` |
| Listeners.StartServerEffect | src/main/java/io/onemfive/clearnet/server/ClearnetServerSensor.java:164-189 | a port out of range throws an IllegalArgumentException; a refused bind answers false and changes nothing; otherwise the listener is appended and the browser launched only when asked |
| Listeners.RegexBarSplit | src/main/java/io/onemfive/clearnet/server/ClearnetServerSensor.java:119 | splitting on the regular expression made of the bar character, which matches the empty string, makes every character its own entry |
| Listeners.ConfigEntries | src/main/java/io/onemfive/clearnet/server/ClearnetServerSensor.java:117-120 | the intended entries are a prefix of the pieces of the value between bar characters, and every piece dropped from the end is empty; none of them contains a bar; a value without a bar is the single entry it is |
| Listeners.ConfigEntriesRoundTrip | src/main/java/io/onemfive/clearnet/server/ClearnetServerSensor.java:117-120 | entries written with a bar between them are read back one by one |
| Listeners.StartWith | src/main/java/io/onemfive/clearnet/server/ClearnetServerSensor.java:97-162 | no properties throws; start answers false iff the UI is on and port 571 is refused; any other exception comes from a config entry |
| Listeners.ConfigRunAppends | src/main/java/io/onemfive/clearnet/server/ClearnetServerSensor.java:120-157 | the config loop only appends running listeners on accepted ports, never for the UI handler, and does nothing once an exception escaped |
| Listeners.ConfigStepEffect | src/main/java/io/onemfive/clearnet/server/ClearnetServerSensor.java:121-156 | `ConfigStep`, one pass of the loop body: one entry faults iff planning it throws or its port is out of range, and a planning fault leaves everything else as it was; it adds exactly one listener iff it serves on a valid port whose bind is accepted; an entry that adds none launches nothing |
| Listeners.ConfigStepAppends | src/main/java/io/onemfive/clearnet/server/ClearnetServerSensor.java:121-156 | one entry only appends, and a listener it adds runs on an accepted port, without a context path and not for the UI handler |
| Listeners.ConfigRun | src/main/java/io/onemfive/clearnet/server/ClearnetServerSensor.java:120-157 | a run that starts with a fault changes nothing, and a run that ends without a fault started without one |
| Listeners.ConfigRunBounded | src/main/java/io/onemfive/clearnet/server/ClearnetServerSensor.java:120-157 | each entry adds at most one listener |
| Listeners.InertEntryIsRemovable | src/main/java/io/onemfive/clearnet/server/ClearnetServerSensor.java:138-156 | a skipped entry, or one whose bind is refused, affects nothing: removing it gives the same run |
| Listeners.FaultingEntryStops | src/main/java/io/onemfive/clearnet/server/ClearnetServerSensor.java:120-157 | the first entry that throws ends the loop with that exception and ignores all later entries |
| Listeners.PlanEntryRoundTrip | src/main/java/io/onemfive/clearnet/server/ClearnetServerSensor.java:121-152 | an entry written as name, port, class and launch flag is read back as exactly that plan |
| Listeners.HttpFromConfigSkipped | src/main/java/io/onemfive/clearnet/server/ClearnetServerSensor.java:140 | naming the UI handler class in the config skips that entry |
| Listeners.LaunchFieldReadAfterInstantiation | src/main/java/io/onemfive/clearnet/server/ClearnetServerSensor.java:133-151 | an entry with no launch field throws only when its class instantiates; otherwise it is skipped |
| Listeners.ShortPieceHasNoPort | src/main/java/io/onemfive/clearnet/server/ClearnetServerSensor.java:121-127 | a one-character entry has no second field |
| Listeners.AsWrittenConfigFaults | src/main/java/io/onemfive/clearnet/server/ClearnetServerSensor.java:119-127 | over the regex split, the config loop always ends in an ArrayIndexOutOfBoundsException |
| Listeners.IntendedConfigServes | src/main/java/io/onemfive/clearnet/server/ClearnetServerSensor.java:117-158 | split on the character, a config of two well-formed entries starts both listeners in order and launches only the URL of the entry whose launch field is `true` |
| Listeners.UiRefusedStopsStart | src/main/java/io/onemfive/clearnet/server/ClearnetServerSensor.java:105-115 | when the UI is on and port 571 is refused, start answers false before reading the config |
| Listeners.StartAppends | src/main/java/io/onemfive/clearnet/server/ClearnetServerSensor.java:97-162 | start only appends listeners on accepted ports, and answers true iff properties exist, no entry threw and the UI did not fail |
| Listeners.Start | src/main/java/io/onemfive/clearnet/server/ClearnetServerSensor.java:97-162 | start works with the loaded properties, or the old ones when loading threw; it throws iff it has no properties or an entry threw, and true means no entry threw; without a configuration it adds at most the UI listener |
| Listeners.UiStepAppends | src/main/java/io/onemfive/clearnet/server/ClearnetServerSensor.java:104-114 | the UI step keeps the earlier listeners, adds only a listener on an accepted port, and fails iff the UI is on and port 571 is refused |
| Listeners.AsWrittenStartThrows | src/main/java/io/onemfive/clearnet/server/ClearnetServerSensor.java:117-127 | as written, any config value makes start throw after at most the UI listener |
| Server.ClearnetServerSensor.constructor | src/main/java/io/onemfive/clearnet/server/ClearnetServerSensor.java:34-44 | a new sensor is not in test mode, has an empty registry with counter 0 and no listeners |
| Server.ClearnetServerSensor.RegisterHandler | src/main/java/io/onemfive/clearnet/server/ClearnetServerSensor.java:46-49 | the registry becomes `Register` of the old one, the result is the incremented counter, and nothing else changes |
| Server.ClearnetServerSensor.Reply | src/main/java/io/onemfive/clearnet/server/ClearnetServerSensor.java:79-94 | the answer is `ReplyResult` of the verdict; the envelope is suspended exactly when there is no id or nothing is registered under it |
| Server.ClearnetServerSensor.Send | src/main/java/io/onemfive/clearnet/server/ClearnetServerSensor.java:67-76 | the answer is `SendResult`; outside test mode the envelope goes to the bus, in test mode it goes through reply |
| Server.ClearnetServerSensor.StartServer | src/main/java/io/onemfive/clearnet/server/ClearnetServerSensor.java:164-189 | listeners and launched URLs become those of `StartServerEffect`, and an invalid port throws |
| Server.ClearnetServerSensor.Start | src/main/java/io/onemfive/clearnet/server/ClearnetServerSensor.java:97-162 | the new state and the answer are those of `Listeners.Start`, which runs over the bar-separated entries (`Listeners.ConfigEntries`, the corrected member of the finding below); when the UI is on, its handler is registered first |
| Server.ClearnetServerSensor.RunConfig | src/main/java/io/onemfive/clearnet/server/ClearnetServerSensor.java:120-157 | the loop over config entries leaves the state `ConfigRun` gives and throws its exception |
| Server.ClearnetServerSensor.Shutdown | src/main/java/io/onemfive/clearnet/server/ClearnetServerSensor.java:237-247 | every listener is visited; those whose stop does not fail are stopped; the answer is true |
| Server.ClearnetServerSensor.GracefulShutdown | src/main/java/io/onemfive/clearnet/server/ClearnetServerSensor.java:249-252 | the same as shutdown |
| Server.ClearnetServerSensor.Pause | src/main/java/io/onemfive/clearnet/server/ClearnetServerSensor.java:222-225 | answers false |
| Server.ClearnetServerSensor.Unpause | src/main/java/io/onemfive/clearnet/server/ClearnetServerSensor.java:227-230 | answers false |
| Server.ClearnetServerSensor.Restart | src/main/java/io/onemfive/clearnet/server/ClearnetServerSensor.java:232-235 | answers false |
| Server.Stopped | src/main/java/io/onemfive/clearnet/server/ClearnetServerSensor.java:239-245 | the listeners keep their names and ports, and one is still running iff it was and its stop failed |
| Server.Settle | src/main/java/io/onemfive/clearnet/server/EnvelopeProxyDataHandler.java:94-104 | the end of `handle` leaves the table and the result that `AfterRouting` gives |
| Server.EnvelopeProxyDataHandler.constructor | src/main/java/io/onemfive/clearnet/server/EnvelopeProxyDataHandler.java:43-45 | a new handler has no sensor, no id and an empty table |
| Server.EnvelopeProxyDataHandler.SetSensor | src/main/java/io/onemfive/clearnet/server/EnvelopeProxyDataHandler.java:47-50 | the handler registers itself and keeps the id the sensor hands out |
| Server.EnvelopeProxyDataHandler.SetServiceName | src/main/java/io/onemfive/clearnet/server/EnvelopeProxyDataHandler.java:52-54 | only the service name changes |
| Server.EnvelopeProxyDataHandler.SetParameters | src/main/java/io/onemfive/clearnet/server/EnvelopeProxyDataHandler.java:56-58 | only the parameters change |
| Server.EnvelopeProxyDataHandler.Handle | src/main/java/io/onemfive/clearnet/server/EnvelopeProxyDataHandler.java:75-109 | `/test` gets the status page and touches nothing; otherwise the envelope of `ProxyEnvelope` is sent with the SEND route, and the table and the result are those of `AfterRouting`; a missing sensor throws |
| Server.EnvelopeProxyDataHandler.Reply | src/main/java/io/onemfive/clearnet/server/EnvelopeProxyDataHandler.java:111-130 | the table and the result are those of `Replied`, with a missing hold ignored |
| Server.EnvelopeProxyDataHandler.HoldEnds | src/main/java/io/onemfive/clearnet/server/EnvelopeProxyDataHandler.java:324-331 | the holder returns the held response and the table becomes `Ended` |
| Server.EnvelopeJSONDataHandler.constructor | src/main/java/io/onemfive/clearnet/server/EnvelopeJSONDataHandler.java:43 | a new handler has no sensor, no id and an empty table |
| Server.EnvelopeJSONDataHandler.SetSensor | src/main/java/io/onemfive/clearnet/server/EnvelopeJSONDataHandler.java:45-48 | the handler registers itself and keeps the id the sensor hands out |
| Server.EnvelopeJSONDataHandler.SetServiceName | src/main/java/io/onemfive/clearnet/server/EnvelopeJSONDataHandler.java:50-52 | only the service name changes |
| Server.EnvelopeJSONDataHandler.Handle | src/main/java/io/onemfive/clearnet/server/EnvelopeJSONDataHandler.java:69-112 | `/` gets the status page; otherwise the envelope of `JsonEnvelope` is routed with the REPLY route; a null command path throws before the sensor is called; the table and result are those of `AfterRouting` |
| Server.EnvelopeJSONDataHandler.Reply | src/main/java/io/onemfive/clearnet/server/EnvelopeJSONDataHandler.java:114-122 | the table and the result are those of `Replied`; a missing hold or a null command path throws a NullPointerException |
| Server.EnvelopeJSONDataHandler.HoldEnds | src/main/java/io/onemfive/clearnet/server/EnvelopeJSONDataHandler.java:263-270 | the holder returns the held response and the table becomes `Ended` |
| Server.HttpEnvelopeHandler.constructor | src/main/java/io/onemfive/clearnet/server/HttpEnvelopeHandler.java:40-43 | the handler keeps the sensor, registers itself and keeps the id it is handed |
| Server.HttpEnvelopeHandler.Handle | src/main/java/io/onemfive/clearnet/server/HttpEnvelopeHandler.java:60-88 | the envelope of `HttpEnvelope` is sent with the REPLY route, and the table and result are those of `AfterRouting`; a parse exception escapes |
| Server.HttpEnvelopeHandler.Reply | src/main/java/io/onemfive/clearnet/server/HttpEnvelopeHandler.java:90-97 | the table and the result are those of `Replied`; a missing hold throws a NullPointerException |
| Server.HttpEnvelopeHandler.HoldEnds | src/main/java/io/onemfive/clearnet/server/HttpEnvelopeHandler.java:226-233 | the holder returns the held response and the table becomes `Ended` |
| Sockets.TextEnvelope | src/main/java/io/onemfive/clearnet/server/JSONWebSocket.java:42-50 | no envelope iff the frame is null or exactly `keep-alive`; otherwise a LOW-sensitivity event carrying the text with a REPLY route |
| Sockets.Pushed | src/main/java/io/onemfive/clearnet/server/JSONWebSocket.java:60-76 | the message reaches the browser exactly once iff a session with a remote endpoint is stored and the send succeeds; otherwise nothing does |
| Sockets.TextEventsAreSuspended | src/main/java/io/onemfive/clearnet/server/JSONWebSocket.java:44-52 | a text event has no handler id, so it is suspended by reply and never fails the cast |
| Sockets.JSONWebSocket.constructor | src/main/java/io/onemfive/clearnet/server/JSONWebSocket.java:28-30 | the socket keeps the sensor and has no session |
| Sockets.JSONWebSocket.OnConnect | src/main/java/io/onemfive/clearnet/server/JSONWebSocket.java:33-37 | the new session replaces the stored one; a null session or address throws a NullPointerException |
| Sockets.JSONWebSocket.OnText | src/main/java/io/onemfive/clearnet/server/JSONWebSocket.java:40-54 | a filtered frame sends nothing; any other frame sends exactly `TextEnvelope` through the sensor, and a null sensor throws |
| Sockets.JSONWebSocket.PushEnvelope | src/main/java/io/onemfive/clearnet/server/JSONWebSocket.java:56-77 | the delivered messages grow by `Pushed`, and the session is unchanged |

## Left out

- Thread sleeping and interrupting. These are explicit events on a sequential table: a reply
  and the end of a hold. The hold's deadline is a recorded field. Races between the request
  thread and the bus thread on the `HashMap` are not modelled. In particular, a reply that
  arrives after `requests.put` but before `hold` records the request thread is not modelled:
  a dispatch is one atomic event. An unheld entry stands only for an entry whose routing
  threw, and a reply to it throws a NullPointerException on the missing thread.
- Jetty objects. The servlet request is a datatype. The response is a status, a content type,
  a body and a handled flag. The listener is a record with a running flag. The context
  handler is the UI listener's context path.
- The stream read loops and the reader of the form body. Part contents and the body text are
  given as sequences. `new String(bytes)` and the char-per-byte reads become one char per
  byte, with no charset decoding.
- JSON parsing of the proxy's form body and `Content.buildContent`. The model passes in whether
  the body parses to an object, and records the form data as given.
- URL validity in the proxy (`new URL`). The model passes in whether the URL is accepted.
- `DLC` and the `Envelope` factories. The envelope is an abstract record. `addData` and
  `addContent` are recorded in call order in `extras`. The envelope's content type is taken
  to be its `Content-Type` header.
- The proxy handler stores `registerHandler`'s Byte in a `String id` field. The model keeps
  the Byte value.
- `Config.loadFromClasspath`. The model passes in the properties it loads, or none when it
  throws.
- `launchBrowser`. It runs OS processes, so the model records the launched URL instead.
- Server start and stop outcomes. A failed bind is a set of refused ports. A failed stop is a
  set of list positions.
- The config loop's handlers are represented by their kind, not as objects. A handler created
  by `newInstance` never gets a sensor.
- `getOperationEndsWith`, `getURLBeginsWith` and `getURLEndsWith`. These are constant lists
  the bus reads, and no core operation uses them.
- `pushEnvelope` reads the event message's text from the envelope. That lookup is external, so
  the text is passed in.
- `PushSocket` and `Session` are not part of this model. They hold no logic the bridge relies on.
- Logging, and a writer that fails while printing the status page.
- Case mapping. `toUpperCase` is modelled for ASCII letters only.
- Text.ParseInt and Listeners.PlanEntry: `Integer.parseInt` accepts any Unicode decimal digit
  (through `Character.digit`), but the model accepts the ASCII digits only. A port written in
  other digits, such as Arabic-Indic ٨٠٨٠, gives NumberFormat in the model, while Java reads 8080.
- Server.ClearnetServerSensor.Start and Listeners.Start model `start` with the configuration
  split at the bar character, the corrected behaviour of the finding below. As written, `start`
  throws on any configuration; that behaviour is `Listeners.AsWrittenStartThrows`, over
  `Listeners.StartWith` with `Listeners.RegexBarSplit`.

## Findings

| source | as written | input that shows it | evidently intended | confidence | as-written member | corrected member |
|---|---|---|---|---|---|---|
| src/main/java/io/onemfive/clearnet/server/ClearnetServerSensor.java:119 | the config value is split with a one-character regular expression, the bar, which means "empty or empty". It cuts between every character, so every entry is one character long, and reading `m[1]` throws an ArrayIndexOutOfBoundsException out of `start` | the config value `a,8080,x,true` (any non-empty value) | split on the literal bar character, so that each entry is `name,port,class,launch` | not executed | Listeners.RegexBarSplit | Listeners.ConfigEntries |
