# XHRProxy — a Dafny model

XHRProxy wraps one native `XMLHttpRequest`. At construction it probes the transport: a transport
with `onload`, `responseType` and `withCredentials` is "Level 2" and delivers the rich events
itself; any other is "Level 1", and the proxy then attaches itself as the transport's
`readystatechange` listener and synthesises the Level 2 events (`readystatechange`, `loadstart`,
`progress`, `load`, `loadend`) from the ready states it observes. When a request completes
successfully it also converts the response text into the representation named by `responseType`
(`json`, `document`, `arraybuffer`, `blob`, or plain text). A Level 1 transport asked for binary
data has its MIME type overridden before sending, so that every byte survives as one character.

The model has six modules:

- `Strings` (`strings.dfy`): the two regular-expression tests the proxy makes, `/^file\:/` on the
  URL and `/arraybuffer|blob/` on the response type, as an anchored and an unanchored match.
- `Simulator` (`simulator.dfy`): the ready-state constants, the success rule, and pure functions
  for the events one observation fires (`SimulatedEvents`) and the events a whole request fires
  (`Trace`), with the lemmas about them.
- `Coercion` (`coercion.dfy`): the response conversion. The libraries doing the real work (JSON
  parser, DOM, byte decoding) are outside the model; their results are tagged values that keep
  the text they were made from.
- `EventHub` (`events.dfy`): the proxy's listener registry. It maps event types to callbacks in
  registration order and defines which callbacks firing a sequence of events invokes.
- `Proxy` (`proxy.dfy`): the native transport as a class (`Transport`), the `XHRProxy` class with
  its mutable fields and methods, and the one-shot GET with its `load` handler.
- `Scenarios` (`scenarios.dfy`): two complete Level 1 requests whose results are stated exactly.
  The transport reports every ready state to the proxy: OPENED from inside the native `open`,
  then HEADERS_RECEIVED, LOADING and DONE.

The environment's answers are a `Host` value fixed when the proxy is built. They are: whether a
`document` global exists, whether the JSON parser accepts a text, and whether the URL parser
accepts a string. Callbacks are named by numbers. The proxy records each invocation as a
`Delivery` instead of running the callback. A ghost field `fired` records every event the proxy
fires, including events nobody listens to.

Four behaviours of the code that a reader might not expect are modelled as written:

- The state simulator runs only on Level 1: `open` registers `handleEvent` as the transport's
  listener only when the transport is not Level 2 (lib/XHRProxy.js:142-144).
- A JSON parse failure inside `handleEvent` leaves the transport's response as it was, because
  the `catch` is empty (lib/XHRProxy.js:220-224). `HandleEvent` states that.
- On Level 1 the error branch of the one-shot GET's `load` handler is never taken, because `load`
  is only simulated for a successful request (`SimulatedLoadRepliesWithText`).
- `convert()` has no `try`: a JSON parse failure escapes it as the parser's exception
  (lib/XHRProxy.js:237-243). That is the `ParseFailed` result of `XHRProxy.Convert`.

## Model

| member | source | states |
|---|---|---|
| Simulator.IsSuccess | lib/XHRProxy.js:266-273 | every 2xx status is a success, and a success is a 2xx status or status 0 for a `file:` URL |
| Simulator.IsFileURL | lib/XHRProxy.js:100 | the `/^file\:/` test holds exactly when `file:` occurs at position 0 of the URL, and then the URL contains `file:` |
| Simulator.Dispatch | lib/XHRProxy.js:210-229 | the `switch` never fires `readystatechange` and fires at most two events; `loadend` exactly on DONE; `load` only on DONE, followed by `loadend` |
| Simulator.SimulatedEvents | lib/XHRProxy.js:205-229 | one observation fires `readystatechange` exactly when the state differs from the last one seen, and then as its first event |
| Proxy.IsBinaryType | lib/XHRProxy.js:163 | the response-type test holds exactly when `arraybuffer` or `blob` occurs at some position of the type, so in particular for the types `arraybuffer` and `blob` |
| Simulator.NetworkSuccess | lib/XHRProxy.js:266-273 | for a non-file URL a status is a success exactly when it is in 200..299 |
| Simulator.FileSuccess | lib/XHRProxy.js:266-273 | for a `file:` URL a status is a success exactly when it is 0 or in 200..299 |
| Simulator.FileRuleExtendsNetworkRule | lib/XHRProxy.js:266-273 | the file rule accepts every status the network rule accepts, and differs from it exactly on status 0 |
| Simulator.ReadyStateChangeIffChanged | lib/XHRProxy.js:205-208 | one observation fires `readystatechange` once, as its first event, if the ready state differs from the last one seen, and never otherwise |
| Simulator.RepeatedStateSuppressed | lib/XHRProxy.js:205-208 | observing the same state twice fires no second `readystatechange` |
| Simulator.DispatchByState | lib/XHRProxy.js:210-229 | after the optional `readystatechange`: nothing for UNSENT, `loadstart` for OPENED, `progress` for HEADERS_RECEIVED and LOADING, `load, loadend` for a successful DONE, `loadend` alone for a failed DONE |
| Simulator.LoadIffSuccessfulDone | lib/XHRProxy.js:218-226 | `load` is fired if and only if the state is DONE and the status is a success for the last URL |
| Simulator.LoadEndClosesDone | lib/XHRProxy.js:218-229 | `loadend` is fired if and only if the state is DONE; then it is fired once, as the last event, with at most one `load` |
| Simulator.NoSyntheticErrorOrTimeout | lib/XHRProxy.js:210-229 | the simulation never fires `error` or `timeout` |
| Simulator.TraceReadyStateChanges | lib/XHRProxy.js:205-208 | over a whole sequence of observations, `readystatechange` fires exactly once per change of the observed state |
| Simulator.NotDoneFiresNoCompletion | lib/XHRProxy.js:210-217 | an observation of a state other than DONE fires neither `load` nor `loadend` |
| Simulator.CompletedRequestTrace | lib/XHRProxy.js:199-230 | a request observed up to its one DONE fires `load` once if it succeeded and never otherwise, and `loadend` exactly once, as its very last event |
| Strings.ContainsIffOccurs | lib/XHRProxy.js:163 | the unanchored scan used for the `arraybuffer` or `blob` test succeeds exactly when the pattern occurs at some position of the string |
| Coercion.CreateHTMLDocument | lib/XHRProxy.js:256-264 | outside a browser the text itself is returned; in every case the result is made from exactly that text |
| Coercion.ConvertDataType | lib/XHRProxy.js:246-254 | json gives the parsed value of a text the parser accepts; types other than json/document/arraybuffer/blob return the text unchanged; document returns the text unchanged outside a browser; arraybuffer and blob give the bytes of the text; the conversion fails exactly for json with a text the parser rejects; a successful conversion is never unset and is made from exactly the text |
| Proxy.LoadReply | lib/XHRProxy.js:99-105 | the GET's `load` handler reports no error exactly when the status is a success for the URL, then passing the response text; otherwise the error carries the status and the text is empty |
| Proxy.SimulatedLoadRepliesWithText | lib/XHRProxy.js:99-105 | whenever the Level 1 simulation fires `load`, the GET's handler takes its success branch and passes the response text |
| EventHub.DeliveriesAreRegistered | lib/XHRProxy.js:275-283 | every callback invocation made while firing a sequence of events is for one of those events and for a callback registered for it |
| Proxy.XHRProxy.constructor | lib/XHRProxy.js:22-31 | a new proxy has a fresh UNSENT transport, no listeners, an empty last URL and UNSENT as its last ready state |
| Proxy.XHRProxy.Level | lib/XHRProxy.js:87 | the level is 2 exactly on a Level 2 transport and 1 exactly otherwise |
| Proxy.XHRProxy.AddEventListener | lib/XHRProxy.js:180-185 | the callback is appended to those registered for the type; on Level 2 it is also registered on the transport, and on Level 1 the transport is untouched |
| Proxy.XHRProxy.FireEvent | lib/XHRProxy.js:275-283 | firing a type invokes exactly the callbacks registered for it, in registration order, and none when there are none |
| Proxy.XHRProxy.HandleEvent | lib/XHRProxy.js:199-230 | one observation fires exactly `SimulatedEvents` of the previous and the current ready state, invokes their callbacks in that order, and records the current state; the transport listener is detached exactly on DONE; on a successful DONE with a convertible text the response becomes the conversion, otherwise it is unchanged |
| Proxy.XHRProxy.NoteReadyState | lib/XHRProxy.js:205-208 | a state different from the last one seen is recorded and announced with `readystatechange`; an unchanged one fires nothing |
| Proxy.XHRProxy.FireStateEvents | lib/XHRProxy.js:210-229 | the `switch` fires exactly the state's dispatch events, detaches the listener exactly on DONE, and stores the converted response only for a successful DONE |
| Proxy.XHRProxy.Complete | lib/XHRProxy.js:218-228 | on DONE: `load` after storing the response exactly on success, then `loadend`, then the transport listener is removed |
| Proxy.XHRProxy.LoadResponse | lib/XHRProxy.js:219-225 | on success the converted response is stored, or left as it was when JSON parsing fails, and then `load` is fired once and invokes exactly its callbacks |
| Proxy.XHRProxy.StoreResponse | lib/XHRProxy.js:220-224 | the converted response replaces the transport's response; when JSON parsing fails the response is left as it was |
| Proxy.XHRProxy.Convert | lib/XHRProxy.js:232-244 | the empty text unless the state is DONE and the status is a success for the last URL, and then the conversion of the response text for the response type |
| Proxy.XHRProxy.Open | lib/XHRProxy.js:123-146 | only an UNSENT transport may be opened, with GET or POST and a parseable URL; afterwards the URL is remembered, the last seen state is UNSENT, a Level 1 proxy listens to the transport, and the transport is opened with `async` defaulting to true |
| Proxy.XHRProxy.Send | lib/XHRProxy.js:156-168 | only an OPENED transport may be sent; on Level 1 with a response type matching `arraybuffer` or `blob` the MIME override is made first, otherwise the send alone |
| Proxy.XHRProxy.Get | lib/XHRProxy.js:89-108 | the one-shot GET needs a parseable URL; it makes a fresh proxy with its `load` handler as the only listener, nothing delivered and no response yet, and opens it with GET, async, then sends with no body |
| Scenarios.OpenLevel1 | lib/XHRProxy.js:139-145 | opening a Level 1 proxy attaches it to the transport, and the OPENED report made from inside the native `open` invokes only the `readystatechange` callback |
| Scenarios.StartLevel1Get | lib/XHRProxy.js:156-168 | a Level 1 GET with three registered callbacks is opened and sent; the send is preceded by one MIME override exactly when the response type matches `arraybuffer` or `blob`, and the transport gets no listener registration |
| Scenarios.ReportProgress | lib/XHRProxy.js:205-217 | a report of HEADERS_RECEIVED or LOADING invokes only the `readystatechange` callback, keeps the listener attached and leaves the response alone |
| Scenarios.ReceiveLevel1 | lib/XHRProxy.js:199-230 | a request reported through HEADERS_RECEIVED, LOADING and DONE invokes `readystatechange` twice and then the callbacks of the DONE report, and ends detached |
| Scenarios.Level1BinaryDownload | lib/XHRProxy.js:199-230 | a Level 1 binary download that completes with 200 invokes the `readystatechange` callback once per state (four times), then `load` and `loadend`, and leaves the bytes of the text as the response and as `convert()`'s result |
| Scenarios.Level1NotFound | lib/XHRProxy.js:218-244 | a Level 1 request that completes with 404 invokes the `readystatechange` callback once per state (four times) and then `loadend`, never `load`, leaves the response unset, and `convert()` gives the empty text |

## Left out

- The native transport's own behaviour is not part of this model. `Transport` only records the
  calls the proxy makes on it, and its `Advance` stands for the network. Its reports of ready
  states to the proxy are calls of `HandleEvent` made by the caller, as the scenarios make them;
  `XHRProxy.Open` itself does not make the report the native `open` makes.
- The pass-through members are not modelled, because each only forwards to the transport: `abort`,
  `getAllResponseHeaders`, `getResponseHeader`, `overrideMimeType`, `setRequestHeader`, and the
  property getters and setters (lib/XHRProxy.js:74-86, 110-121, 148-154, 170-178).
- `removeEventListener` and `clearEventListener` (lib/XHRProxy.js:187-197) are not modelled. Their
  semantics (which of several equal callbacks is removed) belong to the external listener library,
  which is not part of this model.
- The capability probe (lib/XHRProxy.js:27-29) and the `document` test (lib/XHRProxy.js:12) are
  inputs: the `lv2` flag and `Host.onBrowser`.
- URL parsing (lib/XHRProxy.js:93, 131) and JSON parsing are the functions `Host.uriParses` and
  `Host.jsonParses`. The parsed value, the DOM node and the byte array are opaque tagged values.
- The `$valid` type checks of arguments are not modelled, since Dafny's types already enforce
  them. The other `$valid` checks are the `requires` of `Open`, `Send` and `Get`. Those checks are only
  active in development builds.
- Callbacks are numbers, and invoking one is recorded rather than run. So the effect of a callback
  that throws (the remaining callbacks for that event are skipped) is not modelled. Neither are
  the event object and the receiver passed to callbacks.
- The transport's `response` is modelled as writable. A host whose `response` rejects the
  assignment makes the `try` fail, which leaves the response as it was, the same as a parse failure.
- `Simulator.Trace`: one status stands for the whole request, because only the status seen at DONE
  affects which events fire.
- The module exports (lib/XHRProxy.js:294-298) and the repository link are not modelled.
