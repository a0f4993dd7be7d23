/** The request proxy: one object wrapping one native transport, which on a Level 1 host
    watches the transport's ready state and fires the Level 2 events itself. */
module Proxy {
  import opened Strings
  import opened Simulator
  import opened Coercion
  import opened EventHub

  datatype Option<T> = None | Some(value: T)

  /** What the running environment decides: whether a `document` global exists, whether the
      JSON parser accepts a text, and whether the URL parser accepts a string. */
  datatype Host = Host(onBrowser: bool, jsonParses: string -> bool, uriParses: string -> bool)

  /** The MIME type that makes a Level 1 transport keep every byte as one character. */
  const BINARY_MIME_TYPE := "text/plain; charset=x-user-defined"

  /** A call the proxy makes on the native transport, in the order made. */
  datatype Call =
    | OpenCall(httpMethod: string, url: string, async: bool, user: Option<string>, password: Option<string>)
    | OverrideMimeTypeCall(mimeType: string)
    | SendCall(body: Option<string>)
    | ListenCall(eventType: EventType, callback: nat)

  /** The `/arraybuffer|blob/` test on the response type. */
  predicate IsBinaryType(responseType: string)
    ensures IsBinaryType(responseType) <==>
      (exists i :: OccursAt(responseType, "arraybuffer", i)) || (exists i :: OccursAt(responseType, "blob", i))
    ensures responseType == "arraybuffer" || responseType == "blob" ==> IsBinaryType(responseType)
  {
    ContainsIffOccurs(responseType, "arraybuffer");
    ContainsIffOccurs(responseType, "blob");
    Contains(responseType, "arraybuffer") || Contains(responseType, "blob")
  }

  /** What the `load` handler of the one-shot GET passes to its callback. */
  datatype Reply = Reply(error: Option<int>, responseText: string)

  /** The `load` handler's decision: the text on success, otherwise an error carrying the status
      and an empty text. */
  function LoadReply(url: string, status: int, responseText: string): (r: Reply)
    ensures r.error.None? <==> IsSuccess(status, IsFileURL(url))
    ensures r.error.None? ==> r.responseText == responseText
    ensures r.error.Some? ==> r.error.value == status && r.responseText == ""
  {
    if IsSuccess(status, IsFileURL(url)) then Reply(None, responseText) else Reply(Some(status), "")
  }

  /** On a Level 1 host `load` is only ever simulated for a success, so the one-shot GET's
      callback never sees the error branch there. */
  lemma SimulatedLoadRepliesWithText(last: int, state: int, url: string, status: int, responseText: string)
    requires Load in SimulatedEvents(last, state, status, IsFileURL(url))
    ensures LoadReply(url, status, responseText) == Reply(None, responseText)
  {
    LoadIffSuccessfulDone(last, state, status, IsFileURL(url));
  }

  /** The native transport, reduced to the state the proxy reads and writes and a log of the
      calls made on it. Its methods stand for the host's own implementation. */
  class Transport {
    var readyState: int
    var status: int
    var responseType: string
    var responseText: string
    var response: Value
    var listenerAttached: bool  // whether the proxy is registered for `readystatechange`
    var calls: seq<Call>

    ghost predicate Valid()
      reads this`readyState
    {
      UNSENT <= readyState <= DONE
    }

    constructor ()
      ensures Valid() && readyState == UNSENT && status == 0
      ensures responseType == "" && responseText == "" && response == Unset
      ensures !listenerAttached && calls == []
    {
      readyState, status := UNSENT, 0;
      responseType, responseText, response := "", "", Unset;
      listenerAttached, calls := false, [];
    }

    /** The native `open`, which moves the transport to OPENED. */
    method Open(httpMethod: string, url: string, async: bool, user: Option<string>, password: Option<string>)
      modifies this`readyState, this`calls
      ensures Valid() && readyState == OPENED
      ensures calls == old(calls) + [OpenCall(httpMethod, url, async, user, password)]
    {
      readyState := OPENED;
      calls := calls + [OpenCall(httpMethod, url, async, user, password)];
    }

    method OverrideMimeType(mimeType: string)
      modifies this`calls
      ensures calls == old(calls) + [OverrideMimeTypeCall(mimeType)]
    {
      calls := calls + [OverrideMimeTypeCall(mimeType)];
    }

    method Send(body: Option<string>)
      modifies this`calls
      ensures calls == old(calls) + [SendCall(body)]
    {
      calls := calls + [SendCall(body)];
    }

    method Listen(t: EventType, callback: nat)
      modifies this`calls
      ensures calls == old(calls) + [ListenCall(t, callback)]
    {
      calls := calls + [ListenCall(t, callback)];
    }

    method AddReadyStateListener()
      modifies this`listenerAttached
      ensures listenerAttached
    {
      listenerAttached := true;
    }

    method RemoveReadyStateListener()
      modifies this`listenerAttached
      ensures !listenerAttached
    {
      listenerAttached := false;
    }

    /** The network moving the request forward; states never go back. */
    method Advance(next: int, newStatus: int, newText: string)
      requires Valid() && readyState <= next <= DONE
      modifies this`readyState, this`status, this`responseText
      ensures Valid() && readyState == next && status == newStatus && responseText == newText
    {
      readyState, status, responseText := next, newStatus, newText;
    }
  }

  class XHRProxy {
    const lv2: bool
    const host: Host
    const xhr: Transport
    var lastURL: string
    var lastReadyState: int
    var listeners: map<EventType, seq<nat>>
    var delivered: seq<Delivery>
    ghost var fired: seq<EventType>  // every event the proxy fired, listened to or not

    constructor (lv2: bool, host: Host)
      ensures this.lv2 == lv2 && this.host == host && fresh(xhr)
      ensures xhr.Valid() && xhr.readyState == UNSENT && xhr.response == Unset
      ensures xhr.responseType == "" && !xhr.listenerAttached && xhr.calls == []
      ensures lastURL == "" && lastReadyState == UNSENT
      ensures listeners == map[] && delivered == [] && fired == []
    {
      this.lv2 := lv2;
      this.host := host;
      xhr := new Transport();
      lastURL := "";
      lastReadyState := UNSENT;
      listeners := map[];
      delivered := [];
      fired := [];
    }

    function Level(): (n: int)
      ensures n == 2 <==> lv2
      ensures n == 1 <==> !lv2
    {
      if lv2 then 2 else 1
    }

    /** The request reached DONE with a status the success rule accepts for the last URL. */
    predicate Succeeded()
      reads this`lastURL, xhr`readyState, xhr`status
    {
      xhr.readyState == DONE && IsSuccess(xhr.status, IsFileURL(lastURL))
    }

    /** Registers `callback` for `t`; a Level 2 host also gets the registration natively. */
    method AddEventListener(t: EventType, callback: nat)
      modifies this`listeners, xhr`calls
      ensures listeners == old(listeners)[t := Callbacks(old(listeners), t) + [callback]]
      ensures xhr.calls == old(xhr.calls) + (if lv2 then [ListenCall(t, callback)] else [])
    {
      listeners := listeners[t := Callbacks(listeners, t) + [callback]];
      if lv2 {
        xhr.Listen(t, callback);
      }
    }

    /** Invokes the callbacks registered for `t`, in registration order. */
    method FireEvent(t: EventType)
      modifies this`delivered, this`fired
      ensures fired == old(fired) + [t]
      ensures delivered == old(delivered) + Deliveries(t, Callbacks(listeners, t))
    {
      fired := fired + [t];
      if t in listeners {
        var callbacks := listeners[t];
        var i := 0;
        while i < |callbacks|
          invariant 0 <= i <= |callbacks|
          invariant fired == old(fired) + [t]
          invariant delivered == old(delivered) + Deliveries(t, callbacks[..i])
        {
          assert callbacks[..i + 1] == callbacks[..i] + [callbacks[i]];
          DeliveriesSnoc(t, callbacks[..i], callbacks[i]);
          delivered := delivered + [Delivery(t, callbacks[i])];
          i := i + 1;
        }
        assert callbacks[..i] == callbacks;
      }
    }

    /** Reacts to one `readystatechange` of the transport by firing the Level 2 events. */
    method HandleEvent()
      modifies this`lastReadyState, this`delivered, this`fired, xhr`response, xhr`listenerAttached
      ensures lastReadyState == xhr.readyState
      ensures fired == old(fired) +
        SimulatedEvents(old(lastReadyState), xhr.readyState, xhr.status, IsFileURL(lastURL))
      ensures delivered == old(delivered) + DeliveriesOf(listeners,
        SimulatedEvents(old(lastReadyState), xhr.readyState, xhr.status, IsFileURL(lastURL)))
      ensures xhr.listenerAttached == (old(xhr.listenerAttached) && xhr.readyState != DONE)
      ensures Succeeded() && Convert().Converted? ==> xhr.response == Convert().value
      ensures !(Succeeded() && Convert().Converted?) ==> xhr.response == old(xhr.response)
    {
      ghost var fired0, delivered0 := fired, delivered;
      ghost var changed := if lastReadyState != xhr.readyState then [ReadyStateChange] else [];
      NoteReadyState();
      ghost var fired1, delivered1 := fired, delivered;
      FireStateEvents();
      TraceConcat(listeners, changed, Dispatch(xhr.readyState, xhr.status, IsFileURL(lastURL)),
                  fired0, fired1, fired, delivered0, delivered1, delivered);
    }

    /** The `if` before the `switch`: a new ready state is recorded and announced. */
    method NoteReadyState()
      modifies this`lastReadyState, this`delivered, this`fired
      ensures lastReadyState == xhr.readyState
      ensures var changed := if old(lastReadyState) != xhr.readyState then [ReadyStateChange] else [];
        fired == old(fired) + changed && delivered == old(delivered) + DeliveriesOf(listeners, changed)
    {
      ghost var fired0, delivered0 := fired, delivered;
      if lastReadyState != xhr.readyState {
        lastReadyState := xhr.readyState;
        FireEvent(ReadyStateChange);
        FireStep(listeners, [], ReadyStateChange, fired0, fired0, fired, delivered0, delivered0, delivered);
      } else {
        assert fired == fired0 + [] && delivered == delivered0 + DeliveriesOf(listeners, []);
      }
    }

    /** The `switch` on the observed ready state: the events it fires, and on DONE the response
        it stores and the listener it detaches. */
    method FireStateEvents()
      modifies this`delivered, this`fired, xhr`response, xhr`listenerAttached
      ensures fired == old(fired) + Dispatch(xhr.readyState, xhr.status, IsFileURL(lastURL))
      ensures delivered == old(delivered) +
        DeliveriesOf(listeners, Dispatch(xhr.readyState, xhr.status, IsFileURL(lastURL)))
      ensures xhr.listenerAttached == (old(xhr.listenerAttached) && xhr.readyState != DONE)
      ensures Succeeded() && Convert().Converted? ==> xhr.response == Convert().value
      ensures !(Succeeded() && Convert().Converted?) ==> xhr.response == old(xhr.response)
    {
      ghost var fired0, delivered0 := fired, delivered;
      if xhr.readyState == OPENED {
        FireEvent(LoadStart);
        FireStep(listeners, [], LoadStart, fired0, fired0, fired, delivered0, delivered0, delivered);
      } else if xhr.readyState == HEADERS_RECEIVED || xhr.readyState == LOADING {
        FireEvent(Progress);
        FireStep(listeners, [], Progress, fired0, fired0, fired, delivered0, delivered0, delivered);
      } else if xhr.readyState == DONE {
        Complete();
      }
    }

    /** The DONE case: on success, store the converted response and fire `load`; always fire
        `loadend` and stop listening. */
    method Complete()
      requires xhr.readyState == DONE
      modifies this`delivered, this`fired, xhr`response, xhr`listenerAttached
      ensures fired == old(fired) + Dispatch(DONE, xhr.status, IsFileURL(lastURL))
      ensures delivered == old(delivered) +
        DeliveriesOf(listeners, Dispatch(DONE, xhr.status, IsFileURL(lastURL)))
      ensures !xhr.listenerAttached
      ensures Succeeded() && Convert().Converted? ==> xhr.response == Convert().value
      ensures !(Succeeded() && Convert().Converted?) ==> xhr.response == old(xhr.response)
    {
      ghost var fired0, delivered0 := fired, delivered;
      ghost var es: seq<EventType> := [];
      if IsSuccess(xhr.status, IsFileURL(lastURL)) {
        LoadResponse();
        es := [Load];
      }
      ghost var fired1, delivered1 := fired, delivered;
      FireEvent(LoadEnd);
      FireStep(listeners, es, LoadEnd, fired0, fired1, fired, delivered0, delivered1, delivered);
      assert es + [LoadEnd] == Dispatch(DONE, xhr.status, IsFileURL(lastURL));
      xhr.RemoveReadyStateListener();
    }

    /** The success branch: the converted response is stored, then `load` is fired. */
    method LoadResponse()
      requires Succeeded()
      modifies this`delivered, this`fired, xhr`response
      ensures fired == old(fired) + [Load]
      ensures delivered == old(delivered) + DeliveriesOf(listeners, [Load])
      ensures Convert().Converted? ==> xhr.response == Convert().value
      ensures Convert().ParseFailed? ==> xhr.response == old(xhr.response)
    {
      StoreResponse();
      FireEvent(Load);
      DeliveriesOfSingle(listeners, Load);
    }

    /** The `try` block: the converted response replaces the transport's, unless the JSON parser
        throws, in which case the exception is swallowed and the response is left as it was. */
    method StoreResponse()
      requires Succeeded()
      modifies xhr`response
      ensures Convert().Converted? ==> xhr.response == Convert().value
      ensures Convert().ParseFailed? ==> xhr.response == old(xhr.response)
    {
      var r := ConvertDataType(xhr.responseText, xhr.responseType, host.onBrowser, host.jsonParses);
      if r.Converted? {
        xhr.response := r.value;
      }
    }

    /** The converted response on demand: empty text unless the request succeeded; an
        unparsable JSON text is the parser's exception, here `ParseFailed`. */
    function Convert(): (r: Conversion)
      reads this`lastURL, xhr`readyState, xhr`status, xhr`responseText, xhr`responseType
      ensures xhr.readyState != DONE ==> r == Converted(Text(""))
      ensures !IsSuccess(xhr.status, IsFileURL(lastURL)) ==> r == Converted(Text(""))
      ensures Succeeded() ==>
        r == ConvertDataType(xhr.responseText, xhr.responseType, host.onBrowser, host.jsonParses)
    {
      if xhr.readyState == DONE && IsSuccess(xhr.status, IsFileURL(lastURL)) then
        ConvertDataType(xhr.responseText, xhr.responseType, host.onBrowser, host.jsonParses)
      else
        Converted(Text(""))
    }

    /** Opens the request; on a Level 1 host the proxy starts watching the transport. */
    method Open(httpMethod: string, url: string, async: Option<bool>, user: Option<string>, password: Option<string>)
      requires xhr.readyState == UNSENT
      requires httpMethod == "GET" || httpMethod == "POST"
      requires host.uriParses(url)
      modifies this`lastURL, this`lastReadyState, xhr`listenerAttached, xhr`readyState, xhr`calls
      ensures lastURL == url && lastReadyState == UNSENT
      ensures xhr.listenerAttached == (old(xhr.listenerAttached) || !lv2)
      ensures xhr.readyState == OPENED
      ensures xhr.calls == old(xhr.calls) +
        [OpenCall(httpMethod, url, if async.Some? then async.value else true, user, password)]
    {
      var isAsync := if async.Some? then async.value else true;
      lastURL := url;
      lastReadyState := UNSENT;
      if !lv2 {
        xhr.AddReadyStateListener();
      }
      xhr.Open(httpMethod, url, isAsync, user, password);
    }

    /** Sends the request; a Level 1 host expecting binary data first gets the MIME override. */
    method Send(body: Option<string>)
      requires xhr.readyState == OPENED
      modifies xhr`calls
      ensures xhr.calls == old(xhr.calls) +
        (if !lv2 && IsBinaryType(xhr.responseType) then [OverrideMimeTypeCall(BINARY_MIME_TYPE)] else []) +
        [SendCall(body)]
    {
      if !lv2 {
        if IsBinaryType(xhr.responseType) {
          xhr.OverrideMimeType(BINARY_MIME_TYPE);
        }
      }
      xhr.Send(body);
    }

    /** The one-shot GET: a fresh proxy with the `load` handler `onLoad`, opened and sent. */
    static method Get(url: string, lv2: bool, host: Host, onLoad: nat) returns (p: XHRProxy)
      requires host.uriParses(url)
      ensures fresh(p) && fresh(p.xhr) && p.lv2 == lv2 && p.host == host
      ensures p.listeners == map[Load := [onLoad]]
      ensures p.lastURL == url && p.lastReadyState == UNSENT && p.xhr.readyState == OPENED
      ensures p.xhr.listenerAttached == !lv2
      ensures p.delivered == [] && p.fired == [] && p.xhr.response == Unset && p.xhr.responseType == ""
      ensures p.xhr.calls == (if lv2 then [ListenCall(Load, onLoad)] else []) +
        [OpenCall("GET", url, true, None, None), SendCall(None)]
    {
      p := new XHRProxy(lv2, host);
      p.AddEventListener(Load, onLoad);
      assert Callbacks(map[], Load) + [onLoad] == [onLoad];
      p.Open("GET", url, None, None, None);
      p.Send(None);
    }
  }
}
