/** Whole requests on a Level 1 host. The caller registers listeners, opens and sends. The
    transport reports each ready state it reaches to the proxy it has as listener: OPENED from
    inside the native `open`, then HEADERS_RECEIVED, LOADING and DONE as the network answers. */
module Scenarios {
  import opened Simulator
  import opened Coercion
  import opened EventHub
  import opened Proxy

  const DOWNLOAD_URL := "http://example.com/data.bin"

  /** A fresh Level 1 proxy with callbacks 2, 3 and 4 registered on `load`, `loadend` and
      `readystatechange`. */
  method NewLevel1Proxy(host: Host, responseType: string) returns (p: XHRProxy)
    ensures fresh(p) && fresh(p.xhr) && !p.lv2 && p.host == host
    ensures p.listeners == map[Load := [2], LoadEnd := [3], ReadyStateChange := [4]]
    ensures p.lastReadyState == UNSENT && p.delivered == []
    ensures p.xhr.Valid() && p.xhr.readyState == UNSENT && p.xhr.response == Unset
    ensures p.xhr.responseType == responseType && !p.xhr.listenerAttached && p.xhr.calls == []
  {
    p := new XHRProxy(false, host);
    p.xhr.responseType := responseType;
    assert p.listeners == map[] && Callbacks(map[], Load) == [];
    p.AddEventListener(Load, 2);
    assert [] + [2] == [2];
    assert p.listeners == map[Load := [2]];
    assert Callbacks(p.listeners, LoadEnd) == [];
    p.AddEventListener(LoadEnd, 3);
    assert [] + [3] == [3];
    assert p.listeners == map[Load := [2], LoadEnd := [3]];
    assert Callbacks(p.listeners, ReadyStateChange) == [];
    p.AddEventListener(ReadyStateChange, 4);
    assert [] + [4] == [4];
  }

  /** A Level 1 GET of `DOWNLOAD_URL` with those callbacks, opened and sent. The native `open`
      reports OPENED to the listener the proxy has just attached, before returning; that report
      fires `readystatechange` and `loadstart`, of which only the first has a callback. */
  method StartLevel1Get(host: Host, responseType: string) returns (p: XHRProxy)
    requires host.uriParses(DOWNLOAD_URL)
    ensures fresh(p) && fresh(p.xhr) && !p.lv2 && p.host == host
    ensures p.listeners == map[Load := [2], LoadEnd := [3], ReadyStateChange := [4]]
    ensures p.lastURL == DOWNLOAD_URL && p.lastReadyState == OPENED
    ensures p.delivered == [Delivery(ReadyStateChange, 4)]
    ensures p.xhr.Valid() && p.xhr.readyState == OPENED && p.xhr.response == Unset
    ensures p.xhr.responseType == responseType && p.xhr.listenerAttached
    ensures p.xhr.calls == [OpenCall("GET", DOWNLOAD_URL, true, None, None)] +
      (if IsBinaryType(responseType) then [OverrideMimeTypeCall(BINARY_MIME_TYPE)] else []) +
      [SendCall(None)]
  {
    p := NewLevel1Proxy(host, responseType);
    OpenLevel1(p);
    p.Send(None);
  }

  /** `open` on the proxy of `NewLevel1Proxy`, with the report of OPENED that the native `open`
      makes to the newly attached listener. */
  method OpenLevel1(p: XHRProxy)
    requires !p.lv2 && p.host.uriParses(DOWNLOAD_URL)
    requires p.listeners == map[Load := [2], LoadEnd := [3], ReadyStateChange := [4]]
    requires p.xhr.readyState == UNSENT && p.delivered == []
    modifies p`lastURL, p`lastReadyState, p`delivered, p`fired, p.xhr`readyState, p.xhr`calls,
      p.xhr`response, p.xhr`listenerAttached
    ensures p.lastURL == DOWNLOAD_URL && p.lastReadyState == OPENED
    ensures p.delivered == [Delivery(ReadyStateChange, 4)]
    ensures p.xhr.Valid() && p.xhr.readyState == OPENED && p.xhr.response == old(p.xhr.response)
    ensures p.xhr.listenerAttached
    ensures p.xhr.calls == old(p.xhr.calls) + [OpenCall("GET", DOWNLOAD_URL, true, None, None)]
  {
    p.Open("GET", DOWNLOAD_URL, None, None, None);
    p.HandleEvent();
    assert SimulatedEvents(UNSENT, OPENED, p.xhr.status, IsFileURL(DOWNLOAD_URL)) ==
      [ReadyStateChange, LoadStart];
    ReportDeliveries(p.listeners);
  }

  /** The transport reaches `next` before DONE and reports it: the report fires
      `readystatechange` and `progress`, of which only the first has a callback. */
  method ReportProgress(p: XHRProxy, next: int, status: int)
    requires p.listeners == map[Load := [2], LoadEnd := [3], ReadyStateChange := [4]]
    requires next == HEADERS_RECEIVED || next == LOADING
    requires p.xhr.Valid() && p.xhr.readyState < next && p.lastReadyState == p.xhr.readyState
    requires p.xhr.listenerAttached
    modifies p`lastReadyState, p`delivered, p`fired, p.xhr`readyState, p.xhr`status,
      p.xhr`responseText, p.xhr`response, p.xhr`listenerAttached
    ensures p.xhr.Valid() && p.xhr.readyState == next && p.lastReadyState == next
    ensures p.xhr.status == status && p.xhr.listenerAttached
    ensures p.delivered == old(p.delivered) + [Delivery(ReadyStateChange, 4)]
    ensures p.xhr.response == old(p.xhr.response)
  {
    p.xhr.Advance(next, status, "");
    p.HandleEvent();
    assert SimulatedEvents(old(p.lastReadyState), next, status, IsFileURL(p.lastURL)) ==
      [ReadyStateChange, Progress];
    ReportDeliveries(p.listeners);
  }

  /** The network answers with `status` and `body`: the transport passes through
      HEADERS_RECEIVED and LOADING to DONE and reports each state to the attached proxy. */
  method ReceiveLevel1(p: XHRProxy, status: int, body: string)
    requires p.listeners == map[Load := [2], LoadEnd := [3], ReadyStateChange := [4]]
    requires p.xhr.Valid() && p.xhr.readyState == OPENED && p.lastReadyState == OPENED
    requires p.xhr.listenerAttached
    modifies p`lastReadyState, p`delivered, p`fired, p.xhr`readyState, p.xhr`status,
      p.xhr`responseText, p.xhr`response, p.xhr`listenerAttached
    ensures p.xhr.readyState == DONE && p.xhr.status == status && p.xhr.responseText == body
    ensures p.lastReadyState == DONE && !p.xhr.listenerAttached
    ensures p.delivered == old(p.delivered) + [Delivery(ReadyStateChange, 4), Delivery(ReadyStateChange, 4)] +
      DeliveriesOf(p.listeners, SimulatedEvents(LOADING, DONE, status, IsFileURL(p.lastURL)))
    ensures p.Succeeded() && p.Convert().Converted? ==> p.xhr.response == p.Convert().value
    ensures !(p.Succeeded() && p.Convert().Converted?) ==> p.xhr.response == old(p.xhr.response)
  {
    ReportProgress(p, HEADERS_RECEIVED, status);
    ReportProgress(p, LOADING, status);
    p.xhr.Advance(DONE, status, body);
    p.HandleEvent();
  }

  /** A binary download that succeeds: the MIME override precedes the send, the listeners see
      `readystatechange` once per state, then `load` and `loadend`, and the response holds the
      bytes. */
  method Level1BinaryDownload(host: Host, body: string)
    returns (calls: seq<Call>, delivered: seq<Delivery>, response: Value, converted: Conversion)
    requires host.uriParses(DOWNLOAD_URL)
    ensures calls == [OpenCall("GET", DOWNLOAD_URL, true, None, None),
                      OverrideMimeTypeCall(BINARY_MIME_TYPE), SendCall(None)]
    ensures delivered == [Delivery(ReadyStateChange, 4), Delivery(ReadyStateChange, 4),
                          Delivery(ReadyStateChange, 4), Delivery(ReadyStateChange, 4),
                          Delivery(Load, 2), Delivery(LoadEnd, 3)]
    ensures response == ByteArray(body) && converted == Converted(response)
  {
    var p := StartLevel1Get(host, "arraybuffer");
    assert IsBinaryType("arraybuffer");
    ReceiveLevel1(p, 200, body);
    assert !IsFileURL(DOWNLOAD_URL) by {
      assert DOWNLOAD_URL[0] != "file:"[0];
    }
    assert SimulatedEvents(LOADING, DONE, 200, false) == [ReadyStateChange, Load, LoadEnd];
    CompletionDeliveries(p.listeners);
    assert p.Succeeded() && p.Convert() == Converted(ByteArray(body));
    calls, delivered, response, converted := p.xhr.calls, p.delivered, p.xhr.response, p.Convert();
  }

  /** A request answered 404: one `readystatechange` per state and `loadend`, but no `load`, and
      the response is left as it was. */
  method Level1NotFound(host: Host)
    returns (delivered: seq<Delivery>, response: Value, converted: Conversion)
    requires host.uriParses(DOWNLOAD_URL)
    ensures delivered == [Delivery(ReadyStateChange, 4), Delivery(ReadyStateChange, 4),
                          Delivery(ReadyStateChange, 4), Delivery(ReadyStateChange, 4),
                          Delivery(LoadEnd, 3)]
    ensures response == Unset && converted == Converted(Text(""))
  {
    var p := StartLevel1Get(host, "");
    ReceiveLevel1(p, 404, "not found");
    assert !IsFileURL(DOWNLOAD_URL) by {
      assert DOWNLOAD_URL[0] != "file:"[0];
    }
    assert !IsSuccess(404, false);
    assert SimulatedEvents(LOADING, DONE, 404, false) == [ReadyStateChange, LoadEnd];
    CompletionDeliveries(p.listeners);
    delivered, response, converted := p.delivered, p.xhr.response, p.Convert();
  }

  /** With the callbacks of `NewLevel1Proxy`, a report before DONE invokes callback 4 alone. */
  lemma ReportDeliveries(listeners: map<EventType, seq<nat>>)
    requires listeners == map[Load := [2], LoadEnd := [3], ReadyStateChange := [4]]
    ensures DeliveriesOf(listeners, [ReadyStateChange, LoadStart]) == [Delivery(ReadyStateChange, 4)]
    ensures DeliveriesOf(listeners, [ReadyStateChange, Progress]) == [Delivery(ReadyStateChange, 4)]
  {
    assert Deliveries(ReadyStateChange, [4]) == [Delivery(ReadyStateChange, 4)];
    assert Callbacks(listeners, LoadStart) == [] && Callbacks(listeners, Progress) == [];
    DeliveriesOfPair(listeners, ReadyStateChange, LoadStart);
    DeliveriesOfPair(listeners, ReadyStateChange, Progress);
  }

  /** With the callbacks of `NewLevel1Proxy`, the DONE report invokes 4, then 2 on success, then 3. */
  lemma CompletionDeliveries(listeners: map<EventType, seq<nat>>)
    requires listeners == map[Load := [2], LoadEnd := [3], ReadyStateChange := [4]]
    ensures DeliveriesOf(listeners, [ReadyStateChange, Load, LoadEnd]) ==
      [Delivery(ReadyStateChange, 4), Delivery(Load, 2), Delivery(LoadEnd, 3)]
    ensures DeliveriesOf(listeners, [ReadyStateChange, LoadEnd]) ==
      [Delivery(ReadyStateChange, 4), Delivery(LoadEnd, 3)]
  {
    assert Deliveries(ReadyStateChange, [4]) == [Delivery(ReadyStateChange, 4)];
    assert Deliveries(Load, [2]) == [Delivery(Load, 2)];
    assert Deliveries(LoadEnd, [3]) == [Delivery(LoadEnd, 3)];
    DeliveriesOfSingle(listeners, ReadyStateChange);
    DeliveriesOfPair(listeners, ReadyStateChange, LoadEnd);
    DeliveriesOfPair(listeners, Load, LoadEnd);
    assert [ReadyStateChange, Load, LoadEnd] == [ReadyStateChange] + [Load, LoadEnd];
    DeliveriesOfAppend(listeners, [ReadyStateChange], [Load, LoadEnd]);
  }
}
