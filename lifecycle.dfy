/**
 * The controller as an event-driven machine: every event the screen can
 * receive (form edits, a scanned QR code, the Connect and Disconnect buttons,
 * the socket's callbacks), one step per event run to completion, and the
 * properties that hold over any sequence of steps.
 */
module Lifecycle {
  import opened Wrappers
  import opened Endpoint
  import opened Session

  datatype Event =
    | ServerIpEdited(text: string)
    | PairingCodeEdited(text: string)
    | QrRead(data: Option<QrPayload>)
    | ConnectPressed(continueAnyway: bool, creation: Creation)
    | SocketConnected
    | SocketData(message: Option<Inbound>, injectionOk: bool)
    | SocketError(reason: string)
    | SocketClosed
    | DisconnectPressed

  /** The Connect button exists only while not connected and is disabled while connecting. */
  predicate ConnectAvailable(s: SessionState) {
    !s.isConnected && s.status != Connecting
  }

  /**
   * One event, run to completion. Only Connect is guarded as the screen
   * guards it; every other event is admitted in every state, which covers
   * more runs than the screen allows (its Disconnect button, for one, is
   * shown only while connected), so what holds of every run holds of the
   * screen's runs.
   */
  function Step(s: SessionState, d: Device, e: Event): (r: SessionState)
    ensures e.ConnectPressed? && !ConnectAvailable(s) ==> r == s
    ensures e.ConnectPressed? && ConnectAvailable(s) ==>
      r == ConnectToServer(s, d, e.continueAnyway, e.creation)
    ensures e.ServerIpEdited? ==> r == s.(serverIp := e.text)
    ensures e.PairingCodeEdited? ==> r == s.(pairingCode := e.text)
  {
    match e
    case ServerIpEdited(text) => s.(serverIp := text)
    case PairingCodeEdited(text) => s.(pairingCode := text)
    case QrRead(data) => HandleQrScan(s, data)
    case ConnectPressed(continueAnyway, creation) =>
      if ConnectAvailable(s) then ConnectToServer(s, d, continueAnyway, creation) else s
    case SocketConnected => TransportConnected(s)
    case SocketData(message, injectionOk) => DataReceived(s, d, message, injectionOk)
    case SocketError(reason) => TransportError(s, reason)
    case SocketClosed => TransportClosed(s)
    case DisconnectPressed => Disconnect(s)
  }

  function Run(s: SessionState, d: Device, events: seq<Event>): SessionState
    decreases |events|
  {
    if events == [] then s else Run(Step(s, d, events[0]), d, events[1..])
  }

  predicate PairsSuccessfully(e: Event) {
    e.SocketData? && e.message.Some? && IsPairingSuccess(e.message.value)
  }

  lemma InitialIsValid()
    ensures Valid(Initial()) && HandleOnlyWhileActive(Initial())
  {
  }

  lemma StepKeepsValid(s: SessionState, d: Device, e: Event)
    requires Valid(s)
    ensures Valid(Step(s, d, e))
  {
  }

  /** Every run from a valid state keeps the log bounded and the status consistent. */
  lemma {:induction false} RunKeepsValid(s: SessionState, d: Device, events: seq<Event>)
    requires Valid(s)
    ensures Valid(Run(s, d, events))
    decreases |events|
  {
    if events != [] {
      StepKeepsValid(s, d, events[0]);
      RunKeepsValid(Step(s, d, events[0]), d, events[1..]);
    }
  }

  lemma StepKeepsHandleOnlyWhileActive(s: SessionState, d: Device, e: Event)
    requires Valid(s) && HandleOnlyWhileActive(s)
    ensures HandleOnlyWhileActive(Step(s, d, e))
  {
    match e
    case SocketData(Some(m), ok) =>
      if m.PairingResponse? && IsPairingSuccess(m) {
        var s1 := AddLog(SetStatus(s.(isConnected := true), Connected), PairedWithDesktop);
        assert HandleServerMessage(s, d, m, ok) == SendScreenInfo(s1, d);
      }
    case _ =>
  }

  /**
   * Behind the screen's guard on the Connect button, a socket is held only
   * while connecting or connected, in every run from the initial state.
   */
  lemma {:induction false} RunKeepsHandleOnlyWhileActive(s: SessionState, d: Device, events: seq<Event>)
    requires Valid(s) && HandleOnlyWhileActive(s)
    ensures HandleOnlyWhileActive(Run(s, d, events))
    decreases |events|
  {
    if events != [] {
      StepKeepsValid(s, d, events[0]);
      StepKeepsHandleOnlyWhileActive(s, d, events[0]);
      RunKeepsHandleOnlyWhileActive(Step(s, d, events[0]), d, events[1..]);
    }
  }

  /** So no event opens a second connection while a socket is held. */
  lemma NoOpenWhileSocketHeld(s: SessionState, d: Device, e: Event)
    requires Valid(s) && HandleOnlyWhileActive(s) && s.socket
    ensures |Step(s, d, e).transport| >= |s.transport|
    ensures forall i | |s.transport| <= i < |Step(s, d, e).transport| :: !Step(s, d, e).transport[i].Open?
  {
    match e
    case SocketData(Some(m), ok) =>
      if m.PairingResponse? && IsPairingSuccess(m) {
        var s1 := AddLog(SetStatus(s.(isConnected := true), Connected), PairedWithDesktop);
        assert HandleServerMessage(s, d, m, ok) == SendScreenInfo(s1, d);
      }
    case _ =>
  }

  lemma StepWithoutInjection(s: SessionState, d: Device, e: Event)
    requires !d.accessibilityEnabled
    ensures Step(s, d, e).injected == s.injected
  {
  }

  /** With the accessibility service off, no run ever calls the injection module. */
  lemma {:induction false} RunWithoutInjection(s: SessionState, d: Device, events: seq<Event>)
    requires !d.accessibilityEnabled
    ensures Run(s, d, events).injected == s.injected
    decreases |events|
  {
    if events != [] {
      StepWithoutInjection(s, d, events[0]);
      RunWithoutInjection(Step(s, d, events[0]), d, events[1..]);
    }
  }

  lemma StepToConnected(s: SessionState, d: Device, e: Event)
    requires s.status != Connected
    requires Step(s, d, e).status == Connected
    ensures PairsSuccessfully(e)
  {
  }

  /**
   * There is no separate pairing state: the status becomes `connected` only
   * in the step that handles a successful pairing_response.
   */
  lemma {:induction false} ConnectedOnlyAfterPairing(s: SessionState, d: Device, events: seq<Event>)
    requires s.status != Connected
    requires Run(s, d, events).status == Connected
    ensures exists i | 0 <= i < |events| :: PairsSuccessfully(events[i])
    decreases |events|
  {
    assert events != [];
    var next := Step(s, d, events[0]);
    if next.status == Connected {
      StepToConnected(s, d, events[0]);
    } else {
      ConnectedOnlyAfterPairing(next, d, events[1..]);
      var i :| 0 <= i < |events[1..]| && PairsSuccessfully(events[1..][i]);
      assert PairsSuccessfully(events[i + 1]);
    }
  }

  /** Disconnecting twice leaves the session as disconnecting once did, and destroys nothing more. */
  lemma DisconnectIdempotent(s: SessionState)
    ensures Disconnect(Disconnect(s))
         == Disconnect(s).(statusHistory := Disconnect(Disconnect(s)).statusHistory,
                           log := Disconnect(Disconnect(s)).log)
    ensures Disconnect(Disconnect(s)).transport == Disconnect(s).transport
  {
  }

  /** A scanned payload "ip"/"port" with a non-zero numeric port is dialled at exactly that address. */
  lemma QrPayloadDialled(s: SessionState, q: QrPayload, port: int)
    requires Accepts(q) && ':' !in q.ip
    requires port != 0 && q.port == IntDecimal(port)
    ensures ParseEndpoint(HandleQrScan(s, Some(q)).serverIp) == Endpoint(q.ip, port)
  {
    EndpointOfDecimalPort(q.ip, port, "");
    assert q.ip + ":" + IntDecimal(port) + "" == q.ip + ":" + q.port;
  }

  /** The scenario's address parses to host "192.168.1.10" and port 5555. */
  lemma ScenarioEndpoint()
    ensures ParseEndpoint("192.168.1.10:5555") == Endpoint("192.168.1.10", 5555)
  {
    assert NatDecimal(5) == "5";
    assert NatDecimal(55) == "55";
    assert NatDecimal(555) == "555";
    assert IntDecimal(5555) == "5555";
    EndpointOfDecimalPort("192.168.1.10", 5555, "");
    assert "192.168.1.10" + ":" + IntDecimal(5555) + "" == "192.168.1.10:5555";
  }

  /**
   * Connect to "192.168.1.10:5555" with code "123456", the socket connects,
   * the desktop accepts the code: the session is connected and has opened
   * the endpoint, sent the code and then the screen size.
   */
  lemma PairingScenario(d: Device)
    ensures var r := Run(Initial(), d, PairingEvents("192.168.1.10:5555", "123456"));
      && r.status == Connected && r.isConnected
      && r.transport == [ Open(Endpoint("192.168.1.10", 5555)), Write(Pairing("123456")),
                          Write(ScreenInfo(d.width.Floor, d.height.Floor)) ]
  {
    PairingFromForm(d, "192.168.1.10:5555", "123456");
    ScenarioEndpoint();
  }

  /**
   * For any filled-in form: once the socket connects and the desktop accepts
   * the code, the session is connected and has opened the parsed endpoint,
   * sent the code, then the screen size.
   */
  lemma PairingFromForm(d: Device, address: string, code: string)
    requires address != "" && code != ""
    ensures var r := Run(Initial(), d, PairingEvents(address, code));
      && r.status == Connected && r.isConnected
      && r.transport == [ Open(ParseEndpoint(address)), Write(Pairing(code)),
                          Write(ScreenInfo(d.width.Floor, d.height.Floor)) ]
  {
    PairingRun(d, address, code);
    var s3 := PerformConnection(Initial().(serverIp := address, pairingCode := code), Created);
    assert s3.transport == [Open(ParseEndpoint(address))] && s3.socket && s3.dialledCode == code;
  }

  /** Fill in the form, press Connect, the socket connects, the desktop accepts the code. */
  function PairingEvents(address: string, code: string): seq<Event> {
    [ ServerIpEdited(address), PairingCodeEdited(code), ConnectPressed(true, Created),
      SocketConnected, SocketData(Some(PairingResponse(Some(PairingSuccess))), true) ]
  }

  lemma PairingRun(d: Device, address: string, code: string)
    requires address != "" && code != ""
    ensures Run(Initial(), d, PairingEvents(address, code))
         == HandleServerMessage(
              TransportConnected(PerformConnection(Initial().(serverIp := address, pairingCode := code), Created)),
              d, PairingResponse(Some(PairingSuccess)), true)
  {
    var events := PairingEvents(address, code);
    var s1 := Initial().(serverIp := address);
    var s2 := s1.(pairingCode := code);
    RunSteps(Initial(), d, events);
    assert Step(Initial(), d, events[0]) == s1;
    assert Step(s1, d, events[1]) == s2;
    assert Step(s2, d, events[2]) == PerformConnection(s2, Created);
  }

  /** Running five events is stepping through them one by one. */
  lemma RunSteps(s: SessionState, d: Device, events: seq<Event>)
    requires |events| == 5
    ensures Run(s, d, events)
         == Step(Step(Step(Step(Step(s, d, events[0]), d, events[1]), d, events[2]), d, events[3]), d, events[4])
  {
    var t1 := Step(s, d, events[0]);
    var t2 := Step(t1, d, events[1]);
    var t3 := Step(t2, d, events[2]);
    var t4 := Step(t3, d, events[3]);
    var t5 := Step(t4, d, events[4]);
    assert Run(t5, d, events[5..]) == t5;
    assert events[4..][1..] == events[5..];
    assert Run(t4, d, events[4..]) == t5;
    assert events[3..][1..] == events[4..];
    assert Run(t3, d, events[3..]) == t5;
    assert events[2..][1..] == events[3..];
    assert Run(t2, d, events[2..]) == t5;
    assert events[1..][1..] == events[2..];
    assert Run(t1, d, events[1..]) == t5;
  }

  /**
   * disconnect() while the connection is still pending: the pending socket is
   * destroyed and the session ends disconnected without having been connected.
   */
  lemma DisconnectWhileConnecting(s: SessionState, d: Device, continueAnyway: bool)
    requires s.serverIp != "" && s.pairingCode != ""
    requires d.accessibilityEnabled || continueAnyway
    ensures var r := Disconnect(ConnectToServer(s, d, continueAnyway, Created));
      && r.status == Disconnected && !r.socket && !r.isConnected
      && r.transport == s.transport + [Open(ParseEndpoint(s.serverIp)), Destroy]
      && r.statusHistory == s.statusHistory + [Connecting, Disconnected]
  {
  }
}
