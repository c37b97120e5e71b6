/**
 * The session controller of the `Index` screen, as a value: the fields the
 * screen keeps in React state and refs, the observable effects it has on
 * the outside world (transport operations, native injection calls, log
 * lines, status notifications), and one function per handler giving the
 * state after that handler has run to completion.
 */
module Session {
  import opened Wrappers
  import opened Endpoint
  import opened ActivityLog
  import opened Gesture

  datatype Status = Disconnected | Connecting | Connected | Error

  /** The pairing payload carried by the QR code; "" stands for a missing field (both are falsy). */
  datatype QrPayload = QrPayload(ip: string, port: string, code: string, app: string)

  /** A decoded server message; `None` is a field the JSON object does not have. */
  datatype Inbound =
    | PairingResponse(status: Option<string>)
    | Mouse(x: Option<real>, y: Option<real>)
    | Click(x: Option<real>, y: Option<real>, action: Option<string>)
    | Scroll(dx: Option<real>, dy: Option<real>)
    | Keyboard(key: Option<string>, action: Option<string>)
    | Pong
    | Unknown(kind: string)

  /** Messages written to the desktop. */
  datatype Outbound = Pairing(code: string) | ScreenInfo(width: int, height: int)

  /** What the controller does to the TCP transport. */
  datatype TransportOp = Open(endpoint: Endpoint) | Write(message: Outbound) | Destroy

  /** Calls into the native touch-injection module. */
  datatype Injection =
    | InjectTouch(x: real, y: real)
    | InjectClick(x: real, y: real)
    | InjectScroll(stroke: Stroke)

  /** How TcpSocket.createConnection turned out: library absent, no client returned, or a client. */
  datatype Creation = LibraryMissing | NoClient | Created

  /** One line of the activity log, by template; the timestamp prefix is not modelled. */
  datatype LogEntry =
    | QrLoaded(ipWithPort: string, code: string)
    | QrScanError
    | ConnectingTo(host: string, port: int)
    | SetupFailed(reason: string)
    | TcpEstablished
    | PairingCodeSent
    | ParseFailed
    | ConnectionFailed(reason: string)
    | ConnectionClosed
    | PairedWithDesktop
    | PairingFailed
    | ScreenInfoSent(width: int, height: int)
    | ClickAt(x: real, y: real, action: string)
    | TouchInjected(x: real, y: real)
    | TouchInjectionFailed
    | ScrollBy(dx: real, dy: real)
    | ScrollInjected
    | ScrollInjectionFailed
    | KeyEvent(action: string, key: string)
    | UnknownMessageType(kind: string)
    | DisconnectedFromDesktop

  /** What the device fixes for a session: window size and whether injection is available. */
  datatype Device = Device(width: real, height: real, accessibilityEnabled: bool)

  const LibraryMissingReason: string := "TCP Socket library not available"
  const NoClientReason: string := "Failed to create socket connection"
  const PairingSuccess: string := "success"
  const ClickDown: string := "down"

  datatype SessionState = SessionState(
    serverIp: string,             // the "host:port" text field
    pairingCode: string,          // the pairing-code text field
    status: Status,               // connectionStatus
    statusHistory: seq<Status>,   // every value connectionStatus was set to, the initial one first
    isConnected: bool,
    socket: bool,                 // socketRef.current is not null
    dialledCode: string,          // the code the pending connection will send once connected
    cursor: Point,                // cursorPosition
    lastTouch: Point,             // lastTouchRef.current
    log: seq<LogEntry>,           // statusLog, newest first
    transport: seq<TransportOp>,  // everything done to sockets, in order
    injected: seq<Injection>)     // every native injection call, in order

  function Initial(): SessionState {
    SessionState("", "", Disconnected, [Disconnected], false, false, "",
                 Point(0.0, 0.0), Point(0.0, 0.0), [], [], [])
  }

  /** The invariant every handler keeps. */
  predicate Valid(s: SessionState) {
    && |s.log| <= MaxEntries
    && |s.statusHistory| > 0
    && s.statusHistory[|s.statusHistory| - 1] == s.status
    && (s.status == Connected ==> s.isConnected)
  }

  /**
   * The socket handle is only held while connecting or connected. This is
   * about the handle the screen keeps, not about live connections: a socket
   * whose handle was dropped may still be open.
   */
  predicate HandleOnlyWhileActive(s: SessionState) {
    s.socket ==> s.status == Connecting || s.isConnected
  }

  /** `r` differs from `s` at most in the log. */
  predicate OnlyLogChanged(s: SessionState, r: SessionState) {
    r == s.(log := r.log)
  }

  /** What a message handler never touches: the connection itself. */
  predicate ConnectionUnchanged(s: SessionState, r: SessionState) {
    && r.status == s.status && r.statusHistory == s.statusHistory
    && r.isConnected == s.isConnected && r.socket == s.socket
    && r.transport == s.transport && r.dialledCode == s.dialledCode
    && r.serverIp == s.serverIp && r.pairingCode == s.pairingCode
  }

  function AddLog(s: SessionState, e: LogEntry): SessionState {
    s.(log := Logged(s.log, e))
  }

  function SetStatus(s: SessionState, st: Status): SessionState {
    s.(status := st, statusHistory := s.statusHistory + [st])
  }

  /** A QR payload is for this app and carries an address, a port and a code. */
  predicate Accepts(q: QrPayload) {
    q.app == "MouseShare" && q.ip != "" && q.port != "" && q.code != ""
  }

  /** handleQRScan: `None` is a payload JSON.parse rejected. */
  function HandleQrScan(s: SessionState, data: Option<QrPayload>): (r: SessionState)
    ensures data.Some? && Accepts(data.value) ==>
      r.serverIp == data.value.ip + ":" + data.value.port && r.pairingCode == data.value.code
    ensures !(data.Some? && Accepts(data.value)) ==>
      r.serverIp == s.serverIp && r.pairingCode == s.pairingCode
    ensures r == s.(serverIp := r.serverIp, pairingCode := r.pairingCode, log := r.log)
    ensures Valid(s) ==> Valid(r)
  {
    match data
    case None => AddLog(s, QrScanError)
    case Some(q) =>
      if Accepts(q) then
        var ipWithPort := q.ip + ":" + q.port;
        AddLog(s.(serverIp := ipWithPort, pairingCode := q.code), QrLoaded(ipWithPort, q.code))
      else s
  }

  /**
   * connectToServer: both fields must be filled in; without accessibility the
   * user must choose "Continue Anyway"; then performConnection runs.
   */
  function ConnectToServer(s: SessionState, d: Device, continueAnyway: bool, creation: Creation): (r: SessionState)
    ensures s.serverIp == "" || s.pairingCode == "" ==> r == s
    ensures !d.accessibilityEnabled && !continueAnyway ==> r == s
    ensures s.serverIp != "" && s.pairingCode != "" && (d.accessibilityEnabled || continueAnyway) ==>
      r == PerformConnection(s, creation)
    ensures r != s ==> r.status in {Connecting, Error}
    ensures Valid(s) ==> Valid(r)
  {
    if s.serverIp == "" || s.pairingCode == "" then s
    else if !d.accessibilityEnabled && !continueAnyway then s
    else PerformConnection(s, creation)
  }

  /** performConnection: dial the parsed endpoint and remember the code to send. */
  function PerformConnection(s: SessionState, creation: Creation): (r: SessionState)
    ensures r.status == (if creation == Created then Connecting else Error)
    ensures r.statusHistory == s.statusHistory + [Connecting] + (if creation == Created then [] else [Error])
    ensures r.transport == s.transport + (if creation == LibraryMissing then [] else [Open(ParseEndpoint(s.serverIp))])
    ensures r.socket == (s.socket || creation == Created)
    ensures r.dialledCode == (if creation == Created then s.pairingCode else s.dialledCode)
    ensures r.isConnected == s.isConnected && r.serverIp == s.serverIp && r.pairingCode == s.pairingCode
    ensures r.cursor == s.cursor && r.lastTouch == s.lastTouch && r.injected == s.injected
    ensures Valid(s) ==> Valid(r)
  {
    var e := ParseEndpoint(s.serverIp);
    var s1 := AddLog(SetStatus(s, Connecting), ConnectingTo(e.host, e.port));
    match creation
    case LibraryMissing => AddLog(SetStatus(s1, Error), SetupFailed(LibraryMissingReason))
    case NoClient =>
      AddLog(SetStatus(s1.(transport := s1.transport + [Open(e)]), Error), SetupFailed(NoClientReason))
    case Created =>
      s1.(transport := s1.transport + [Open(e)], socket := true, dialledCode := s.pairingCode)
  }

  /** The connect callback: the pairing code goes out; the status stays as it is. */
  function TransportConnected(s: SessionState): (r: SessionState)
    ensures r.transport == s.transport + [Write(Pairing(s.dialledCode))]
    ensures r == s.(transport := r.transport, log := r.log)
    ensures Valid(s) ==> Valid(r)
  {
    var s1 := AddLog(s, TcpEstablished);
    AddLog(s1.(transport := s1.transport + [Write(Pairing(s.dialledCode))]), PairingCodeSent)
  }

  /** The error callback: status `error`, the socket (if any) destroyed and dropped. */
  function TransportError(s: SessionState, reason: string): (r: SessionState)
    ensures r.status == Error && !r.socket
    ensures r.statusHistory == s.statusHistory + [Error]
    ensures r.transport == s.transport + (if s.socket then [Destroy] else [])
    ensures r == s.(status := Error, statusHistory := r.statusHistory, socket := false,
                    transport := r.transport, log := r.log)
    ensures Valid(s) ==> Valid(r)
  {
    var s1 := AddLog(SetStatus(s, Error), ConnectionFailed(reason));
    if s1.socket then s1.(transport := s1.transport + [Destroy], socket := false) else s1
  }

  /** The close callback: disconnected, and the handle dropped without a destroy. */
  function TransportClosed(s: SessionState): (r: SessionState)
    ensures r.status == Disconnected && !r.isConnected && !r.socket
    ensures r.statusHistory == s.statusHistory + [Disconnected]
    ensures r == s.(status := Disconnected, statusHistory := r.statusHistory,
                    isConnected := false, socket := false, log := r.log)
    ensures Valid(s) ==> Valid(r)
  {
    AddLog(SetStatus(s.(isConnected := false), Disconnected), ConnectionClosed).(socket := false)
  }

  /** The data callback: `None` is a chunk JSON.parse rejected. */
  function DataReceived(s: SessionState, d: Device, message: Option<Inbound>, injectionOk: bool): (r: SessionState)
    ensures message.None? ==> OnlyLogChanged(s, r)
    ensures Valid(s) ==> Valid(r)
  {
    match message
    case None => AddLog(s, ParseFailed)
    case Some(m) => HandleServerMessage(s, d, m, injectionOk)
  }

  predicate IsPairingSuccess(m: Inbound) {
    m.PairingResponse? && m.status == Some(PairingSuccess)
  }

  /**
   * handleServerMessage. `injectionOk` is how the native call made for this
   * message (if any) turns out.
   */
  function HandleServerMessage(s: SessionState, d: Device, m: Inbound, injectionOk: bool): (r: SessionState)
    ensures IsPairingSuccess(m) ==>
      && r.status == Connected && r.isConnected && r.socket == s.socket
      && r.transport == s.transport + (if s.socket then [Write(ScreenInfo(d.width.Floor, d.height.Floor))] else [])
    ensures m.PairingResponse? && !IsPairingSuccess(m) ==>
      && r.status == Disconnected && !r.isConnected && !r.socket
      && r.statusHistory == s.statusHistory + [Error, Disconnected]
      && r.transport == s.transport + (if s.socket then [Destroy] else [])
    ensures IsPairingSuccess(m) ==> r.statusHistory == s.statusHistory + [Connected]
    ensures m.PairingResponse? ==>
      r == s.(status := r.status, statusHistory := r.statusHistory, isConnected := r.isConnected,
              socket := r.socket, transport := r.transport, log := r.log)
    ensures !m.PairingResponse? ==> ConnectionUnchanged(s, r)
    ensures m.Keyboard? || m.Pong? || m.Unknown? ==> OnlyLogChanged(s, r)
    ensures Valid(s) ==> Valid(r)
  {
    match m
    case PairingResponse(status) =>
      if status == Some(PairingSuccess) then
        SendScreenInfo(AddLog(SetStatus(s.(isConnected := true), Connected), PairedWithDesktop), d)
      else
        Disconnect(AddLog(SetStatus(s, Error), PairingFailed))
    case Mouse(x, y) => HandleMouse(s, d, x.GetOr(0.0), y.GetOr(0.0))
    case Click(x, y, action) => HandleClick(s, d, x.GetOr(0.0), y.GetOr(0.0), action.GetOr(""), injectionOk)
    case Scroll(dx, dy) => HandleScroll(s, d, dx.GetOr(0.0), dy.GetOr(0.0), injectionOk)
    case Keyboard(key, action) => HandleKeyboard(s, key.GetOr(""), action.GetOr(""))
    case Pong => s
    case Unknown(kind) => AddLog(s, UnknownMessageType(kind))
  }

  /** sendScreenInfo: the window size, rounded down, only over a live, paired socket. */
  function SendScreenInfo(s: SessionState, d: Device): (r: SessionState)
    ensures r.transport == s.transport +
      (if s.socket && s.isConnected then [Write(ScreenInfo(d.width.Floor, d.height.Floor))] else [])
    ensures r == s.(transport := r.transport, log := r.log)
    ensures Valid(s) ==> Valid(r)
  {
    if s.socket && s.isConnected then
      var w, h := d.width.Floor, d.height.Floor;
      AddLog(s.(transport := s.transport + [Write(ScreenInfo(w, h))]), ScreenInfoSent(w, h))
    else s
  }

  /** handleMouseEvent: move the cursor and the scroll anchor; touch there when injection is on. */
  function HandleMouse(s: SessionState, d: Device, x: real, y: real): (r: SessionState)
    ensures r.cursor == Point(x, y) && r.lastTouch == Point(x, y)
    ensures r.injected == s.injected + (if d.accessibilityEnabled then [InjectTouch(x, y)] else [])
    ensures r == s.(cursor := r.cursor, lastTouch := r.lastTouch, injected := r.injected)
    ensures Valid(s) ==> Valid(r)
  {
    var s1 := s.(cursor := Point(x, y), lastTouch := Point(x, y));
    if d.accessibilityEnabled then s1.(injected := s1.injected + [InjectTouch(x, y)]) else s1
  }

  /** handleClickEvent: a click is injected on "down" only; the cursor does not move. */
  function HandleClick(s: SessionState, d: Device, x: real, y: real, action: string, injectionOk: bool): (r: SessionState)
    ensures r.injected == s.injected +
      (if d.accessibilityEnabled && action == ClickDown then [InjectClick(x, y)] else [])
    ensures r == s.(injected := r.injected, log := r.log)
    ensures |r.log| > 0 && (r.log[0] == ClickAt(x, y, action) <==> !(d.accessibilityEnabled && action == ClickDown))
    ensures d.accessibilityEnabled && action == ClickDown ==>
      && |r.log| > 1 && r.log[1] == ClickAt(x, y, action)
      && r.log[0] == (if injectionOk then TouchInjected(x, y) else TouchInjectionFailed)
    ensures Valid(s) ==> Valid(r)
  {
    var s1 := AddLog(s, ClickAt(x, y, action));
    if d.accessibilityEnabled && action == ClickDown then
      AddLog(s1.(injected := s1.injected + [InjectClick(x, y)]),
             if injectionOk then TouchInjected(x, y) else TouchInjectionFailed)
    else s1
  }

  /** handleScrollEvent: a swipe anchored at the last touch; the cursor does not move. */
  function HandleScroll(s: SessionState, d: Device, dx: real, dy: real, injectionOk: bool): (r: SessionState)
    ensures r.injected == s.injected +
      (if d.accessibilityEnabled then [InjectScroll(ScrollStroke(s.lastTouch, d.width, d.height, dx, dy))] else [])
    ensures r == s.(injected := r.injected, log := r.log)
    ensures Valid(s) ==> Valid(r)
  {
    var s1 := AddLog(s, ScrollBy(dx, dy));
    if d.accessibilityEnabled then
      var stroke := ScrollStroke(s.lastTouch, d.width, d.height, dx, dy);
      AddLog(s1.(injected := s1.injected + [InjectScroll(stroke)]),
             if injectionOk then ScrollInjected else ScrollInjectionFailed)
    else s1
  }

  /** handleKeyboardEvent: logged, nothing injected. */
  function HandleKeyboard(s: SessionState, key: string, action: string): (r: SessionState)
    ensures OnlyLogChanged(s, r) && |r.log| > 0 && r.log[0] == KeyEvent(action, key)
    ensures Valid(s) ==> Valid(r)
  {
    AddLog(s, KeyEvent(action, key))
  }

  /** disconnect: destroy the socket if there is one; disconnected either way. */
  function Disconnect(s: SessionState): (r: SessionState)
    ensures r.status == Disconnected && !r.isConnected && !r.socket
    ensures r.statusHistory == s.statusHistory + [Disconnected]
    ensures r.transport == s.transport + (if s.socket then [Destroy] else [])
    ensures r == s.(status := Disconnected, statusHistory := r.statusHistory, isConnected := false,
                    socket := false, transport := r.transport, log := r.log)
    ensures Valid(s) ==> Valid(r)
  {
    var s1 := if s.socket then s.(transport := s.transport + [Destroy], socket := false) else s;
    AddLog(SetStatus(s1.(isConnected := false), Disconnected), DisconnectedFromDesktop)
  }
}
