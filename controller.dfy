/**
 * The `Index` screen's controller as the object it is: the React state
 * variables and refs become fields, each handler a method that updates them
 * step by step, proved to leave exactly the state the Session function for
 * that handler describes.
 */
module Index {
  import opened Wrappers
  import opened Endpoint
  import opened ActivityLog
  import opened Gesture
  import opened Session

  class Controller {
    const device: Device
    var serverIp: string
    var pairingCode: string
    var connectionStatus: Status
    var statusHistory: seq<Status>
    var isConnected: bool
    var socketPresent: bool
    var dialledCode: string
    var cursorPosition: Point
    var lastTouch: Point
    var statusLog: seq<LogEntry>
    var transport: seq<TransportOp>
    var injected: seq<Injection>

    /** The fields as one session value. */
    ghost function State(): SessionState
      reads this
    {
      SessionState(serverIp, pairingCode, connectionStatus, statusHistory, isConnected, socketPresent,
                   dialledCode, cursorPosition, lastTouch, statusLog, transport, injected)
    }

    ghost predicate Valid()
      reads this
    {
      Session.Valid(State())
    }

    /** The screen as first rendered: empty form, disconnected, cursor at the origin. */
    constructor (device: Device)
      ensures this.device == device
      ensures State() == Initial() && Valid()
    {
      this.device := device;
      serverIp, pairingCode := "", "";
      connectionStatus, statusHistory := Disconnected, [Disconnected];
      isConnected, socketPresent := false, false;
      dialledCode := "";
      cursorPosition, lastTouch := Point(0.0, 0.0), Point(0.0, 0.0);
      statusLog, transport, injected := [], [], [];
    }

    /** addLog. */
    method AddLog(e: LogEntry)
      modifies this
      ensures State() == Session.AddLog(old(State()), e)
    {
      statusLog := Logged(statusLog, e);
    }

    /** setConnectionStatus, which also notifies the screen. */
    method SetConnectionStatus(st: Status)
      modifies this
      ensures State() == SetStatus(old(State()), st)
    {
      connectionStatus := st;
      statusHistory := statusHistory + [st];
    }

    /** The address text field. */
    method EditServerIp(text: string)
      requires Valid()
      modifies this
      ensures State() == old(State()).(serverIp := text)
      ensures Valid()
    {
      serverIp := text;
    }

    /** The pairing-code text field. */
    method EditPairingCode(text: string)
      requires Valid()
      modifies this
      ensures State() == old(State()).(pairingCode := text)
      ensures Valid()
    {
      pairingCode := text;
    }

    method HandleQrScan(data: Option<QrPayload>)
      requires Valid()
      modifies this
      ensures Valid()
      ensures State() == Session.HandleQrScan(old(State()), data)
    {
      match data
      case None =>
        AddLog(QrScanError);
      case Some(q) =>
        if Accepts(q) {
          var ipWithPort := q.ip + ":" + q.port;
          serverIp := ipWithPort;
          pairingCode := q.code;
          AddLog(QrLoaded(ipWithPort, q.code));
        }
    }

    method ConnectToServer(continueAnyway: bool, creation: Creation)
      requires Valid()
      modifies this
      ensures Valid()
      ensures State() == Session.ConnectToServer(old(State()), device, continueAnyway, creation)
    {
      if serverIp == "" || pairingCode == "" {
        return;
      }
      if !device.accessibilityEnabled && !continueAnyway {
        return;
      }
      PerformConnection(creation);
    }

    method PerformConnection(creation: Creation)
      requires Valid()
      modifies this
      ensures Valid()
      ensures State() == Session.PerformConnection(old(State()), creation)
    {
      var endpoint := ParseEndpoint(serverIp);
      SetConnectionStatus(Connecting);
      AddLog(ConnectingTo(endpoint.host, endpoint.port));
      match creation
      case LibraryMissing =>
        SetConnectionStatus(Error);
        AddLog(SetupFailed(LibraryMissingReason));
      case NoClient =>
        transport := transport + [Open(endpoint)];
        SetConnectionStatus(Error);
        AddLog(SetupFailed(NoClientReason));
      case Created =>
        transport := transport + [Open(endpoint)];
        dialledCode := pairingCode;
        socketPresent := true;
    }

    /** The connect callback of createConnection. */
    method OnConnect()
      requires Valid()
      modifies this
      ensures Valid()
      ensures State() == TransportConnected(old(State()))
    {
      AddLog(TcpEstablished);
      transport := transport + [Write(Pairing(dialledCode))];
      AddLog(PairingCodeSent);
    }

    /** The socket's "data" callback. */
    method OnData(message: Option<Inbound>, injectionOk: bool)
      requires Valid()
      modifies this
      ensures Valid()
      ensures State() == DataReceived(old(State()), device, message, injectionOk)
    {
      match message
      case None =>
        AddLog(ParseFailed);
      case Some(m) =>
        HandleServerMessage(m, injectionOk);
    }

    /** The socket's "error" callback. */
    method OnError(reason: string)
      requires Valid()
      modifies this
      ensures Valid()
      ensures State() == TransportError(old(State()), reason)
    {
      SetConnectionStatus(Error);
      AddLog(ConnectionFailed(reason));
      if socketPresent {
        transport := transport + [Destroy];
        socketPresent := false;
      }
    }

    /** The socket's "close" callback. */
    method OnClose()
      requires Valid()
      modifies this
      ensures Valid()
      ensures State() == TransportClosed(old(State()))
    {
      isConnected := false;
      SetConnectionStatus(Disconnected);
      AddLog(ConnectionClosed);
      socketPresent := false;
    }

    method HandleServerMessage(m: Inbound, injectionOk: bool)
      requires Valid()
      modifies this
      ensures Valid()
      ensures State() == Session.HandleServerMessage(old(State()), device, m, injectionOk)
    {
      match m
      case PairingResponse(status) =>
        if status == Some(PairingSuccess) {
          isConnected := true;
          SetConnectionStatus(Connected);
          AddLog(PairedWithDesktop);
          SendScreenInfo();
        } else {
          SetConnectionStatus(Error);
          AddLog(PairingFailed);
          Disconnect();
        }
      case Mouse(x, y) =>
        HandleMouseEvent(x, y);
      case Click(x, y, action) =>
        HandleClickEvent(x, y, action, injectionOk);
      case Scroll(dx, dy) =>
        HandleScrollEvent(dx, dy, injectionOk);
      case Keyboard(key, action) =>
        HandleKeyboardEvent(key, action);
      case Pong =>
      case Unknown(kind) =>
        AddLog(UnknownMessageType(kind));
    }

    method SendScreenInfo()
      requires Valid()
      modifies this
      ensures Valid()
      ensures State() == Session.SendScreenInfo(old(State()), device)
    {
      if socketPresent && isConnected {
        var width, height := device.width.Floor, device.height.Floor;
        transport := transport + [Write(ScreenInfo(width, height))];
        AddLog(ScreenInfoSent(width, height));
      }
    }

    method HandleMouseEvent(x: Option<real>, y: Option<real>)
      requires Valid()
      modifies this
      ensures Valid()
      ensures State() == HandleMouse(old(State()), device, x.GetOr(0.0), y.GetOr(0.0))
    {
      var px, py := x.GetOr(0.0), y.GetOr(0.0);
      cursorPosition := Point(px, py);
      lastTouch := Point(px, py);
      if device.accessibilityEnabled {
        injected := injected + [InjectTouch(px, py)];
      }
    }

    method HandleClickEvent(x: Option<real>, y: Option<real>, action: Option<string>, injectionOk: bool)
      requires Valid()
      modifies this
      ensures Valid()
      ensures State() == HandleClick(old(State()), device, x.GetOr(0.0), y.GetOr(0.0), action.GetOr(""), injectionOk)
    {
      var px, py, act := x.GetOr(0.0), y.GetOr(0.0), action.GetOr("");
      AddLog(ClickAt(px, py, act));
      if device.accessibilityEnabled && act == ClickDown {
        injected := injected + [InjectClick(px, py)];
        if injectionOk {
          AddLog(TouchInjected(px, py));
        } else {
          AddLog(TouchInjectionFailed);
        }
      }
    }

    method HandleScrollEvent(dx: Option<real>, dy: Option<real>, injectionOk: bool)
      requires Valid()
      modifies this
      ensures Valid()
      ensures State() == HandleScroll(old(State()), device, dx.GetOr(0.0), dy.GetOr(0.0), injectionOk)
    {
      var ddx, ddy := dx.GetOr(0.0), dy.GetOr(0.0);
      AddLog(ScrollBy(ddx, ddy));
      if device.accessibilityEnabled {
        var stroke := ScrollStroke(lastTouch, device.width, device.height, ddx, ddy);
        injected := injected + [InjectScroll(stroke)];
        if injectionOk {
          AddLog(ScrollInjected);
        } else {
          AddLog(ScrollInjectionFailed);
        }
      }
    }

    method HandleKeyboardEvent(key: Option<string>, action: Option<string>)
      requires Valid()
      modifies this
      ensures Valid()
      ensures State() == HandleKeyboard(old(State()), key.GetOr(""), action.GetOr(""))
    {
      AddLog(KeyEvent(action.GetOr(""), key.GetOr("")));
    }

    method Disconnect()
      requires Valid()
      modifies this
      ensures Valid()
      ensures State() == Session.Disconnect(old(State()))
    {
      if socketPresent {
        transport := transport + [Destroy];
        socketPresent := false;
      }
      isConnected := false;
      SetConnectionStatus(Disconnected);
      AddLog(DisconnectedFromDesktop);
    }
  }
}
