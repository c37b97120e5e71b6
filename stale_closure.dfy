/**
 * sendScreenInfo as the screen actually runs it. The socket's data callback
 * is created inside performConnection, so handleServerMessage and
 * sendScreenInfo read `isConnected` from the render in which Connect was
 * pressed, not the value setIsConnected(true) has just asked for.
 */
module StaleClosure {
  import opened Wrappers
  import opened Session
  import opened Lifecycle

  /** sendScreenInfo reading `isConnected` as captured by the callback. */
  function SendScreenInfoAsWritten(s: SessionState, d: Device, capturedIsConnected: bool): (r: SessionState)
    ensures !capturedIsConnected ==> r == s
    ensures capturedIsConnected ==>
      r.transport == s.transport + (if s.socket then [Write(ScreenInfo(d.width.Floor, d.height.Floor))] else [])
  {
    if s.socket && capturedIsConnected then
      var w, h := d.width.Floor, d.height.Floor;
      AddLog(s.(transport := s.transport + [Write(ScreenInfo(w, h))]), ScreenInfoSent(w, h))
    else s
  }

  /** The success branch of handleServerMessage with the captured flag. */
  function PairingSuccessAsWritten(s: SessionState, d: Device, capturedIsConnected: bool): (r: SessionState)
    ensures r.status == Connected && r.isConnected
    ensures !capturedIsConnected ==> r.transport == s.transport
  {
    SendScreenInfoAsWritten(AddLog(SetStatus(s.(isConnected := true), Connected), PairedWithDesktop), d,
                            capturedIsConnected)
  }

  /**
   * Connect can only be pressed while not connected, so the callback captured
   * `false`; when the desktop then accepts the code over a live socket, the
   * code as written sends no screen_info, while reading the current flag
   * sends exactly one.
   */
  lemma ScreenInfoLostAsWritten(atConnect: SessionState, s: SessionState, d: Device)
    requires ConnectAvailable(atConnect)
    requires s.socket
    ensures PairingSuccessAsWritten(s, d, atConnect.isConnected).transport == s.transport
    ensures HandleServerMessage(s, d, PairingResponse(Some(PairingSuccess)), true).transport
         == s.transport + [Write(ScreenInfo(d.width.Floor, d.height.Floor))]
  {
  }
}
