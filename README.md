# MouseShare session controller, in Dafny

This project models the session controller of the MouseShare mobile app: the
logic inside the `Index` screen (`app/index.tsx`) that pairs the phone with a
desktop over TCP and turns the desktop's pointer messages into injected
touches, clicks and swipes.

The model has two layers.

- **Pure helpers**, as functions with lemmas:
  - `Endpoint`: the "host:port" text field, `String.prototype.split(":")`, JavaScript's `parseInt(text, 10)` as a prefix parser returning `Option<int>`, and the `|| 5555` fallback.
  - `ActivityLog`: the newest-first log capped at 20 entries.
  - `Gesture`: the swipe a `scroll` message becomes.
- **The session**, as state:
  - `Session` holds the screen's React state and refs as one value. It has one function per handler, giving the state after that handler has run to completion.
  - `Index.Controller` is the same state as a class with mutable fields. Each handler is a method that updates the fields step by step, as the source does. Each method is proved to end in exactly the state the matching `Session` function gives.
  - `Lifecycle` turns the handlers into an event-driven machine (`Step`, `Run`). It proves what holds over any sequence of events.
  - `StaleClosure` models one place where the source, as written, does not do what it evidently intends (see Findings).

Outside effects become parts of the state:
- The TCP transport is a "socket present" flag plus a trace of `Open(endpoint)`, `Write(message)` and `Destroy` operations.
- The native injection module is a trace of `InjectTouch`, `InjectClick` and `InjectScroll` calls. They happen only when the accessibility service is enabled.
- Inbound JSON is a decoded `Inbound` datatype whose optional fields are `Option`s. They default to 0 or "" as the source's destructuring does.
- A chunk or QR payload that `JSON.parse` rejects is `None`.
- Each `addLog` line is a `LogEntry` constructor, one per message template.
- Every `setConnectionStatus` call is also recorded in `statusHistory`, the sequence the screen is notified of.

Where the code differs from the protocol one might expect, the model follows the code:
- There is no separate "pairing" status. The status stays `connecting` until a `pairing_response` arrives.
- Inbound messages are handled in every status, not only when connected.
- `connectToServer` has no status guard. Only the screen hides or disables the Connect button (`app/index.tsx:504`, `app/index.tsx:546`). `Lifecycle.Step` applies that guard.
- A second connect replaces the socket handle without destroying the old one. `Lifecycle.RunKeepsHandleOnlyWhileActive` shows that the screen's guard never lets a connect happen while a handle is held. It speaks of the handle, not of live sockets (see Left out).
- The port is not range-checked. Negative and large values pass through.
- A click does not move the cursor.
- A disabled injection module skips the click silently. The log gets only the "Click at" line.
- The close callback moves to `disconnected` from every status.
- The error callback leaves `isConnected` as it was.

## Model

| member | source | states |
|---|---|---|
| `Endpoint.ParseEndpoint` | app/index.tsx:200-207 | with no ':' the whole text is the host and the port is 5555; otherwise the host is the text before the first ':' (a colon-free prefix followed by ':'); the port is never 0 |
| `Endpoint.EndpointPortSegment` | app/index.tsx:203-206 | for "host:tail" the port is `parseInt` of the tail up to the next ':', with NaN and 0 replaced by 5555 |
| `Endpoint.EndpointOfDecimalPort` | app/index.tsx:200-207 | "host:<numeral of p>" followed by any non-digit text dials (host, p) for every non-zero p, so "h:80abc" and "h:80:90" dial port 80 |
| `Endpoint.EndpointNonNumericPort` | app/index.tsx:203-206 | for every colon-free host, a port piece that is empty or starts with anything but white space, a sign or a digit (NaN) dials port 5555 |
| `Endpoint.EndpointZeroPort` | app/index.tsx:203-206 | for every colon-free host, a port piece of one or more zeros followed by any non-digit text dials port 5555 |
| `Endpoint.EndpointNumeralPort` | app/index.tsx:203-206 | after "host:" and a colon-free numeral, the port is the 5555 fallback of `parseInt` of the numeral and the text after it up to the next ':' |
| `Endpoint.EndpointDigitsPort` | app/index.tsx:200-207 | for every colon-free host, a port piece of digits, leading zeros included, followed by any non-digit text dials the number the digits denote, or 5555 when it is 0 ("h:05555" dials 5555, "h:080x" dials 80) |
| `Endpoint.EndpointSignedPort` | app/index.tsx:200-207 | the same after a '+' or '-': "h:+80" dials 80, "h:-80" dials -80, and a signed zero dials 5555 |
| `Endpoint.ParseIntDigits` | app/index.tsx:206 | `parseInt` reads the number any digit run denotes, leading zeros included, whatever non-digit text follows |
| `Endpoint.ParseSignedDigits` | app/index.tsx:206 | the same after a sign: '+' keeps the number, '-' negates it |
| `Endpoint.ZerosValue` | app/index.tsx:206 | a run of zeros denotes the number 0 |
| `Endpoint.ParseInt` | app/index.tsx:206 | `parseInt(text, 10)`: a number only when a sign or digit follows the leading white space, and a negative number only after a '-'; the number read is given by `Endpoint.ParseIntDigits`, `Endpoint.ParseSignedDigits`, `Endpoint.ParseIntSkipsSpace`, `Endpoint.ParseIntNoDigits` and `Endpoint.ParseIntSignNoDigits` |
| `Endpoint.ParseIntSignNoDigits` | app/index.tsx:206 | a '+' or '-' with no digit after it ("-", "+x", "-:9") reads as NaN |
| `Endpoint.EndpointSignNoDigits` | app/index.tsx:203-206 | for every colon-free host, a port piece that is a bare sign followed by no digit ("h:-", "h:+x", "h:-:9") dials 5555 |
| `Endpoint.PortOrDefault` | app/index.tsx:206 | the 5555 fallback: NaN and 0 become 5555, every non-zero reading is kept, so the port is never 0; with `Endpoint.EndpointPortSegment` this fixes the port of every "host:tail" |
| `Endpoint.Split` | app/index.tsx:204 | the pieces contain no separator; there are two or more exactly when the text has a separator; the first piece is the prefix before the first separator |
| `Endpoint.SplitThenJoin` | app/index.tsx:204 | joining the pieces of a split with the separator gives the text back |
| `Endpoint.JoinThenSplit` | app/index.tsx:204 | splitting a join of separator-free pieces gives the pieces back |
| `Endpoint.SplitAfterFirst` | app/index.tsx:204-205 | splitting "h:t" with a colon-free h gives h followed by the pieces of t |
| `Endpoint.DigitRun` | app/index.tsx:206 | the digits `parseInt` reads are the longest run of decimal digits at the front |
| `Endpoint.ParseIntDecimal` | app/index.tsx:206 | `parseInt` reads back the numeral of every integer, whatever non-digit text follows |
| `Endpoint.ParseIntSkipsSpace` | app/index.tsx:206 | leading white space does not change what `parseInt` reads |
| `Endpoint.ParseIntNoDigits` | app/index.tsx:206 | text starting with no space, sign or digit reads as NaN |
| `ActivityLog.Logged` | app/index.tsx:125-128 | after adding an entry the log starts with it, has min(old length + 1, 20) entries, and continues with the old log's first 19 in order |
| `ActivityLog.LoggedAllWindow` | app/index.tsx:127 | after any number of additions the log is the newest entries, newest first, then the surviving old ones, cut at 20: entries leave oldest first and never reorder |
| `Gesture.ScrollStroke` | app/index.tsx:377-383 | the swipe starts at the last touched point, each zero coordinate replaced by the screen centre; it moves 10·dx right and 50·dy up; start equals end exactly when dx = dy = 0 |
| `Session.Accepts` | app/index.tsx:134-139 | the QR acceptance test itself (app "MouseShare", ip, port and code all non-empty); what acceptance does is stated by `Session.HandleQrScan` and `Lifecycle.QrPayloadDialled` |
| `Session.HandleQrScan` | app/index.tsx:130-157 | an accepted payload (app "MouseShare", ip, port and code non-empty) sets the address to ip + ":" + port and the code to code; a rejected or unparseable one leaves both as they were; nothing else but the log changes |
| `Session.ConnectToServer` | app/index.tsx:174-197 | an empty address or code changes nothing at all (no status change, no socket, no transport operation), and neither does declining to continue without accessibility; with both fields filled in and accessibility on or "Continue Anyway" chosen, the result is exactly `Session.PerformConnection`; any change sets the status to connecting or error; the handler keeps the session invariant |
| `Session.PerformConnection` | app/index.tsx:199-280 | status connecting, then error if the library is missing or no client comes back; the parsed endpoint is opened unless the library is missing; on success the socket is held and the current code is the one to send; cursor, injections and isConnected untouched |
| `Session.TransportConnected` | app/index.tsx:223-235 | writes `pairing` with the code captured at connect time and changes nothing else but the log, so the status stays as it was |
| `Session.DataReceived` | app/index.tsx:242-249 | an unparseable chunk changes only the log |
| `Session.TransportError` | app/index.tsx:251-264 | status error, socket dropped, a destroy issued only when a socket was held; isConnected, cursor and injections untouched |
| `Session.TransportClosed` | app/index.tsx:266-271 | status disconnected, not connected, no socket, and no transport operation |
| `Session.HandleServerMessage` | app/index.tsx:282-320 | "success" connects, notifies exactly connected, and writes exactly one screen_info when a socket is held; a pairing_response changes only status, notifications, isConnected, socket, transport and log, so the form, the captured code, cursor and injections stay; any other pairing status passes through error to disconnected, drops the socket and injects nothing; no other message touches status, socket or transport; keyboard, pong and unknown types change only the log |
| `Session.SendScreenInfo` | app/index.tsx:322-337 | the floored window size is written exactly when a socket is held and isConnected holds; nothing else but the log changes |
| `Session.HandleMouse` | app/index.tsx:339-352 | cursor and last touch both become (x, y); one touch at (x, y) is injected exactly when injection is enabled; no log line |
| `Session.HandleClick` | app/index.tsx:354-369 | one click at (x, y) is injected exactly when injection is enabled and the action is "down"; the cursor never moves; exactly then the newest line is the injection result (success or failure, by `injectionOk`) and the one before it is "Click at" |
| `Session.HandleScroll` | app/index.tsx:371-389 | with injection enabled, one swipe from the last touch as `Gesture.ScrollStroke` gives it; otherwise none; the cursor never moves |
| `Session.HandleKeyboard` | app/index.tsx:391-395 | only the log changes, its newest line being the key event |
| `Session.Disconnect` | app/index.tsx:397-405 | disconnected, not connected, no socket; a destroy issued only when a socket was held; cursor and injections untouched |
| `Lifecycle.Step` | app/index.tsx:504-547 | a Connect press while connected or connecting changes nothing, otherwise it is `Session.ConnectToServer`; a form edit sets only its field |
| `Lifecycle.InitialIsValid` | app/index.tsx:52-68 | the first render satisfies the invariant and holds no socket |
| `Lifecycle.StepKeepsValid` | app/index.tsx:125-405 | every event keeps the log at 20 entries or fewer, the status equal to the last notified one, and connected implying isConnected |
| `Lifecycle.RunKeepsValid` | app/index.tsx:125-405 | the same over every sequence of events |
| `Lifecycle.StepKeepsHandleOnlyWhileActive` | app/index.tsx:504-547 | with Connect offered only while not connected and not connecting, a socket is held only while connecting or isConnected |
| `Lifecycle.RunKeepsHandleOnlyWhileActive` | app/index.tsx:504-547 | the same over every sequence of events |
| `Lifecycle.NoOpenWhileSocketHeld` | app/index.tsx:217-273 | while a socket is held, no event opens another connection |
| `Lifecycle.StepWithoutInjection` | app/index.tsx:339-389 | with the accessibility service off, no event calls the injection module |
| `Lifecycle.RunWithoutInjection` | app/index.tsx:339-389 | the same over every sequence of events |
| `Lifecycle.StepToConnected` | app/index.tsx:282-289 | a step that makes the status connected handles a successful pairing_response |
| `Lifecycle.ConnectedOnlyAfterPairing` | app/index.tsx:282-296 | no run becomes connected without a successful pairing_response among its events: there is no other way past connecting |
| `Lifecycle.DisconnectIdempotent` | app/index.tsx:397-405 | disconnecting twice leaves the same session as once (apart from log and notifications) and destroys nothing more |
| `Lifecycle.QrPayloadDialled` | app/index.tsx:140-206 | after accepting a QR payload with a colon-free ip and a non-zero numeric port, connecting dials exactly (ip, port) |
| `Lifecycle.PairingFromForm` | app/index.tsx:199-330 | filled form, Connect, socket connects, desktop accepts: connected, with transport trace open, pairing(code), screen_info |
| `Lifecycle.PairingScenario` | app/index.tsx:199-330 | the same for "192.168.1.10:5555" and "123456": opened ("192.168.1.10", 5555) |
| `Lifecycle.DisconnectWhileConnecting` | app/index.tsx:397-405 | disconnect while connecting destroys the pending socket and ends disconnected, never having been connected |
| `StaleClosure.SendScreenInfoAsWritten` | app/index.tsx:322-337 | with the captured flag false nothing is sent; with it true a socket gets one screen_info |
| `StaleClosure.PairingSuccessAsWritten` | app/index.tsx:284-289 | as written, a success response connects but, with the flag captured at Connect (false), writes nothing |
| `StaleClosure.ScreenInfoLostAsWritten` | app/index.tsx:282-330 | over a live socket, the as-written success path writes no screen_info while reading the current flag writes exactly one |
| `Index.Controller.constructor` | app/index.tsx:52-68 | the initial fields are the initial session, which is valid |
| `Index.Controller.AddLog` | app/index.tsx:125-128 | the log becomes `ActivityLog.Logged` of the old log; no other field changes |
| `Index.Controller.SetConnectionStatus` | app/index.tsx:54-55 | the status becomes the given one and is appended to the notifications |
| `Index.Controller.EditServerIp` | app/index.tsx:522 | only the address field changes |
| `Index.Controller.EditPairingCode` | app/index.tsx:533 | only the code field changes |
| `Index.Controller.HandleQrScan` | app/index.tsx:130-157 | the fields end as `Session.HandleQrScan` says; the invariant is kept |
| `Index.Controller.ConnectToServer` | app/index.tsx:174-197 | the fields end as `Session.ConnectToServer` says; the invariant is kept |
| `Index.Controller.PerformConnection` | app/index.tsx:199-280 | the fields end as `Session.PerformConnection` says; the invariant is kept |
| `Index.Controller.OnConnect` | app/index.tsx:223-235 | the fields end as `Session.TransportConnected` says |
| `Index.Controller.OnData` | app/index.tsx:242-249 | the fields end as `Session.DataReceived` says |
| `Index.Controller.OnError` | app/index.tsx:251-264 | the fields end as `Session.TransportError` says |
| `Index.Controller.OnClose` | app/index.tsx:266-271 | the fields end as `Session.TransportClosed` says |
| `Index.Controller.HandleServerMessage` | app/index.tsx:282-320 | the fields end as `Session.HandleServerMessage` says; the invariant is kept |
| `Index.Controller.SendScreenInfo` | app/index.tsx:322-337 | the fields end as `Session.SendScreenInfo` says |
| `Index.Controller.HandleMouseEvent` | app/index.tsx:339-352 | the fields end as `Session.HandleMouse` says, missing coordinates read as 0 |
| `Index.Controller.HandleClickEvent` | app/index.tsx:354-369 | the fields end as `Session.HandleClick` says, missing fields read as 0 and "" |
| `Index.Controller.HandleScrollEvent` | app/index.tsx:371-389 | the fields end as `Session.HandleScroll` says, missing deltas read as 0 |
| `Index.Controller.HandleKeyboardEvent` | app/index.tsx:391-395 | the fields end as `Session.HandleKeyboard` says |
| `Index.Controller.Disconnect` | app/index.tsx:397-405 | the fields end as `Session.Disconnect` says; the invariant is kept |

## Left out

- Rendering, styling and the modal QR scanner (`app/index.tsx:415-942`) are presentation only.
- `Alert` and `Linking` dialogs are left out. So is the accessibility-permission prompt. "Continue Anyway" is the `continueAnyway` parameter; "Enable" only opens settings, so it is the same as not continuing.
- The camera permission flow and QR capture are platform I/O. The QR text arrives as an already-decoded `QrPayload`. A JSON field that is not a string (a numeric port, say) is not modelled. A missing field is "", which is just as falsy.
- `JSON.parse` and `JSON.stringify` are library calls. Inbound data arrives decoded; parse failure is `None`. The wire text of outbound messages is not modelled.
- `react-native-tcp-socket` is network I/O, and so are the connect timeout and the library presence check. Each outcome is an input: `Creation` for `createConnection`, and events for the connect, data, error and close callbacks. Callbacks are not tied to the socket that raised them.
- The native `TouchInjection` module (Java) is not part of this model. Its calls appear only as the injection trace. Whether a call succeeds is the `injectionOk` input.
- The accessibility check at mount (`app/index.tsx:85-105`) is left out. So are the mount-time log lines and the unmount cleanup (`app/index.tsx:70-83`, `app/index.tsx:407-413`). Whether injection is enabled is fixed per session in `Device`.
- React semantics are left out: async/await, batching and re-render. Each handler is one atomic step over the fields as the previous steps left them, with two exceptions. First, the pairing code the connect callback sends is the one captured when Connect was pressed (`dialledCode`, `app/index.tsx:228`). Second, the main model reads `isConnected` as just set, which is the corrected read under Findings; only `StaleClosure` reads the flag captured at Connect, as the source does.
- Timestamps and the text of log lines are left out. A log entry is its template and its interpolated values. Rejection messages are not kept.
- `Gesture.ScrollStroke`: coordinates and the window size are mathematical reals, not IEEE doubles. A NaN coordinate (which is falsy) is not modelled.
- `Session.SendScreenInfo`: `Math.floor` is `real.Floor`.
- `Lifecycle.PairingFromForm`, `Lifecycle.PairingScenario`, `Session.HandleServerMessage` and `Index.Controller.HandleServerMessage` follow the corrected read. Their transport traces end in a `screen_info` write, which the source as written never sends (see Findings).
- Callbacks are not tied to the socket that raised them. A close from a socket that was disconnected earlier can arrive after a reconnect. It then clears the new handle (in the source it nulls `socketRef`, `app/index.tsx:266-271`) while the new socket stays open and keeps delivering messages. The model admits that run. `Session.HandleOnlyWhileActive` and the lemmas that keep it speak of the handle, not of open sockets.
- `Endpoint.ParseEndpoint`: the port is an unbounded integer. Digit runs beyond 2^53, which lose precision in JavaScript, are read exactly.

## Findings

| source | as written | input that shows it | evidently intended | confidence | as-written member | corrected member |
|---|---|---|---|---|---|---|
| app/index.tsx:286-289, app/index.tsx:323 | `sendScreenInfo` reads `isConnected` from the closure of the render in which Connect was pressed. The socket's data callback is created there, and that render had `isConnected == false`. `setIsConnected(true)` does not change that captured value. | Connect "192.168.1.10:5555" / "123456", the socket connects, the desktop replies `{"type":"pairing_response","status":"success"}`: no `screen_info` is ever written | right after a successful pairing, one `screen_info` is written over the live socket | high, not executed | `StaleClosure.PairingSuccessAsWritten` (shown by `StaleClosure.ScreenInfoLostAsWritten`) | `Session.HandleServerMessage` |
