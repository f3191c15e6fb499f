/**
 * The WebSocket channel of lib/websocketService.ts: a connection state
 * machine over `isConnecting`, `shouldReconnect`, the reconnect timer and
 * the ready state of the sockets it has created.
 *
 * Everything the browser does on its own schedule (a socket opening,
 * failing, closing, a message arriving, a timer firing) is an event method;
 * the environment calls it with the id of the socket concerned, ids being
 * positions in `sockets`, the list of every socket the service created.
 */
module WebSocketChannel {
  import opened Wrappers
  import opened Utils
  import opened Listeners

  datatype ReadyState = Connecting | Open | Closing | Closed

  /** The fate of a promise. */
  datatype Settlement = Pending | Resolved | Rejected(reason: string)

  /** Resolving or rejecting a promise: only the first settlement takes effect. */
  function Settle(current: Settlement, next: Settlement): Settlement {
    if current.Pending? then next else current
  }

  /** A promise settles once: later settlements change nothing. */
  lemma SettleOnce(p: Settlement, first: Settlement, later: Settlement)
    requires !first.Pending?
    ensures Settle(p, first) != Pending
    ensures Settle(Settle(p, first), later) == Settle(p, first)
  {
  }

  /**
   * One socket the service created: its address, its ready state, the
   * promise of the `connect` call that created it and whether that call's
   * 5000 ms timeout is still to fire.
   */
  datatype Socket = Socket(url: string, state: ReadyState, promise: Settlement, timeoutArmed: bool)

  /** The address `connect` dials: port 81 of the given host, plain `ws`. */
  function Url(ip: string): (url: string)
    ensures |url| == |ip| + 8
    ensures url[..5] == "ws://" && url[5..5 + |ip|] == ip && url[5 + |ip|..] == ":81"
  {
    "ws://" + ip + ":81"
  }

  /** `ws.close()`: a connecting or open socket starts closing; a closing or closed one is left alone. */
  function CloseRequested(s: Socket): (r: Socket)
    ensures r.url == s.url && r.promise == s.promise && r.timeoutArmed == s.timeoutArmed
    ensures r.state == (if s.state == Connecting || s.state == Open then Closing else s.state)
    ensures r.state != Open && r.state != Connecting
  {
    if s.state == Connecting || s.state == Open then s.(state := Closing) else s
  }

  /** What a `connect` call did before returning its promise. */
  datatype ConnectCall =
    | AlreadyConnected
    | Created(socket: nat)
    | Threw

  /** What one incoming WebSocket message makes the listeners receive: the text is decoded as it is, untrimmed. */
  function MessageDeliveries(data: string, listeners: seq<ListenerId>): seq<Delivery> {
    match Parse(data)
    case None => []
    case Some(m) => FanOut(m, listeners)
  }

  class WebSocketService {
    /** The current socket, by id; `None` is `ws === null`. */
    var ws: Option<nat>
    /** Every socket created, in creation order. */
    var sockets: seq<Socket>
    var listeners: seq<ListenerId>
    var reconnectTimer: bool
    /** Reconnect timers scheduled and neither fired nor cancelled. */
    var timersPending: nat
    var ipAddress: string
    var shouldReconnect: bool
    var isConnecting: bool
    /** The commands handed to `ws.send`, in order. */
    var sent: seq<string>
    /** The listener calls made, in order. */
    var delivered: seq<Delivery>

    /**
     * The invariants the service keeps: the current socket exists, at most
     * one reconnect timer is pending and `reconnectTimer` records it, and a
     * pending timer implies reconnecting is still wanted.
     */
    predicate Valid()
      reads this
    {
      && (ws.Some? ==> ws.value < |sockets|)
      && timersPending <= 1
      && (reconnectTimer <==> timersPending == 1)
      && (reconnectTimer ==> shouldReconnect)
    }

    /** `this.ws?.readyState === WebSocket.OPEN` */
    predicate IsOpen()
      reads this
    {
      ws.Some? && ws.value < |sockets| && sockets[ws.value].state == Open
    }

    /** After `disconnect`: no reconnect is wanted and no reconnect timer is pending. */
    predicate Quiet()
      reads this
    {
      !shouldReconnect && !reconnectTimer
    }

    constructor()
      ensures Valid() && ws == None && sockets == [] && listeners == []
      ensures !reconnectTimer && timersPending == 0 && ipAddress == ""
      ensures !shouldReconnect && !isConnecting && sent == [] && delivered == []
    {
      ws, sockets, listeners := None, [], [];
      reconnectTimer, timersPending, ipAddress := false, 0, "";
      shouldReconnect, isConnecting := false, false;
      sent, delivered := [], [];
    }

    /**
     * `connect`: while a connection attempt is under way or the socket is
     * open, nothing changes and the promise resolves true. Otherwise the IP
     * is stored, connecting and reconnecting are switched on, and a socket
     * to `ws://<ip>:81` becomes current, its promise pending and its timeout
     * armed. A constructor that throws clears `isConnecting` and rejects,
     * leaving the current socket as it was.
     */
    method Connect(ip: string, constructorThrows: bool) returns (r: ConnectCall)
      requires Valid()
      modifies this`isConnecting, this`ipAddress, this`shouldReconnect, this`ws, this`sockets
      ensures Valid()
      ensures r.AlreadyConnected? <==> old(isConnecting) || old(IsOpen())
      ensures r.AlreadyConnected? ==>
        && isConnecting == old(isConnecting) && ipAddress == old(ipAddress)
        && shouldReconnect == old(shouldReconnect) && ws == old(ws) && sockets == old(sockets)
      ensures !r.AlreadyConnected? ==> ipAddress == ip && shouldReconnect
      ensures r.Threw? <==> !old(isConnecting) && !old(IsOpen()) && constructorThrows
      ensures r.Threw? ==> !isConnecting && ws == old(ws) && sockets == old(sockets)
      ensures r.Created? ==>
        && r.socket == |old(sockets)| && ws == Some(r.socket) && isConnecting
        && sockets == old(sockets) + [Socket(Url(ip), Connecting, Pending, true)]
    {
      if isConnecting || IsOpen() {
        return AlreadyConnected;
      }
      isConnecting := true;
      ipAddress := ip;
      shouldReconnect := true;
      if constructorThrows {
        isConnecting := false;
        return Threw;
      }
      sockets := sockets + [Socket(Url(ip), Connecting, Pending, true)];
      ws := Some(|sockets| - 1);
      r := Created(|sockets| - 1);
    }

    /** The open event of socket `id`, which the browser fires once, on a connecting socket. */
    method OnOpen(id: nat)
      requires Valid()
      modifies this`isConnecting, this`sockets
      ensures Valid()
      ensures if id < |old(sockets)| && old(sockets)[id].state == Connecting then
          && !isConnecting
          && sockets == old(sockets)[id := old(sockets)[id].(state := Open, promise := Settle(old(sockets)[id].promise, Resolved))]
        else isConnecting == old(isConnecting) && sockets == old(sockets)
    {
      if id < |sockets| && sockets[id].state == Connecting {
        isConnecting := false;
        sockets := sockets[id := sockets[id].(state := Open, promise := Settle(sockets[id].promise, Resolved))];
      }
    }

    /** The error event of socket `id`, fired before its close event: `isConnecting` is cleared and its promise rejected. */
    method OnError(id: nat)
      requires Valid()
      modifies this`isConnecting, this`sockets
      ensures Valid()
      ensures if id < |old(sockets)| && old(sockets)[id].state != Closed then
          && !isConnecting
          && sockets == old(sockets)[id := old(sockets)[id].(promise := Settle(old(sockets)[id].promise, Rejected(ConnectFailed)))]
        else isConnecting == old(isConnecting) && sockets == old(sockets)
    {
      if id < |sockets| && sockets[id].state != Closed {
        isConnecting := false;
        sockets := sockets[id := sockets[id].(promise := Settle(sockets[id].promise, Rejected(ConnectFailed)))];
      }
    }

    /**
     * The close event of socket `id`: the socket is closed, `isConnecting`
     * is cleared and, when reconnecting is wanted, a reconnect is scheduled.
     * The handler acts on the service whichever socket is current.
     */
    method OnClose(id: nat)
      requires Valid()
      modifies this`isConnecting, this`sockets, this`reconnectTimer, this`timersPending
      ensures Valid()
      ensures old(Quiet()) ==> Quiet()
      ensures if id < |old(sockets)| && old(sockets)[id].state != Closed then
          && !isConnecting
          && sockets == old(sockets)[id := old(sockets)[id].(state := Closed)]
          && reconnectTimer == (old(reconnectTimer) || shouldReconnect)
        else isConnecting == old(isConnecting) && sockets == old(sockets) && reconnectTimer == old(reconnectTimer)
    {
      if id < |sockets| && sockets[id].state != Closed {
        sockets := sockets[id := sockets[id].(state := Closed)];
        isConnecting := false;
        if shouldReconnect {
          AttemptReconnect();
        }
      }
    }

    /**
     * The 5000 ms timeout of the `connect` call that created socket `id`.
     * If the CURRENT socket is not open by then, `isConnecting` is cleared,
     * the current socket is asked to close and that call's promise is
     * rejected; `shouldReconnect` is left as it is.
     */
    method OnTimeout(id: nat)
      requires Valid()
      modifies this`isConnecting, this`sockets
      ensures Valid()
      ensures |sockets| == |old(sockets)|
      ensures if id < |old(sockets)| && old(sockets)[id].timeoutArmed then
          if old(IsOpen()) then
            isConnecting == old(isConnecting) && sockets == old(sockets)[id := old(sockets)[id].(timeoutArmed := false)]
          else
            var disarmed := old(sockets)[id := old(sockets)[id].(timeoutArmed := false)];
            var closed := if ws.Some? then disarmed[ws.value := CloseRequested(disarmed[ws.value])] else disarmed;
            && !isConnecting
            && sockets == closed[id := closed[id].(promise := Settle(closed[id].promise, Rejected(TimedOut)))]
        else isConnecting == old(isConnecting) && sockets == old(sockets)
    {
      if id < |sockets| && sockets[id].timeoutArmed {
        sockets := sockets[id := sockets[id].(timeoutArmed := false)];
        if !IsOpen() {
          isConnecting := false;
          if ws.Some? {
            sockets := sockets[ws.value := CloseRequested(sockets[ws.value])];
          }
          sockets := sockets[id := sockets[id].(promise := Settle(sockets[id].promise, Rejected(TimedOut)))];
        }
      }
    }

    /** The message event of socket `id`: the text is decoded and, when it decodes, every listener receives it. */
    method OnSocketMessage(id: nat, data: string)
      requires Valid()
      modifies this`delivered
      ensures Valid()
      ensures delivered == old(delivered) +
        (if id < |sockets| && sockets[id].state == Open then MessageDeliveries(data, listeners) else [])
    {
      if id < |sockets| && sockets[id].state == Open {
        var parsed := Parse(data);
        if parsed.Some? {
          NotifyListeners(parsed.value);
        }
      }
    }

    /** `notifyListeners`: call each listener with the message, in list order. */
    method NotifyListeners(m: Message)
      modifies this`delivered
      ensures delivered == old(delivered) + FanOut(m, listeners)
    {
      var k := 0;
      while k < |listeners|
        invariant 0 <= k <= |listeners|
        invariant delivered == old(delivered) + FanOut(m, listeners[..k])
      {
        assert listeners[..k + 1][..k] == listeners[..k];
        delivered := delivered + [Delivery(listeners[k], m)];
        k := k + 1;
      }
      assert listeners[..|listeners|] == listeners;
    }

    /**
     * `attemptReconnect`: schedules the 5000 ms reconnect timer unless one
     * is already pending or reconnecting is no longer wanted, so that at
     * most one timer is ever pending.
     */
    method AttemptReconnect()
      requires Valid()
      modifies this`reconnectTimer, this`timersPending
      ensures Valid()
      ensures if old(reconnectTimer) || !shouldReconnect then
          reconnectTimer == old(reconnectTimer) && timersPending == old(timersPending)
        else reconnectTimer && timersPending == old(timersPending) + 1
    {
      if reconnectTimer || !shouldReconnect {
        return;
      }
      reconnectTimer := true;
      timersPending := timersPending + 1;
    }

    /**
     * The reconnect timer firing: the timer is cleared, and `connect` runs
     * again with the stored IP when that IP is non-empty and reconnecting is
     * still wanted. Without a pending timer nothing fires.
     */
    method OnReconnectTimer(constructorThrows: bool) returns (r: Option<ConnectCall>)
      requires Valid()
      modifies this`reconnectTimer, this`timersPending, this`isConnecting, this`ipAddress,
               this`shouldReconnect, this`ws, this`sockets
      ensures Valid()
      ensures old(Quiet()) ==> Quiet() && r == None && sockets == old(sockets)
      ensures old(reconnectTimer) ==> !reconnectTimer && timersPending == 0
      ensures r.Some? <==> old(reconnectTimer) && old(ipAddress) != "" && old(shouldReconnect)
      ensures r.None? ==>
        && isConnecting == old(isConnecting) && ipAddress == old(ipAddress) && shouldReconnect == old(shouldReconnect)
        && ws == old(ws) && sockets == old(sockets)
      ensures r == Some(AlreadyConnected) <==> r.Some? && (old(isConnecting) || old(IsOpen()))
      ensures r.Some? && r.value.Created? ==>
        && r.value.socket == |old(sockets)| && ws == Some(r.value.socket) && isConnecting
        && sockets == old(sockets) + [Socket(Url(old(ipAddress)), Connecting, Pending, true)]
    {
      if !reconnectTimer {
        return None;
      }
      reconnectTimer := false;
      timersPending := timersPending - 1;
      if ipAddress != "" && shouldReconnect {
        var call := Connect(ipAddress, constructorThrows);
        return Some(call);
      }
      r := None;
    }

    /**
     * `disconnect`: reconnecting is switched off, a pending reconnect timer
     * is cancelled, and the current socket is asked to close and dropped.
     * `isConnecting` is left as it is, to be cleared by the close event.
     */
    method Disconnect()
      requires Valid()
      modifies this`shouldReconnect, this`reconnectTimer, this`timersPending, this`ws, this`sockets
      ensures Valid() && Quiet()
      ensures timersPending == 0 && ws == None
      ensures sockets == if old(ws).Some? then old(sockets)[old(ws).value := CloseRequested(old(sockets)[old(ws).value])]
                         else old(sockets)
    {
      shouldReconnect := false;
      if reconnectTimer {
        reconnectTimer := false;
        timersPending := timersPending - 1;
      }
      if ws.Some? {
        sockets := sockets[ws.value := CloseRequested(sockets[ws.value])];
        ws := None;
      }
    }

    /**
     * `sendCommand`: rejected with 'WebSocket tidak terhubung' unless the
     * current socket is open; otherwise the command is sent as it is, and a
     * send that throws rejects with its error.
     */
    method SendCommand(command: string, sendError: Option<string>) returns (r: Settlement)
      requires Valid()
      modifies this`sent
      ensures !old(IsOpen()) ==> r == Rejected(NotConnected) && sent == old(sent)
      ensures old(IsOpen()) && sendError.None? ==> r == Resolved && sent == old(sent) + [command]
      ensures old(IsOpen()) && sendError.Some? ==> r == Rejected(sendError.value) && sent == old(sent)
    {
      if !IsOpen() {
        return Rejected(NotConnected);
      }
      if sendError.Some? {
        return Rejected(sendError.value);
      }
      sent := sent + [command];
      r := Resolved;
    }

    /** `onMessage`: the callback joins the end of the list. */
    method OnMessage(cb: ListenerId)
      modifies this`listeners
      ensures listeners == old(listeners) + [cb]
    {
      listeners := listeners + [cb];
    }

    /** The function `onMessage` returns: every entry of the callback leaves the list. */
    method Unsubscribe(cb: ListenerId)
      modifies this`listeners
      ensures listeners == Without(old(listeners), cb)
    {
      listeners := Without(listeners, cb);
    }

    method GetConnectionStatus() returns (open: bool)
      ensures open <==> ws.Some? && ws.value < |sockets| && sockets[ws.value].state == Open
    {
      open := IsOpen();
    }
  }

  const ConnectFailed := "Gagal terhubung ke WebSocket"
  const TimedOut := "Koneksi timeout"
  const NotConnected := "WebSocket tidak terhubung"
}
