/** The subscription half of frontend/src/contexts/WebSocketContext.tsx as the object it is: refs holding maps and
    sets that the handlers change in place, and a socket that may be replaced under them. */
module WebSocketProvider {
  import opened Subscriptions

  /** A browser socket: its ready state and the subscription messages sent on it. */
  class WebSocket {
    var ready: Ready
    var sent: seq<Out>

    constructor ()
      ensures ready == Connecting && sent == []
    {
      ready, sent := Connecting, [];
    }
  }

  class Provider {
    var ws: WebSocket?
    var handlers: map<Session, Handler>
    var active: set<Session>
    var pending: map<Session, Timer>
    var armed: map<Timer, Session>
    var grace: map<Session, seq<Message>>
    ghost var received: map<Session, seq<Message>>
    ghost var delivered: map<Session, seq<Message>>

    ghost function Now(): View
      reads this, ws
    {
      View(handlers, active, pending, armed, grace,
           if ws == null then NoSocket else Socket(ws.ready, ws.sent), received, delivered)
    }

    constructor ()
      ensures Now() == Start()
    {
      ws := null;
      handlers, active, pending, armed, grace := map[], {}, map[], map[], map[];
      received, delivered := map[], map[];
    }

    /** A message is sent if there is an open socket, and otherwise dropped. */
    method Transmit(out: Out)
      modifies ws
      ensures Now() == old(Now()).(connection := Send(old(Now()).connection, out))
    {
      if ws != null && ws.ready == Open {
        ws.sent := ws.sent + [out];
      }
    }

    method Connect() returns (socket: WebSocket)
      modifies this
      ensures fresh(socket) && ws == socket
      ensures Now() == Step(old(Now()), Event.Connect)
    {
      socket := new WebSocket();
      ws := socket;
    }

    /** onopen; of a socket that has been replaced, nothing but its own ready state changes. */
    method OnOpen(socket: WebSocket)
      requires socket.ready == Connecting
      modifies this, socket
      ensures ws == old(ws)
      ensures Now() == if old(ws) == socket then Opened(old(Now())) else old(Now())
    {
      socket.ready := Open;
      if ws != socket {
        return;
      }
      grace := map[];
      received, delivered := map[], map[];
      assert socket.sent + [] == socket.sent;
      if active != {} {
        socket.sent := socket.sent + [SubscribeTo(active)];
      }
    }

    method OnClose(socket: WebSocket)
      modifies this, socket
      ensures Now() == if old(ws) == socket then old(Now()).(connection := NoSocket) else old(Now())
    {
      socket.ready := Closed;
      if ws != socket {
        return;
      }
      ws := null;
    }

    method FlushGraceBuffer(s: Session)
      modifies this`grace, this`delivered
      ensures grace == old(grace) - {s}
      ensures delivered == if s in old(grace) then old(delivered)[s := Of(old(delivered), s) + old(grace)[s]]
                           else old(delivered)
    {
      if s !in grace {
        return;
      }
      var buffered := grace[s];
      grace := grace - {s};
      delivered := delivered[s := Of(delivered, s) + buffered];
    }

    method SubscribeSession(s: Session, h: Handler)
      modifies this, ws
      ensures ws == old(ws)
      ensures Now() == Subscribed(old(Now()), s, h)
    {
      if s in pending {
        armed := armed - {pending[s]};
        pending := pending - {s};
      }
      handlers := handlers[s := h];
      FlushGraceBuffer(s);
      var alreadySubscribed := s in active;
      active := active + {s};
      if !alreadySubscribed {
        Transmit(SubscribeTo({s}));
      }
    }

    /** The cleanup function that SubscribeSession returned for this handler. */
    method CleanUp(s: Session, mine: Handler, timer: Timer)
      modifies this
      ensures ws == old(ws)
      ensures Now() == CleanedUp(old(Now()), s, mine, timer)
    {
      if s in handlers && handlers[s] == mine {
        handlers := handlers - {s};
        armed := armed[timer := s];
        pending := pending[s := timer];
      }
    }

    method OnTimer(timer: Timer)
      requires timer in armed
      modifies this, ws
      ensures ws == old(ws)
      ensures Now() == TimerFired(old(Now()), timer)
    {
      var s := armed[timer];
      armed := armed - {timer};
      pending := pending - {s};
      if s in handlers {
        return;
      }
      grace := grace - {s};
      active := active - {s};
      received, delivered := received - {s}, delivered - {s};
      Transmit(UnsubscribeFrom(s));
    }

    method BufferGraceMessage(s: Session, m: Message)
      modifies this`grace
      ensures grace == old(grace)[s := Of(old(grace), s) + [m]]
    {
      var current := if s in grace then grace[s] else [];
      grace := grace[s := current + [m]];
    }

    /** onmessage; messages of a replaced socket are ignored. */
    method OnMessage(socket: WebSocket, s: Session, m: Message)
      modifies this
      ensures ws == old(ws)
      ensures Now() == if old(ws) == socket then Received(old(Now()), s, m) else old(Now())
    {
      if ws != socket {
        return;
      }
      if s !in handlers {
        if m.repair {
          return;
        }
        if s in active && s in pending {
          received := received[s := Of(received, s) + [m]];
          BufferGraceMessage(s, m);
        }
        return;
      }
      received := received[s := Of(received, s) + [m]];
      delivered := delivered[s := Of(delivered, s) + [m]];
    }
  }
}
