/** Session subscriptions of the web client over reconnecting sockets, as values: what every event does to the
    provider's maps and sets, and what every run of events keeps. */
module Subscriptions {
  import opened Wrappers

  type Session = int

  type Handler = int

  type Timer = int

  /** A session message; repair answers are not kept for a missing handler. */
  datatype Message = Message(body: int, repair: bool)

  datatype Ready = Connecting | Open | Closing | Closed

  /** A subscription message on the wire. */
  datatype Out = SubscribeTo(ids: set<Session>) | UnsubscribeFrom(id: Session)

  /** The socket the provider refers to, with the subscription messages sent on it. */
  datatype Connection = NoSocket | Socket(ready: Ready, sent: seq<Out>)

  /** `received` and `delivered` are the history of each session since its last fresh start: the messages that
      arrived for it, and those handed to a handler. */
  datatype View = View(
    handlers: map<Session, Handler>,
    active: set<Session>,
    pending: map<Session, Timer>,
    armed: map<Timer, Session>,
    grace: map<Session, seq<Message>>,
    connection: Connection,
    received: map<Session, seq<Message>>,
    delivered: map<Session, seq<Message>>
  )

  datatype Event =
    | Connect
    | Opens
    | LeavesOpen
    | Closes
    | Subscribe(session: Session, handler: Handler)
    | Cleanup(session: Session, handler: Handler, timer: Timer)
    | Fires(timer: Timer)
    | Receives(session: Session, message: Message)

  function Of(log: map<Session, seq<Message>>, s: Session): seq<Message> {
    if s in log then log[s] else []
  }

  function Send(c: Connection, out: Out): Connection {
    if c.Socket? && c.ready.Open? then c.(sent := c.sent + [out]) else c
  }

  // ----- What each event does. -----

  function Opened(v: View): View
    requires v.connection.Socket?
  {
    var sent := v.connection.sent + if v.active != {} then [SubscribeTo(v.active)] else [];
    v.(grace := map[], connection := Socket(Open, sent), received := map[], delivered := map[])
  }

  /** A handler takes the session over: its timer is cleared and the grace buffer handed to it. */
  function Subscribed(v: View, s: Session, h: Handler): View {
    var w := if s in v.pending then v.(armed := v.armed - {v.pending[s]}, pending := v.pending - {s}) else v;
    var u :=
      if s in w.grace then
        w.(grace := w.grace - {s}, delivered := w.delivered[s := Of(w.delivered, s) + w.grace[s]])
      else w;
    u.(handlers := u.handlers[s := h],
       active := u.active + {s},
       connection := if s in u.active then u.connection else Send(u.connection, SubscribeTo({s})))
  }

  /** Only the current handler's cleanup counts; it arms the unsubscribe timer. */
  function CleanedUp(v: View, s: Session, h: Handler, t: Timer): View {
    if s in v.handlers && v.handlers[s] == h then
      v.(handlers := v.handlers - {s}, armed := v.armed[t := s], pending := v.pending[s := t])
    else v
  }

  function TimerFired(v: View, t: Timer): View
    requires t in v.armed
  {
    var s := v.armed[t];
    var w := v.(armed := v.armed - {t}, pending := v.pending - {s});
    if s in v.handlers then w
    else
      w.(grace := w.grace - {s},
         active := w.active - {s},
         connection := Send(w.connection, UnsubscribeFrom(s)),
         received := w.received - {s},
         delivered := w.delivered - {s})
  }

  /** A message goes to the handler, into the grace buffer of a session that waits for one, or nowhere. */
  function Received(v: View, s: Session, m: Message): View {
    var log := v.received[s := Of(v.received, s) + [m]];
    if s in v.handlers then v.(received := log, delivered := v.delivered[s := Of(v.delivered, s) + [m]])
    else if !m.repair && s in v.active && s in v.pending then
      v.(received := log, grace := v.grace[s := Of(v.grace, s) + [m]])
    else v
  }

  /** What the runtime can do: timers fire only while armed, new timers are new, and messages arrive only on an
      open socket. */
  ghost predicate Possible(v: View, e: Event) {
    match e
    case Connect => true
    case Opens => v.connection.Socket? && v.connection.ready.Connecting?
    case LeavesOpen => v.connection.Socket? && (v.connection.ready.Open? || v.connection.ready.Connecting?)
    case Closes => v.connection.Socket?
    case Subscribe(_, _) => true
    case Cleanup(_, _, t) => t !in v.armed
    case Fires(t) => t in v.armed
    case Receives(_, _) => v.connection.Socket? && v.connection.ready.Open?
  }

  function Step(v: View, e: Event): View
    requires Possible(v, e)
  {
    match e
    case Connect => v.(connection := Socket(Connecting, []))
    case Opens => Opened(v)
    case LeavesOpen => v.(connection := v.connection.(ready := Closing))
    case Closes => v.(connection := NoSocket)
    case Subscribe(s, h) => Subscribed(v, s, h)
    case Cleanup(s, h, t) => CleanedUp(v, s, h, t)
    case Fires(t) => TimerFired(v, t)
    case Receives(s, m) => Received(v, s, m)
  }

  function Start(): View {
    View(map[], {}, map[], map[], map[], NoSocket, map[], map[])
  }

  /** The states of a run, the start included. */
  ghost predicate IsRun(states: seq<View>, events: seq<Event>) {
    && |states| == |events| + 1
    && states[0] == Start()
    && forall i :: 0 <= i < |events| ==> Possible(states[i], events[i]) && states[i + 1] == Step(states[i], events[i])
  }

  // ----- What a server that follows the messages believes. -----

  datatype Belief = Clean(ids: set<Session>) | Confused

  /** Confused as soon as a session is subscribed twice or unsubscribed without being subscribed. */
  function Replay(sent: seq<Out>): Belief {
    if |sent| == 0 then Clean({})
    else
      var before := Replay(sent[..|sent| - 1]);
      if before.Confused? then Confused
      else
        match sent[|sent| - 1]
        case SubscribeTo(ids) => if ids * before.ids == {} then Clean(before.ids + ids) else Confused
        case UnsubscribeFrom(id) => if id in before.ids then Clean(before.ids - {id}) else Confused
  }

  lemma ReplayNext(sent: seq<Out>, out: Out)
    ensures
      var before := Replay(sent);
      Replay(sent + [out]) == if before.Confused? then Confused else
                              match out
                              case SubscribeTo(ids) => (if ids * before.ids == {} then
                                  Clean(before.ids + ids) else Confused)
                              case UnsubscribeFrom(id) => (if id in before.ids then
                                  Clean(before.ids - {id}) else Confused)
  {
  }

  // ----- The invariant. -----

  /** The active sessions are those with a handler and those with a pending timer, and never both. */
  ghost predicate Partitioned(v: View) {
    && v.active == v.handlers.Keys + v.pending.Keys
    && v.handlers.Keys !! v.pending.Keys
  }

  /** The armed timers are exactly the pending ones. */
  ghost predicate TimersMatch(v: View) {
    && (forall t :: t in v.armed ==> v.armed[t] in v.pending && v.pending[v.armed[t]] == t)
    && (forall s :: s in v.pending ==> v.pending[s] in v.armed && v.armed[v.pending[s]] == s)
  }

  /** An open socket's messages, replayed, subscribe exactly the active sessions. */
  ghost predicate Agrees(v: View) {
    AgreesOn(v.connection, v.active)
  }

  ghost predicate AgreesOn(c: Connection, active: set<Session>) {
    c.Socket? ==>
      && (c.ready.Open? ==> Replay(c.sent) == Clean(active))
      && (c.ready.Connecting? ==> c.sent == [])
  }

  /** Nothing is lost or reordered: what was delivered and what waits in the grace buffer make up what arrived. */
  ghost predicate Conserves(v: View) {
    v.grace.Keys <= v.pending.Keys && forall s :: InOrder(v, s)
  }

  ghost predicate InOrder(v: View, s: Session) {
    Of(v.delivered, s) + Of(v.grace, s) == Of(v.received, s)
  }

  ghost predicate Inv(v: View) {
    Partitioned(v) && TimersMatch(v) && Agrees(v) && Conserves(v)
  }

  lemma OpenedKeeps(v: View)
    requires Inv(v) && v.connection.Socket? && v.connection.ready.Connecting?
    ensures Inv(Opened(v))
  {
  }

  lemma SubscribedKeeps(v: View, s: Session, h: Handler)
    requires Inv(v)
    ensures Inv(Subscribed(v, s, h))
  {
    SubscribedConserves(v, s, h);
    SubscribedAgrees(v, s, h);
    var w := Subscribed(v, s, h);
    assert w.handlers.Keys == v.handlers.Keys + {s};
    assert w.pending.Keys == v.pending.Keys - {s};
    SubscribedTimers(v, s, h);
  }

  lemma SubscribedTimers(v: View, s: Session, h: Handler)
    requires TimersMatch(v)
    ensures TimersMatch(Subscribed(v, s, h))
  {
  }

  lemma SubscribedAgrees(v: View, s: Session, h: Handler)
    requires Agrees(v)
    ensures Agrees(Subscribed(v, s, h))
  {
    if s in v.active {
      assert v.active + {s} == v.active;
    } else {
      SubscribingAgrees(v.connection, v.active, s);
    }
  }

  lemma SubscribingAgrees(c: Connection, active: set<Session>, s: Session)
    requires AgreesOn(c, active) && s !in active
    ensures AgreesOn(Send(c, SubscribeTo({s})), active + {s})
  {
  }

  lemma SubscribedConserves(v: View, s: Session, h: Handler)
    requires Conserves(v)
    ensures Conserves(Subscribed(v, s, h))
  {
    var w := Subscribed(v, s, h);
    assert w.grace.Keys == v.grace.Keys - {s};
    assert s !in v.pending ==> s !in v.grace;
    forall x
      ensures InOrder(w, x)
    {
      assert InOrder(v, x);
    }
  }

  lemma CleanedUpKeeps(v: View, s: Session, h: Handler, t: Timer)
    requires Inv(v) && t !in v.armed
    ensures Inv(CleanedUp(v, s, h, t))
  {
    var w := CleanedUp(v, s, h, t);
    assert w.handlers.Keys + w.pending.Keys == v.handlers.Keys + v.pending.Keys;
    forall x
      ensures InOrder(w, x)
    {
      assert InOrder(v, x);
    }
  }

  lemma TimerFiredKeeps(v: View, t: Timer)
    requires Inv(v) && t in v.armed
    ensures Inv(TimerFired(v, t))
  {
    var s := v.armed[t];
    var w := TimerFired(v, t);
    if v.connection.Socket? {
      ReplayNext(v.connection.sent, UnsubscribeFrom(s));
    }
    assert w.pending.Keys == v.pending.Keys - {s} && w.handlers == v.handlers;
    forall x
      ensures InOrder(w, x)
    {
      assert InOrder(v, x);
    }
  }

  lemma ReceivedKeeps(v: View, s: Session, m: Message)
    requires Inv(v)
    ensures Inv(Received(v, s, m))
  {
    ReceivedConserves(v, s, m);
  }

  lemma OneMore(delivered: seq<Message>, waiting: seq<Message>, m: Message)
    ensures delivered + waiting + [m] == delivered + (waiting + [m])
    ensures waiting == [] ==> delivered + waiting + [m] == delivered + [m] + waiting
  {
  }

  lemma ReceivedConserves(v: View, s: Session, m: Message)
    requires Conserves(v) && v.handlers.Keys !! v.pending.Keys
    ensures Conserves(Received(v, s, m))
  {
    var w := Received(v, s, m);
    assert InOrder(v, s);
    ReceivedInOrder(v, s, m);
    forall x | x != s
      ensures InOrder(w, x)
    {
      assert InOrder(v, x);
    }
  }

  lemma ReceivedInOrder(v: View, s: Session, m: Message)
    requires InOrder(v, s) && v.grace.Keys <= v.pending.Keys && v.handlers.Keys !! v.pending.Keys
    ensures InOrder(Received(v, s, m), s)
  {
    OneMore(Of(v.delivered, s), Of(v.grace, s), m);
  }

  /** Which messages are part of a session's history: all of an active session's, except repair answers that arrive
      while it waits for a handler. */
  lemma KeptMessages(v: View, s: Session, m: Message, x: Session)
    requires Inv(v)
    ensures Of(Received(v, s, m).received, x) == Of(v.received, x)
            + if x == s && s in v.active && (s in v.handlers || !m.repair) then [m] else []
  {
  }

  lemma StepKeeps(v: View, e: Event)
    requires Inv(v) && Possible(v, e)
    ensures Inv(Step(v, e))
  {
    match e {
      case Opens => OpenedKeeps(v);
      case Subscribe(s, h) => SubscribedKeeps(v, s, h);
      case Cleanup(s, h, t) => CleanedUpKeeps(v, s, h, t);
      case Fires(t) => TimerFiredKeeps(v, t);
      case Receives(s, m) => ReceivedKeeps(v, s, m);
      case _ => ConnectionKeeps(v, e);
    }
  }

  lemma ConnectionKeeps(v: View, e: Event)
    requires Inv(v) && Possible(v, e) && (e.Connect? || e.LeavesOpen? || e.Closes?)
    ensures Inv(Step(v, e))
  {
    var w := Step(v, e);
    assert w == v.(connection := w.connection);
    forall x
      ensures InOrder(w, x)
    {
      assert InOrder(v, x);
    }
  }

  // ----- Over whole runs. -----

  lemma {:induction false} RunKeepsInv(states: seq<View>, events: seq<Event>, i: nat)
    requires IsRun(states, events) && i < |states|
    ensures Inv(states[i])
    decreases i
  {
    if i > 0 {
      RunKeepsInv(states, events, i - 1);
      StepKeeps(states[i - 1], events[i - 1]);
    }
  }

  /** In every reachable state: the active sessions are the disjoint union of those with a handler and those whose
      unsubscribe timer runs; replaying what was sent on an open socket gives exactly them, without one duplicate;
      and a session with a handler has been handed everything that arrived since the last fresh start, in order. */
  lemma SubscriptionAgreement(states: seq<View>, events: seq<Event>, i: nat)
    requires IsRun(states, events) && i < |states|
    ensures
      var v := states[i];
      && v.active == v.handlers.Keys + v.pending.Keys && v.handlers.Keys !! v.pending.Keys
      && (v.connection.Socket? && v.connection.ready.Open? ==> Replay(v.connection.sent) == Clean(v.active))
      && (forall s :: s in v.handlers ==> Of(v.delivered, s) == Of(v.received, s))
      && (forall s :: s in v.pending ==> Of(v.delivered, s) + Of(v.grace, s) == Of(v.received, s))
  {
    RunKeepsInv(states, events, i);
    var v := states[i];
    forall s | s in v.handlers
      ensures Of(v.delivered, s) == Of(v.received, s)
    {
      assert InOrder(v, s);
    }
    forall s | s in v.pending
      ensures Of(v.delivered, s) + Of(v.grace, s) == Of(v.received, s)
    {
      assert InOrder(v, s);
    }
  }

  // ----- What a run makes of one session, and of the socket, said over its events alone. -----

  /** Who handles the session, the timer it waits for a handler with, and what has arrived for it. */
  datatype Life = Life(handler: Option<Handler>, timer: Option<Timer>, arrived: seq<Message>)

  /** The handler is the last one subscribed, until its own cleanup; then the session waits, until it is subscribed
      again or its timer runs out; what counts as arrived is everything while it is handled and all but repair answers
      while it waits, since the socket opened or the session was last given up. */
  function Lived(l: Life, e: Event, s: Session): Life {
    match e
    case Opens => l.(arrived := [])
    case Subscribe(x, h) => if x == s then Life(Some(h), None, l.arrived) else l
    case Cleanup(x, h, t) => if x == s && l.handler == Some(h) then Life(None, Some(t), l.arrived) else l
    case Fires(t) => if l.timer == Some(t) then Life(None, None, []) else l
    case Receives(x, m) =>
      if x == s && (l.handler.Some? || (l.timer.Some? && !m.repair)) then l.(arrived := l.arrived + [m]) else l
    case _ => l
  }

  function LifeOf(events: seq<Event>, s: Session): Life {
    if events == [] then Life(None, None, [])
    else Lived(LifeOf(events[..|events| - 1], s), events[|events| - 1], s)
  }

  /** The ready state of the socket the provider refers to: the last connected one until it closes. */
  function ReadyOf(events: seq<Event>): Option<Ready> {
    if events == [] then None
    else
      match events[|events| - 1]
      case Connect => Some(Connecting)
      case Opens => Some(Open)
      case LeavesOpen => Some(Closing)
      case Closes => None
      case _ => ReadyOf(events[..|events| - 1])
  }

  ghost predicate LifeFits(v: View, s: Session, l: Life) {
    && l.handler == (if s in v.handlers then Some(v.handlers[s]) else None)
    && l.timer == (if s in v.pending then Some(v.pending[s]) else None)
    && l.arrived == Of(v.received, s)
  }

  predicate ReadyFits(v: View, ready: Option<Ready>) {
    ready == if v.connection.Socket? then Some(v.connection.ready) else None
  }

  lemma SubscribedFits(v: View, x: Session, h: Handler, s: Session, l: Life)
    requires Inv(v) && LifeFits(v, s, l)
    ensures LifeFits(Subscribed(v, x, h), s, Lived(l, Subscribe(x, h), s))
  {
  }

  lemma ReceivedFits(v: View, x: Session, m: Message, s: Session, l: Life)
    requires Inv(v) && LifeFits(v, s, l)
    ensures LifeFits(Received(v, x, m), s, Lived(l, Receives(x, m), s))
  {
    KeptMessages(v, x, m, s);
  }

  lemma StepFitsLife(v: View, e: Event, s: Session, l: Life)
    requires Inv(v) && Possible(v, e) && LifeFits(v, s, l)
    ensures LifeFits(Step(v, e), s, Lived(l, e, s))
  {
    match e {
      case Subscribe(x, h) => SubscribedFits(v, x, h, s, l);
      case Cleanup(x, h, t) =>
      case Fires(t) =>
      case Receives(x, m) => ReceivedFits(v, x, m, s, l);
      case _ =>
    }
  }

  lemma {:induction false} RunFits(states: seq<View>, events: seq<Event>, i: nat, s: Session)
    requires IsRun(states, events) && i < |states|
    ensures LifeFits(states[i], s, LifeOf(events[..i], s)) && ReadyFits(states[i], ReadyOf(events[..i]))
    decreases i
  {
    if i > 0 {
      RunFits(states, events, i - 1, s);
      RunKeepsInv(states, events, i - 1);
      assert events[..i][..i - 1] == events[..i - 1];
      StepFitsLife(states[i - 1], events[i - 1], s, LifeOf(events[..i - 1], s));
    }
  }

  /** In every run, from its events alone: the socket's state; for every session its handler, the timer it waits with,
      and whether it is subscribed; and what its handlers were handed, which is everything that arrived for it while it
      has a handler, and a first part of it while it waits. */
  lemma SessionsAreServed(states: seq<View>, events: seq<Event>, i: nat, s: Session)
    requires IsRun(states, events) && i < |states|
    ensures
      var v, l := states[i], LifeOf(events[..i], s);
      && ReadyOf(events[..i]) == (if v.connection.Socket? then Some(v.connection.ready) else None)
      && l.handler == (if s in v.handlers then Some(v.handlers[s]) else None)
      && l.timer == (if s in v.pending then Some(v.pending[s]) else None)
      && (s in v.active <==> l.handler.Some? || l.timer.Some?)
      && (l.handler.Some? ==> Of(v.delivered, s) == l.arrived && Of(v.grace, s) == [])
      && (l.timer.Some? ==> Of(v.delivered, s) + Of(v.grace, s) == l.arrived)
  {
    RunFits(states, events, i, s);
    SubscriptionAgreement(states, events, i);
    RunKeepsInv(states, events, i);
  }

  /** The events at which the history of a session starts afresh: the socket opens, or its timer runs out while no
      handler has taken it over. */
  ghost predicate StartsAfresh(v: View, e: Event, s: Session)
    requires Possible(v, e)
  {
    e.Opens? || (e.Fires? && v.armed[e.timer] == s)
  }

  /** What is lost, and when: a fresh start drops exactly what waits in the grace buffer, the end of what arrived, and
      only a session waiting for a handler can have anything there; every other event only adds to what arrived and to
      what was delivered. */
  lemma OnlyFreshStartsDrop(v: View, e: Event, s: Session)
    requires Inv(v) && Possible(v, e)
    ensures
      var w := Step(v, e);
      if StartsAfresh(v, e, s) then
        && Of(v.received, s) == Of(v.delivered, s) + Of(v.grace, s)
        && Of(w.received, s) == [] && Of(w.delivered, s) == [] && Of(w.grace, s) == []
      else
        Of(v.received, s) <= Of(w.received, s) && Of(v.delivered, s) <= Of(w.delivered, s)
    ensures Of(v.grace, s) != [] ==> s in v.pending
  {
    assert InOrder(v, s);
  }

  predicate Names(out: Out, s: Session) {
    match out
    case SubscribeTo(ids) => s in ids
    case UnsubscribeFrom(id) => s == id
  }

  /** The sent messages that name a session. */
  function Naming(sent: seq<Out>, s: Session): seq<Out> {
    if |sent| == 0 then []
    else
      var before := Naming(sent[..|sent| - 1], s);
      if Names(sent[|sent| - 1], s) then before + [sent[|sent| - 1]] else before
  }

  lemma SendingAboutOthers(c: Connection, out: Out, s: Session)
    requires c.Socket? && !Names(out, s)
    ensures Send(c, out).Socket? && Naming(Send(c, out).sent, s) == Naming(c.sent, s)
  {
  }

  /** Events on the same connection that do not let the timer of `s` run out. */
  ghost predicate WithinGrace(v: View, e: Event, s: Session) {
    && Possible(v, e)
    && (e.Subscribe? || e.Cleanup? || e.Receives? || (e.Fires? && v.armed[e.timer] != s))
  }

  lemma StepWithinGrace(v: View, e: Event, s: Session)
    requires Inv(v) && s in v.active && v.connection.Socket? && WithinGrace(v, e, s)
    ensures
      var w := Step(v, e);
      s in w.active && w.connection.Socket? && Naming(w.connection.sent, s) == Naming(v.connection.sent, s)
  {
    match e {
      case Subscribe(x, _) =>
        if x !in v.active {
          SendingAboutOthers(v.connection, SubscribeTo({x}), s);
        }
      case Fires(t) => SendingAboutOthers(v.connection, UnsubscribeFrom(v.armed[t]), s);
      case _ =>
    }
  }

  /** Unmounting and mounting a session again within the grace period sends nothing about it, whatever else happens
      in between on the same connection. */
  lemma {:induction false} RemountIsSilent(states: seq<View>, events: seq<Event>, s: Session)
    requires |states| == |events| + 1 && Inv(states[0])
    requires s in states[0].active && states[0].connection.Socket?
    requires forall i :: 0 <= i < |events| ==>
                           && WithinGrace(states[i], events[i], s) && states[i + 1] == Step(states[i], events[i])
    ensures
      var v := states[|events|];
      && Inv(v) && s in v.active && v.connection.Socket?
      && Naming(v.connection.sent, s) == Naming(states[0].connection.sent, s)
    decreases |events|
  {
    if |events| > 0 {
      var n := |events| - 1;
      RemountIsSilent(states[..n + 1], events[..n], s);
      assert WithinGrace(states[n], events[n], s);
      StepWithinGrace(states[n], events[n], s);
      StepKeeps(states[n], events[n]);
    }
  }
}
