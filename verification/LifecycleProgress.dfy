/** What the protocol can still do: from every state in which it should be possible, a sentinel that nobody disturbs
    replaces a dead app, and a stop client brings the daemon down. */
module LifecycleProgress {
  import opened DaemonState
  import opened Wrappers
  import opened RestartPolicy
  import opened StopClient
  import opened Lifecycle
  import opened LifecycleInvariant
  import opened Timing

  /** The events can happen one after the other, and where they lead. */
  predicate CanDo(st: Setup, s: Sys, events: seq<Event>)
    decreases |events|
  {
    events == [] || (Enables(st, s, events[0]) && CanDo(st, Apply(st, s, events[0]), events[1..]))
  }

  function Then(st: Setup, s: Sys, events: seq<Event>): Sys
    requires CanDo(st, s, events)
    decreases |events|
  {
    if events == [] then s else Then(st, Apply(st, s, events[0]), events[1..])
  }

  lemma {:induction false} Append(st: Setup, s: Sys, first: seq<Event>, rest: seq<Event>)
    requires CanDo(st, s, first) && CanDo(st, Then(st, s, first), rest)
    ensures CanDo(st, s, first + rest) && Then(st, s, first + rest) == Then(st, Then(st, s, first), rest)
    decreases |first|
  {
    if first == [] {
      assert first + rest == rest;
    } else {
      assert (first + rest)[1..] == first[1..] + rest;
      Append(st, Apply(st, s, first[0]), first[1..], rest);
    }
  }

  lemma OneEvent(st: Setup, s: Sys, e: Event)
    requires Enables(st, s, e)
    ensures CanDo(st, s, [e]) && Then(st, s, [e]) == Apply(st, s, e)
  {
    assert [e][1..] == [];
  }

  lemma OneMore(st: Setup, s: Sys, events: seq<Event>, e: Event)
    requires CanDo(st, s, events) && Enables(st, Then(st, s, events), e)
    ensures CanDo(st, s, events + [e]) && Then(st, s, events + [e]) == Apply(st, Then(st, s, events), e)
  {
    OneEvent(st, Then(st, s, events), e);
    Append(st, s, events, [e]);
  }

  // ----- A restart. -----

  function Goes(): Event {
    SentinelStep(Go, "")
  }

  /** The record is this attempt's and running. */
  predicate Holding(st: Setup, s: Sys) {
    st.pollMs >= 1 && s.file.attempt == st.Attempt() && s.file.status.Running?
  }

  lemma FindsDead(st: Setup, s: Sys) returns (events: seq<Event>)
    requires Holding(st, s) && s.sentinel.Idle? && FileAppDead(s)
    ensures CanDo(st, s, events) && Then(st, s, events) == At(s, StartRestart(st, s, s.file))
  {
    OneEvent(st, s, Goes());
    OneMore(st, s, [Goes()], Goes());
    events := [Goes()] + [Goes()];
  }

  /** The pause, however many slices it takes. */
  lemma {:induction false} Pauses(st: Setup, s: Sys) returns (events: seq<Event>, at: int)
    requires Holding(st, s) && s.sentinel.BackingOff?
    ensures CanDo(st, s, events) && at >= s.clock
    ensures Then(st, s, events)
         == At(s.(clock := at), Rechecking(s.sentinel.seen, s.sentinel.startedAt, s.sentinel.total))
    decreases Max(0, s.sentinel.left)
  {
    var wait := Elapse(Max(0, s.sentinel.wakeAt - s.clock));
    var awake := Apply(st, s, wait);
    OneEvent(st, s, wait);
    OneMore(st, s, [wait], Goes());
    var after := Apply(st, awake, Goes());
    if s.sentinel.left > 0 {
      var rest;
      rest, at := Pauses(st, after);
      Append(st, s, [wait] + [Goes()], rest);
      events := [wait] + [Goes()] + rest;
    } else {
      events, at := [wait] + [Goes()], awake.clock;
    }
  }

  lemma Plans(st: Setup, s: Sys, child: Pid) returns (events: seq<Event>)
    requires Holding(st, s) && s.sentinel.Rechecking? && child !in s.used && Decide(st.policy, s.file, s.clock).allowed
    ensures CanDo(st, s, events)
    ensures Then(st, s, events)
         == Spawn(At(s, Planned(SpawnStep, s.file, Decide(st.policy, s.file, s.clock), s.clock)), child)
  {
    var d := Decide(st.policy, s.file, s.clock);
    OneEvent(st, s, Goes());
    assert Then(st, s, [Goes()]) == At(s, Planned(PreflightStep, s.file, d, s.clock));
    OneMore(st, s, [Goes()], Goes());
    assert Then(st, s, [Goes()] + [Goes()]) == At(s, Planned(SpawnStep, s.file, d, s.clock));
    OneMore(st, s, [Goes()] + [Goes()], SentinelStep(Spawned(child), ""));
    events := [Goes()] + [Goes()] + [SentinelStep(Spawned(child), "")];
  }

  lemma Concludes(st: Setup, s: Sys, child: Pid) returns (events: seq<Event>)
    requires Holding(st, s)
    requires s.sentinel.Planned? && s.sentinel.plan == CommitStep(child) && s.sentinel.latest == s.file
    ensures CanDo(st, s, events)
    ensures var t := Then(st, s, events);
            && t.sentinel == TickDone(Restarted) && t.live == s.live
            && t.file.appPid == Some(child) && t.file.generation == s.file.generation + 1 && t.file.status.Running?
  {
    OneEvent(st, s, Goes());
    var committed := Apply(st, s, Goes());
    assert committed.sentinel == Watching(AwaitReady, child);
    var settles := SentinelStep(Settled(true), "");
    OneMore(st, s, [Goes()], settles);
    assert Apply(st, committed, settles).sentinel == Watching(AfterReady(true), child);
    OneMore(st, s, [Goes()] + [settles], Goes());
    events := [Goes()] + [settles] + [Goes()];
  }

  /** Whenever the sentinel is between two ticks over a running record whose app is dead, and the budget allows it, the
      protocol can go on so that the tick ends with any unused pid recorded as the next generation, and running. */
  lemma RestartIsPossible(st: Setup, s: Sys, child: Pid) returns (events: seq<Event>)
    requires Holding(st, s) && s.sentinel.Idle? && FileAppDead(s) && child !in s.used
    requires Decide(st.policy, s.file, s.clock).allowed
    ensures CanDo(st, s, events)
    ensures var t := Then(st, s, events);
            && t.sentinel == TickDone(Restarted) && child in t.live
            && t.file.appPid == Some(child) && t.file.generation == s.file.generation + 1 && t.file.status.Running?
  {
    events := FindsDead(st, s);
    var t := Then(st, s, events);
    if t.sentinel.BackingOff? {
      var pause, at := Pauses(st, t);
      Append(st, s, events, pause);
      events, t := events + pause, Then(st, t, pause);
    }
    var plan := Plans(st, t, child);
    Append(st, s, events, plan);
    events, t := events + plan, Then(st, t, plan);
    var last := Concludes(st, t, child);
    Append(st, s, events, last);
    events := events + last;
  }

  // ----- A stop. -----

  /** Acts that only look, ask and are answered: nothing but the client changes. */
  predicate OnlyLooks(a: Act) {
    a.Read? || a.SeeApp? || a.SeeSentinel? || a.Validated? || a.SentinelWait? || a.Request? || a.Health?
  }

  /** One more act of a client behind the events so far. */
  lemma Looks(st: Setup, s: Sys, events: seq<Event>, id: nat, a: Act)
    requires CanDo(st, s, events)
    requires var t := Then(st, s, events);
             id in t.clients && Enabled(t.clients[id].pc, a) && OnlyLooks(a) && Truthful(st, t, t.clients[id], a)
    ensures var t := Then(st, s, events);
            && CanDo(st, s, events + [ClientStep(id, a)])
            && Then(st, s, events + [ClientStep(id, a)])
               == t.(clients := t.clients[id := Advance(t.clients[id], a)])
  {
    OneMore(st, s, events, ClientStep(id, a));
  }

  /** The client has validated both processes and is about to write its marker over the record it read. */
  predicate AboutToMark(s: Sys, id: nat) {
    && id in s.clients && s.clients[id].pc == Early(Mark) && !s.clients[id].resuming
    && s.clients[id].seen == Some(s.file) && !s.clients[id].sentinelExited
  }

  predicate Serving(st: Setup, s: Sys) {
    && Holding(st, s) && s.file.mode == Daemon && s.sentinel.Idle?
    && s.file.appPid.Some? && s.file.appPid.value in s.live
  }

  /** It has read the record and seen its app. */
  predicate HasRead(s: Sys, id: nat) {
    && id in s.clients && s.clients[id].pc == Early(ValidateApp) && !s.clients[id].resuming
    && s.clients[id].seen == Some(s.file) && !s.clients[id].sentinelExited
  }

  lemma ReadsAndSees(st: Setup, s: Sys, id: nat, strict: bool) returns (events: seq<Event>)
    requires Serving(st, s) && id !in s.clients
    ensures CanDo(st, s, events)
    ensures var t := Then(st, s, events); t == s.(clients := t.clients) && HasRead(t, id)
  {
    OneEvent(st, s, Join(id, strict));
    events := [Join(id, strict)];
    Looks(st, s, events, id, Read(Some(s.file)));
    events := events + [ClientStep(id, Read(Some(s.file)))];
    Looks(st, s, events, id, SeeApp(true));
    events := events + [ClientStep(id, SeeApp(true))];
  }

  lemma Validates(st: Setup, s: Sys, id: nat) returns (events: seq<Event>)
    requires Serving(st, s) && HasRead(s, id)
    ensures CanDo(st, s, events)
    ensures var t := Then(st, s, events); t == s.(clients := t.clients) && AboutToMark(t, id)
  {
    OneEvent(st, s, ClientStep(id, Validated(true)));
    events := [ClientStep(id, Validated(true))];
    Looks(st, s, events, id, SeeSentinel(true));
    events := events + [ClientStep(id, SeeSentinel(true))];
    Looks(st, s, events, id, Validated(true));
    events := events + [ClientStep(id, Validated(true))];
  }

  /** The marker is written, and the sentinel sees it and leaves. */
  predicate AwaitsSentinel(s: Sys, id: nat) {
    && id in s.clients && s.clients[id].pc == Waiting(WaitCheck) && !s.clients[id].sentinelExited
    && s.clients[id].seen.Some? && s.file == ToStopping(s.clients[id].seen.value, s.file.updatedAt)
  }

  lemma MarksAndLeaves(st: Setup, s: Sys, id: nat) returns (events: seq<Event>)
    requires Serving(st, s) && AboutToMark(s, id)
    ensures CanDo(st, s, events)
    ensures var t := Then(st, s, events);
            AwaitsSentinel(t, id) && t.sentinel.Exited? && t.live == s.live && t.file.appPid == s.file.appPid
            && t.file.mode == Daemon
  {
    var marks := ClientStep(id, MarkStopping(true));
    OneEvent(st, s, marks);
    var marked := Apply(st, s, marks);
    assert marked.file == ToStopping(s.file, s.clock) && marked.sentinel == s.sentinel;
    OneMore(st, s, [marks], Goes());
    assert Apply(st, marked, Goes()) == At(marked, TickDone(LeaveQuietly));
    OneMore(st, s, [marks] + [Goes()], Goes());
    events := [marks] + [Goes()] + [Goes()];
  }

  /** A shutdown response with everything in it. */
  function CleanResponse(): Response {
    var body := Body(Some(true), Some(true), Some("workspace"), Some(0), Some(0), Some(0), Some(WORKSPACE_FLUSH_MARKER),
                    Some(0), Some(0), Some(0), Some(0), Some(0));
    Response(true, 200, false, Some(body))
  }

  lemma CleanIsAccepted(strict: bool)
    ensures ShutdownAccepted(CleanResponse(), strict)
  {
    var path := "workspace";
    assert path[0] == 'w' && !IsSpace(path[0]);
    AcceptedExactly(CleanResponse(), strict);
  }

  lemma SeesAppUp(st: Setup, s: Sys, id: nat) returns (events: seq<Event>)
    requires AwaitsSentinel(s, id) && s.sentinel.Exited?
    requires s.file.appPid.Some? && s.file.appPid.value in s.live
    ensures CanDo(st, s, events)
    ensures var t := Then(st, s, events);
            && t == s.(clients := t.clients) && id in t.clients
            && t.clients[id] == s.clients[id].(pc := Down(SendShutdown), facts := t.clients[id].facts)
  {
    OneEvent(st, s, ClientStep(id, SeeSentinel(false)));
    events := [ClientStep(id, SeeSentinel(false))];
    Looks(st, s, events, id, SeeApp(true));
    events := events + [ClientStep(id, SeeApp(true))];
  }

  lemma ShutsDown(st: Setup, s: Sys, id: nat) returns (events: seq<Event>)
    requires id in s.clients && s.clients[id].pc == Down(SendShutdown) && !s.clients[id].sentinelExited
    ensures CanDo(st, s, events)
    ensures var t := Then(st, s, events);
            && t == s.(clients := t.clients) && id in t.clients
            && t.clients[id].pc == Closing(KillCheck) && t.clients[id].seen == s.clients[id].seen
  {
    CleanIsAccepted(s.clients[id].strict);
    OneEvent(st, s, ClientStep(id, Request(CleanResponse())));
    events := [ClientStep(id, Request(CleanResponse()))];
    Looks(st, s, events, id, Health(true));
    events := events + [ClientStep(id, Health(true))];
  }

  lemma MarksStopped(st: Setup, s: Sys, id: nat) returns (events: seq<Event>)
    requires id in s.clients && s.clients[id].pc == Closing(KillCheck) && s.sentinel.Exited? && s.file.mode == Daemon
    requires s.clients[id].seen.Some? && s.file == ToStopping(s.clients[id].seen.value, s.file.updatedAt)
    ensures CanDo(st, s, events)
    ensures var t := Then(st, s, events);
            && id in t.clients && t.clients[id].pc == Done(StoppedGracefully)
            && t.file.status.Stopped? && t.sentinel.Exited?
  {
    OneEvent(st, s, ClientStep(id, SeeSentinel(false)));
    OneMore(st, s, [ClientStep(id, SeeSentinel(false))], ClientStep(id, MarkStopped(true)));
    events := [ClientStep(id, SeeSentinel(false))] + [ClientStep(id, MarkStopped(true))];
  }

  /** Whenever the daemon serves and the sentinel is between two ticks, a new stop client can bring it down, strict or
      not: the protocol can go on so that the client reports stopped, the record is stopped and the sentinel gone. */
  lemma StopIsPossible(st: Setup, s: Sys, id: nat, strict: bool) returns (events: seq<Event>)
    requires Serving(st, s) && id !in s.clients
    ensures CanDo(st, s, events)
    ensures var t := Then(st, s, events);
            && id in t.clients && t.clients[id].pc == Done(StoppedGracefully)
            && t.file.status.Stopped? && t.sentinel.Exited?
  {
    events := ReadsAndSees(st, s, id, strict);
    var t := Then(st, s, events);
    var validates := Validates(st, t, id);
    Append(st, s, events, validates);
    events, t := events + validates, Then(st, t, validates);
    var marks := MarksAndLeaves(st, t, id);
    Append(st, s, events, marks);
    events, t := events + marks, Then(st, t, marks);
    var sees := SeesAppUp(st, t, id);
    Append(st, s, events, sees);
    events, t := events + sees, Then(st, t, sees);
    var shuts := ShutsDown(st, t, id);
    Append(st, s, events, shuts);
    events, t := events + shuts, Then(st, t, shuts);
    var ends := MarksStopped(st, t, id);
    Append(st, s, events, ends);
    events := events + ends;
  }
}
