/** The protocol's guarantees, each about every state of every run: any interleaving of the sentinel,
    any number of stop clients, dying apps and passing time. */
module LifecycleTheorems {
  import opened DaemonState
  import opened Wrappers
  import opened RestartPolicy
  import opened StopClient
  import opened Lifecycle
  import opened LifecycleInvariant
  import opened LifecycleHistory

  // ----- No orphan. -----

  /** Whenever a sentinel tick ends, on whichever path, the only running app it ever started is the
      one the record names. */
  lemma NoOrphanWhenTickEnds(st: Setup, events: seq<Event>, states: seq<Sys>, i: nat, p: Pid)
    requires IsRun(st, events, states) && i < |states|
    requires states[i].sentinel.TickDone?
    requires p in states[i].spawned && p in states[i].live
    ensures states[i].file.appPid == Some(p) && p !in states[i].killed
  {
    RunKeepsInv(st, events, states, i);
  }

  /** At every moment, even after a stop client terminated the sentinel half-way through a tick: a running
      app the sentinel started is recorded, or still in the hands of a live sentinel about to kill or
      commit it, or was released by a confirmed shutdown. */
  lemma NoOrphanEver(st: Setup, events: seq<Event>, states: seq<Sys>, i: nat, p: Pid)
    requires IsRun(st, events, states) && i < |states|
    requires p in states[i].spawned && p in states[i].live
    ensures var s := states[i];
            || s.file.appPid == Some(p)
            || (Held(s.sentinel) == Some(p) && !s.sentinel.Exited?)
            || (p in s.released && s.file.status.Stopped? && s.sentinel.Exited?)
  {
    RunKeepsInv(st, events, states, i);
  }

  // ----- Lifecycle safety and the race for the record. -----

  /** The k-th write of a run, as a move of the status. */
  predicate LegalMove(from: Status, to: Status) {
    || (from == Running && (to == Running || to == Stopping || to == Fatal))
    || ((from == Stopping || from == Fatal) && to == Stopped)
  }

  lemma LifecycleSafety(st: Setup, events: seq<Event>, states: seq<Sys>, i: nat)
    requires IsRun(st, events, states) && i < |states|
    ensures forall k :: 0 <= k < |states[i].history| ==>
              LegalMove(states[i].history[k].before.status, states[i].history[k].after.status)
    ensures forall k :: 0 <= k < |states[i].history| && !states[i].history[k].after.status.Running? ==>
              k == |states[i].history| - 1 || (k == |states[i].history| - 2 && states[i].file.status.Stopped?)
  {
    RunIsChained(st, events, states, i);
    var h := states[i].history;
    forall k | 0 <= k < |h| ensures LegalMove(h[k].before.status, h[k].after.status) {
      assert LegalWrite(h[k]);
    }
    forall k | 0 <= k < |h| && !h[k].after.status.Running?
      ensures k == |h| - 1 || (k == |h| - 2 && states[i].file.status.Stopped?)
    {
      assert LegalWrite(h[k]);
      if k < |h| - 1 {
        MarkersAreFinal(st, h, states[i].file, k, k + 1);
        assert LegalWrite(h[k + 1]);
      }
    }
  }

  predicate Claims(w: Write) {
    w.kind == RestartMark || w.kind == StopMark
  }

  /** From the same attempt, generation and app, the sentinel's restart and the stop markers of all
      clients together are written at most once; and at most one `stopped` is ever written. */
  lemma ExactlyOneWinner(st: Setup, events: seq<Event>, states: seq<Sys>, i: nat, a: nat, b: nat)
    requires IsRun(st, events, states) && i < |states| && a < b < |states[i].history|
    ensures var h := states[i].history;
            && (Claims(h[a]) && Claims(h[b]) ==>
                  (h[a].before.attempt, h[a].before.generation, h[a].before.appPid)
                  != (h[b].before.attempt, h[b].before.generation, h[b].before.appPid))
            && !(h[a].kind == StoppedMark && h[b].kind == StoppedMark)
  {
    RunIsChained(st, events, states, i);
    var h := states[i].history;
    if Claims(h[a]) && Claims(h[b]) {
      OneWinnerPerGeneration(st, h, states[i].file, a, b);
    }
    MarkersAreFinal(st, h, states[i].file, a, b);
  }

  /** Each generation is recorded with one app, and the recorded app was started with exactly the
      recorded generation. */
  lemma GenerationFencing(st: Setup, events: seq<Event>, states: seq<Sys>, i: nat, a: nat, b: nat)
    requires IsRun(st, events, states) && i < |states| && a < b <= |states[i].history|
    ensures var x, y := Record(st, states[i].history, a), Record(st, states[i].history, b);
            x.generation == y.generation && x.appPid.Some? && y.appPid.Some? ==> x.appPid == y.appPid
    ensures var s := states[i];
            s.file.appPid.Some? ==> WasGiven(st, s, s.file.appPid.value, s.file.generation)
  {
    RunIsChained(st, events, states, i);
    RunKeepsInv(st, events, states, i);
    GenerationsGrow(st, states[i].history, states[i].file, a, b);
  }

  // ----- The restart rate. -----

  /** In every run: restarts of one window number at most maxRestarts and are spaced by their backoffs,
      and any interval as long as the window holds at most 2 * maxRestarts of them. */
  lemma RestartRateBound(st: Setup, events: seq<Event>, states: seq<Sys>, i: nat, a: nat, b: nat)
    requires IsRun(st, events, states) && i < |states|
    requires st.policy.windowMs >= 0
    ensures var h := RestartsOf(states[i].history);
            a < b < |h| ==>
              && (h[a].windowStart == h[b].windowStart ==>
                    && b - a + 1 <= st.policy.maxRestarts
                    && h[a].count < h[b].count
                    && h[b].decidedAt - h[a].committedAt >= PromisedSpacing(st.policy, h[a].count, h[b].count))
              && (h[b].committedAt - h[a].committedAt <= st.policy.windowMs ==> b - a + 1 <= 2 * st.policy.maxRestarts)
  {
    RunIsChained(st, events, states, i);
    RunIsTimed(st, events, states, i);
    var h := RestartsOf(states[i].history);
    if a < b < |h| {
      if h[a].windowStart == h[b].windowStart {
        OneWindowAtMostMax(st.policy, h, a, b);
        BackoffsAccumulate(st.policy, h, a, b);
      }
      if h[b].committedAt - h[a].committedAt <= st.policy.windowMs {
        AnyIntervalAtMostTwiceMax(st.policy, h, a, b);
      }
    }
  }

  /** In every run, what the sentinel decides about the record at any time: a restart is allowed exactly while fewer
      than maxRestarts of those in the history lie in the open window, as the next of them and after the promised
      pause. */
  lemma DecisionFollowsHistory(st: Setup, events: seq<Event>, states: seq<Sys>, i: nat, now: int)
    requires IsRun(st, events, states) && i < |states| && st.policy.windowMs >= 0
    ensures
      var h := RestartsOf(states[i].history);
      var d, made := Decide(st.policy, states[i].file, now), |InOpenWindow(st.policy, h, now)|;
      && (d.allowed <==> made < st.policy.maxRestarts)
      && d.count == made + 1 && d.backoffMs == PromisedPause(st.policy, made + 1)
      && d.windowStart == if made == 0 then now else h[|h| - 1].windowStart
  {
    RunIsTimed(st, events, states, i);
    DecisionIsExact(st.policy, states[i].file, RestartsOf(states[i].history), now);
  }

  // ----- The stop guarantee. -----

  predicate WroteMark(h: seq<Write>, id: nat, k: int) {
    0 <= k < |h| && h[k].kind == StopMark && h[k].actor == ByClient(id)
  }

  predicate WroteStopped(h: seq<Write>, id: nat) {
    |h| > 0 && h[|h| - 1].kind == StoppedMark && h[|h| - 1].actor == ByClient(id)
  }

  /** What a client believes it wrote is in the history. */
  predicate Credited(h: seq<Write>, id: nat, f: Facts) {
    && (f.marked ==> exists k :: 0 <= k < |h| && WroteMark(h, id, k))
    && (f.stopped ==> WroteStopped(h, id))
  }

  predicate AllCredited(s: Sys) {
    forall id :: id in s.clients ==> Credited(s.history, id, s.clients[id].facts)
  }

  /** Once the record is stopped, no event writes it again. */
  lemma StoppedIsForever(st: Setup, s: Sys, e: Event)
    requires Inv(st, s) && Enables(st, s, e) && s.file.status.Stopped?
    ensures var t := Apply(st, s, e); t.file == s.file && t.history == s.history
  {
    EventWritesLegally(st, s, e);
  }

  lemma CreditSurvives(s: Sys, t: Sys, id: nat, f: Facts)
    requires Credited(s.history, id, f) && OneWriteAtMost(s, t)
    requires f.stopped ==> t.history == s.history
    ensures Credited(t.history, id, f)
  {
    if f.marked {
      var k :| 0 <= k < |s.history| && WroteMark(s.history, id, k);
      assert t.history[..|s.history|] == s.history;
      assert WroteMark(t.history, id, k);
    }
  }

  /** A client's act changes its belief only together with the history. */
  lemma ActIsCredited(st: Setup, s: Sys, id: nat, a: Act)
    requires Inv(st, s) && Enables(st, s, ClientStep(id, a))
    ensures var t := ClientNext(s, id, a); var f, g := s.clients[id].facts, t.clients[id].facts;
            && (g.marked ==> f.marked || WroteMark(t.history, id, |t.history| - 1))
            && (g.stopped ==> f.stopped || WroteStopped(t.history, id))
  {
    assert Believes(s.clients[id], a, Advance(s.clients[id], a));
    EffectAppends(s, id, s.clients[id], a);
  }

  lemma EventKeepsCredit(st: Setup, s: Sys, e: Event)
    requires Inv(st, s) && Enables(st, s, e) && AllCredited(s)
    ensures AllCredited(Apply(st, s, e))
  {
    var t := Apply(st, s, e);
    EventWritesLegally(st, s, e);
    if s.file.status.Stopped? {
      StoppedIsForever(st, s, e);
    }
    forall id | id in s.clients ensures Credited(t.history, id, s.clients[id].facts) {
      assert ClientOk(st, s, s.clients[id]);
      CreditSurvives(s, t, id, s.clients[id].facts);
    }
    match e {
      case SentinelStep(ch, note) => SentinelLeavesClients(st, s, ch, note);
      case ClientStep(id, a) => ActIsCredited(st, s, id, a);
      case _ =>
    }
  }

  lemma {:induction false} RunIsCredited(st: Setup, events: seq<Event>, states: seq<Sys>, i: nat)
    requires IsRun(st, events, states) && i < |states|
    ensures AllCredited(states[i])
  {
    if i > 0 {
      RunIsCredited(st, events, states, i - 1);
      RunKeepsInv(st, events, states, i - 1);
      assert Leads(st, events, states, i - 1);
      EventKeepsCredit(st, states[i - 1], events[i - 1]);
    }
  }

  lemma {:induction false} StoppedForGood(st: Setup, events: seq<Event>, states: seq<Sys>, i: nat, j: nat)
    requires IsRun(st, events, states) && i <= j < |states|
    requires states[i].file.status.Stopped?
    ensures states[j].file == states[i].file && states[j].history == states[i].history
    ensures states[i].sentinel.Exited? ==> states[j].sentinel.Exited?
    decreases j
  {
    if i < j {
      StoppedForGood(st, events, states, i, j - 1);
      RunKeepsInv(st, events, states, j - 1);
      assert Leads(st, events, states, j - 1);
      StoppedIsForever(st, states[j - 1], events[j - 1]);
      EventKeeps(st, states[j - 1], events[j - 1]);
    }
  }

  /** The acts of one client in a run, in order. */
  function ActsOf(events: seq<Event>, id: nat): seq<Act> {
    if |events| == 0 then []
    else
      var before := ActsOf(events[..|events| - 1], id);
      var e := events[|events| - 1];
      if e.ClientStep? && e.id == id then before + [e.act] else before
  }

  /** In a run each client is where its own acts lead. */
  ghost predicate FollowsItsActs(s: Sys, id: nat, acts: seq<Act>) {
    if id in s.clients then
      Accepts(NewClient(s.clients[id].strict), acts) && s.clients[id] == After(NewClient(s.clients[id].strict), acts)
    else acts == []
  }

  lemma {:induction false} RunFollowsActs(st: Setup, events: seq<Event>, states: seq<Sys>, i: nat, id: nat)
    requires IsRun(st, events, states) && i < |states|
    ensures FollowsItsActs(states[i], id, ActsOf(events[..i], id))
  {
    if i == 0 {
      assert events[..0] == [];
    } else {
      RunFollowsActs(st, events, states, i - 1, id);
      assert events[..i][..i - 1] == events[..i - 1];
      assert Leads(st, events, states, i - 1);
      EventFollowsActs(st, states[i - 1], events[i - 1], id, ActsOf(events[..i - 1], id));
    }
  }

  lemma EventFollowsActs(st: Setup, s: Sys, e: Event, id: nat, acts: seq<Act>)
    requires Enables(st, s, e) && FollowsItsActs(s, id, acts)
    ensures FollowsItsActs(Apply(st, s, e), id, if e.ClientStep? && e.id == id then acts + [e.act] else acts)
  {
    match e {
      case SentinelStep(ch, note) => SentinelLeavesClients(st, s, ch, note);
      case ClientStep(j, a) =>
        if j == id {
          var c := s.clients[id];
          AcceptsAppend(NewClient(c.strict), acts, a);
          assert Believes(c, a, Advance(c, a));
        }
      case _ =>
    }
  }

  /** When a client begun from `running` sends a shutdown request, the sentinel has exited and the client's stopping
      marker is in the history. */
  lemma RequestComesAfter(st: Setup, events: seq<Event>, states: seq<Sys>, k: nat, id: nat)
    requires IsRun(st, events, states) && k < |events|
    requires events[k].ClientStep? && events[k].id == id && events[k].act.Request?
    requires id in states[k].clients
    requires states[k].clients[id].seen.Some? && states[k].clients[id].seen.value.status.Running?
    ensures states[k].sentinel.Exited?
    ensures exists m :: 0 <= m < |states[k].history| && WroteMark(states[k].history, id, m)
  {
    assert Leads(st, events, states, k);
    RunKeepsInv(st, events, states, k);
    RunIsCredited(st, events, states, k);
    assert ClientOk(st, states[k], states[k].clients[id]);
  }

  /** The order of a stop begun from `running` that reports stopped, over the run: marker, sentinel gone, shutdown
      request, then silence after an accepted request unless the app was seen gone, and the stopped marker last. */
  ghost predicate InOrder(events: seq<Event>, states: seq<Sys>, i: nat, id: nat)
    requires i <= |events| && |states| == |events| + 1 && id in states[i].clients
  {
    var acts, strict := ActsOf(events[..i], id), states[i].clients[id].strict;
    && |acts| > 0 && acts[|acts| - 1] == MarkStopped(true) && GoneAfterMark(acts)
    && (ToldAppGone(acts) || SilentAfterAccepted(acts, strict))
    && (forall k :: 0 <= k < |acts| && acts[k].Request? ==> GoneAfterMark(acts[..k]))
  }

  lemma StopRunsInOrder(st: Setup, events: seq<Event>, states: seq<Sys>, i: nat, id: nat)
    requires IsRun(st, events, states) && i < |states|
    requires id in states[i].clients && ReportsStopped(states[i].clients[id].pc)
    requires states[i].clients[id].seen.Some? && states[i].clients[id].seen.value.status.Running?
    ensures InOrder(events, states, i, id)
  {
    var acts, strict := ActsOf(events[..i], id), states[i].clients[id].strict;
    RunFollowsActs(st, events, states, i, id);
    FirstActReads(strict, acts);
    StopCertificate(strict, acts);
  }

  /** A client past its first read keeps the record it read. */
  lemma {:induction false} SeenIsKept(st: Setup, events: seq<Event>, states: seq<Sys>, k: nat, i: nat, id: nat)
    requires IsRun(st, events, states) && k <= i < |states|
             && id in states[k].clients && !states[k].clients[id].pc.Start?
    ensures id in states[i].clients && !states[i].clients[id].pc.Start?
    ensures states[i].clients[id].seen == states[k].clients[id].seen
    decreases i
  {
    if k < i {
      SeenIsKept(st, events, states, k, i - 1, id);
      assert Leads(st, events, states, i - 1);
      EventKeepsSeen(st, states[i - 1], events[i - 1], id);
    }
  }

  lemma EventKeepsSeen(st: Setup, s: Sys, e: Event, id: nat)
    requires Enables(st, s, e) && id in s.clients && !s.clients[id].pc.Start?
    ensures var t := Apply(st, s, e);
            id in t.clients && !t.clients[id].pc.Start? && t.clients[id].seen == s.clients[id].seen
  {
    match e {
      case SentinelStep(ch, note) => SentinelLeavesClients(st, s, ch, note);
      case ClientStep(j, a) => ActShows(s.clients[j], a);
      case _ =>
    }
  }

  /** A client that has seen a record read it first. */
  lemma FirstActReads(strict: bool, acts: seq<Act>)
    requires Accepts(NewClient(strict), acts) && ReportsStopped(After(NewClient(strict), acts).pc)
    ensures |acts| > 0 && acts[0].Read? && acts[0].latest == After(NewClient(strict), acts).seen
  {
    assert acts != [];
    assert Enabled(NewClient(strict).pc, acts[0]);
    if acts[0].Throw? {
      ThrowEnds(NewClient(strict), acts);
      assert false;
    }
    assert acts[..|acts|] == acts;
    SeenIsFirstRead(strict, acts, |acts|);
  }

  /** What a stop begun from `running` that reports 'stopped' leaves. */
  lemma StopLeaves(st: Setup, events: seq<Event>, states: seq<Sys>, i: nat, id: nat)
    requires IsRun(st, events, states) && i < |states|
    requires id in states[i].clients && ReportsStopped(states[i].clients[id].pc)
    requires states[i].clients[id].seen.Some? && states[i].clients[id].seen.value.status.Running?
    ensures var s, c := states[i], states[i].clients[id];
            && s.file.status.Stopped? && s.sentinel.Exited?
            && WroteStopped(s.history, id)
            && (exists k :: 0 <= k < |s.history| - 1 && WroteMark(s.history, id, k))
            && c.facts.sentinelDead
            && (|| (c.facts.appGone && c.seen.value.appPid.Some? && c.seen.value.appPid.value !in s.live)
                || (c.facts.requested && c.facts.silent && c.facts.cleanup.Some?
                    && Clean(c.facts.cleanup.value, c.strict)))
  {
    var s, c := states[i], states[i].clients[id];
    RunKeepsInv(st, events, states, i);
    assert ClientOk(st, s, c);
    RunIsCredited(st, events, states, i);
    var k :| 0 <= k < |s.history| && WroteMark(s.history, id, k);
    assert 0 <= k < |s.history| - 1;
  }

  /** A stop begun from `running` that reports exit 0 'stopped': it wrote the stopping marker itself and
      then the stopped marker, which is the last write of the run; whenever it sent a shutdown request, its
      marker was written and the sentinel had exited; the app is gone, or it fell silent after a shutdown whose
      evidence is clean; its acts came in that order; and nothing that happens later writes the record or restarts
      the attempt. */
  lemma ComposedStopGuarantee(st: Setup, events: seq<Event>, states: seq<Sys>, i: nat, id: nat, j: nat)
    requires IsRun(st, events, states) && i <= j < |states|
    requires id in states[i].clients && ReportsStopped(states[i].clients[id].pc)
    requires states[i].clients[id].seen.Some? && states[i].clients[id].seen.value.status.Running?
    ensures var s, c := states[i], states[i].clients[id];
            && s.file.status.Stopped? && s.sentinel.Exited?
            && WroteStopped(s.history, id)
            && (exists k :: 0 <= k < |s.history| - 1 && WroteMark(s.history, id, k))
            && c.facts.sentinelDead
            && (|| (c.facts.appGone && c.seen.value.appPid.Some? && c.seen.value.appPid.value !in s.live)
                || (c.facts.requested && c.facts.silent && c.facts.cleanup.Some?
                    && Clean(c.facts.cleanup.value, c.strict)))
    ensures forall k :: 0 <= k < i && events[k].ClientStep? && events[k].id == id && events[k].act.Request? ==>
              states[k].sentinel.Exited? &&
              exists m :: 0 <= m < |states[k].history| && WroteMark(states[k].history, id, m)
    ensures InOrder(events, states, i, id)
    ensures states[j].file == states[i].file && states[j].history == states[i].history && states[j].sentinel.Exited?
  {
    StopRunsInOrder(st, events, states, i, id);
    forall k | 0 <= k < i && events[k].ClientStep? && events[k].id == id && events[k].act.Request?
      ensures states[k].sentinel.Exited? &&
              exists m :: 0 <= m < |states[k].history| && WroteMark(states[k].history, id, m)
    {
      assert Leads(st, events, states, k);
      SeenIsKept(st, events, states, k, i, id);
      RequestComesAfter(st, events, states, k, id);
    }
    StopLeaves(st, events, states, i, id);
    StoppedForGood(st, events, states, i, j);
  }

  /** A process that is gone does not come back: no pid is given out twice. */
  lemma EventKeepsDead(st: Setup, s: Sys, e: Event, p: Pid)
    requires Inv(st, s) && Enables(st, s, e) && p in s.used && p !in s.live
    ensures var t := Apply(st, s, e); p in t.used && p !in t.live
  {
    if e.SentinelStep? {
      SentinelKeeps(st, s, e.choice, e.note);
    }
  }

  lemma {:induction false} DeadStaysDead(st: Setup, events: seq<Event>, states: seq<Sys>, i: nat, j: nat, p: Pid)
    requires IsRun(st, events, states) && i <= j < |states| && p in states[i].used && p !in states[i].live
    ensures p in states[j].used && p !in states[j].live
    decreases j
  {
    if i < j {
      DeadStaysDead(st, events, states, i, j - 1, p);
      RunKeepsInv(st, events, states, j - 1);
      assert Leads(st, events, states, j - 1);
      EventKeepsDead(st, states[j - 1], events[j - 1], p);
    }
  }

  /** In every run, the app that a stop client found on the port of a fatal record and terminated is gone from then
      on. */
  lemma OrphanIsTerminated(st: Setup, events: seq<Event>, states: seq<Sys>, k: nat, j: nat, id: nat, p: Pid)
    requires IsRun(st, events, states) && k < j < |states| && events[k] == ClientStep(id, TerminateOwner(true))
    requires id in states[k].clients && states[k].clients[id].ownerPid == Some(p) && p in states[k].used
    ensures p !in states[j].live
  {
    assert Leads(st, events, states, k);
    DeadStaysDead(st, events, states, k + 1, j, p);
  }

  /** Every marker in the history under a client's name is one the client believes it wrote, unless it threw. */
  ghost predicate Attributed(s: Sys) {
    forall k :: 0 <= k < |s.history| ==> OwnedBy(s, s.history[k])
  }

  ghost predicate OwnedBy(s: Sys, w: Write) {
    w.actor.ByClient? ==>
      && w.actor.id in s.clients
      && var c := s.clients[w.actor.id];
         c.pc == Done(Threw) || (if w.kind == StopMark then c.facts.marked else c.facts.stopped)
  }

  lemma NewWriteIsOwned(st: Setup, s: Sys, id: nat, a: Act)
    requires Inv(st, s) && Enables(st, s, ClientStep(id, a)) && ClientWrite(s, s.clients[id], a).Some?
    ensures OwnedBy(ClientNext(s, id, a), WriteOf(s, id, ClientWrite(s, s.clients[id], a).value))
  {
    assert ClientOk(st, s, s.clients[id]);
    ClientWriteIsLegal(st, s, id, s.clients[id], a);
  }

  /** No client disappears, takes back a belief about its writes, or goes on after a throw. */
  ghost predicate BeliefsGrow(s: Sys, t: Sys) {
    forall id :: id in s.clients ==>
      && id in t.clients
      && (s.clients[id].pc == Done(Threw) ==> t.clients[id].pc == Done(Threw))
      && (s.clients[id].facts.marked ==> t.clients[id].facts.marked)
      && (s.clients[id].facts.stopped ==> t.clients[id].facts.stopped)
  }

  lemma EventGrowsBeliefs(st: Setup, s: Sys, e: Event)
    requires Enables(st, s, e)
    ensures BeliefsGrow(s, Apply(st, s, e))
  {
    match e {
      case SentinelStep(ch, note) => SentinelLeavesClients(st, s, ch, note);
      case ClientStep(id, a) => ActShows(s.clients[id], a);
      case _ =>
    }
  }

  lemma AttributionGrows(s: Sys, t: Sys)
    requires Attributed(s) && BeliefsGrow(s, t) && OneWriteAtMost(s, t)
    requires t.history != s.history ==> OwnedBy(t, t.history[|t.history| - 1])
    ensures Attributed(t)
  {
    forall k | 0 <= k < |t.history|
      ensures OwnedBy(t, t.history[k])
    {
      assert k < |s.history| ==> OwnedBy(s, s.history[k]) && t.history[k] == s.history[k];
    }
  }

  lemma EventKeepsAttribution(st: Setup, s: Sys, e: Event)
    requires Inv(st, s) && Enables(st, s, e) && Attributed(s)
    ensures Attributed(Apply(st, s, e))
  {
    EventWritesLegally(st, s, e);
    EventGrowsBeliefs(st, s, e);
    NewestWriteIsOwned(st, s, e);
    AttributionGrows(s, Apply(st, s, e));
  }

  lemma NewestWriteIsOwned(st: Setup, s: Sys, e: Event)
    requires Inv(st, s) && Enables(st, s, e)
    ensures var t := Apply(st, s, e);
            t.history != s.history ==> |t.history| > 0 && OwnedBy(t, t.history[|t.history| - 1])
  {
    match e {
      case SentinelStep(ch, note) =>
      case ClientStep(id, a) =>
        EffectAppends(s, id, s.clients[id], a);
        if ClientWrite(s, s.clients[id], a).Some? {
          NewWriteIsOwned(st, s, id, a);
        }
      case _ =>
    }
  }

  lemma {:induction false} RunIsAttributed(st: Setup, events: seq<Event>, states: seq<Sys>, i: nat)
    requires IsRun(st, events, states) && i < |states|
    ensures Attributed(states[i])
  {
    if i > 0 {
      RunIsAttributed(st, events, states, i - 1);
      RunKeepsInv(st, events, states, i - 1);
      assert Leads(st, events, states, i - 1);
      EventKeepsAttribution(st, states[i - 1], events[i - 1]);
    }
  }

  /** The losing stop client: "state changed while stopping", "not running" or exit 2 leave no write under its name
      in the history, and among its acts there is no request, no attempted kill and no write. */
  lemma LoserLeavesNothing(st: Setup, events: seq<Event>, states: seq<Sys>, i: nat, id: nat)
    requires IsRun(st, events, states) && i < |states|
    requires id in states[i].clients && RefusesUntouched(states[i].clients[id].pc)
    ensures forall k :: 0 <= k < |states[i].history| ==> states[i].history[k].actor != ByClient(id)
    ensures forall a :: a in ActsOf(events[..i], id) ==> !Touches(a)
  {
    RunKeepsInv(st, events, states, i);
    assert ClientOk(st, states[i], states[i].clients[id]);
    RunIsAttributed(st, events, states, i);
    assert forall k :: 0 <= k < |states[i].history| ==> OwnedBy(states[i], states[i].history[k]);
    RunFollowsActs(st, events, states, i, id);
    RefusalTouchesNothing(states[i].clients[id].strict, ActsOf(events[..i], id));
  }
}
