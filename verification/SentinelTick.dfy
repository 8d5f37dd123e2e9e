/** One tick of the sentinel in the form the source has it: reads, compare-and-sets, sleeps and early exits, with
    every other process free to act between two of its operations, and any operation free to throw. The code is
    proved to be a run of the Lifecycle machine, so what holds of every run holds of it. */
module SentinelTick {
  import opened DaemonState
  import opened Wrappers
  import opened RestartPolicy
  import opened Lifecycle
  import opened Timing
  import LifecycleInvariant
  import LifecycleTheorems
  import opened TickOutcomes

  const READINESS_HEARTBEAT_REFRESH_MS := 5000

  lemma RunExtends(st: Setup, events: seq<Event>, states: seq<Sys>, e: Event)
    requires IsRun(st, events, states) && Enables(st, states[|events|], e)
    ensures IsRun(st, events + [e], states + [Apply(st, states[|events|], e)])
  {
    var more, later := events + [e], states + [Apply(st, states[|events|], e)];
    forall i | 0 <= i < |more|
      ensures Leads(st, more, later, i)
    {
      assert i < |events| ==> Leads(st, events, states, i);
    }
  }

  /** The shared world: the record, the processes and the clock, and the run that led here. */
  class Machine {
    const st: Setup
    var sys: Sys
    ghost var events: seq<Event>
    ghost var states: seq<Sys>
    ghost var log: TickLog

    constructor (st: Setup, start: Sys)
      requires Init(st, start)
      ensures this.st == st && sys == start && Follows()
    {
      this.st, sys := st, start;
      events, states, log := [], [start], NOTHING;
    }

    ghost predicate Follows()
      reads this
    {
      IsRun(st, events, states) && states[|states| - 1] == sys && log == LogOf(events, states, |events|)
    }

    method Happens(e: Event)
      requires Follows() && Enables(st, sys, e)
      modifies this
      ensures Follows() && sys == Apply(st, old(sys), e) && log == Noted(old(log), old(sys), e, sys)
    {
      sys := Apply(st, sys, e);
      RunExtends(st, events, states, e);
      LogOfPrefix(events, states, e, sys, |events|);
      events := events + [e];
      states := states + [sys];
      log := LogOf(events, states, |events|);
    }

    /** Stop clients act, apps die and time passes, for any number of steps that leave the sentinel running. */
    method Others()
      requires Follows()
      modifies this
      ensures Follows() && sys.sentinel == old(sys.sentinel) && log == old(log)
    {
      var n :| n >= 0;
      while n > 0
        invariant Follows() && sys.sentinel == old(sys.sentinel) && log == old(log)
      {
        var e: Event := *;
        if !e.SentinelStep? && Enables(st, sys, e) && Apply(st, sys, e).sentinel == sys.sentinel {
          Happens(e);
        }
        n := n - 1;
      }
    }

    method Sleep(ms: int)
      requires Follows()
      modifies this
      ensures Follows() && sys.sentinel == old(sys.sentinel) && sys.clock >= old(sys.clock) + ms && log == old(log)
    {
      var wakeAt := sys.clock + ms;
      Others();
      if sys.clock < wakeAt {
        Happens(Elapse(wakeAt - sys.clock));
      }
    }

    /** The sentinel's own step: the code says what the record and the processes are to be. */
    method Acts(choice: Choice, note: string, file: State, live: set<Pid>)
      requires Follows() && SentinelEnabled(st, sys, choice)
      requires SentinelNext(st, sys, choice, note).file == file && SentinelNext(st, sys, choice, note).live == live
      modifies this
      ensures Follows() && sys == SentinelNext(st, old(sys), choice, note)
      ensures !choice.Spawned? && !old(sys.sentinel).Idle? ==> log.child == old(log.child)
      ensures choice.Settled? ==> log.ready == Some(choice.ok)
    {
      Happens(SentinelStep(choice, note));
    }

    /** A step that only reads or computes. */
    method Moves(choice: Choice)
      requires Follows() && SentinelEnabled(st, sys, choice)
      requires SentinelNext(st, sys, choice, "").file == sys.file && SentinelNext(st, sys, choice, "").live == sys.live
      modifies this
      ensures Follows() && sys == SentinelNext(st, old(sys), choice, "")
      ensures !choice.Spawned? && !old(sys.sentinel).Idle? ==> log.child == old(log.child)
      ensures choice.Settled? ==> log.ready == Some(choice.ok)
    {
      Acts(choice, "", sys.file, sys.live);
    }
  }

  function Written(update: Option<State>, file: State): State {
    if update.Some? then update.value else file
  }

  datatype Settled = Leaves | Goes | Throws(stage: FatalStage)

  /** Who refreshes the heartbeat: the tick itself, or the readiness wait of a restart. */
  datatype Beating = InTick(seen: State) | InWait(pid: Pid)

  function BeatReads(b: Beating, now: int): SentinelPc {
    if b.InTick? then Ticking(BeatRead(now), b.seen) else Watching(ReadyBeatRead(now), b.pid)
  }

  function BeatEnds(b: Beating, r: Settled): SentinelPc {
    match r
    case Leaves => TickDone(LeaveQuietly)
    case Goes => if b.InTick? then TickDone(Continue) else Watching(AwaitReady, b.pid)
    case Throws(stage) => if b.InTick? then Crashed else Killing(Thrown(stage), b.pid)
  }

  method RefreshHeartbeat(m: Machine, b: Beating, now: int) returns (r: Settled)
    requires m.Follows() && m.sys.sentinel == BeatReads(b, now)
    modifies m
    ensures m.Follows() && m.sys.sentinel == BeatEnds(b, r)
    ensures m.log.child == old(m.log.child)
  {
    m.Others();
    var stage: FatalStage, fails: bool := *, *;
    if fails {
      m.Moves(Fails(stage, false));
      return Throws(stage);
    }
    var state := m.sys.file;
    m.Moves(Go);
    if ShouldExit(Some(state), m.st.Attempt()) {
      return Leaves;
    }
    if state.status != Running {
      return Goes;
    }
    m.Others();
    var update := HeartbeatUpdate(Some(m.sys.file), m.st.Attempt(), now);
    fails := *;
    if fails {
      var wrote: bool := *;
      m.Acts(Fails(stage, wrote), "", if wrote then Written(update, m.sys.file) else m.sys.file, m.sys.live);
      return Throws(stage);
    }
    m.Acts(Go, "", Written(update, m.sys.file), m.sys.live);
    return if update.Some? then Goes else Leaves;
  }

  /** The fatal marker. `Goes` stands for a marker that was written. */
  method MarkFatalState(m: Machine, stage: FatalStage, message: string) returns (r: Settled)
    requires m.Follows() && m.sys.sentinel.WritingFatal? && m.sys.sentinel.stage == stage
    modifies m
    ensures m.Follows()
    ensures m.sys.sentinel == match r
                              case Goes => TickDone(FatalWritten)
                              case Leaves => TickDone(LeaveQuietly)
                              case Throws(error) =>
                                if old(m.sys.sentinel.retry).None? then Crashed
                                else Killing(Thrown(error), old(m.sys.sentinel.retry.value))
    ensures m.log.child == old(m.log.child)
  {
    m.Others();
    var update := FatalUpdate(Some(m.sys.file), m.st.Attempt(), stage, message, None, m.sys.clock);
    var fails: bool := *;
    if fails {
      var error: FatalStage, wrote: bool := *, *;
      m.Acts(Fails(error, wrote), message, if wrote then Written(update, m.sys.file) else m.sys.file, m.sys.live);
      return Throws(error);
    }
    m.Acts(Go, message, Written(update, m.sys.file), m.sys.live);
    return if update.Some? then Goes else Leaves;
  }

  /** The handler of the loop around the ticks. */
  method CrashOut(m: Machine) returns (r: Outcome)
    requires m.Follows() && m.sys.sentinel.Crashed?
    modifies m
    ensures m.Follows() && m.sys.sentinel == TickDone(r) && r == Crash
    ensures m.log.child == old(m.log.child)
  {
    m.Others();
    var message: string, fails: bool, wrote: bool := *, *, *;
    var update := FatalUpdate(Some(m.sys.file), m.st.Attempt(), SentinelRuntime, message, None, m.sys.clock);
    m.Acts(if fails then Fails(SentinelRuntime, wrote) else Go, message,
           if fails && !wrote then m.sys.file else Written(update, m.sys.file), m.sys.live);
    return Crash;
  }

  /** A fatal marker with nothing left to kill. */
  method LeaveFatal(m: Machine, stage: FatalStage, message: string) returns (r: Outcome)
    requires m.Follows() && m.sys.sentinel == WritingFatal(stage, None)
    modifies m
    ensures m.Follows() && m.sys.sentinel == TickDone(r)
    ensures m.log.child == old(m.log.child)
  {
    var marked := MarkFatalState(m, stage, message);
    match marked {
      case Goes => return FatalWritten;
      case Leaves => return LeaveQuietly;
      case Throws(_) => r := CrashOut(m);
    }
  }

  method Kill(m: Machine)
    requires m.Follows() && m.sys.sentinel.Killing?
    modifies m
    ensures m.Follows()
    ensures m.sys.sentinel == match old(m.sys.sentinel.kill)
                              case Uncommitted => TickDone(LeaveQuietly)
                              case Unready => WritingFatal(AppStartup, Some(old(m.sys.sentinel.pid)))
                              case Thrown(stage) => WritingFatal(stage, None)
    ensures m.log.child == old(m.log.child)
    ensures old(m.sys.sentinel.pid) in m.sys.killed
  {
    var pid := m.sys.sentinel.pid;
    m.Others();
    m.Acts(Go, "", m.sys.file, m.sys.live - {pid});
  }

  /** The catch block around spawn, commit and readiness. */
  method KillAndLeaveFatal(m: Machine, stage: FatalStage, message: string) returns (r: Outcome)
    requires m.Follows() && m.sys.sentinel.Killing? && m.sys.sentinel.kill == Thrown(stage)
    modifies m
    ensures m.Follows() && m.sys.sentinel == TickDone(r)
    ensures m.log.child == old(m.log.child)
  {
    Kill(m);
    r := LeaveFatal(m, stage, message);
  }

  lemma OneSliceMore(slices: nat, pollMs: int)
    ensures (slices + 1) * pollMs == slices * pollMs + pollMs
  {
  }

  /** The backoff in slices, with a read after each: it goes on exactly when every read was live, and then it slept
      exactly the backoff; otherwise the last read is the first that told it to leave. `seen` are the records read. */
  method WaitForRestartBackoff(m: Machine, decided: State, startedAt: int, backoffMs: int)
    returns (r: Settled, ghost slept: int, ghost seen: seq<State>)
    requires m.Follows() && startedAt == m.sys.clock && m.st.WellFormed()
    requires m.sys.sentinel == BackoffPc(m.st, decided, startedAt, backoffMs, startedAt, backoffMs)
    modifies m
    ensures m.Follows()
    ensures m.sys.sentinel == match r
                              case Goes => Rechecking(decided, startedAt, backoffMs)
                              case Leaves => TickDone(LeaveQuietly)
                              case Throws(_) => Crashed
    ensures r.Goes? ==> slept == Max(0, backoffMs)
    ensures !r.Throws? ==> slept == Min(Max(0, backoffMs), |seen| * m.st.pollMs)
    ensures forall k :: 0 <= k < |seen| ==> (MustLeave(m.st, seen[k]) <==> r.Leaves? && k == |seen| - 1)
    ensures r.Leaves? ==> |seen| > 0
  {
    var remaining := backoffMs;
    slept, seen := 0, [];
    while remaining > 0
      invariant m.Follows()
      invariant m.sys.sentinel == BackoffPc(m.st, decided, startedAt, backoffMs, m.sys.clock, remaining)
      invariant slept == backoffMs - remaining
      invariant remaining > 0 ==> slept == |seen| * m.st.pollMs
      invariant remaining <= 0 ==> remaining == Min(0, backoffMs) && Max(0, backoffMs) <= |seen| * m.st.pollMs
      invariant forall k :: 0 <= k < |seen| ==> !MustLeave(m.st, seen[k])
    {
      var current := Min(remaining, m.st.pollMs);
      m.Sleep(current);
      slept, remaining := slept + current, remaining - current;
      OneSliceMore(|seen|, m.st.pollMs);
      var stage: FatalStage, fails: bool := *, *;
      if fails {
        m.Moves(Fails(stage, false));
        return Throws(stage), slept, seen;
      }
      var latest := m.sys.file;
      seen := seen + [latest];
      m.Moves(Go);
      if MustLeave(m.st, latest) {
        return Leaves, slept, seen;
      }
    }
    return Goes, slept, seen;
  }

  /** Where the step system is at the head of the backoff loop. */
  function BackoffPc(st: Setup, decided: State, startedAt: int, backoffMs: int, now: int, remaining: int): SentinelPc {
    if remaining <= 0 then Rechecking(decided, startedAt, backoffMs)
    else BackingOff(decided, startedAt, backoffMs, now + Slice(st, remaining), remaining - Slice(st, remaining))
  }

  /** A look at the record during the readiness wait: when, and whether the heartbeat was due. */
  datatype Look = Look(at: int, beat: bool)

  function LastBeat(polls: seq<Look>, start: int): int {
    if polls == [] then start
    else if polls[|polls| - 1].beat then polls[|polls| - 1].at
    else LastBeat(polls[..|polls| - 1], start)
  }

  /** The heartbeat is due exactly when the last one, or the start, is long enough ago. */
  predicate BeatsInTime(polls: seq<Look>, start: int) {
    forall k :: 0 <= k < |polls| ==>
      (polls[k].beat <==> polls[k].at - LastBeat(polls[..k], start) >= READINESS_HEARTBEAT_REFRESH_MS)
  }

  lemma OnePollMore(polls: seq<Look>, start: int, p: Look)
    requires BeatsInTime(polls, start)
    requires p.beat <==> p.at - LastBeat(polls, start) >= READINESS_HEARTBEAT_REFRESH_MS
    ensures BeatsInTime(polls + [p], start)
    ensures LastBeat(polls + [p], start) == if p.beat then p.at else LastBeat(polls, start)
  {
    var more := polls + [p];
    forall k | 0 <= k < |more|
      ensures more[k].beat <==> more[k].at - LastBeat(more[..k], start) >= READINESS_HEARTBEAT_REFRESH_MS
    {
      assert more[..k] == polls[..k];
    }
    assert more[..|polls|] == polls;
  }

  /** Polls the record, and keeps the heartbeat fresh, until readiness settles or the record says to leave. */
  method WaitForReadinessWithStatePolling(m: Machine, pid: Pid) returns (r: Settled, ok: bool, ghost polls: seq<Look>)
    requires m.Follows() && m.sys.sentinel == Watching(AwaitReady, pid)
    modifies m
    ensures m.Follows()
    ensures m.sys.sentinel == match r
                              case Goes => Watching(AfterReady(ok), pid)
                              case Leaves => TickDone(LeaveQuietly)
                              case Throws(stage) => Killing(Thrown(stage), pid)
    ensures m.log.child == old(m.log.child)
    ensures r.Goes? ==> m.log.ready == Some(ok)
    ensures BeatsInTime(polls, old(m.sys.clock))
  {
    ok, polls := false, [];
    var times :| times >= 0;
    var lastHeartbeatAt := m.sys.clock;
    while times > 0
      invariant m.Follows() && m.sys.sentinel == Watching(AwaitReady, pid) && m.log.child == old(m.log.child)
      invariant BeatsInTime(polls, old(m.sys.clock)) && lastHeartbeatAt == LastBeat(polls, old(m.sys.clock))
    {
      m.Sleep(m.st.pollMs);
      times := times - 1;
      var stage: FatalStage, fails: bool := *, *;
      if fails {
        m.Moves(Fails(stage, false));
        return Throws(stage), false, polls;
      }
      var leaving := MustLeave(m.st, m.sys.file);
      var now := m.sys.clock;
      var beat := now - lastHeartbeatAt >= READINESS_HEARTBEAT_REFRESH_MS;
      OnePollMore(polls, old(m.sys.clock), Look(now, beat));
      polls := polls + [Look(now, beat)];
      m.Moves(Poll(beat));
      if leaving {
        return Leaves, false, polls;
      }
      if beat {
        lastHeartbeatAt := now;
        r := RefreshHeartbeat(m, InWait(pid), now);
        if !r.Goes? {
          return;
        }
      }
    }
    m.Others();
    var error: FatalStage, rejected: bool := *, *;
    if rejected {
      m.Moves(Fails(error, false));
      return Throws(error), false, polls;
    }
    ok := *;
    m.Moves(Settled(ok));
    r := Goes;
  }

  /** From the committed restart to the end of the tick. It is reported exactly when its app got ready, nothing threw
      and the record was not taken over, and then the app is not killed; an app that did not get ready is, and leaves
      the record fatal because of it unless that was taken over. */
  method FinishRestart(m: Machine, pid: Pid, message: string) returns (r: Outcome)
    requires m.Follows() && m.sys.sentinel == Watching(AwaitReady, pid)
    modifies m
    ensures m.Follows() && m.sys.sentinel == TickDone(r)
    ensures m.log.child == Some(pid) && Lawful(m.st, m.log, m.sys, r)
    ensures r == Restarted <==> m.log.ready == Some(true) && m.log.failure.None? && Live(m.log)
    ensures r == Restarted ==> pid !in m.sys.killed
    ensures forall ok :: SettledFor(m.log, pid, ok) ==> SettledEnding(m.log, m.sys, pid, ok, r)
  {
    RunFits(m.st, m.events, m.states, |m.events|);
    r := AwaitAndConclude(m, pid, message);
    RunFits(m.st, m.events, m.states, |m.events|);
  }

  method AwaitAndConclude(m: Machine, pid: Pid, message: string) returns (r: Outcome)
    requires m.Follows() && m.sys.sentinel == Watching(AwaitReady, pid)
    modifies m
    ensures m.Follows() && m.sys.sentinel == TickDone(r)
    ensures m.log.child == old(m.log.child)
  {
    var settled, ok, polls := WaitForReadinessWithStatePolling(m, pid);
    match settled {
      case Leaves =>
        return LeaveQuietly;
      case Throws(stage) =>
        r := KillAndLeaveFatal(m, stage, message);
        return;
      case Goes =>
    }
    m.Others();
    var error: FatalStage, fails: bool := *, *;
    if fails {
      m.Moves(Fails(error, false));
      r := KillAndLeaveFatal(m, error, message);
      return;
    }
    var leaving := ShouldExit(Some(m.sys.file), m.st.Attempt());
    m.Moves(Go);
    if leaving {
      return LeaveQuietly;
    }
    if ok {
      return Restarted;
    }
    Kill(m);
    var marked := MarkFatalState(m, AppStartup, message);
    match marked {
      case Goes => return FatalWritten;
      case Leaves => return LeaveQuietly;
      case Throws(stage) => r := KillAndLeaveFatal(m, stage, message);
    }
  }

  /** The compare-and-set that records the child: lost, the child is killed. */
  method Commit(m: Machine, latest: State, d: Decision, now: int, child: Pid, exitCode: string, message: string)
    returns (r: Outcome)
    requires m.Follows() && m.sys.sentinel == Planned(CommitStep(child), latest, d, now)
    modifies m
    ensures m.Follows() && m.sys.sentinel == TickDone(r)
    ensures m.log.child == Some(child)
    ensures m.log.restart.None? && m.log.failure.None? ==> r == LeaveQuietly && child in m.sys.killed
  {
    RunFits(m.st, m.events, m.states, |m.events|);
    m.Others();
    var stage: FatalStage, fails: bool := *, *;
    var update := RestartUpdate(Some(m.sys.file), m.st.Attempt(), latest, child, d.count,
                               d.windowStart, Some(exitCode), now);
    if fails {
      var wrote: bool := *;
      m.Acts(Fails(stage, wrote), exitCode, if wrote then Written(update, m.sys.file) else m.sys.file, m.sys.live);
      r := KillAndLeaveFatal(m, stage, message);
      RunFits(m.st, m.events, m.states, |m.events|);
      return;
    }
    m.Acts(Go, exitCode, Written(update, m.sys.file), m.sys.live);
    if update.None? {
      Kill(m);
      return LeaveQuietly;
    }
    r := FinishRestart(m, child, message);
  }

  /** Preflight and spawn. */
  method SpawnAndCommit(m: Machine, latest: State, d: Decision, now: int, exitCode: string, message: string)
    returns (r: Outcome)
    requires m.Follows() && m.sys.sentinel == Planned(PreflightStep, latest, d, now)
    modifies m
    ensures m.Follows() && m.sys.sentinel == TickDone(r)
  {
    m.Others();
    var stage: FatalStage, fails: bool := *, *;
    m.Moves(if fails then Fails(stage, false) else Go);
    if fails {
      r := LeaveFatal(m, stage, message);
      return;
    }
    m.Others();
    var child: Pid := *;
    fails := *;
    if fails || child in m.sys.used {
      m.Moves(Fails(stage, false));
      r := LeaveFatal(m, stage, message);
      return;
    }
    m.Acts(Spawned(child), "", m.sys.file, m.sys.live + {child});
    r := Commit(m, latest, d, now, child, exitCode, message);
  }

  method RestartApp(m: Machine, seen: State, now: int, exitCode: string, message: string) returns (r: Outcome)
    requires m.Follows() && m.st.WellFormed() && now == m.sys.clock && m.sys.sentinel == StartRestart(m.st, m.sys, seen)
    modifies m
    ensures m.Follows() && m.sys.sentinel == TickDone(r)
  {
    var first := Decide(m.st.policy, seen, now);
    if !first.allowed {
      r := LeaveFatal(m, SentinelRuntime, message);
      return;
    }
    var waited, slept, records := WaitForRestartBackoff(m, seen, now, first.backoffMs);
    match waited {
      case Leaves =>
        return LeaveQuietly;
      case Throws(_) =>
        r := CrashOut(m);
        return;
      case Goes =>
    }
    m.Others();
    var stage: FatalStage, fails: bool := *, *;
    if fails {
      m.Moves(Fails(stage, false));
      r := CrashOut(m);
      return;
    }
    var leaving, latest, second := MustLeave(m.st, m.sys.file), m.sys.file, m.sys.clock;
    m.Moves(Go);
    if leaving {
      return LeaveQuietly;
    }
    var d := Decide(m.st.policy, latest, second);
    if !d.allowed {
      r := LeaveFatal(m, SentinelRuntime, message);
      return;
    }
    r := SpawnAndCommit(m, latest, d, second, exitCode, message);
  }

  /** A whole tick with the handler around it. Whatever the others do meanwhile and whatever throws, it is a run of
      the Lifecycle machine that ends its tick, and of all the apps the sentinel ever started at most the recorded
      one is running. */
  method RunSentinelTick(m: Machine) returns (r: Outcome)
    requires m.Follows() && m.st.WellFormed() && m.sys.sentinel == Idle
    modifies m
    ensures m.Follows() && m.sys.sentinel == TickDone(r)
    ensures forall p :: p in m.sys.spawned && p in m.sys.live ==> m.sys.file.appPid == Some(p)
    ensures Lawful(m.st, m.log, m.sys, r)
    ensures forall p, ok :: SettledFor(m.log, p, ok) ==> SettledEnding(m.log, m.sys, p, ok, r)
  {
    r := Tick(m);
    RunFits(m.st, m.events, m.states, |m.events|);
    forall p | p in m.sys.spawned && p in m.sys.live
      ensures m.sys.file.appPid == Some(p)
    {
      LifecycleTheorems.NoOrphanWhenTickEnds(m.st, m.events, m.states, |m.states| - 1, p);
    }
  }

  method Tick(m: Machine) returns (r: Outcome)
    requires m.Follows() && m.st.WellFormed() && m.sys.sentinel == Idle
    modifies m
    ensures m.Follows() && m.sys.sentinel == TickDone(r)
  {
    m.Others();
    var stage: FatalStage, fails: bool := *, *;
    if fails {
      m.Moves(Fails(stage, false));
      r := CrashOut(m);
      return;
    }
    var state := m.sys.file;
    m.Moves(Go);
    if ShouldExit(Some(state), m.st.Attempt()) {
      return LeaveQuietly;
    }
    if state.status != Running {
      return Continue;
    }
    m.Others();
    fails := *;
    if fails {
      m.Moves(Fails(stage, false));
      r := CrashOut(m);
      return;
    }
    var exited, now := !(state.appPid.Some? && state.appPid.value in m.sys.live), m.sys.clock;
    m.Moves(Go);
    if exited {
      var exitCode: string, message: string := *, *;
      r := RestartApp(m, state, now, exitCode, message);
      return;
    }
    var beat := RefreshHeartbeat(m, InTick(state), now);
    match beat {
      case Leaves => return LeaveQuietly;
      case Goes => return Continue;
      case Throws(_) => r := CrashOut(m);
    }
  }
}
