/** How a sentinel tick ends, by what it came across: a log of what the sentinel reads, finds and is told in a run, and
    the ending, the fate of the app it started and the markers it leaves, each as a condition on that log. */
module TickOutcomes {
  import opened DaemonState
  import opened Wrappers
  import opened RestartPolicy
  import opened Lifecycle
  import opened LifecycleInvariant

  /** A record and the time at which the restart budget was asked about it. */
  datatype Question = Question(record: State, at: int)

  /** What the sentinel came across since its tick began. */
  datatype TickLog = TickLog(
    last: Option<State>,          // the record it read last
    appRuns: Option<bool>,        // whether it found the app of the first record running
    asked: Option<Question>,      // the last question to the restart budget
    child: Option<Pid>,           // the app it spawned
    restart: Option<Write>,       // the restart it recorded
    ready: Option<bool>,          // how the readiness wait settled
    afterwards: Option<State>,    // the record it read after that
    due: Option<int>,             // a heartbeat that fell due and is not written yet
    fatal: Option<Write>,         // the fatal marker it wrote
    failure: Option<FatalStage>,  // the stage of the last operation that threw
    escaped: bool,                // an operation threw where only the loop around the ticks catches
    muted: bool)                  // so did the marker that this loop writes then

  const NOTHING := TickLog(None, None, None, None, None, None, None, None, None, None, false, false)

  /** The catch block of a restart covers everything from the preflight on, up to and including the fatal marker over
      an app that did not get ready. */
  predicate Caught(l: TickLog, pc: SentinelPc) {
    pc.Planned? || pc.Watching? || (pc.WritingFatal? && l.ready == Some(false) && l.failure.None?)
  }

  /** The markers a step added to the history. */
  function Marked(l: TickLog, s: Sys, t: Sys): TickLog {
    if |t.history| <= |s.history| then l
    else
      var w := t.history[|t.history| - 1];
      match w.kind
      case RestartMark => l.(restart := Some(w))
      case FatalMark => l.(fatal := Some(w))
      case Heartbeat => if l.due.Some? && w.after.heartbeatAt == l.due then l.(due := None) else l
      case _ => l
  }

  /** What an operation that did not throw came across. */
  function Looked(l: TickLog, s: Sys, ch: Choice): TickLog {
    var read := l.(last := Some(s.file));
    match s.sentinel
    case Ticking(Inspect, _) =>
      var runs := l.last.Some? && l.last.value.appPid.Some? && l.last.value.appPid.value in s.live;
      if runs then l.(appRuns := Some(true), due := Some(s.clock))
      else if l.last.Some? then l.(appRuns := Some(false), asked := Some(Question(l.last.value, s.clock)))
      else l
    case Rechecking(_, _, _) => read.(asked := Some(Question(s.file, s.clock)))
    case Planned(PreflightStep, _, _, _) => l
    case Planned(SpawnStep, _, _, _) => if ch.Spawned? then l.(child := Some(ch.child)) else l
    case Watching(AwaitReady, _) =>
      if ch.Settled? then l.(ready := Some(ch.ok))
      else if ch.Poll? && ch.beat && s.file.status.Running? then read.(due := Some(s.clock))
      else read
    case Watching(AfterReady(_), _) => read.(afterwards := Some(s.file))
    case Killing(_, _) => l
    case TickDone(_) => l
    case _ => read
  }

  /** The log after an event that leads from `s` to `t`; a tick begins with an empty one. */
  function Noted(before: TickLog, s: Sys, e: Event, t: Sys): TickLog {
    if !e.SentinelStep? then before
    else
      var l := Marked(if s.sentinel.Idle? then NOTHING else before, s, t);
      if !e.choice.Fails? then Looked(l, s, e.choice)
      else if s.sentinel.Crashed? then l.(muted := true)
      else l.(failure := Some(e.choice.error), escaped := l.escaped || !Caught(before, s.sentinel))
  }

  function LogOf(events: seq<Event>, states: seq<Sys>, i: nat): TickLog
    requires |states| == |events| + 1 && i <= |events|
  {
    if i == 0 then NOTHING else Noted(LogOf(events, states, i - 1), states[i - 1], events[i - 1], states[i])
  }

  // ----- The law. -----

  /** The record read last was live. */
  predicate Live(l: TickLog) {
    l.last.Some? && l.last.value.status.Running?
  }

  predicate Granted(st: Setup, l: TickLog) {
    l.asked.Some? && Decide(st.policy, l.asked.value.record, l.asked.value.at).allowed
  }

  /** The new app did not get ready, and nobody else had taken over the record by then. */
  predicate GivenUp(l: TickLog) {
    l.ready == Some(false) && l.afterwards.Some? && l.afterwards.value.status.Running?
  }

  /** The five endings. */
  predicate EndsAs(l: TickLog, o: Outcome) {
    && (o.Crash? <==> l.escaped)
    && (o.LeaveQuietly? <==> !l.escaped && !Live(l))
    && (o.Continue? <==> l.failure.None? && Live(l) && l.appRuns == Some(true))
    && (o.Restarted? <==> l.failure.None? && Live(l) && l.ready == Some(true))
    && (o.FatalWritten? <==> && !l.escaped && Live(l) && l.appRuns == Some(false)
                             && (l.failure.Some? || l.ready == Some(false) || l.child.None?))
  }

  /** An app is only spawned for a dead one and within the budget; it is killed exactly if something threw since, its
      restart could not be recorded, or it was given up. */
  predicate ChildFate(st: Setup, l: TickLog, killed: set<Pid>) {
    && (l.child.Some? ==> l.appRuns == Some(false) && Granted(st, l))
    && (l.child.Some? ==> (l.child.value in killed <==> l.failure.Some? || l.restart.None? || GivenUp(l)))
    && (l.ready.Some? ==> l.restart.Some?)
    && (l.restart.Some? ==>
          l.child.Some? && l.asked.Some? && IsRestartOf(st, l.restart.value, l.child.value, l.asked.value))
  }

  /** The recorded restart is the one the budget granted. */
  predicate IsRestartOf(st: Setup, w: Write, child: Pid, q: Question) {
    var d := Decide(st.policy, q.record, q.at);
    && w.after.appPid == Some(child) && w.after.restartCount == d.count
    && w.after.restartWindowStartedAt == Some(d.windowStart) && w.after.lastRestartAt == Some(q.at)
  }

  function FatalReason(l: TickLog): FatalStage {
    if l.failure.Some? then l.failure.value else if l.ready == Some(false) then AppStartup else SentinelRuntime
  }

  /** Without a failure: an app found dead is replaced or the budget is spent, no due heartbeat is left out, and a
      fatal marker is written only at the end. A fatal ending leaves the marker with its reason, and a crash leaves
      some marker unless the record was taken over or the handler's own write threw. */
  predicate Leaves(st: Setup, l: TickLog, o: Outcome) {
    && (l.failure.None? && Live(l) && l.appRuns == Some(false) ==> (l.child.Some? <==> Granted(st, l)))
    && (l.failure.None? && Live(l) ==> l.due.None?)
    && (l.failure.None? && l.fatal.Some? ==> o.FatalWritten?)
    && (o.FatalWritten? ==> l.fatal.Some? && IsFatalFor(l.fatal.value, FatalReason(l)))
    && (o.Crash? ==> l.fatal.Some? || l.muted || !Live(l))
  }

  /** A throw that escaped is a failure, and after a wait that ended well there is nothing more to read. */
  predicate Coherent(l: TickLog) {
    (l.escaped ==> l.failure.Some?) && (l.failure.None? && l.ready == Some(true) ==> l.last == l.afterwards)
  }

  predicate IsFatalFor(w: Write, stage: FatalStage) {
    w.after.status.Fatal? && w.after.fatalStage == Some(stage)
  }

  // ----- What holds on the way. -----

  predicate NoChildYet(l: TickLog) {
    l.child.None? && l.restart.None? && l.ready.None? && l.afterwards.None?
  }

  predicate NothingWrong(l: TickLog) {
    l.failure.None? && !l.escaped && !l.muted && l.fatal.None?
  }

  predicate Tracking(l: TickLog, tick: TickStep, seen: State) {
    && NoChildYet(l) && NothingWrong(l)
    && match tick
       case Inspect => l.last == Some(seen) && seen.status.Running? && l.due.None?
       case BeatRead(now) => l.appRuns == Some(true) && l.due == Some(now)
       case BeatWrite(now) => l.appRuns == Some(true) && l.due == Some(now)
  }

  /** The app is dead and the budget said yes. */
  predicate Replacing(st: Setup, l: TickLog) {
    l.appRuns == Some(false) && Granted(st, l) && !l.escaped && !l.muted
  }

  predicate Planning(st: Setup, l: TickLog, plan: PlanStep, latest: State, d: Decision, now: int, killed: set<Pid>) {
    && Replacing(st, l) && NothingWrong(l) && l.due.None?
    && l.asked == Some(Question(latest, now)) && d == Decide(st.policy, latest, now)
    && l.restart.None? && l.ready.None? && l.afterwards.None?
    && l.child == (if plan.CommitStep? then Some(plan.pid) else None)
    && (plan.CommitStep? ==> plan.pid !in killed)
  }

  predicate Awaiting(st: Setup, l: TickLog, watch: WatchStep, pid: Pid, killed: set<Pid>) {
    && Replacing(st, l) && NothingWrong(l) && l.afterwards.None? && ChildFate(st, l, killed)
    && l.child == Some(pid) && l.restart.Some? && pid !in killed
    && match watch
       case AwaitReady => l.ready.None? && l.due.None?
       case ReadyBeatRead(now) => l.ready.None? && l.due == Some(now)
       case ReadyBeatWrite(now) => l.ready.None? && l.due == Some(now)
       case AfterReady(ok) => l.ready == Some(ok) && l.due.None?
  }

  predicate AboutToKill(st: Setup, l: TickLog, kill: KillStep, pid: Pid) {
    && Replacing(st, l) && l.child == Some(pid)
    && (l.ready.Some? ==> l.restart.Some?)
    && (l.restart.Some? ==> IsRestartOf(st, l.restart.value, pid, l.asked.value))
    && match kill
       case Uncommitted => NothingWrong(l) && l.last.Some? && !Live(l) && l.restart.None?
       case Unready => NothingWrong(l) && l.due.None? && GivenUp(l)
       case Thrown(stage) => l.failure == Some(stage)
  }

  predicate AboutToMark(st: Setup, l: TickLog, stage: FatalStage, retry: Option<Pid>, killed: set<Pid>) {
    && !l.escaped && !l.muted && l.appRuns == Some(false) && stage == FatalReason(l) && ChildFate(st, l, killed)
    && (l.failure.None? ==> l.fatal.None? && l.due.None? && (l.child.Some? <==> l.ready == Some(false)))
    && (l.failure.None? ==> (l.child.Some? <==> Granted(st, l)))
    && retry == if l.failure.None? then l.child else None
  }

  predicate Fits(st: Setup, l: TickLog, pc: SentinelPc, killed: set<Pid>) {
    match pc
    case Idle => true
    case Ticking(tick, seen) => Tracking(l, tick, seen)
    case BackingOff(_, _, _, _, _) => Replacing(st, l) && NoChildYet(l) && NothingWrong(l) && l.due.None?
    case Rechecking(_, _, _) => Replacing(st, l) && NoChildYet(l) && NothingWrong(l) && l.due.None?
    case Planned(plan, latest, d, now) => Planning(st, l, plan, latest, d, now, killed)
    case Watching(watch, pid) => Awaiting(st, l, watch, pid, killed)
    case Killing(kill, pid) => AboutToKill(st, l, kill, pid)
    case WritingFatal(stage, retry) => AboutToMark(st, l, stage, retry, killed)
    case Crashed => l.escaped && !l.muted && l.failure.Some? && ChildFate(st, l, killed)
    case TickDone(o) => EndsAs(l, o) && ChildFate(st, l, killed) && Leaves(st, l, o) && Coherent(l)
    case Exited => true
  }

  /** The sentinel is where its log says. */
  predicate LogFits(st: Setup, l: TickLog, s: Sys) {
    Fits(st, l, s.sentinel, s.killed)
  }

  // ----- Every step keeps it. -----

  /** What of the invariant a step of the sentinel needs here. */
  predicate Grounded(st: Setup, s: Sys) {
    FileOk(st, s) && SentinelOk(s) && s.killed <= s.used
  }

  predicate StepFits(st: Setup, l: TickLog, s: Sys, ch: Choice, t: Sys) {
    LogFits(st, Noted(l, s, SentinelStep(ch, ""), t), t)
  }

  lemma LookFits(st: Setup, l: TickLog, s: Sys, ch: Choice)
    requires Grounded(st, s) && SentinelEnabled(st, s, ch) && LogFits(st, l, s)
    requires s.sentinel.Idle? || s.sentinel.BackingOff? || s.sentinel.Rechecking?
    ensures StepFits(st, l, s, ch, SentinelNext(st, s, ch, ""))
  {
  }

  lemma InspectFits(st: Setup, l: TickLog, s: Sys, ch: Choice)
    requires Grounded(st, s) && SentinelEnabled(st, s, ch) && LogFits(st, l, s)
    requires s.sentinel.Ticking? && s.sentinel.tick.Inspect?
    ensures StepFits(st, l, s, ch, NextTicking(st, s, ch))
  {
  }

  lemma BeatReadFits(st: Setup, l: TickLog, s: Sys, ch: Choice)
    requires Grounded(st, s) && SentinelEnabled(st, s, ch) && LogFits(st, l, s)
    requires s.sentinel.Ticking? && s.sentinel.tick.BeatRead?
    ensures StepFits(st, l, s, ch, NextTicking(st, s, ch))
  {
  }

  lemma BeatWriteFits(st: Setup, l: TickLog, s: Sys, ch: Choice)
    requires Grounded(st, s) && SentinelEnabled(st, s, ch) && LogFits(st, l, s)
    requires s.sentinel.Ticking? && s.sentinel.tick.BeatWrite?
    ensures StepFits(st, l, s, ch, NextTicking(st, s, ch))
  {
  }

  lemma PlannedFits(st: Setup, l: TickLog, s: Sys, ch: Choice, note: string)
    requires Grounded(st, s) && SentinelEnabled(st, s, ch) && LogFits(st, l, s) && s.sentinel.Planned?
    ensures StepFits(st, l, s, ch, NextPlanned(st, s, ch, note))
  {
  }

  lemma WaitingFits(st: Setup, l: TickLog, s: Sys, ch: Choice)
    requires Grounded(st, s) && SentinelEnabled(st, s, ch) && LogFits(st, l, s)
    requires s.sentinel.Watching? && (s.sentinel.watch.AwaitReady? || s.sentinel.watch.AfterReady?)
    ensures StepFits(st, l, s, ch, NextWatching(st, s, ch))
  {
  }

  lemma WaitBeatFits(st: Setup, l: TickLog, s: Sys, ch: Choice)
    requires Grounded(st, s) && SentinelEnabled(st, s, ch) && LogFits(st, l, s)
    requires s.sentinel.Watching? && (s.sentinel.watch.ReadyBeatRead? || s.sentinel.watch.ReadyBeatWrite?)
    ensures StepFits(st, l, s, ch, NextWatching(st, s, ch))
  {
  }

  lemma MarkingFits(st: Setup, l: TickLog, s: Sys, ch: Choice, note: string)
    requires Grounded(st, s) && SentinelEnabled(st, s, ch) && LogFits(st, l, s) && s.sentinel.WritingFatal?
    ensures StepFits(st, l, s, ch, NextWritingFatal(st, s, ch, note))
  {
    if ch.Fails? {
    } else {
      MarkingGoes(st, l, s, ch, note);
    }
  }

  lemma MarkingGoes(st: Setup, l: TickLog, s: Sys, ch: Choice, note: string)
    requires Grounded(st, s) && ch.Go? && LogFits(st, l, s) && s.sentinel.WritingFatal?
    ensures StepFits(st, l, s, ch, NextWritingFatal(st, s, ch, note))
  {
  }

  lemma CrashedFits(st: Setup, l: TickLog, s: Sys, ch: Choice, note: string)
    requires Grounded(st, s) && SentinelEnabled(st, s, ch) && LogFits(st, l, s) && s.sentinel.Crashed?
    ensures StepFits(st, l, s, ch, NextCrashed(st, s, ch, note))
  {
  }

  lemma SentinelFits(st: Setup, l: TickLog, s: Sys, ch: Choice, note: string)
    requires Grounded(st, s) && SentinelEnabled(st, s, ch) && LogFits(st, l, s)
    ensures StepFits(st, l, s, ch, SentinelNext(st, s, ch, note))
  {
    match s.sentinel {
      case Ticking(tick, _) =>
        match tick {
          case Inspect => InspectFits(st, l, s, ch);
          case BeatRead(_) => BeatReadFits(st, l, s, ch);
          case BeatWrite(_) => BeatWriteFits(st, l, s, ch);
        }
      case Planned(_, _, _, _) => PlannedFits(st, l, s, ch, note);
      case Watching(watch, _) =>
        if watch.AwaitReady? || watch.AfterReady? {
          WaitingFits(st, l, s, ch);
        } else {
          WaitBeatFits(st, l, s, ch);
        }
      case Killing(_, _) =>
      case WritingFatal(_, _) => MarkingFits(st, l, s, ch, note);
      case Crashed => CrashedFits(st, l, s, ch, note);
      case TickDone(_) =>
      case _ => LookFits(st, l, s, ch);
    }
  }

  /** The same log by one event more. */
  lemma {:induction false} LogOfPrefix(events: seq<Event>, states: seq<Sys>, e: Event, t: Sys, i: nat)
    requires |states| == |events| + 1 && i <= |events|
    ensures LogOf(events + [e], states + [t], i) == LogOf(events, states, i)
  {
    if i > 0 {
      LogOfPrefix(events, states, e, t, i - 1);
    }
  }

  lemma EventFits(st: Setup, l: TickLog, s: Sys, e: Event)
    requires Inv(st, s) && Enables(st, s, e) && LogFits(st, l, s)
    ensures LogFits(st, Noted(l, s, e, Apply(st, s, e)), Apply(st, s, e))
  {
    if e.SentinelStep? {
      SentinelFits(st, l, s, e.choice, e.note);
      assert StepFits(st, l, s, e.choice, SentinelNext(st, s, e.choice, e.note));
    } else {
    }
  }

  lemma {:induction false} RunFits(st: Setup, events: seq<Event>, states: seq<Sys>, i: nat)
    requires IsRun(st, events, states) && i < |states|
    ensures LogFits(st, LogOf(events, states, i), states[i])
  {
    if i > 0 {
      RunFits(st, events, states, i - 1);
      RunKeepsInv(st, events, states, i - 1);
      assert Leads(st, events, states, i - 1);
      EventFits(st, LogOf(events, states, i - 1), states[i - 1], events[i - 1]);
    }
  }

  // ----- The theorems. -----

  /** The ending, the fate of the app the tick started and what it leaves in the record are those its log calls for. */
  predicate Lawful(st: Setup, l: TickLog, s: Sys, o: Outcome) {
    EndsAs(l, o) && ChildFate(st, l, s.killed) && Leaves(st, l, o) && Coherent(l)
  }

  /** In every run every tick that ends, ends lawfully. */
  lemma TickEndsLawfully(st: Setup, events: seq<Event>, states: seq<Sys>, i: nat, o: Outcome)
    requires IsRun(st, events, states) && i < |states| && states[i].sentinel == TickDone(o)
    ensures Lawful(st, LogOf(events, states, i), states[i], o)
  {
    RunFits(st, events, states, i);
  }

  /** The readiness wait for app `p` settled, nothing threw, and the record was still live after it. */
  predicate SettledFor(l: TickLog, p: Pid, ok: bool) {
    && l.child == Some(p) && l.ready == Some(ok) && l.failure.None?
    && l.afterwards.Some? && l.afterwards.value.status.Running?
  }

  /** The app that got ready is kept and reported; one that did not is killed and the record is fatal because of it,
      unless it was taken over before that could be written. */
  predicate SettledEnding(l: TickLog, s: Sys, p: Pid, ok: bool, o: Outcome) {
    && (p in s.killed <==> !ok)
    && (ok ==> o.Restarted? && l.fatal.None?)
    && (!ok ==> || o.LeaveQuietly?
                || (o.FatalWritten? && l.fatal.Some? && IsFatalFor(l.fatal.value, AppStartup)))
  }

  lemma SettledRestart(st: Setup, events: seq<Event>, states: seq<Sys>, i: nat, o: Outcome, p: Pid, ok: bool)
    requires IsRun(st, events, states) && i < |states| && states[i].sentinel == TickDone(o)
    requires SettledFor(LogOf(events, states, i), p, ok)
    ensures SettledEnding(LogOf(events, states, i), states[i], p, ok, o)
  {
    RunFits(st, events, states, i);
  }
}
