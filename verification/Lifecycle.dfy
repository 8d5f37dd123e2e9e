/** The whole protocol: one sentinel and any number of stop clients, interleaved step by step over the
    shared state file, the set of running app processes and a clock.  An event carries every outcome
    the environment chooses, so a run is a sequence of events and `Apply` is a function. */
module Lifecycle {
  import opened DaemonState
  import opened Wrappers
  import opened RestartPolicy
  import opened StopClient
  import opened Timing

  /** What is fixed for one start attempt: the record `startDaemon` left, and the sentinel's options. */
  datatype Setup = Setup(initial: State, sentinelPid: Pid, policy: Policy, pollMs: int)
  {
    function Attempt(): string {
      initial.attempt
    }

    predicate WellFormed() {
      && pollMs >= 1
      && initial.mode == Daemon && initial.status == Running
      && initial.appPid.Some? && initial.sentinelPid == Some(sentinelPid)
      && initial.restartCount == 0 && initial.lastRestartAt.None? && initial.restartWindowStartedAt.None?
    }
  }

  // ----- The sentinel's program counter. -----

  datatype Outcome = Continue | Restarted | LeaveQuietly | FatalWritten | Crash

  datatype TickStep = Inspect | BeatRead(now: int) | BeatWrite(now: int)

  datatype PlanStep = PreflightStep | SpawnStep | CommitStep(pid: Pid)

  datatype WatchStep = AwaitReady | ReadyBeatRead(now: int) | ReadyBeatWrite(now: int) | AfterReady(ok: bool)

  datatype KillStep = Uncommitted | Unready | Thrown(stage: FatalStage)

  datatype SentinelPc =
    | Idle
    | Ticking(tick: TickStep, seen: State)
    | BackingOff(seen: State, startedAt: int, total: int, wakeAt: int, left: int)
    | Rechecking(seen: State, startedAt: int, total: int)
    | Planned(plan: PlanStep, latest: State, decision: Decision, now: int)
    | Watching(watch: WatchStep, pid: Pid)
    | Killing(kill: KillStep, pid: Pid)
    | WritingFatal(stage: FatalStage, retry: Option<Pid>)
    | Crashed
    | TickDone(outcome: Outcome)
    | Exited

  datatype Choice =
    | Go
    | Spawned(child: Pid)
    | Poll(beat: bool)
    | Settled(ok: bool)
    | Fails(error: FatalStage, wrote: bool)

  // ----- The shared state. -----

  datatype WriteKind = Heartbeat | RestartMark | FatalMark | StopMark | StoppedMark

  datatype Actor = BySentinel | ByClient(id: nat)

  datatype Write = Write(kind: WriteKind, actor: Actor, before: State, after: State, at: int)

  datatype Sys = Sys(
    file: State,
    clock: int,
    live: set<Pid>,          // running app processes
    used: set<Pid>,          // pids ever given out; none is reused
    sentinel: SentinelPc,
    spawned: set<Pid>,       // apps the sentinel started
    killed: set<Pid>,        // apps the sentinel killed
    released: set<Pid>,      // apps a stop client marked stopped after a confirmed shutdown
    handed: map<Pid, nat>,   // the generation each app the sentinel started was given
    clients: map<nat, Client>,
    history: seq<Write>)

  datatype Event =
    | SentinelStep(choice: Choice, note: string)
    | ClientStep(id: nat, act: Act)
    | Join(newcomer: nat, strict: bool)
    | AppDies(app: Pid)
    | Elapse(ms: nat)

  predicate Init(st: Setup, s: Sys) {
    && st.WellFormed()
    && s.file == st.initial
    && s.sentinel == Idle
    && s.spawned == {} && s.killed == {} && s.released == {} && s.handed == map[]
    && s.clients == map[] && s.history == []
    && s.live <= s.used && st.initial.appPid.value in s.used
  }

  function Wrote(s: Sys, kind: WriteKind, actor: Actor, after: State): Sys {
    s.(file := after, history := s.history + [Write(kind, actor, s.file, after, s.clock)])
  }

  function At(s: Sys, pc: SentinelPc): Sys {
    s.(sentinel := pc)
  }

  // ----- The sentinel. -----

  function Slice(st: Setup, left: int): int {
    Min(left, st.pollMs)
  }

  /** The two tests every wait loop makes after reading the record. */
  predicate MustLeave(st: Setup, file: State) {
    ShouldExit(Some(file), st.Attempt()) || file.status != Running
  }

  predicate SentinelEnabled(st: Setup, s: Sys, ch: Choice) {
    match s.sentinel
    case BackingOff(_, _, _, wakeAt, _) => s.clock >= wakeAt && (ch.Go? || ch.Fails?)
    case Planned(SpawnStep, _, _, _) => ch.Fails? || (ch.Spawned? && ch.child !in s.used)
    case Watching(AwaitReady, _) => ch.Poll? || ch.Settled? || ch.Fails?
    case Killing(_, _) => ch.Go?
    case TickDone(_) => ch.Go?
    case Exited => false
    case _ => ch.Go? || ch.Fails?
  }

  function NextIdle(st: Setup, s: Sys, ch: Choice): Sys {
    At(s, if ch.Fails? then Crashed
          else if ShouldExit(Some(s.file), st.Attempt()) then TickDone(LeaveQuietly)
          else if s.file.status != Running then TickDone(Continue)
          else Ticking(Inspect, s.file))
  }

  function StartRestart(st: Setup, s: Sys, seen: State): SentinelPc {
    var d := Decide(st.policy, seen, s.clock);
    if !d.allowed then WritingFatal(SentinelRuntime, None)
    else if d.backoffMs <= 0 then Rechecking(seen, s.clock, d.backoffMs)
    else BackingOff(seen, s.clock, d.backoffMs, s.clock + Slice(st, d.backoffMs), d.backoffMs - Slice(st, d.backoffMs))
  }

  /** A heartbeat compare-and-set; `next` is where a written or refused one leads. */
  function BeatStep(st: Setup, s: Sys, now: int, ch: Choice, written: SentinelPc,
                    refused: SentinelPc, failed: SentinelPc): Sys {
    var beat := HeartbeatUpdate(Some(s.file), st.Attempt(), now);
    if ch.Fails? then
      At(if ch.wrote && beat.Some? then Wrote(s, Heartbeat, BySentinel, beat.value) else s, failed)
    else if beat.Some? then At(Wrote(s, Heartbeat, BySentinel, beat.value), written)
    else At(s, refused)
  }

  function NextTicking(st: Setup, s: Sys, ch: Choice): Sys
    requires s.sentinel.Ticking?
  {
    var seen := s.sentinel.seen;
    match s.sentinel.tick
    case Inspect =>
      At(s, if ch.Fails? then Crashed
            else if seen.appPid.Some? && seen.appPid.value in s.live then Ticking(BeatRead(s.clock), seen)
            else StartRestart(st, s, seen))
    case BeatRead(now) =>
      At(s, if ch.Fails? then Crashed
            else if ShouldExit(Some(s.file), st.Attempt()) then TickDone(LeaveQuietly)
            else if s.file.status == Running then Ticking(BeatWrite(now), seen)
            else TickDone(Continue))
    case BeatWrite(now) => BeatStep(st, s, now, ch, TickDone(Continue), TickDone(LeaveQuietly), Crashed)
  }

  function NextBackingOff(st: Setup, s: Sys, ch: Choice): Sys
    requires s.sentinel.BackingOff?
  {
    var b := s.sentinel;
    At(s, if ch.Fails? then Crashed
          else if MustLeave(st, s.file) then TickDone(LeaveQuietly)
          else if b.left > 0 then
            BackingOff(b.seen, b.startedAt, b.total, s.clock + Slice(st, b.left), b.left - Slice(st, b.left))
          else Rechecking(b.seen, b.startedAt, b.total))
  }

  function NextRechecking(st: Setup, s: Sys, ch: Choice): Sys
    requires s.sentinel.Rechecking?
  {
    var d := Decide(st.policy, s.file, s.clock);
    At(s, if ch.Fails? then Crashed
          else if MustLeave(st, s.file) then TickDone(LeaveQuietly)
          else if !d.allowed then WritingFatal(SentinelRuntime, None)
          else Planned(PreflightStep, s.file, d, s.clock))
  }

  function Spawn(s: Sys, child: Pid): Sys
    requires s.sentinel.Planned?
  {
    var p := s.sentinel;
    s.(live := s.live + {child}, used := s.used + {child}, spawned := s.spawned + {child},
       handed := s.handed[child := p.latest.generation + 1],
       sentinel := Planned(CommitStep(child), p.latest, p.decision, p.now))
  }

  function CommitUpdate(st: Setup, s: Sys, note: string): Option<State>
    requires s.sentinel.Planned? && s.sentinel.plan.CommitStep?
  {
    var p := s.sentinel;
    RestartUpdate(Some(s.file), st.Attempt(), p.latest, p.plan.pid, p.decision.count, p.decision.windowStart,
                  Some(note), p.now)
  }

  function NextPlanned(st: Setup, s: Sys, ch: Choice, note: string): Sys
    requires s.sentinel.Planned? && SentinelEnabled(st, s, ch)
  {
    var p := s.sentinel;
    match p.plan
    case PreflightStep => At(s, if ch.Fails? then WritingFatal(ch.error, None)
          else Planned(SpawnStep, p.latest, p.decision, p.now))
    case SpawnStep => if ch.Fails? then At(s, WritingFatal(ch.error, None)) else Spawn(s, ch.child)
    case CommitStep(pid) =>
      var update := CommitUpdate(st, s, note);
      if ch.Fails? then
        At(if ch.wrote && update.Some? then Wrote(s, RestartMark, BySentinel, update.value) else s,
           Killing(Thrown(ch.error), pid))
      else if update.Some? then At(Wrote(s, RestartMark, BySentinel, update.value), Watching(AwaitReady, pid))
      else At(s, Killing(Uncommitted, pid))
  }

  function NextWatching(st: Setup, s: Sys, ch: Choice): Sys
    requires s.sentinel.Watching? && SentinelEnabled(st, s, ch)
  {
    var pid := s.sentinel.pid;
    match s.sentinel.watch
    case AwaitReady =>
      At(s, if ch.Fails? then Killing(Thrown(ch.error), pid)
            else if ch.Settled? then Watching(AfterReady(ch.ok), pid)
            else if MustLeave(st, s.file) then TickDone(LeaveQuietly)
            else Watching(if ch.beat then ReadyBeatRead(s.clock) else AwaitReady, pid))
    case ReadyBeatRead(now) =>
      At(s, if ch.Fails? then Killing(Thrown(ch.error), pid)
            else if ShouldExit(Some(s.file), st.Attempt()) then TickDone(LeaveQuietly)
            else Watching(if s.file.status == Running then ReadyBeatWrite(now) else AwaitReady, pid))
    case ReadyBeatWrite(now) =>
      BeatStep(st, s, now, ch, Watching(AwaitReady, pid), TickDone(LeaveQuietly),
               Killing(Thrown(if ch.Fails? then ch.error else AppStartup), pid))
    case AfterReady(ok) =>
      At(s, if ch.Fails? then Killing(Thrown(ch.error), pid)
            else if ShouldExit(Some(s.file), st.Attempt()) then TickDone(LeaveQuietly)
            else if ok then TickDone(Restarted)
            else Killing(Unready, pid))
  }

  function NextKilling(s: Sys): Sys
    requires s.sentinel.Killing?
  {
    var pid := s.sentinel.pid;
    s.(live := s.live - {pid}, killed := s.killed + {pid},
       sentinel := match s.sentinel.kill
                   case Uncommitted => TickDone(LeaveQuietly)
                   case Unready => WritingFatal(AppStartup, Some(pid))
                   case Thrown(stage) => WritingFatal(stage, None))
  }

  function NextWritingFatal(st: Setup, s: Sys, ch: Choice, note: string): Sys
    requires s.sentinel.WritingFatal?
  {
    var retry := s.sentinel.retry;
    var update := FatalUpdate(Some(s.file), st.Attempt(), s.sentinel.stage, note, None, s.clock);
    if ch.Fails? then
      At(if ch.wrote && update.Some? then Wrote(s, FatalMark, BySentinel, update.value) else s,
         if retry.Some? then Killing(Thrown(ch.error), retry.value) else Crashed)
    else if update.Some? then At(Wrote(s, FatalMark, BySentinel, update.value), TickDone(FatalWritten))
    else At(s, TickDone(LeaveQuietly))
  }

  function NextCrashed(st: Setup, s: Sys, ch: Choice, note: string): Sys {
    var update := FatalUpdate(Some(s.file), st.Attempt(), SentinelRuntime, note, None, s.clock);
    At(if update.Some? && (ch.Fails? ==> ch.wrote) then Wrote(s, FatalMark, BySentinel, update.value) else s,
       TickDone(Crash))
  }

  function SentinelNext(st: Setup, s: Sys, ch: Choice, note: string): Sys
    requires SentinelEnabled(st, s, ch)
  {
    match s.sentinel
    case Idle => NextIdle(st, s, ch)
    case Ticking(_, _) => NextTicking(st, s, ch)
    case BackingOff(_, _, _, _, _) => NextBackingOff(st, s, ch)
    case Rechecking(_, _, _) => NextRechecking(st, s, ch)
    case Planned(_, _, _, _) => NextPlanned(st, s, ch, note)
    case Watching(_, _) => NextWatching(st, s, ch)
    case Killing(_, _) => NextKilling(s)
    case WritingFatal(_, _) => NextWritingFatal(st, s, ch, note)
    case Crashed => NextCrashed(st, s, ch, note)
    case TickDone(outcome) => At(s, if outcome.Continue? || outcome.Restarted? then Idle else Exited)
  }

  // ----- The stop clients. -----

  function StoppingBy(s: Sys, c: Client): Option<State> {
    if c.seen.None? then None else StoppingUpdate(Some(s.file), c.seen.value, s.clock)
  }

  function StoppedBy(s: Sys, c: Client): Option<State> {
    if c.seen.None? then None else StoppedUpdate(Some(s.file), c.seen.value, s.clock)
  }

  predicate AppAlive(s: Sys, c: Client) {
    c.seen.Some? && c.seen.value.appPid.Some? && c.seen.value.appPid.value in s.live
  }

  /** Process inspection tells the truth; requests, health answers and running out of time are free. */
  predicate Truthful(st: Setup, s: Sys, c: Client, a: Act) {
    match a
    case Read(latest) => latest == Some(s.file)
    case SeeApp(alive) => alive == AppAlive(s, c)
    case SeeSentinel(alive) => alive == !s.sentinel.Exited?
    case Validated(ok) => ok && c.pc.Owner? && c.ownerPid.Some? ==> c.ownerPid.value != st.sentinelPid
    case MarkStopping(ok) => ok == StoppingBy(s, c).Some?
    case MarkStopped(ok) => ok == StoppedBy(s, c).Some?
    case SentinelWait(exited) => exited ==> s.sentinel.Exited?
    case _ => true
  }

  predicate MarksStopping(pc: Pc) {
    pc.Early? && (pc.early.MarkGone? || pc.early.Mark?)
  }

  /** The write a client's act performs, if any. */
  function ClientWrite(s: Sys, c: Client, a: Act): Option<State> {
    if a.MarkStopping? || (a.Throw? && a.wrote && MarksStopping(c.pc)) then StoppingBy(s, c)
    else if a.MarkStopped? || (a.Throw? && a.wrote) then StoppedBy(s, c)
    else None
  }

  function ClientEffect(s: Sys, id: nat, c: Client, a: Act): Sys {
    var write := ClientWrite(s, c, a);
    if write.Some? then
      var kind := if write.value.status == Stopping then StopMark else StoppedMark;
      var freed := if kind == StoppedMark && c.pc == Closing(FinalMark) && s.file.appPid.Some?
                  then {s.file.appPid.value} else {};
      Wrote(s, kind, ByClient(id), write.value).(released := s.released + freed)
    else if a.KillSentinel? && a.ok then At(s, Exited)
    else if a.TerminateOwner? && a.ok && c.ownerPid.Some? then s.(live := s.live - {c.ownerPid.value})
    else s
  }

  function ClientNext(s: Sys, id: nat, a: Act): Sys
    requires id in s.clients && Enabled(s.clients[id].pc, a)
  {
    var t := ClientEffect(s, id, s.clients[id], a);
    t.(clients := s.clients[id := Advance(s.clients[id], a)])
  }

  // ----- Runs. -----

  predicate Enables(st: Setup, s: Sys, e: Event) {
    match e
    case SentinelStep(ch, _) => SentinelEnabled(st, s, ch)
    case ClientStep(id, a) => id in s.clients && Enabled(s.clients[id].pc, a) && Truthful(st, s, s.clients[id], a)
    case Join(id, _) => id !in s.clients
    case AppDies(_) => true
    case Elapse(_) => true
  }

  function Apply(st: Setup, s: Sys, e: Event): Sys
    requires Enables(st, s, e)
  {
    match e
    case SentinelStep(ch, note) => SentinelNext(st, s, ch, note)
    case ClientStep(id, a) => ClientNext(s, id, a)
    case Join(id, strict) => s.(clients := s.clients[id := NewClient(strict)])
    case AppDies(p) => s.(live := s.live - {p})
    case Elapse(ms) => s.(clock := s.clock + ms)
  }

  /** An event of a run leads from one of its states to the next. */
  predicate Leads(st: Setup, events: seq<Event>, states: seq<Sys>, i: nat)
    requires i < |events| && |states| == |events| + 1
  {
    Enables(st, states[i], events[i]) && states[i + 1] == Apply(st, states[i], events[i])
  }

  /** The states of a run: one more than its events. */
  predicate IsRun(st: Setup, events: seq<Event>, states: seq<Sys>) {
    && |states| == |events| + 1
    && Init(st, states[0])
    && (forall i :: 0 <= i < |events| ==> Leads(st, events, states, i))
  }
}
