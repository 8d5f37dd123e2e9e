/** The invariant every run of the protocol keeps, and the proof that every event keeps it. */
module LifecycleInvariant {
  import opened DaemonState
  import opened Wrappers
  import opened RestartPolicy
  import opened StopClient
  import opened Lifecycle

  // ----- Writes. -----

  /** The status only moves running -> running, stopping or fatal, and stopping or fatal -> stopped;
      only a restart changes the generation and the app, and it changes both. */
  predicate LegalWrite(w: Write) {
    var f, g := w.before, w.after;
    match w.kind
    case Heartbeat => f.status.Running? && g == f.(heartbeatAt := g.heartbeatAt, updatedAt := g.updatedAt)
    case RestartMark =>
      && f.status.Running? && g.status.Running?
      && g.attempt == f.attempt && g.mode == f.mode && g.sentinelPid == f.sentinelPid
      && g.generation == f.generation + 1 && g.appPid.Some? && g.appPid != f.appPid
      && g.lastRestartAt.Some? && g.restartWindowStartedAt.Some?
    case FatalMark =>
      && f.status.Running?
      && g == f.(status := Fatal, fatalStage := g.fatalStage, fatalReason := g.fatalReason,
                 lastExitCode := g.lastExitCode, updatedAt := g.updatedAt)
    case StopMark => f.status.Running? && g == f.(status := Stopping, updatedAt := g.updatedAt)
    case StoppedMark =>
      && (f.status.Stopping? || f.status.Fatal?)
      && g == ToStopped(f, g.updatedAt)
  }

  predicate FileOk(st: Setup, s: Sys) {
    && s.file.attempt == st.Attempt() && s.file.mode == Daemon
    && !s.file.status.Starting?
    && (if s.file.status.Stopped? then s.file.appPid.None? && s.file.sentinelPid.None?
        else s.file.appPid.Some? && s.file.appPid.value in s.used && s.file.sentinelPid == Some(st.sentinelPid))
  }

  predicate FileAppDead(s: Sys) {
    s.file.appPid.None? || s.file.appPid.value !in s.live
  }

  // ----- The sentinel. -----

  predicate SameRestartInfo(a: State, b: State) {
    && a.generation == b.generation && a.restartCount == b.restartCount
    && a.lastRestartAt == b.lastRestartAt && a.restartWindowStartedAt == b.restartWindowStartedAt
  }

  /** A record the sentinel read earlier still describes the file, as far as restarts are concerned. */
  predicate Tracks(s: Sys, seen: State) {
    && seen.appPid.Some? && seen.appPid.value in s.used
    && SameRestartInfo(seen, s.file)
    && (s.file.appPid.Some? ==> seen.appPid == s.file.appPid)
  }

  predicate SeenDead(s: Sys, seen: State) {
    Tracks(s, seen) && seen.appPid.value !in s.live
  }

  /** The app is the recorded one, or the record is stopped and the app is gone. */
  predicate HoldsCommitted(s: Sys, pid: Pid) {
    s.file.appPid == Some(pid) || (s.file.appPid.None? && pid !in s.live)
  }

  predicate KillOk(s: Sys, kill: KillStep, pid: Pid) {
    match kill
    case Uncommitted => FileAppDead(s) && s.file.appPid != Some(pid)
    case Unready => HoldsCommitted(s, pid)
    case Thrown(_) => HoldsCommitted(s, pid) || FileAppDead(s)
  }

  predicate PlanOk(s: Sys, plan: PlanStep, latest: State) {
    && SeenDead(s, latest)
    && (plan.CommitStep? ==>
          && plan.pid in s.spawned && latest.appPid != Some(plan.pid)
          && plan.pid in s.handed && s.handed[plan.pid] == latest.generation + 1)
  }

  predicate SentinelOk(s: Sys) {
    match s.sentinel
    case Ticking(tick, seen) => tick.Inspect? ==> Tracks(s, seen)
    case BackingOff(seen, _, _, _, _) => SeenDead(s, seen)
    case Rechecking(seen, _, _) => SeenDead(s, seen)
    case Planned(plan, latest, _, _) => PlanOk(s, plan, latest)
    case Watching(_, pid) => pid in s.spawned && HoldsCommitted(s, pid)
    case Killing(kill, pid) => pid in s.spawned && KillOk(s, kill, pid)
    case WritingFatal(_, retry) => FileAppDead(s)
                                && (retry.Some? ==> retry.value in s.spawned && retry.value !in s.live)
    case _ => true
  }

  // ----- Processes. -----

  /** The app the sentinel is still answerable for, whatever the file says. */
  function Held(pc: SentinelPc): Option<Pid> {
    match pc
    case Planned(plan, _, _, _) => if plan.CommitStep? then Some(plan.pid) else None
    case Killing(_, pid) => Some(pid)
    case _ => None
  }

  predicate AccountedFor(s: Sys, p: Pid) {
    s.file.appPid == Some(p) || Held(s.sentinel) == Some(p) || p in s.released
  }

  predicate ProcessesOk(s: Sys) {
    && s.live <= s.used && s.spawned <= s.used && s.killed <= s.used && s.killed !! s.live
    && (forall p :: p in s.spawned && p in s.live ==> AccountedFor(s, p))
    && (s.released != {} ==> s.sentinel.Exited? && s.file.status.Stopped?)
    && (s.file.status.Fatal? && s.file.fatalStage == Some(AppStartup) ==> FileAppDead(s))
  }

  /** The generation an app was started with: the sentinel handed it one, or it is the first app. */
  predicate WasGiven(st: Setup, s: Sys, p: Pid, generation: nat) {
    if p in s.handed then s.handed[p] == generation
    else Some(p) == st.initial.appPid && generation == st.initial.generation
  }

  predicate HandedOk(st: Setup, s: Sys) {
    && s.spawned == s.handed.Keys
    && st.initial.appPid.Some? && st.initial.appPid.value in s.used && st.initial.appPid.value !in s.spawned
    && (s.file.appPid == st.initial.appPid ==> s.file.generation == st.initial.generation)
    && (s.file.appPid.Some? ==> s.file.appPid.value in s.spawned || s.file.appPid == st.initial.appPid)
    && (s.file.appPid.Some? && s.file.appPid.value in s.spawned ==> s.handed[s.file.appPid.value] == s.file.generation)
  }

  // ----- Stop clients. -----

  /** The sentinel has an app in hand, or is about to, that the record does not name. */
  predicate Reaching(s: Sys) {
    match s.sentinel
    case Planned(_, _, _, _) => true
    case Killing(kill, pid) => kill.Uncommitted? || (kill.Thrown? && pid in s.live && s.file.appPid != Some(pid))
    case _ => false
  }

  predicate NamesPids(st: Setup, s: Sys, seen: State) {
    seen.appPid.Some? && seen.appPid.value in s.used && seen.sentinelPid == Some(st.sentinelPid)
  }

  predicate StoppingFor(s: Sys, seen: State) {
    || (s.file.status.Stopping? && SameDaemon(s.file, seen))
    || (s.file.status.Stopped? && (s.sentinel.Exited? || (seen.appPid.Some? && seen.appPid.value !in s.live)))
  }

  predicate FatalFor(s: Sys, seen: State) {
    || (s.file.status.Fatal? && SameDaemon(s.file, seen) && s.file.fatalStage == Some(AppStartup))
    || s.file.status.Stopped?
  }

  predicate ClientOk(st: Setup, s: Sys, c: Client) {
    && Knows(c)
    && (!c.pc.Start? && !c.pc.Done? ==> c.seen.Some? && NamesPids(st, s, c.seen.value))
    && (c.facts.appGone ==> c.seen.Some? && NamesPids(st, s, c.seen.value) && c.seen.value.appPid.value !in s.live)
    && (c.facts.sentinelDead || c.sentinelExited ==> s.sentinel.Exited?)
    && (c.pc.Waiting? || c.pc.Down? || c.pc.Closing? || (c.pc.Early? && c.resuming) ==> StoppingFor(s, c.seen.value))
    && (c.pc.Down? || c.pc.Closing? ==> !Reaching(s))
    && (c.pc == Closing(FinalMark) ==> s.sentinel.Exited?)
    && (c.pc.Owner? ==> FatalFor(s, c.seen.value))
    && (c.facts.stopped ==> s.file.status.Stopped?)
  }

  predicate ClientsOk(st: Setup, s: Sys) {
    forall id :: id in s.clients ==> ClientOk(st, s, s.clients[id])
  }

  predicate Inv(st: Setup, s: Sys) {
    st.WellFormed() && FileOk(st, s) && SentinelOk(s) && ProcessesOk(s) && HandedOk(st, s) && ClientsOk(st, s)
  }

  // ----- What a step by somebody else can do to a client. -----

  predicate FileMoves(f: State, g: State) {
    || f == g
    || (f.status.Running? && !g.status.Stopped?)
    || ((f.status.Stopping? || f.status.Fatal?) && g.status.Stopped?)
  }

  predicate Disturbs(s: Sys, t: Sys) {
    && s.used <= t.used && (forall p :: p in t.live && p in s.used ==> p in s.live)
    && (s.sentinel.Exited? ==> t.sentinel.Exited?)
    && FileMoves(s.file, t.file)
    && (!s.file.status.Running? && Reaching(t) ==> Reaching(s))
    && (t.file.status.Stopped? && !s.file.status.Stopped? ==>
          t.sentinel.Exited? || (s.file.appPid.Some? && s.file.appPid.value !in t.live))
  }

  lemma ClientSurvives(st: Setup, s: Sys, t: Sys, c: Client)
    requires ClientOk(st, s, c) && Disturbs(s, t)
    ensures ClientOk(st, t, c)
  {
  }

  lemma ClientsSurvive(st: Setup, s: Sys, t: Sys)
    requires ClientsOk(st, s) && Disturbs(s, t) && t.clients == s.clients
    ensures ClientsOk(st, t)
  {
    forall id | id in t.clients ensures ClientOk(st, t, t.clients[id]) {
      ClientSurvives(st, s, t, s.clients[id]);
    }
  }

  // ----- Sentinel steps. -----

  /** What one sentinel step keeps, apart from the clients. */
  predicate Keeps(st: Setup, s: Sys, t: Sys) {
    FileOk(st, t) && SentinelOk(t) && ProcessesOk(t) && HandedOk(st, t) && Disturbs(s, t)
  }

  predicate Ready(st: Setup, s: Sys) {
    st.WellFormed() && FileOk(st, s) && SentinelOk(s) && ProcessesOk(s) && HandedOk(st, s)
  }

  /** The steps that only read the record and decide where to go. */
  lemma LookKeeps(st: Setup, s: Sys, ch: Choice, note: string)
    requires Ready(st, s) && SentinelEnabled(st, s, ch)
    requires s.sentinel.Idle? || s.sentinel.BackingOff? || s.sentinel.Rechecking?
    ensures Keeps(st, s, SentinelNext(st, s, ch, note))
  {
  }

  /** A place the sentinel can go to without holding or planning anything new. */
  predicate Landing(s: Sys, pc: SentinelPc) {
    && SentinelOk(At(s, pc)) && !pc.Exited? && !Reaching(At(s, pc))
    && !pc.Ticking? && !pc.BackingOff? && !pc.Rechecking? && !pc.Planned? && !pc.WritingFatal?
  }

  lemma BeatKeeps(st: Setup, s: Sys, now: int, ch: Choice, written: SentinelPc, refused: SentinelPc, failed: SentinelPc)
    requires Ready(st, s) && Held(s.sentinel).None? && !s.sentinel.Exited?
    requires Landing(s, written) && Landing(s, refused) && Landing(s, failed)
    ensures Keeps(st, s, BeatStep(st, s, now, ch, written, refused, failed))
  {
  }

  lemma TickingKeeps(st: Setup, s: Sys, ch: Choice)
    requires Ready(st, s) && s.sentinel.Ticking?
    ensures Keeps(st, s, NextTicking(st, s, ch))
  {
    match s.sentinel.tick {
      case Inspect =>
      case BeatRead(_) => BeatReadKeeps(st, s, ch);
      case BeatWrite(now) => BeatKeeps(st, s, now, ch, TickDone(Continue), TickDone(LeaveQuietly), Crashed);
    }
  }

  lemma BeatReadKeeps(st: Setup, s: Sys, ch: Choice)
    requires Ready(st, s) && s.sentinel.Ticking? && s.sentinel.tick.BeatRead?
    ensures Keeps(st, s, NextTicking(st, s, ch))
  {
  }

  lemma BeforeCommitKeeps(st: Setup, s: Sys, ch: Choice, note: string)
    requires Ready(st, s) && s.sentinel.Planned? && !s.sentinel.plan.CommitStep? && SentinelEnabled(st, s, ch)
    ensures Keeps(st, s, NextPlanned(st, s, ch, note))
  {
  }

  lemma CommitKeeps(st: Setup, s: Sys, ch: Choice, note: string)
    requires Ready(st, s) && s.sentinel.Planned? && s.sentinel.plan.CommitStep? && SentinelEnabled(st, s, ch)
    ensures Keeps(st, s, NextPlanned(st, s, ch, note))
  {
  }

  lemma WatchingKeeps(st: Setup, s: Sys, ch: Choice)
    requires Ready(st, s) && s.sentinel.Watching? && SentinelEnabled(st, s, ch)
    ensures Keeps(st, s, NextWatching(st, s, ch))
  {
    var pid := s.sentinel.pid;
    match s.sentinel.watch {
      case ReadyBeatWrite(now) =>
        BeatKeeps(st, s, now, ch, Watching(AwaitReady, pid), TickDone(LeaveQuietly),
                  Killing(Thrown(if ch.Fails? then ch.error else AppStartup), pid));
      case _ =>
    }
  }

  lemma WritingFatalKeeps(st: Setup, s: Sys, ch: Choice, note: string)
    requires Ready(st, s) && s.sentinel.WritingFatal?
    ensures Keeps(st, s, NextWritingFatal(st, s, ch, note))
  {
  }

  lemma SentinelKeeps(st: Setup, s: Sys, ch: Choice, note: string)
    requires Ready(st, s) && SentinelEnabled(st, s, ch)
    ensures Keeps(st, s, SentinelNext(st, s, ch, note))
  {
    match s.sentinel {
      case Ticking(_, _) => TickingKeeps(st, s, ch);
      case Planned(plan, _, _, _) =>
        if plan.CommitStep? {
          CommitKeeps(st, s, ch, note);
        } else {
          BeforeCommitKeeps(st, s, ch, note);
        }
      case Watching(_, _) => WatchingKeeps(st, s, ch);
      case Killing(_, _) =>
      case Crashed =>
      case WritingFatal(_, _) => WritingFatalKeeps(st, s, ch, note);
      case TickDone(_) =>
      case _ => LookKeeps(st, s, ch, note);
    }
  }

  // ----- Stop-client steps. -----

  /** A stopped marker is only written over a stopping record, or over a fatal one whose app is dead,
      and leaves a live app behind only once the sentinel is gone. */
  lemma StoppedWriteIsDue(st: Setup, s: Sys, c: Client)
    requires Ready(st, s) && ClientOk(st, s, c) && Writes(c.pc) && !MarksStopping(c.pc)
    requires StoppedBy(s, c).Some?
    ensures s.file.status.Stopping? || s.file.status.Fatal?
    ensures if c.pc == Closing(FinalMark) then s.sentinel.Exited? else FileAppDead(s)
  {
  }

  lemma StoppedWriteKeeps(st: Setup, s: Sys, id: nat, c: Client, a: Act)
    requires Ready(st, s) && ClientOk(st, s, c) && Enabled(c.pc, a)
    requires ClientWrite(s, c, a).Some? && !MarksStopping(c.pc)
    ensures Keeps(st, s, ClientEffect(s, id, c, a))
  {
  }

  /** Terminating a stuck sentinel never strands an app: at that point it holds none the record does not name. */
  lemma KillSentinelKeeps(st: Setup, s: Sys, id: nat, c: Client, a: Act)
    requires Ready(st, s) && ClientOk(st, s, c) && Enabled(c.pc, a) && a.KillSentinel?
    ensures Keeps(st, s, ClientEffect(s, id, c, a))
  {
    assert !Reaching(s);
  }

  lemma OtherEffectKeeps(st: Setup, s: Sys, id: nat, c: Client, a: Act)
    requires Ready(st, s) && ClientOk(st, s, c) && Enabled(c.pc, a) && Truthful(st, s, c, a)
    requires ClientWrite(s, c, a).None? && !a.KillSentinel?
    ensures Keeps(st, s, ClientEffect(s, id, c, a))
  {
  }

  lemma EffectKeeps(st: Setup, s: Sys, id: nat, c: Client, a: Act)
    requires Ready(st, s) && ClientOk(st, s, c) && Enabled(c.pc, a) && Truthful(st, s, c, a)
    ensures Keeps(st, s, ClientEffect(s, id, c, a))
  {
    if ClientWrite(s, c, a).Some? {
      if !MarksStopping(c.pc) {
        StoppedWriteKeeps(st, s, id, c, a);
      }
    } else if a.KillSentinel? {
      KillSentinelKeeps(st, s, id, c, a);
    } else {
      OtherEffectKeeps(st, s, id, c, a);
    }
  }

  /** What the act told the client is true of the state it left behind. */
  predicate Told(st: Setup, m: Sys, c: Client, a: Act) {
    match a
    case Read(latest) => latest == Some(m.file)
    case SeeApp(alive) => alive == AppAlive(m, c)
    case SeeSentinel(alive) => alive == !m.sentinel.Exited?
    case SentinelWait(exited) => exited ==> m.sentinel.Exited?
    case MarkStopping(ok) => ok && c.seen.Some? ==> m.file.status.Stopping? && SameDaemon(m.file, c.seen.value)
    case MarkStopped(ok) => ok ==> m.file.status.Stopped?
    case KillSentinel(ok) => ok ==> m.sentinel.Exited?
    case _ => true
  }

  lemma EffectTells(st: Setup, s: Sys, id: nat, c: Client, a: Act)
    requires Enabled(c.pc, a) && Truthful(st, s, c, a)
    ensures Told(st, ClientEffect(s, id, c, a), c, a)
  {
  }

  lemma StartActsOk(st: Setup, m: Sys, c: Client, a: Act)
    requires Ready(st, m) && ClientOk(st, m, c) && c.pc.Start? && Enabled(c.pc, a) && Told(st, m, c, a)
    requires Knows(Advance(c, a))
    ensures ClientOk(st, m, Advance(c, a))
  {
  }

  /** On the orphan path a client learns nothing about the recorded processes. */
  predicate OwnerMove(c: Client, d: Client) {
    && (d.pc.Owner? || d.pc.Done?)
    && d.seen == c.seen && d.sentinelExited == c.sentinelExited
    && d.facts.appGone == c.facts.appGone && d.facts.sentinelDead == c.facts.sentinelDead
  }

  lemma OwnerActsMove(c: Client, a: Act)
    requires c.pc.Owner? && Enabled(c.pc, a)
    ensures OwnerMove(c, Advance(c, a)) && (Advance(c, a).facts.stopped ==> c.facts.stopped || (a.MarkStopped? && a.ok))
  {
  }

  lemma OwnerActsOk(st: Setup, m: Sys, c: Client, a: Act)
    requires Ready(st, m) && ClientOk(st, m, c) && c.pc.Owner? && Enabled(c.pc, a) && Told(st, m, c, a)
    requires Knows(Advance(c, a))
    ensures ClientOk(st, m, Advance(c, a))
  {
    OwnerActsMove(c, a);
  }

  /** The steps before the first marker that are about the app; the others are about the sentinel, and the marker. */
  predicate AboutApp(step: EarlyStep) {
    step.CheckApp? || step.MarkGone? || step.ValidateApp?
  }

  lemma AppStepsOk(st: Setup, m: Sys, c: Client, a: Act)
    requires Ready(st, m) && ClientOk(st, m, c) && Enabled(c.pc, a) && Told(st, m, c, a)
    requires c.pc.Early? && AboutApp(c.pc.early)
    requires Knows(Advance(c, a))
    ensures ClientOk(st, m, Advance(c, a))
  {
  }

  lemma SentinelStepsOk(st: Setup, m: Sys, c: Client, a: Act)
    requires Ready(st, m) && ClientOk(st, m, c) && Enabled(c.pc, a) && Told(st, m, c, a)
    requires c.pc.Early? && !AboutApp(c.pc.early)
    requires Knows(Advance(c, a))
    ensures ClientOk(st, m, Advance(c, a))
  {
  }

  lemma GoneStepsOk(st: Setup, m: Sys, c: Client, a: Act)
    requires Ready(st, m) && ClientOk(st, m, c) && Enabled(c.pc, a) && Told(st, m, c, a)
    requires c.pc.Waiting? && AfterGone(c.pc.wait)
    requires Knows(Advance(c, a))
    ensures ClientOk(st, m, Advance(c, a))
  {
  }

  lemma AwaitStepsOk(st: Setup, m: Sys, c: Client, a: Act)
    requires Ready(st, m) && ClientOk(st, m, c) && Enabled(c.pc, a) && Told(st, m, c, a)
    requires c.pc.Waiting? && !AfterGone(c.pc.wait)
    requires Knows(Advance(c, a))
    ensures ClientOk(st, m, Advance(c, a))
  {
  }

  lemma SendShutdownOk(st: Setup, m: Sys, c: Client, a: Act)
    requires Ready(st, m) && ClientOk(st, m, c) && Enabled(c.pc, a) && Told(st, m, c, a)
    requires c.pc == Down(SendShutdown)
    requires Knows(Advance(c, a))
    ensures ClientOk(st, m, Advance(c, a))
  {
  }

  lemma AfterRequestOk(st: Setup, m: Sys, c: Client, a: Act)
    requires Ready(st, m) && ClientOk(st, m, c) && Enabled(c.pc, a) && Told(st, m, c, a)
    requires c.pc == Down(CheckAfterRequest) || c.pc == Down(HealthWait)
    requires Knows(Advance(c, a))
    ensures ClientOk(st, m, Advance(c, a))
  {
  }

  lemma TerminateStepsOk(st: Setup, m: Sys, c: Client, a: Act)
    requires Ready(st, m) && ClientOk(st, m, c) && Enabled(c.pc, a) && Told(st, m, c, a)
    requires c.pc == Closing(KillCheck) || c.pc == Closing(Terminate)
    requires Knows(Advance(c, a))
    ensures ClientOk(st, m, Advance(c, a))
  {
  }

  lemma CloseStepsOk(st: Setup, m: Sys, c: Client, a: Act)
    requires Ready(st, m) && ClientOk(st, m, c) && Enabled(c.pc, a) && Told(st, m, c, a)
    requires c.pc == Closing(ForceWait) || c.pc == Closing(FinalMark)
    requires Knows(Advance(c, a))
    ensures ClientOk(st, m, Advance(c, a))
  {
  }

  lemma ActorOk(st: Setup, m: Sys, c: Client, a: Act)
    requires Ready(st, m) && ClientOk(st, m, c) && Enabled(c.pc, a) && Told(st, m, c, a)
    ensures ClientOk(st, m, Advance(c, a))
  {
    AdvanceKeepsKnowledge(c, a);
    match c.pc {
      case Start => StartActsOk(st, m, c, a);
      case Owner(_) => OwnerActsOk(st, m, c, a);
      case Early(step) =>
        if AboutApp(step) {
          AppStepsOk(st, m, c, a);
        } else {
          SentinelStepsOk(st, m, c, a);
        }
      case Waiting(step) =>
        if AfterGone(step) {
          GoneStepsOk(st, m, c, a);
        } else {
          AwaitStepsOk(st, m, c, a);
        }
      case Down(step) =>
        if step.SendShutdown? {
          SendShutdownOk(st, m, c, a);
        } else {
          AfterRequestOk(st, m, c, a);
        }
      case Closing(step) =>
        if step.KillCheck? || step.Terminate? {
          TerminateStepsOk(st, m, c, a);
        } else {
          CloseStepsOk(st, m, c, a);
        }
    }
  }

  lemma ClientKeeps(st: Setup, s: Sys, id: nat, a: Act)
    requires Inv(st, s) && Enables(st, s, ClientStep(id, a))
    ensures Inv(st, ClientNext(s, id, a)) && Disturbs(s, ClientNext(s, id, a))
  {
    var c := s.clients[id];
    var mid := ClientEffect(s, id, c, a);
    EffectKeeps(st, s, id, c, a);
    EffectTells(st, s, id, c, a);
    ClientSurvives(st, s, mid, c);
    ActorOk(st, mid, c, a);
    OthersSurvive(st, s, mid, id, Advance(c, a));
  }

  lemma OthersSurvive(st: Setup, s: Sys, mid: Sys, id: nat, d: Client)
    requires ClientsOk(st, s) && Disturbs(s, mid) && ClientOk(st, mid, d)
    ensures ClientsOk(st, mid.(clients := s.clients[id := d]))
  {
    var t := mid.(clients := s.clients[id := d]);
    forall j | j in t.clients ensures ClientOk(st, t, t.clients[j]) {
      if j != id {
        ClientSurvives(st, s, mid, s.clients[j]);
      }
      ClientSurvives(st, mid, t, t.clients[j]);
    }
  }

  // ----- Every event. -----

  lemma DeathKeeps(st: Setup, s: Sys, p: Pid)
    requires Inv(st, s)
    ensures Inv(st, s.(live := s.live - {p})) && Disturbs(s, s.(live := s.live - {p}))
  {
    ClientsSurvive(st, s, s.(live := s.live - {p}));
  }

  lemma EventKeeps(st: Setup, s: Sys, e: Event)
    requires Inv(st, s) && Enables(st, s, e)
    ensures Inv(st, Apply(st, s, e)) && Disturbs(s, Apply(st, s, e))
  {
    match e {
      case SentinelStep(ch, note) => SentinelStepKeeps(st, s, ch, note);
      case ClientStep(id, a) => ClientKeeps(st, s, id, a);
      case Join(id, strict) => JoinKeeps(st, s, id, strict);
      case AppDies(p) => DeathKeeps(st, s, p);
      case Elapse(ms) => ClientsSurvive(st, s, Apply(st, s, e));
    }
  }

  lemma SentinelStepKeeps(st: Setup, s: Sys, ch: Choice, note: string)
    requires Inv(st, s) && SentinelEnabled(st, s, ch)
    ensures Inv(st, SentinelNext(st, s, ch, note)) && Disturbs(s, SentinelNext(st, s, ch, note))
  {
    var t := SentinelNext(st, s, ch, note);
    SentinelKeeps(st, s, ch, note);
    assert t.clients == s.clients by { SentinelLeavesClients(st, s, ch, note); }
    ClientsSurvive(st, s, t);
  }

  lemma JoinKeeps(st: Setup, s: Sys, id: nat, strict: bool)
    requires Inv(st, s) && id !in s.clients
    ensures var t := s.(clients := s.clients[id := NewClient(strict)]); Inv(st, t) && Disturbs(s, t)
  {
    var t := s.(clients := s.clients[id := NewClient(strict)]);
    forall j | j in t.clients ensures ClientOk(st, t, t.clients[j]) {
      if j != id {
        ClientSurvives(st, s, t, s.clients[j]);
      }
    }
  }

  lemma SentinelLeavesClients(st: Setup, s: Sys, ch: Choice, note: string)
    requires SentinelEnabled(st, s, ch)
    ensures SentinelNext(st, s, ch, note).clients == s.clients
  {
  }

  lemma {:induction false} RunKeepsInv(st: Setup, events: seq<Event>, states: seq<Sys>, i: nat)
    requires IsRun(st, events, states) && i < |states|
    ensures Inv(st, states[i])
  {
    if i > 0 {
      RunKeepsInv(st, events, states, i - 1);
      assert Leads(st, events, states, i - 1);
      EventKeeps(st, states[i - 1], events[i - 1]);
    }
  }
}
