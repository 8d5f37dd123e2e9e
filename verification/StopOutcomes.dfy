/** What a stop may do next and how it ends, said over its acts alone: a log of the acts so far, the acts that may come
    after it, and the result as a condition on it. The automaton of StopClient is proved to do exactly this. */
module StopOutcomes {
  import opened DaemonState
  import opened Wrappers
  import opened StopClient

  datatype StopLog = StopLog(
    steps: nat,
    read: Option<State>,          // the record read first
    last: Option<Act>,
    before: Option<Act>,          // the act before the last
    owner: Option<Pid>,           // the process found on the port of a fatal record
    appGone: bool,                // the app was seen gone
    marked: bool,                 // the stopping marker was written
    requested: bool,              // a shutdown request was sent
    accepted: Option<Cleanup>,    // the evidence of an accepted one
    exited: bool,                 // the sentinel was waited for, and exited
    forced: bool)                 // it was terminated

  const NO_ACTS := StopLog(0, None, None, None, None, false, false, false, None, false, false)

  function Noted(l: StopLog, a: Act, strict: bool): StopLog {
    var n := l.(steps := l.steps + 1, last := Some(a), before := l.last);
    match a
    case Read(latest) => if l.steps == 0 then n.(read := latest) else n
    case FoundOwner(pid) => n.(owner := pid)
    case SeeApp(alive) => n.(appGone := l.appGone || !alive)
    case MarkStopping(ok) => n.(marked := l.marked || ok)
    case Request(r) =>
      n.(requested := true, accepted := if ShutdownAccepted(r, strict) then CleanupEvidence(r.body) else l.accepted)
    case SentinelWait(exited) => n.(exited := l.exited || exited)
    case KillSentinel(ok) => n.(forced := l.forced || ok)
    case _ => n
  }

  function LogOf(acts: seq<Act>, strict: bool): StopLog {
    if acts == [] then NO_ACTS else Noted(LogOf(acts[..|acts| - 1], strict), acts[|acts| - 1], strict)
  }

  // ----- What may come next. -----

  /** The stop began over a running record, or goes on with one that is already stopping. */
  predicate Fresh(l: StopLog) {
    l.read.Some? && Stoppable(l.read.value) && l.read.value.status.Running?
  }

  predicate Resumed(l: StopLog) {
    l.read.Some? && Stoppable(l.read.value) && l.read.value.status.Stopping?
  }

  /** The record is stopping on this stop's account. */
  predicate Stopping(l: StopLog) {
    if l.marked then Fresh(l) else Resumed(l)
  }

  predicate JustRead(l: StopLog) {
    l.last.Some? && l.last.value.Read?
  }

  predicate Unanswered(r: Response) {
    RequestFailed(r) && r.nonresponse
  }

  predicate SentinelSettled(l: StopLog) {
    || l.last == Some(SeeSentinel(false)) || l.last == Some(SentinelWait(true))
    || (Resumed(l) && l.last == Some(SentinelWait(false)))
  }

  predicate BeforeThat(l: StopLog, a: Act, b: Act) {
    l.last == Some(b) && l.before == Some(a)
  }

  /** The app is looked at first, again when the sentinel is settled, and once more after a request without answer. */
  predicate MaySeeApp(l: StopLog) {
    || (JustRead(l) && (Fresh(l) || Resumed(l)))
    || (Stopping(l) && !l.appGone && !l.requested && SentinelSettled(l))
    || (l.last.Some? && l.last.value.Request? && Unanswered(l.last.value.response))
  }

  /** Validation of the owner found, of an app that runs, and of a sentinel that runs while nothing is marked yet. */
  predicate MayValidate(l: StopLog) {
    || (l.last.Some? && l.last.value.FoundOwner? && l.last.value.pid.Some?)
    || (BeforeThat(l, Read(l.read), SeeApp(true)) && !l.requested)
    || (Fresh(l) && !l.marked && l.last == Some(SeeSentinel(true)))
  }

  /** The stopping marker comes over a running record: when its app is gone, or when the app is valid and the sentinel
      is gone or valid as well. */
  predicate MayMarkStopping(l: StopLog) {
    && Fresh(l) && !l.marked
    && (|| l.last == Some(SeeApp(false)) || l.last == Some(SeeSentinel(false))
        || BeforeThat(l, SeeSentinel(true), Validated(true)))
  }

  /** Before the marker, after it, and, if no wait has seen it exit, after the silence. */
  predicate MaySeeSentinel(l: StopLog) {
    || (Fresh(l) && !l.marked && BeforeThat(l, SeeApp(true), Validated(true)))
    || l.last == Some(MarkStopping(true))
    || (Resumed(l) && (BeforeThat(l, SeeApp(true), Validated(true)) || (l.steps == 2 && l.last == Some(SeeApp(false)))))
    || (l.accepted.Some? && !l.exited && l.last == Some(Health(true)))
  }

  predicate MayAwaitSentinel(l: StopLog) {
    Stopping(l) && l.accepted.None? && l.last == Some(SeeSentinel(true))
  }

  predicate MayRequest(l: StopLog) {
    && Stopping(l) && !l.requested && l.last == Some(SeeApp(true))
    && l.before.Some? && (l.before.value == SeeSentinel(false) || l.before.value.SentinelWait?)
  }

  predicate MayAwaitSilence(l: StopLog, strict: bool) {
    l.last == Some(OwnerWait(true)) || (l.last.Some? && AcceptedRequest(l.last.value, strict))
  }

  predicate MayTerminateOwner(l: StopLog) {
    l.owner.Some? && BeforeThat(l, FoundOwner(l.owner), Validated(true))
  }

  /** The stopped marker comes when the owner of the port is gone and silent; or when the app is gone and the sentinel
      settled; or when the app is silent and the sentinel was seen to exit, is gone, or was made to. */
  predicate MayMarkStopped(l: StopLog) {
    || (l.owner.Some? && l.last == Some(Health(true)))
    || (Stopping(l) && l.appGone && !l.requested
        && (|| l.last == Some(SeeSentinel(false)) || l.last == Some(SentinelWait(true))
            || (l.steps > 2 && l.last == Some(SeeApp(false)))))
    || (l.requested && l.last == Some(SeeApp(false)))
    || (l.accepted.Some?
        && (|| (l.exited && l.last == Some(Health(true))) || BeforeThat(l, Health(true), SeeSentinel(false))
            || BeforeThat(l, KillSentinel(true), SentinelWait(true))))
  }

  predicate MayCome(l: StopLog, a: Act, strict: bool) {
    match a
    case Read(_) => l.steps == 0
    case FoundOwner(_) => JustRead(l) && l.read.Some? && RecoverableFatal(l.read.value)
    case SeeApp(_) => MaySeeApp(l)
    case Validated(_) => MayValidate(l)
    case MarkStopping(_) => MayMarkStopping(l)
    case SeeSentinel(_) => MaySeeSentinel(l)
    case SentinelWait(_) => MayAwaitSentinel(l) || l.last == Some(KillSentinel(true))
    case Request(_) => MayRequest(l)
    case Health(_) => MayAwaitSilence(l, strict)
    case KillSentinel(_) => l.accepted.Some? && BeforeThat(l, Health(true), SeeSentinel(true))
    case TerminateOwner(_) => MayTerminateOwner(l)
    case OwnerWait(_) => l.last == Some(TerminateOwner(true))
    case MarkStopped(_) => MayMarkStopped(l)
    case OutOfBudget => MayAwaitSentinel(l) || MayRequest(l) || MayAwaitSilence(l, strict) || MayTerminateOwner(l)
    case Throw(wrote) => !Ended(l, strict) && (wrote ==> MayMarkStopping(l) || MayMarkStopped(l))
  }

  // ----- How it ends. -----

  predicate FoundNothing(l: StopLog) {
    || (JustRead(l) && (l.read.None? || !(Stoppable(l.read.value) || RecoverableFatal(l.read.value))))
    || l.last == Some(FoundOwner(None))
  }

  /** The answers on which a stop gives up: out of time, a refused or bad shutdown, a process that will not go. */
  predicate GivesUp(l: StopLog, strict: bool) {
    l.last.Some? &&
    match l.last.value
    case OutOfBudget => true
    case OwnerWait(exited) => !exited
    case Health(silent) => !silent
    case TerminateOwner(ok) => !ok
    case KillSentinel(ok) => !ok
    case SentinelWait(exited) => !exited && !(Resumed(l) && !l.appGone && !l.requested)
    case Request(r) => !ShutdownAccepted(r, strict) && !Unanswered(r)
    case SeeApp(alive) => alive && l.requested
    case _ => false
  }

  predicate EndsWith(l: StopLog, strict: bool, r: Result) {
    match r
    case NotRunning => FoundNothing(l)
    case ValidationFailed => l.last == Some(Validated(false))
    case LostBeforeStopping => l.last == Some(MarkStopping(false))
    case LostBeforeStopped => l.last == Some(MarkStopped(false))
    case GracefulFailure => GivesUp(l, strict)
    case OrphanStopped => l.last == Some(MarkStopped(true)) && l.owner.Some?
    case StoppedAlreadyExited => l.last == Some(MarkStopped(true)) && l.appGone
    case StoppedGracefully => l.last == Some(MarkStopped(true)) && l.owner.None? && !l.appGone
    case Threw => l.last.Some? && l.last.value.Throw?
  }

  predicate Ended(l: StopLog, strict: bool) {
    || FoundNothing(l) || GivesUp(l, strict)
    || (l.last.Some? && match l.last.value
                        case Validated(ok) => !ok
                        case MarkStopping(ok) => !ok
                        case MarkStopped(_) => true
                        case Throw(_) => true
                        case _ => false)
  }

  // ----- The automaton does exactly this. -----

  /** Nothing was written, sent or waited for yet. */
  predicate Quiet(l: StopLog) {
    !l.marked && !l.requested && l.accepted.None? && !l.exited && !l.forced
  }

  predicate OwnerFits(l: StopLog, step: OwnerStep) {
    && l.read.Some? && RecoverableFatal(l.read.value) && Quiet(l) && !l.appGone
    && (step.Lookup? <==> l.owner.None?) && l.steps >= 1 && (step.Lookup? <==> l.steps == 1)
    && match step
       case Lookup => l.last == Some(Read(l.read))
       case ValidateOwner => l.last == Some(FoundOwner(l.owner))
       case KillOwner => BeforeThat(l, FoundOwner(l.owner), Validated(true))
       case OwnerExit => l.last == Some(TerminateOwner(true))
       case OwnerHealth => l.last == Some(OwnerWait(true))
       case OwnerMark => l.last == Some(Health(true))
  }

  predicate EarlyFits(l: StopLog, step: EarlyStep) {
    && (Fresh(l) || Resumed(l)) && Quiet(l) && l.owner.None? && (l.appGone <==> step.MarkGone?)
    && match step
       case CheckApp => l.steps == 1 && l.last == Some(Read(l.read))
       case MarkGone => Fresh(l) && l.steps == 2 && l.last == Some(SeeApp(false))
       case ValidateApp => l.steps == 2 && BeforeThat(l, Read(l.read), SeeApp(true))
       case CheckSentinel => Fresh(l) && l.steps == 3 && BeforeThat(l, SeeApp(true), Validated(true))
       case ValidateSentinel => Fresh(l) && l.steps == 4 && l.last == Some(SeeSentinel(true))
       case Mark => Fresh(l) && l.steps > 3 && (l.last == Some(SeeSentinel(false))
                                                || BeforeThat(l, SeeSentinel(true), Validated(true)))
  }

  predicate WaitFits(l: StopLog, step: WaitStep) {
    && Stopping(l) && l.accepted.None? && !l.forced && l.owner.None? && l.steps > 1
    && (step.FinalGone? || !l.requested)
    && (l.appGone <==> step.GoneCheck? || step.GoneWait? || step.FinalGone?)
    && (step.GoneCheck? || step.WaitCheck? || step.GoneWait? || step.WaitSentinel? ==> !l.exited)
    && match step
       case GoneCheck => || l.last == Some(MarkStopping(true))
                         || (Resumed(l) && l.steps == 2 && l.last == Some(SeeApp(false)))
       case GoneWait => l.steps > 2 && l.last == Some(SeeSentinel(true))
       case WaitCheck => || l.last == Some(MarkStopping(true))
                         || (Resumed(l) && BeforeThat(l, SeeApp(true), Validated(true)))
       case WaitSentinel => l.steps > 2 && l.last == Some(SeeSentinel(true))
       case Recheck => l.steps > 2 && (|| l.last == Some(SeeSentinel(false)) || l.last == Some(SentinelWait(true))
                                       || (Resumed(l) && l.last == Some(SentinelWait(false))))
       case FinalGone => l.steps > 2 && (|| l.last == Some(SeeApp(false))
                                         || (!l.requested && (l.last == Some(SeeSentinel(false))
                                                              || l.last == Some(SentinelWait(true)))))
  }

  predicate DownFits(l: StopLog, step: DownStep, strict: bool) {
    && Stopping(l) && !l.forced && l.owner.None? && !l.appGone && l.steps > 2
    && (l.requested <==> !step.SendShutdown?) && (l.accepted.Some? <==> step.HealthWait?)
    && l.last.Some? && l.before.Some?
    && match step
       case SendShutdown => l.last.value == SeeApp(true)
                         && (l.before.value == SeeSentinel(false) || l.before.value.SentinelWait?)
       case CheckAfterRequest => l.last.value.Request? && Unanswered(l.last.value.response)
       case HealthWait => AcceptedRequest(l.last.value, strict)
  }

  predicate CloseFits(l: StopLog, step: CloseStep) {
    && Stopping(l) && l.owner.None? && !l.appGone && l.requested && l.accepted.Some? && l.steps > 2
    && match step
       case KillCheck => !l.exited && !l.forced && l.last == Some(Health(true))
       case Terminate => !l.exited && !l.forced && BeforeThat(l, Health(true), SeeSentinel(true))
       case ForceWait => !l.exited && l.forced && l.last == Some(KillSentinel(true))
       case FinalMark => || (l.exited && !l.forced && l.last == Some(Health(true)))
                         || (!l.exited && !l.forced && BeforeThat(l, Health(true), SeeSentinel(false)))
                         || (l.forced && BeforeThat(l, KillSentinel(true), SentinelWait(true)))
  }

  /** The automaton is where the log says, and remembers what it says. */
  predicate Fits(l: StopLog, c: Client) {
    && (match c.pc
        case Start => l == NO_ACTS
        case Owner(step) => OwnerFits(l, step)
        case Early(step) => EarlyFits(l, step)
        case Waiting(step) => WaitFits(l, step)
        case Down(step) => DownFits(l, step, c.strict)
        case Closing(step) => CloseFits(l, step)
        case Done(r) => EndsWith(l, c.strict, r) && (l.owner.Some? ==> !l.appGone))
    && (!c.pc.Start? ==> l.steps > 0)
    && (!c.pc.Done? ==> c.seen == l.read && c.ownerPid == l.owner && (c.resuming <==> Resumed(l))
                        && (c.sentinelExited ==> l.exited))
    && (c.pc == Waiting(Recheck) || c.pc.Down? || c.pc == Closing(KillCheck) ==> c.sentinelExited == l.exited)
  }

  predicate StepFits(l: StopLog, c: Client, a: Act, d: Client) {
    d.strict == c.strict && Fits(Noted(l, a, c.strict), d)
  }

  lemma OwnerStepFits(l: StopLog, c: Client, a: Act)
    requires c.pc.Owner? && Fits(l, c) && OwnerEnabled(c.pc.owner, a)
    ensures StepFits(l, c, a, AdvanceOwner(c, c.pc.owner, a))
  {
    match c.pc.owner {
      case OwnerMark => FinalMarkFits(l, c, a.ok, OrphanStopped);
      case _ =>
    }
  }

  /** The last write of each path. */
  lemma FinalMarkFits(l: StopLog, c: Client, ok: bool, success: Result)
    requires (l.owner.Some? ==> !l.appGone) && EndsWith(Noted(l, MarkStopped(true), c.strict), c.strict, success)
    ensures StepFits(l, c, MarkStopped(ok), MarkedStopped(c, ok, success))
  {
  }

  lemma EarlyStepFits(l: StopLog, c: Client, a: Act)
    requires c.pc.Early? && Fits(l, c) && EarlyEnabled(c.pc.early, a)
    ensures StepFits(l, c, a, AdvanceEarly(c, c.pc.early, a))
  {
  }

  lemma GoneStepFits(l: StopLog, c: Client, a: Act)
    requires c.pc.Waiting? && AfterGone(c.pc.wait) && Fits(l, c) && WaitEnabled(c.pc.wait, a)
    ensures StepFits(l, c, a, AdvanceWait(c, c.pc.wait, a))
  {
    match c.pc.wait {
      case FinalGone => FinalMarkFits(l, c, a.ok, StoppedAlreadyExited);
      case _ =>
    }
  }

  lemma WaitStepFits(l: StopLog, c: Client, a: Act)
    requires c.pc.Waiting? && !AfterGone(c.pc.wait) && Fits(l, c) && WaitEnabled(c.pc.wait, a)
    ensures StepFits(l, c, a, AdvanceWait(c, c.pc.wait, a))
  {
  }

  lemma RequestFits(l: StopLog, c: Client, r: Response)
    requires c.pc == Down(SendShutdown) && Fits(l, c)
    ensures StepFits(l, c, Request(r), AdvanceRequest(c, r))
  {
  }

  lemma DownStepFits(l: StopLog, c: Client, a: Act)
    requires c.pc.Down? && Fits(l, c) && DownEnabled(c.pc.down, a)
    ensures StepFits(l, c, a, AdvanceDown(c, c.pc.down, a))
  {
    if a.Request? {
      RequestFits(l, c, a.response);
    }
  }

  lemma CloseStepFits(l: StopLog, c: Client, a: Act)
    requires c.pc.Closing? && Fits(l, c) && CloseEnabled(c.pc.close, a)
    ensures StepFits(l, c, a, AdvanceClose(c, c.pc.close, a))
  {
    match c.pc.close {
      case FinalMark => FinalMarkFits(l, c, a.ok, StoppedGracefully);
      case _ =>
    }
  }

  lemma AdvanceFits(l: StopLog, c: Client, a: Act)
    requires Fits(l, c) && Enabled(c.pc, a)
    ensures StepFits(l, c, a, Advance(c, a))
  {
    if !a.Throw? {
      match c.pc {
        case Start =>
        case Owner(_) => OwnerStepFits(l, c, a);
        case Early(_) => EarlyStepFits(l, c, a);
        case Waiting(step) =>
          if AfterGone(step) {
            GoneStepFits(l, c, a);
          } else {
            WaitStepFits(l, c, a);
          }
        case Down(_) => DownStepFits(l, c, a);
        case Closing(_) => CloseStepFits(l, c, a);
      }
    }
  }

  lemma {:induction false} StopFits(strict: bool, acts: seq<Act>, n: nat)
    requires Accepts(NewClient(strict), acts) && n <= |acts|
    ensures Accepts(NewClient(strict), acts[..n])
    ensures Fits(LogOf(acts[..n], strict), After(NewClient(strict), acts[..n]))
    decreases n
  {
    AcceptsPrefix(NewClient(strict), acts, n);
    StrictnessIsFixed(NewClient(strict), acts[..n]);
    if n > 0 {
      StopFits(strict, acts, n - 1);
      LastStep(NewClient(strict), acts, n - 1);
      StrictnessIsFixed(NewClient(strict), acts[..n - 1]);
      assert acts[..n][..n - 1] == acts[..n - 1];
      AdvanceFits(LogOf(acts[..n - 1], strict), After(NewClient(strict), acts[..n - 1]), acts[n - 1]);
    }
  }

  // ----- Exactly the acts that may come are accepted. -----

  predicate AcceptsWhatMayCome(l: StopLog, c: Client, a: Act) {
    (Enabled(c.pc, a) <==> MayCome(l, a, c.strict)) && (c.pc.Done? <==> Ended(l, c.strict))
  }

  lemma OwnerAccepts(l: StopLog, c: Client, a: Act)
    requires c.pc.Owner? && Fits(l, c)
    ensures AcceptsWhatMayCome(l, c, a)
  {
  }

  lemma EarlyAccepts(l: StopLog, c: Client, a: Act)
    requires c.pc.Early? && Fits(l, c)
    ensures AcceptsWhatMayCome(l, c, a)
  {
  }

  lemma WaitAccepts(l: StopLog, c: Client, a: Act)
    requires c.pc.Waiting? && Fits(l, c)
    ensures AcceptsWhatMayCome(l, c, a)
  {
  }

  lemma DownAccepts(l: StopLog, c: Client, a: Act)
    requires c.pc.Down? && Fits(l, c)
    ensures AcceptsWhatMayCome(l, c, a)
  {
  }

  lemma CloseAccepts(l: StopLog, c: Client, a: Act)
    requires c.pc.Closing? && Fits(l, c)
    ensures AcceptsWhatMayCome(l, c, a)
  {
  }

  lemma DoneAccepts(l: StopLog, c: Client, a: Act)
    requires c.pc.Done? && Fits(l, c)
    ensures AcceptsWhatMayCome(l, c, a)
  {
  }

  lemma FitsAccepts(l: StopLog, c: Client, a: Act)
    requires Fits(l, c)
    ensures AcceptsWhatMayCome(l, c, a)
  {
    match c.pc {
      case Start =>
      case Owner(_) => OwnerAccepts(l, c, a);
      case Early(_) => EarlyAccepts(l, c, a);
      case Waiting(_) => WaitAccepts(l, c, a);
      case Down(_) => DownAccepts(l, c, a);
      case Closing(_) => CloseAccepts(l, c, a);
      case Done(_) => DoneAccepts(l, c, a);
    }
  }

  /** After any acts of a stop, the acts it can go on with are exactly those that may come; it is over exactly when they
      end it. */
  lemma StopAcceptsWhatMayCome(strict: bool, acts: seq<Act>, a: Act)
    requires Accepts(NewClient(strict), acts)
    ensures var c := After(NewClient(strict), acts);
            && (Enabled(c.pc, a) <==> MayCome(LogOf(acts, strict), a, strict))
            && (c.pc.Done? <==> Ended(LogOf(acts, strict), strict))
  {
    assert acts[..|acts|] == acts;
    StopFits(strict, acts, |acts|);
    StrictnessIsFixed(NewClient(strict), acts);
    FitsAccepts(LogOf(acts, strict), After(NewClient(strict), acts), a);
  }

  // ----- What the log says of the acts. -----

  predicate LogIs(l: StopLog, acts: seq<Act>) {
    && l.steps == |acts| && (acts != [] ==> l.last == Some(acts[|acts| - 1]))
    && (|acts| > 1 ==> l.before == Some(acts[|acts| - 2]))
    && (l.appGone <==> SeeApp(false) in acts)
    && l.read == if acts != [] && acts[0].Read? then acts[0].latest else None
  }

  lemma InMore<T>(s: seq<T>, x: T, y: T)
    ensures y in s + [x] <==> y in s || y == x
  {
  }

  lemma NotedIs(l: StopLog, acts: seq<Act>, a: Act, strict: bool)
    requires LogIs(l, acts)
    ensures LogIs(Noted(l, a, strict), acts + [a])
  {
    InMore(acts, a, SeeApp(false));
  }

  lemma {:induction false} LogSays(strict: bool, acts: seq<Act>)
    ensures LogIs(LogOf(acts, strict), acts)
    decreases |acts|
  {
    if acts != [] {
      LogSays(strict, acts[..|acts| - 1]);
      NotedIs(LogOf(acts[..|acts| - 1], strict), acts[..|acts| - 1], acts[|acts| - 1], strict);
      assert acts == acts[..|acts| - 1] + [acts[|acts| - 1]];
    }
  }

  /** Every act of a stop came when it may. */
  lemma ActsComeInOrder(strict: bool, acts: seq<Act>, k: nat)
    requires Accepts(NewClient(strict), acts) && k < |acts|
    ensures MayCome(LogOf(acts[..k], strict), acts[k], strict) && LogIs(LogOf(acts[..k], strict), acts[..k])
  {
    LastStep(NewClient(strict), acts, k);
    StopAcceptsWhatMayCome(strict, acts[..k], acts[k]);
    LogSays(strict, acts[..k]);
  }

  /** It read no record, or one that is no daemon's or neither live nor fatal for an app that did not start, or found
      nobody on the port of that. */
  predicate ReadsIdle(acts: seq<Act>) {
    && acts != [] && acts[0].Read?
    && (acts[0].latest.None?
        || acts[0].latest.value.mode != Daemon
        || acts[0].latest.value.status == Starting || acts[0].latest.value.status == Stopped
        || (acts[0].latest.value.status == Fatal
            && (|| acts[0].latest.value.fatalStage != Some(AppStartup)
                || acts[0].latest.value.port.None? || !(1024 <= acts[0].latest.value.port.value <= 65535)
                || (|acts| > 1 && acts[1] == FoundOwner(None)))))
  }

  predicate LastIs(acts: seq<Act>, a: Act) {
    acts != [] && acts[|acts| - 1] == a
  }

  lemma ReadIsFirst(strict: bool, acts: seq<Act>)
    requires Accepts(NewClient(strict), acts) && acts != [] && acts[|acts| - 1].Read?
    ensures |acts| == 1
  {
    ActsComeInOrder(strict, acts, |acts| - 1);
  }

  lemma LookupIsSecond(strict: bool, acts: seq<Act>)
    requires Accepts(NewClient(strict), acts)
    ensures LastIs(acts, FoundOwner(None)) ==> |acts| == 2
    ensures |acts| > 1 && acts[1] == FoundOwner(None) ==> |acts| == 2
  {
    if LastIs(acts, FoundOwner(None)) {
      LookupFollowsRead(strict, acts, |acts| - 1);
    } else if |acts| > 2 && acts[1] == FoundOwner(None) {
      ActsComeInOrder(strict, acts, 2);
      NothingAfterNobody(LogOf(acts[..2], strict), acts[2], strict);
    }
  }

  lemma NothingAfterNobody(l: StopLog, a: Act, strict: bool)
    requires l.last == Some(FoundOwner(None)) && l.steps > 0
    ensures !MayCome(l, a, strict)
  {
  }

  lemma LookupFollowsRead(strict: bool, acts: seq<Act>, k: nat)
    requires Accepts(NewClient(strict), acts) && k < |acts| && acts[k].FoundOwner?
    ensures k == 1
  {
    ActsComeInOrder(strict, acts, k);
    assert acts[k - 1].Read?;
    AcceptsPrefix(NewClient(strict), acts, k);
    ReadIsFirst(strict, acts[..k]);
  }

  lemma IdleReadEnds(strict: bool, acts: seq<Act>)
    requires Accepts(NewClient(strict), acts) && ReadsIdle(acts)
    ensures |acts| == 1 || (acts[0].latest.Some? && RecoverableFatal(acts[0].latest.value))
  {
    if |acts| > 1 {
      ActsComeInOrder(strict, acts, 1);
      assert acts[..1] == [acts[0]];
    }
  }

  lemma IdleExactly(strict: bool, acts: seq<Act>)
    requires Accepts(NewClient(strict), acts) && acts != []
    ensures FoundNothing(LogOf(acts, strict)) <==> ReadsIdle(acts)
  {
    LogSays(strict, acts);
    LookupIsSecond(strict, acts);
    if ReadsIdle(acts) {
      IdleReadEnds(strict, acts);
    } else if acts[|acts| - 1].Read? {
      ReadIsFirst(strict, acts);
    } else if LastIs(acts, FoundOwner(None)) {
      ActsComeInOrder(strict, acts, 1);
    }
  }

  predicate Succeeds(r: Result) {
    r == StoppedGracefully || r == StoppedAlreadyExited || r == OrphanStopped
  }

  /** The result of a stop, said over its acts. */
  predicate EndsAs(acts: seq<Act>, strict: bool, r: Result) {
    && (r == NotRunning <==> ReadsIdle(acts))
    && (r == ValidationFailed <==> LastIs(acts, Validated(false)))
    && (r == LostBeforeStopping <==> LastIs(acts, MarkStopping(false)))
    && (r == LostBeforeStopped <==> LastIs(acts, MarkStopped(false)))
    && (r == GracefulFailure <==> GivesUp(LogOf(acts, strict), strict))
    && (r == Threw <==> acts != [] && acts[|acts| - 1].Throw?)
    && (Succeeds(r) <==> LastIs(acts, MarkStopped(true)))
    && (r == StoppedAlreadyExited <==> LastIs(acts, MarkStopped(true)) && SeeApp(false) in acts)
    && (r == OrphanStopped <==> LastIs(acts, MarkStopped(true)) && LogOf(acts, strict).owner.Some?)
  }

  lemma TableOfResults(l: StopLog, acts: seq<Act>, strict: bool, r: Result)
    requires acts != [] && l.last == Some(acts[|acts| - 1]) && (l.appGone <==> SeeApp(false) in acts)
    requires l == LogOf(acts, strict) && (FoundNothing(l) <==> ReadsIdle(acts))
    requires EndsWith(l, strict, r) && (l.owner.Some? ==> !l.appGone)
    ensures EndsAs(acts, strict, r)
  {
  }

  lemma StopEndsAs(strict: bool, acts: seq<Act>, r: Result)
    requires Accepts(NewClient(strict), acts) && After(NewClient(strict), acts).pc == Done(r)
    ensures EndsAs(acts, strict, r)
  {
    assert acts[..|acts|] == acts;
    StopFits(strict, acts, |acts|);
    StrictnessIsFixed(NewClient(strict), acts);
    LogSays(strict, acts);
    IdleExactly(strict, acts);
    TableOfResults(LogOf(acts, strict), acts, strict, r);
  }

  lemma CodeOfResult(acts: seq<Act>, strict: bool, r: Result)
    requires EndsAs(acts, strict, r)
    ensures r.ExitCode() == Some(0) <==> ReadsIdle(acts) || LastIs(acts, MarkStopped(true))
    ensures r.ExitCode() == Some(0) <==> ReadsIdle(acts) || Succeeds(r)
    ensures r.ExitCode() == Some(1) <==> GivesUp(LogOf(acts, strict), strict)
    ensures r.ExitCode() == Some(2) <==> LastIs(acts, Validated(false))
    ensures r.ExitCode() == Some(3) <==> LastIs(acts, MarkStopping(false)) || LastIs(acts, MarkStopped(false))
  {
  }

  lemma SuccessIsMarked(strict: bool, acts: seq<Act>, r: Result)
    requires Accepts(NewClient(strict), acts) && After(NewClient(strict), acts).pc == Done(r)
    ensures Succeeds(r) <==> MarkStopped(true) in acts
  {
    StopFacts(strict, acts);
    SuccessIsWritten(strict, acts);
  }

  lemma RefusalIsUntouched(strict: bool, acts: seq<Act>, r: Result)
    requires Accepts(NewClient(strict), acts) && After(NewClient(strict), acts).pc == Done(r)
    requires r.ExitCode() == Some(2) || r == LostBeforeStopping || r == NotRunning
    ensures forall a :: a in acts ==> !Touches(a)
  {
    RefusalTouchesNothing(strict, acts);
  }

  /** What the exit code of a stop means: 2 that a process was not what the record says, and nothing was touched; 0
      that it read nothing to stop, and touched nothing, or that the stopped marker was its last act; 3 that one of its
      two markers lost; 1 that it gave up; none that it threw. */
  lemma ExitCodeMeans(strict: bool, acts: seq<Act>, r: Result)
    requires Accepts(NewClient(strict), acts) && After(NewClient(strict), acts).pc == Done(r)
    ensures EndsAs(acts, strict, r)
    ensures r.ExitCode() == Some(0) <==> ReadsIdle(acts) || LastIs(acts, MarkStopped(true))
    ensures r.ExitCode() == Some(0) <==> ReadsIdle(acts) || MarkStopped(true) in acts
    ensures r.ExitCode() == Some(1) <==> GivesUp(LogOf(acts, strict), strict)
    ensures r.ExitCode() == Some(2) <==> LastIs(acts, Validated(false))
    ensures r.ExitCode() == Some(3) <==> LastIs(acts, MarkStopping(false)) || LastIs(acts, MarkStopped(false))
    ensures r.ExitCode() == Some(2) || r == LostBeforeStopping || r == NotRunning ==>
            forall a :: a in acts ==> !Touches(a)
  {
    StopEndsAs(strict, acts, r);
    CodeOfResult(acts, strict, r);
    SuccessIsMarked(strict, acts, r);
    if r.ExitCode() == Some(2) || r == LostBeforeStopping || r == NotRunning {
      RefusalIsUntouched(strict, acts, r);
    }
  }

  // ----- The warnings of a success. -----

  /** What an act adds to the warnings of the stop. */
  function WarningsOf(l: StopLog, a: Act, strict: bool): seq<Warning> {
    match a
    case SentinelWait(exited) =>
      if exited then (if l.last == Some(KillSentinel(true)) then [SentinelTerminated] else [])
      else if Resumed(l) && !l.appGone && !l.requested then [SentinelLate] else []
    case Request(r) => if ShutdownAccepted(r, strict) then CleanupWarnings(CleanupEvidence(r.body).value) else []
    case _ => []
  }

  function AllWarnings(acts: seq<Act>, strict: bool): seq<Warning> {
    if acts == [] then []
    else
      var init := acts[..|acts| - 1];
      AllWarnings(init, strict) + WarningsOf(LogOf(init, strict), acts[|acts| - 1], strict)
  }

  lemma ActWarns(l: StopLog, c: Client, a: Act)
    requires Fits(l, c) && Enabled(c.pc, a)
    ensures Advance(c, a).warnings == c.warnings + WarningsOf(l, a, c.strict)
  {
    match a {
      case SentinelWait(_) => WaitWarns(l, c, a);
      case Request(_) =>
      case _ => OthersDoNotWarn(c, a);
    }
  }

  lemma WaitWarns(l: StopLog, c: Client, a: Act)
    requires Fits(l, c) && Enabled(c.pc, a) && a.SentinelWait?
    ensures Advance(c, a).warnings == c.warnings + WarningsOf(l, a, c.strict)
  {
  }

  lemma OthersDoNotWarn(c: Client, a: Act)
    requires Enabled(c.pc, a) && !a.SentinelWait? && !a.Request?
    ensures Advance(c, a).warnings == c.warnings
  {
  }

  /** A stop warns of exactly what its acts were answered, in order. */
  lemma {:induction false} StopWarns(strict: bool, acts: seq<Act>, n: nat)
    requires Accepts(NewClient(strict), acts) && n <= |acts|
    ensures Accepts(NewClient(strict), acts[..n])
    ensures After(NewClient(strict), acts[..n]).warnings == AllWarnings(acts[..n], strict)
    decreases n
  {
    AcceptsPrefix(NewClient(strict), acts, n);
    if n > 0 {
      StopWarns(strict, acts, n - 1);
      StopFits(strict, acts, n - 1);
      LastStep(NewClient(strict), acts, n - 1);
      StrictnessIsFixed(NewClient(strict), acts[..n - 1]);
      assert acts[..n][..n - 1] == acts[..n - 1];
      ActWarns(LogOf(acts[..n - 1], strict), After(NewClient(strict), acts[..n - 1]), acts[n - 1]);
    }
  }

  /** The sessions that were degraded and those that were skipped are warned of under their own numbers. */
  lemma CleanupIsNamed(c: Cleanup, w: Warning)
    ensures w in CleanupWarnings(c)
            <==> || (c.degraded > 0 && w == Degraded(c.degraded))
                 || (c.skippedUnverified > 0 && w == SkippedUnverified(c.skippedUnverified))
  {
  }
}
