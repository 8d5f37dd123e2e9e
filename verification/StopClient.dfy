/** `stopDaemon` as an automaton over what it does and what it is answered.  One `Act` is one read,
    oracle answer, wait, request, kill or compare-and-set; `Advance` is the code between two of them.
    The imperative method in StopDaemon follows this automaton step by step, and Lifecycle runs any
    number of copies of it against the sentinel. */
module StopClient {
  import opened DaemonState
  import opened Wrappers

  // ----- The evidence a shutdown response must carry. -----

  const WORKSPACE_FLUSH_MARKER := "[Shutdown] Workspace state + CWDs saved"

  /** The JSON body; a field is None when it is missing or has the wrong type. */
  datatype Body = Body(
    ok: Option<bool>,
    workspaceFlushed: Option<bool>,
    workspaceDataPath: Option<string>,
    workspaceLastUpdated: Option<int>,
    workspaceLastCwdCount: Option<int>,
    workspaceTabCount: Option<int>,
    workspaceFlushMarker: Option<string>,
    attempted: Option<int>,
    completed: Option<int>,
    degraded: Option<int>,
    skippedUnverified: Option<int>,
    remainingDescendants: Option<int>)

  datatype Response = Response(ok: bool, statusCode: int, nonresponse: bool, body: Option<Body>)

  datatype Cleanup = Cleanup(attempted: nat, completed: nat, degraded: nat, skippedUnverified: nat, remaining: nat)

  datatype Warning = Degraded(n: nat) | SkippedUnverified(n: nat) | SentinelLate | SentinelTerminated

  predicate IsCount(n: Option<int>) {
    n.Some? && n.value >= 0
  }

  predicate HasFlushEvidence(body: Option<Body>) {
    && body.Some?
    && body.value.workspaceFlushed == Some(true)
    && body.value.workspaceDataPath.Some? && NonBlank(body.value.workspaceDataPath.value)
    && body.value.workspaceLastUpdated.Some?
    && IsCount(body.value.workspaceLastCwdCount)
    && IsCount(body.value.workspaceTabCount)
    && body.value.workspaceFlushMarker == Some(WORKSPACE_FLUSH_MARKER)
  }

  function CleanupEvidence(body: Option<Body>): Option<Cleanup> {
    if body.None? then None
    else
      var b := body.value;
      if !(IsCount(b.attempted) && IsCount(b.completed) && IsCount(b.degraded)
           && IsCount(b.skippedUnverified) && IsCount(b.remainingDescendants)) then None
      else if b.completed.value + b.degraded.value + b.skippedUnverified.value > b.attempted.value then None
      else Some(Cleanup(b.attempted.value, b.completed.value, b.degraded.value,
                        b.skippedUnverified.value, b.remainingDescendants.value))
  }

  function CleanupWarnings(c: Cleanup): seq<Warning> {
    (if c.degraded > 0 then [Degraded(c.degraded)] else [])
    + (if c.skippedUnverified > 0 then [SkippedUnverified(c.skippedUnverified)] else [])
  }

  predicate PolicyAccepts(c: Cleanup, strict: bool) {
    if c.remaining > 0 then false
    else !(strict && |CleanupWarnings(c)| > 0)
  }

  predicate RequestFailed(r: Response) {
    !r.ok || r.statusCode != 200 || (r.body.Some? && r.body.value.ok == Some(false))
  }

  predicate ShutdownAccepted(r: Response, strict: bool) {
    && !RequestFailed(r)
    && HasFlushEvidence(r.body)
    && CleanupEvidence(r.body).Some?
    && PolicyAccepts(CleanupEvidence(r.body).value, strict)
  }

  /** What an accepted cleanup says: nothing verified is left, nothing is counted twice, and under
      the strict policy every attempted session that is accounted for was completed. */
  predicate Clean(c: Cleanup, strict: bool) {
    && c.remaining == 0
    && c.completed + c.degraded + c.skippedUnverified <= c.attempted
    && (strict ==> c.degraded == 0 && c.skippedUnverified == 0)
  }

  /** The policy and the evidence parser accept exactly the clean cleanups that were fully reported. */
  lemma AcceptedExactlyClean(body: Option<Body>, strict: bool)
    ensures (CleanupEvidence(body).Some? && PolicyAccepts(CleanupEvidence(body).value, strict))
       <==> (&& body.Some?
             && IsCount(body.value.attempted) && IsCount(body.value.completed) && IsCount(body.value.degraded)
             && IsCount(body.value.skippedUnverified) && body.value.remainingDescendants == Some(0)
             && Clean(Cleanup(body.value.attempted.value, body.value.completed.value, body.value.degraded.value,
                              body.value.skippedUnverified.value, 0), strict))
  {
  }

  /** A shutdown response is accepted exactly when it is a 200 that does not deny, reports a workspace flush with its
      path, time, counts and marker, and a clean cleanup with all its counts; these are the evidence. */
  lemma AcceptedExactly(r: Response, strict: bool)
    ensures ShutdownAccepted(r, strict)
       <==> (&& r.ok && r.statusCode == 200 && r.body.Some?
             && var b := r.body.value;
                && b.ok != Some(false)
                && b.workspaceFlushed == Some(true)
                && b.workspaceDataPath.Some? && (exists i :: 0 <= i < |b.workspaceDataPath.value|
                                                             && !IsSpace(b.workspaceDataPath.value[i]))
                && b.workspaceLastUpdated.Some?
                && b.workspaceLastCwdCount.Some? && b.workspaceLastCwdCount.value >= 0
                && b.workspaceTabCount.Some? && b.workspaceTabCount.value >= 0
                && b.workspaceFlushMarker == Some("[Shutdown] Workspace state + CWDs saved")
                && b.attempted.Some? && b.completed.Some? && b.degraded.Some? && b.skippedUnverified.Some?
                && b.completed.value >= 0 && b.degraded.value >= 0 && b.skippedUnverified.value >= 0
                && b.completed.value + b.degraded.value + b.skippedUnverified.value <= b.attempted.value
                && b.remainingDescendants == Some(0)
                && (strict ==> b.degraded.value == 0 && b.skippedUnverified.value == 0))
    ensures ShutdownAccepted(r, strict) ==>
              && var b, c := r.body.value, CleanupEvidence(r.body).value;
              && b.attempted == Some(c.attempted) && b.completed == Some(c.completed) && b.degraded == Some(c.degraded)
              && b.skippedUnverified == Some(c.skippedUnverified) && b.remainingDescendants == Some(c.remaining)
  {
    AcceptedExactlyClean(r.body, strict);
  }

  // ----- The automaton. -----

  datatype Result =
    | NotRunning            // exit 0
    | ValidationFailed      // exit 2
    | LostBeforeStopping    // exit 3, nothing terminated
    | LostBeforeStopped     // exit 3, everything down but the marker
    | GracefulFailure       // exit 1
    | StoppedGracefully     // exit 0, 'stopped'
    | StoppedAlreadyExited  // exit 0, 'stopped'
    | OrphanStopped         // exit 0, 'orphan-stopped'
    | Threw                 // the promise was rejected
  {
    function ExitCode(): Option<int> {
      match this
      case NotRunning => Some(0)
      case ValidationFailed => Some(2)
      case LostBeforeStopping => Some(3)
      case LostBeforeStopped => Some(3)
      case GracefulFailure => Some(1)
      case StoppedGracefully => Some(0)
      case StoppedAlreadyExited => Some(0)
      case OrphanStopped => Some(0)
      case Threw => None
    }
  }

  /** The record is fatal: an orphaned app may still hold its port. */
  datatype OwnerStep = Lookup | ValidateOwner | KillOwner | OwnerExit | OwnerHealth | OwnerMark

  /** The record was live when it was read; nothing has been written yet. */
  datatype EarlyStep = CheckApp | MarkGone | ValidateApp | CheckSentinel | ValidateSentinel | Mark

  /** The record is stopping on this client's account; the sentinel is awaited. */
  datatype WaitStep = GoneCheck | GoneWait | WaitCheck | WaitSentinel | Recheck | FinalGone

  /** The app was up after the stopping marker: it is shut down through its own endpoint. */
  datatype DownStep = SendShutdown | CheckAfterRequest | HealthWait

  /** The shutdown is confirmed: a stuck sentinel is terminated and the stopped marker written. */
  datatype CloseStep = KillCheck | Terminate | ForceWait | FinalMark

  datatype Pc =
    | Start
    | Owner(owner: OwnerStep)
    | Early(early: EarlyStep)
    | Waiting(wait: WaitStep)
    | Down(down: DownStep)
    | Closing(close: CloseStep)
    | Done(result: Result)

  datatype Act =
    | Read(latest: Option<State>)
    | SeeApp(alive: bool)
    | SeeSentinel(alive: bool)
    | Validated(ok: bool)
    | OutOfBudget
    | MarkStopping(ok: bool)
    | MarkStopped(ok: bool)
    | SentinelWait(exited: bool)
    | Request(response: Response)
    | Health(silent: bool)
    | KillSentinel(ok: bool)
    | FoundOwner(pid: Option<Pid>)
    | TerminateOwner(ok: bool)
    | OwnerWait(exited: bool)
    | Throw(wrote: bool)

  /** What the client has done and been told so far. */
  datatype Facts = Facts(
    marked: bool,             // it moved the record running -> stopping
    appGone: bool,            // it was told the recorded app is gone
    sentinelDead: bool,       // after the stopping marker and before any request, it was told the sentinel is gone
    requested: bool,          // it sent a shutdown request
    cleanup: Option<Cleanup>, // the evidence of an accepted shutdown
    silent: bool,             // after that, health stopped responding
    kills: nat,
    stopped: bool)            // it moved the record to stopped

  const NO_FACTS := Facts(false, false, false, false, None, false, 0, false)

  datatype Client = Client(pc: Pc, seen: Option<State>, resuming: bool, strict: bool, ownerPid: Option<Pid>,
                           sentinelExited: bool, warnings: seq<Warning>, facts: Facts)

  function NewClient(strict: bool): Client {
    Client(Start, None, false, strict, None, false, [], NO_FACTS)
  }

  /** The step is a compare-and-set on the state file. */
  predicate Writes(pc: Pc) {
    || (pc.Owner? && pc.owner.OwnerMark?)
    || (pc.Early? && (pc.early.MarkGone? || pc.early.Mark?))
    || (pc.Waiting? && pc.wait.FinalGone?)
    || (pc.Closing? && pc.close.FinalMark?)
  }

  predicate OwnerEnabled(step: OwnerStep, a: Act) {
    match step
    case Lookup => a.FoundOwner?
    case ValidateOwner => a.Validated?
    case KillOwner => a.TerminateOwner? || a.OutOfBudget?
    case OwnerExit => a.OwnerWait?
    case OwnerHealth => a.Health? || a.OutOfBudget?
    case OwnerMark => a.MarkStopped?
  }

  predicate EarlyEnabled(step: EarlyStep, a: Act) {
    match step
    case CheckApp => a.SeeApp?
    case MarkGone => a.MarkStopping?
    case ValidateApp => a.Validated?
    case CheckSentinel => a.SeeSentinel?
    case ValidateSentinel => a.Validated?
    case Mark => a.MarkStopping?
  }

  predicate WaitEnabled(step: WaitStep, a: Act) {
    match step
    case GoneCheck => a.SeeSentinel?
    case GoneWait => a.SentinelWait? || a.OutOfBudget?
    case WaitCheck => a.SeeSentinel?
    case WaitSentinel => a.SentinelWait? || a.OutOfBudget?
    case Recheck => a.SeeApp?
    case FinalGone => a.MarkStopped?
  }

  predicate DownEnabled(step: DownStep, a: Act) {
    match step
    case SendShutdown => a.Request? || a.OutOfBudget?
    case CheckAfterRequest => a.SeeApp?
    case HealthWait => a.Health? || a.OutOfBudget?
  }

  predicate CloseEnabled(step: CloseStep, a: Act) {
    match step
    case KillCheck => a.SeeSentinel?
    case Terminate => a.KillSentinel?
    case ForceWait => a.SentinelWait?
    case FinalMark => a.MarkStopped?
  }

  predicate Enabled(pc: Pc, a: Act) {
    if a.Throw? then !pc.Done? && (a.wrote ==> Writes(pc))
    else match pc
         case Start => a.Read?
         case Owner(step) => OwnerEnabled(step, a)
         case Early(step) => EarlyEnabled(step, a)
         case Waiting(step) => WaitEnabled(step, a)
         case Down(step) => DownEnabled(step, a)
         case Closing(step) => CloseEnabled(step, a)
         case Done(_) => false
  }

  function Finish(c: Client, r: Result): Client {
    c.(pc := Done(r))
  }

  function TellAppGone(c: Client): Client {
    c.(facts := c.facts.(appGone := true))
  }

  function TellSentinelDead(c: Client): Client {
    c.(facts := c.facts.(sentinelDead := true))
  }

  /** A client only ever believes it wrote a marker because a compare-and-set just said so. */
  predicate Believes(c: Client, a: Act, d: Client) {
    && (d.facts.marked ==> c.facts.marked || (a.MarkStopping? && a.ok))
    && (d.facts.stopped ==> c.facts.stopped || (a.MarkStopped? && a.ok))
    && d.strict == c.strict
  }

  function AdvanceRead(c: Client, latest: Option<State>): Client {
    if latest.None? then Finish(c, NotRunning)
    else
      var next := c.(seen := latest, resuming := latest.value.status == Stopping);
      if Stoppable(latest.value) then next.(pc := Early(CheckApp))
      else if RecoverableFatal(latest.value) then next.(pc := Owner(Lookup))
      else Finish(c, NotRunning)
  }

  function AdvanceOwner(c: Client, step: OwnerStep, a: Act): (d: Client)
    requires OwnerEnabled(step, a)
    ensures Believes(c, a, d)
  {
    if a.OutOfBudget? then Finish(c, GracefulFailure)
    else match step
         case Lookup => if a.pid.None? then Finish(c, NotRunning) else c.(pc := Owner(ValidateOwner), ownerPid := a.pid)
         case ValidateOwner => if a.ok then c.(pc := Owner(KillOwner)) else Finish(c, ValidationFailed)
         case KillOwner =>
           if a.ok then c.(pc := Owner(OwnerExit), facts := c.facts.(kills := c.facts.kills + 1))
           else Finish(c, GracefulFailure)
         case OwnerExit => if a.exited then c.(pc := Owner(OwnerHealth)) else Finish(c, GracefulFailure)
         case OwnerHealth => if a.silent then c.(pc := Owner(OwnerMark)) else Finish(c, GracefulFailure)
         case OwnerMark => MarkedStopped(c, a.ok, OrphanStopped)
  }

  function MarkedStopped(c: Client, ok: bool, success: Result): Client {
    if ok then Finish(c.(facts := c.facts.(stopped := true)), success) else Finish(c, LostBeforeStopped)
  }

  function MarkedStopping(c: Client, ok: bool, next: WaitStep): Client {
    if ok then c.(pc := Waiting(next), facts := c.facts.(marked := true)) else Finish(c, LostBeforeStopping)
  }

  function AdvanceEarly(c: Client, step: EarlyStep, a: Act): (d: Client)
    requires EarlyEnabled(step, a)
    ensures Believes(c, a, d)
  {
    match step
    case CheckApp =>
      if a.alive then c.(pc := Early(ValidateApp))
      else if c.resuming then TellAppGone(c).(pc := Waiting(GoneCheck))
      else TellAppGone(c).(pc := Early(MarkGone))
    case MarkGone => MarkedStopping(c, a.ok, GoneCheck)
    case ValidateApp =>
      if !a.ok then Finish(c, ValidationFailed)
      else if c.resuming then c.(pc := Waiting(WaitCheck))
      else c.(pc := Early(CheckSentinel))
    case CheckSentinel => c.(pc := Early(if a.alive then ValidateSentinel else Mark))
    case ValidateSentinel => if a.ok then c.(pc := Early(Mark)) else Finish(c, ValidationFailed)
    case Mark => MarkedStopping(c, a.ok, WaitCheck)
  }

  function AdvanceWait(c: Client, step: WaitStep, a: Act): (d: Client)
    requires WaitEnabled(step, a)
    ensures Believes(c, a, d)
  {
    if a.OutOfBudget? then Finish(c, GracefulFailure)
    else match step
         case GoneCheck => if a.alive then c.(pc := Waiting(GoneWait))
           else TellSentinelDead(c).(pc := Waiting(FinalGone))
         case GoneWait => if a.exited then TellSentinelDead(c).(pc := Waiting(FinalGone))
           else Finish(c, GracefulFailure)
         case WaitCheck => if a.alive then c.(pc := Waiting(WaitSentinel))
           else TellSentinelDead(c).(pc := Waiting(Recheck))
         case WaitSentinel =>
           if a.exited then TellSentinelDead(c).(pc := Waiting(Recheck), sentinelExited := true)
           else if c.resuming then c.(pc := Waiting(Recheck), warnings := c.warnings + [SentinelLate])
           else Finish(c, GracefulFailure)
         case Recheck => if a.alive then c.(pc := Down(SendShutdown)) else TellAppGone(c).(pc := Waiting(FinalGone))
         case FinalGone => MarkedStopped(c, a.ok, StoppedAlreadyExited)
  }

  function AdvanceRequest(c: Client, r: Response): (d: Client)
    ensures Believes(c, Request(r), d)
    ensures d.facts == c.facts.(requested := true, cleanup := d.facts.cleanup)
    ensures d.facts.cleanup == c.facts.cleanup || ShutdownAccepted(r, c.strict)
  {
    var sent := c.(facts := c.facts.(requested := true));
    if RequestFailed(r) then
      if r.nonresponse then sent.(pc := Down(CheckAfterRequest)) else Finish(sent, GracefulFailure)
    else if ShutdownAccepted(r, c.strict) then
      var cleanup := CleanupEvidence(r.body);
      sent.(pc := Down(HealthWait), facts := sent.facts.(cleanup := cleanup),
            warnings := c.warnings + CleanupWarnings(cleanup.value))
    else Finish(sent, GracefulFailure)
  }

  function AdvanceDown(c: Client, step: DownStep, a: Act): (d: Client)
    requires DownEnabled(step, a)
    ensures Believes(c, a, d)
  {
    if a.OutOfBudget? then Finish(c, GracefulFailure)
    else match step
         case SendShutdown => AdvanceRequest(c, a.response)
         case CheckAfterRequest => if a.alive then Finish(c, GracefulFailure)
           else TellAppGone(c).(pc := Waiting(FinalGone))
         case HealthWait =>
           if a.silent then c.(pc := Closing(if c.sentinelExited then FinalMark else KillCheck),
                   facts := c.facts.(silent := true))
           else Finish(c, GracefulFailure)
  }

  function AdvanceClose(c: Client, step: CloseStep, a: Act): (d: Client)
    requires CloseEnabled(step, a)
    ensures Believes(c, a, d)
  {
    match step
    case KillCheck => c.(pc := Closing(if a.alive then Terminate else FinalMark))
    case Terminate =>
      if a.ok then c.(pc := Closing(ForceWait), facts := c.facts.(kills := c.facts.kills + 1))
      else Finish(c, GracefulFailure)
    case ForceWait =>
      if a.exited then c.(pc := Closing(FinalMark), warnings := c.warnings + [SentinelTerminated])
      else Finish(c, GracefulFailure)
    case FinalMark => MarkedStopped(c, a.ok, StoppedGracefully)
  }

  function Advance(c: Client, a: Act): (d: Client)
    requires Enabled(c.pc, a)
    ensures Believes(c, a, d)
  {
    if a.Throw? then Finish(c, Threw)
    else match c.pc
         case Start => AdvanceRead(c, a.latest)
         case Owner(step) => AdvanceOwner(c, step, a)
         case Early(step) => AdvanceEarly(c, step, a)
         case Waiting(step) => AdvanceWait(c, step, a)
         case Down(step) => AdvanceDown(c, step, a)
         case Closing(step) => AdvanceClose(c, step, a)
  }

  // ----- What a client knows at each point. -----

  predicate AcceptedCleanup(c: Client) {
    c.facts.cleanup.Some? && Clean(c.facts.cleanup.value, c.strict)
  }

  /** Nothing has been written, killed or requested. */
  predicate Untouched(c: Client) {
    !c.facts.marked && !c.facts.stopped && !c.facts.requested && c.facts.kills == 0
  }

  predicate Begun(c: Client) {
    c.seen.Some? && Stoppable(c.seen.value) && (c.resuming <==> c.seen.value.status == Stopping)
  }

  /** The record is stopping on this client's account: it wrote the marker or it resumes one. */
  predicate OnTrack(c: Client) {
    Begun(c) && !c.facts.stopped && (c.facts.marked <==> !c.resuming)
  }

  /** Only a resumed stop goes on without having been told that the sentinel is gone. */
  predicate SentinelSettled(c: Client) {
    c.resuming || c.facts.sentinelDead
  }

  predicate KnowsOwner(c: Client, step: OwnerStep) {
    && c.seen.Some? && RecoverableFatal(c.seen.value)
    && !c.facts.marked && !c.facts.requested && !c.facts.stopped
    && (step.Lookup? || step.ValidateOwner? ==> c.facts.kills == 0)
  }

  predicate KnowsEarly(c: Client, step: EarlyStep) {
    && Begun(c) && Untouched(c) && !c.facts.sentinelDead
    && (step.CheckApp? || step.ValidateApp? || !c.resuming)
    && (step.MarkGone? ==> c.facts.appGone)
  }

  predicate KnowsWait(c: Client, step: WaitStep) {
    && OnTrack(c) && c.facts.kills == 0
    && (step.FinalGone? || !c.facts.requested)
    && (step.GoneCheck? || step.GoneWait? || step.FinalGone? ==> c.facts.appGone)
    && (step.Recheck? || step.FinalGone? ==> SentinelSettled(c))
  }

  predicate KnowsDown(c: Client, step: DownStep) {
    && OnTrack(c) && SentinelSettled(c) && c.facts.kills == 0
    && (c.facts.requested <==> !step.SendShutdown?)
    && (step.HealthWait? ==> AcceptedCleanup(c))
  }

  predicate KnowsClose(c: Client) {
    OnTrack(c) && SentinelSettled(c) && c.facts.requested && AcceptedCleanup(c) && c.facts.silent
  }

  predicate KnowsAtEnd(c: Client, r: Result) {
    match r
    case NotRunning => Untouched(c)
    case ValidationFailed => Untouched(c)
    case LostBeforeStopping => Untouched(c)
    case StoppedGracefully =>
      && Begun(c) && (c.facts.marked <==> !c.resuming) && SentinelSettled(c)
      && c.facts.requested && AcceptedCleanup(c) && c.facts.silent && c.facts.stopped
    case StoppedAlreadyExited =>
      && Begun(c) && (c.facts.marked <==> !c.resuming) && SentinelSettled(c)
      && c.facts.appGone && c.facts.stopped && c.facts.kills == 0
    case OrphanStopped => c.seen.Some? && RecoverableFatal(c.seen.value) && !c.facts.marked && c.facts.stopped
    case _ => !c.facts.stopped
  }

  predicate Knows(c: Client) {
    match c.pc
    case Start => c == NewClient(c.strict)
    case Owner(step) => KnowsOwner(c, step)
    case Early(step) => KnowsEarly(c, step)
    case Waiting(step) => KnowsWait(c, step)
    case Down(step) => KnowsDown(c, step)
    case Closing(_) => KnowsClose(c)
    case Done(r) => KnowsAtEnd(c, r)
  }

  lemma OwnerKeepsKnowledge(c: Client, a: Act)
    requires c.pc.Owner? && KnowsOwner(c, c.pc.owner) && OwnerEnabled(c.pc.owner, a)
    ensures Knows(AdvanceOwner(c, c.pc.owner, a))
  {
    match c.pc.owner {
      case OwnerMark => MarkedStoppedKeepsKnowledge(c, a.ok, OrphanStopped);
      case _ =>
    }
  }

  /** The last write of each path. */
  lemma MarkedStoppedKeepsKnowledge(c: Client, ok: bool, success: Result)
    requires !c.facts.stopped && KnowsAtEnd(c.(facts := c.facts.(stopped := true)), success)
    ensures Knows(MarkedStopped(c, ok, success))
  {
  }

  lemma EarlyKeepsKnowledge(c: Client, a: Act)
    requires c.pc.Early? && KnowsEarly(c, c.pc.early) && EarlyEnabled(c.pc.early, a)
    ensures Knows(AdvanceEarly(c, c.pc.early, a))
  {
  }

  predicate AfterGone(step: WaitStep) {
    step.GoneCheck? || step.GoneWait? || step.FinalGone?
  }

  lemma GoneKeepsKnowledge(c: Client, a: Act)
    requires c.pc.Waiting? && AfterGone(c.pc.wait) && KnowsWait(c, c.pc.wait) && WaitEnabled(c.pc.wait, a)
    ensures Knows(AdvanceWait(c, c.pc.wait, a))
  {
  }

  lemma WaitKeepsKnowledge(c: Client, a: Act)
    requires c.pc.Waiting? && !AfterGone(c.pc.wait) && KnowsWait(c, c.pc.wait) && WaitEnabled(c.pc.wait, a)
    ensures Knows(AdvanceWait(c, c.pc.wait, a))
  {
  }

  lemma RequestKeepsKnowledge(c: Client, r: Response)
    requires KnowsDown(c, SendShutdown)
    ensures Knows(AdvanceRequest(c, r))
  {
    AcceptedExactlyClean(r.body, c.strict);
  }

  lemma DownKeepsKnowledge(c: Client, a: Act)
    requires c.pc.Down? && KnowsDown(c, c.pc.down) && DownEnabled(c.pc.down, a)
    ensures Knows(AdvanceDown(c, c.pc.down, a))
  {
    if a.Request? {
      RequestKeepsKnowledge(c, a.response);
    }
  }

  lemma CloseKeepsKnowledge(c: Client, a: Act)
    requires c.pc.Closing? && KnowsClose(c) && CloseEnabled(c.pc.close, a)
    ensures Knows(AdvanceClose(c, c.pc.close, a))
  {
    match c.pc.close {
      case FinalMark => MarkedStoppedKeepsKnowledge(c, a.ok, StoppedGracefully);
      case _ =>
    }
  }

  lemma AdvanceKeepsKnowledge(c: Client, a: Act)
    requires Knows(c) && Enabled(c.pc, a)
    ensures Knows(Advance(c, a))
  {
    if !a.Throw? {
      match c.pc {
        case Start =>
        case Owner(_) => OwnerKeepsKnowledge(c, a);
        case Early(_) => EarlyKeepsKnowledge(c, a);
        case Waiting(step) =>
          if AfterGone(step) {
            GoneKeepsKnowledge(c, a);
          } else {
            WaitKeepsKnowledge(c, a);
          }
        case Down(_) => DownKeepsKnowledge(c, a);
        case Closing(_) => CloseKeepsKnowledge(c, a);
      }
    }
  }

  // ----- Whole stops. -----

  predicate Accepts(c: Client, acts: seq<Act>)
    decreases |acts|
  {
    acts == [] || (Enabled(c.pc, acts[0]) && Accepts(Advance(c, acts[0]), acts[1..]))
  }

  function After(c: Client, acts: seq<Act>): Client
    requires Accepts(c, acts)
    decreases |acts|
  {
    if acts == [] then c else After(Advance(c, acts[0]), acts[1..])
  }

  lemma {:induction false} KnowledgeOfWholeStop(c: Client, acts: seq<Act>)
    requires Knows(c) && Accepts(c, acts)
    ensures Knows(After(c, acts))
    decreases |acts|
  {
    if acts != [] {
      AdvanceKeepsKnowledge(c, acts[0]);
      KnowledgeOfWholeStop(Advance(c, acts[0]), acts[1..]);
    }
  }

  predicate ReportsStopped(pc: Pc) {
    pc == Done(StoppedGracefully) || pc == Done(StoppedAlreadyExited)
  }

  predicate RefusesUntouched(pc: Pc) {
    pc == Done(ValidationFailed) || pc == Done(LostBeforeStopping) || pc == Done(NotRunning)
  }

  // ----- The order of the acts. -----

  predicate SawSentinelGone(a: Act) {
    a == SeeSentinel(false) || a == SentinelWait(true)
  }

  predicate AcceptedRequest(a: Act, strict: bool) {
    a.Request? && ShutdownAccepted(a.response, strict)
  }

  ghost predicate Marked(acts: seq<Act>) {
    exists m :: 0 <= m < |acts| && acts[m] == MarkStopping(true)
  }

  /** It was told that the sentinel is gone, and before that it wrote the stopping marker. */
  ghost predicate GoneAfterMark(acts: seq<Act>) {
    exists d :: 0 <= d < |acts| && SawSentinelGone(acts[d]) && Marked(acts[..d])
  }

  ghost predicate ToldAppGone(acts: seq<Act>) {
    exists k :: 0 <= k < |acts| && acts[k] == SeeApp(false)
  }

  ghost predicate Accepted(acts: seq<Act>, strict: bool) {
    exists j :: 0 <= j < |acts| && AcceptedRequest(acts[j], strict)
  }

  /** Health fell silent, and before that a shutdown request was accepted. */
  ghost predicate SilentAfterAccepted(acts: seq<Act>, strict: bool) {
    exists k :: 0 <= k < |acts| && acts[k] == Health(true) && Accepted(acts[..k], strict)
  }

  /** Every fact comes from acts in the right order. */
  ghost predicate Happened(acts: seq<Act>, f: Facts, strict: bool) {
    && (f.marked ==> Marked(acts))
    && (f.sentinelDead && f.marked ==> GoneAfterMark(acts))
    && (f.appGone ==> ToldAppGone(acts))
    && (f.cleanup.Some? ==> Accepted(acts, strict))
    && (f.silent ==> SilentAfterAccepted(acts, strict))
  }

  /** What has happened stays in front of later acts. */
  lemma HappenedBefore(acts: seq<Act>, a: Act, strict: bool)
    ensures Marked(acts) ==> Marked(acts + [a])
    ensures GoneAfterMark(acts) ==> GoneAfterMark(acts + [a])
    ensures ToldAppGone(acts) ==> ToldAppGone(acts + [a])
    ensures Accepted(acts, strict) ==> Accepted(acts + [a], strict)
    ensures SilentAfterAccepted(acts, strict) ==> SilentAfterAccepted(acts + [a], strict)
  {
    var more := acts + [a];
    assert forall i :: 0 <= i < |acts| ==> more[i] == acts[i] && more[..i] == acts[..i];
  }

  /** What the last act adds. */
  lemma HappensNow(acts: seq<Act>, a: Act, strict: bool)
    ensures a == MarkStopping(true) ==> Marked(acts + [a])
    ensures SawSentinelGone(a) && Marked(acts) ==> GoneAfterMark(acts + [a])
    ensures a == SeeApp(false) ==> ToldAppGone(acts + [a])
    ensures AcceptedRequest(a, strict) ==> Accepted(acts + [a], strict)
    ensures a == Health(true) && Accepted(acts, strict) ==> SilentAfterAccepted(acts + [a], strict)
  {
    var more := acts + [a];
    assert more[|acts|] == a && more[..|acts|] == acts;
  }

  /** What an act can make a client believe, and what it must have believed before. */
  predicate Learns(c: Client, a: Act, d: Client) {
    var f, g := c.facts, d.facts;
    && (g.marked ==> f.marked || (a == MarkStopping(true) && !f.sentinelDead && !g.sentinelDead))
    && (g.sentinelDead ==> f.sentinelDead || SawSentinelGone(a))
    && (g.appGone ==> f.appGone || a == SeeApp(false))
    && (g.cleanup.Some? ==> f.cleanup.Some? || AcceptedRequest(a, c.strict))
    && (g.silent ==> f.silent || (a == Health(true) && f.cleanup.Some?))
  }

  lemma OwnerLearns(c: Client, a: Act)
    requires c.pc.Owner? && OwnerEnabled(c.pc.owner, a)
    ensures Learns(c, a, AdvanceOwner(c, c.pc.owner, a))
  {
  }

  lemma EarlyLearns(c: Client, a: Act)
    requires c.pc.Early? && KnowsEarly(c, c.pc.early) && EarlyEnabled(c.pc.early, a)
    ensures Learns(c, a, AdvanceEarly(c, c.pc.early, a))
  {
  }

  lemma WaitLearns(c: Client, a: Act)
    requires c.pc.Waiting? && WaitEnabled(c.pc.wait, a)
    ensures Learns(c, a, AdvanceWait(c, c.pc.wait, a))
  {
  }

  lemma DownLearns(c: Client, a: Act)
    requires c.pc.Down? && KnowsDown(c, c.pc.down) && DownEnabled(c.pc.down, a)
    ensures Learns(c, a, AdvanceDown(c, c.pc.down, a))
  {
  }

  lemma CloseLearns(c: Client, a: Act)
    requires c.pc.Closing? && CloseEnabled(c.pc.close, a)
    ensures Learns(c, a, AdvanceClose(c, c.pc.close, a))
  {
  }

  lemma ActTeaches(c: Client, a: Act)
    requires Knows(c) && Enabled(c.pc, a)
    ensures Learns(c, a, Advance(c, a))
  {
    if !a.Throw? {
      match c.pc {
        case Start =>
        case Owner(_) => OwnerLearns(c, a);
        case Early(_) => EarlyLearns(c, a);
        case Waiting(_) => WaitLearns(c, a);
        case Down(_) => DownLearns(c, a);
        case Closing(_) => CloseLearns(c, a);
      }
    }
  }

  lemma {:induction false} AcceptsPrefix(c: Client, acts: seq<Act>, n: nat)
    requires Accepts(c, acts) && n <= |acts|
    ensures Accepts(c, acts[..n])
    decreases |acts|
  {
    if n > 0 {
      AcceptsPrefix(Advance(c, acts[0]), acts[1..], n - 1);
      assert acts[..n][1..] == acts[1..][..n - 1];
    }
  }

  /** The last act of a prefix. */
  lemma {:induction false} LastStep(c: Client, acts: seq<Act>, n: nat)
    requires Accepts(c, acts) && n < |acts|
    ensures Accepts(c, acts[..n]) && Accepts(c, acts[..n + 1]) && Enabled(After(c, acts[..n]).pc, acts[n])
    ensures After(c, acts[..n + 1]) == Advance(After(c, acts[..n]), acts[n])
    decreases |acts|
  {
    AcceptsPrefix(c, acts, n);
    AcceptsPrefix(c, acts, n + 1);
    if n > 0 {
      LastStep(Advance(c, acts[0]), acts[1..], n - 1);
      assert acts[..n][1..] == acts[1..][..n - 1] && acts[..n + 1][1..] == acts[1..][..n];
    }
  }

  lemma {:induction false} FactsHappened(strict: bool, acts: seq<Act>, n: nat)
    requires Accepts(NewClient(strict), acts) && n <= |acts|
    ensures Accepts(NewClient(strict), acts[..n])
    ensures Happened(acts[..n], After(NewClient(strict), acts[..n]).facts, strict)
    decreases n
  {
    AcceptsPrefix(NewClient(strict), acts, n);
    if n > 0 {
      FactsHappened(strict, acts, n - 1);
      LastStep(NewClient(strict), acts, n - 1);
      var before, a := acts[..n - 1], acts[n - 1];
      assert acts[..n] == before + [a];
      KnowledgeOfWholeStop(NewClient(strict), before);
      StrictnessIsFixed(NewClient(strict), before);
      LearningHappens(before, After(NewClient(strict), before), a);
    }
  }

  lemma LearningHappens(acts: seq<Act>, c: Client, a: Act)
    requires Knows(c) && Enabled(c.pc, a) && Happened(acts, c.facts, c.strict)
    ensures Happened(acts + [a], Advance(c, a).facts, c.strict)
  {
    ActTeaches(c, a);
    HappenedBefore(acts, a, c.strict);
    HappensNow(acts, a, c.strict);
  }

  // ----- What a stop touches. -----

  /** Writes, requests and attempted kills. */
  predicate Touches(a: Act) {
    a.Request? || a.KillSentinel? || a.TerminateOwner? || a == MarkStopping(true) || a == MarkStopped(true)
    || (a.Throw? && a.wrote)
  }

  predicate GaveUp(pc: Pc) {
    pc == Done(GracefulFailure) || pc == Done(Threw)
  }

  /** What an act keeps and shows: the record read first, the trace of what was touched, which act ends well, and the
      markers believed written. */
  predicate Shows(c: Client, a: Act, d: Client) {
    && (!c.pc.Start? ==> d.seen == c.seen && !d.pc.Start?)
    && (Touches(a) || !Untouched(c) ==> !Untouched(d) || GaveUp(d.pc))
    && (ReportsStopped(d.pc) || d.pc == Done(OrphanStopped) ==> a == MarkStopped(true))
    && (a == MarkStopped(true) ==> d.facts.stopped)
    && (c.facts.marked ==> d.facts.marked) && (c.facts.stopped ==> d.facts.stopped)
  }

  lemma OwnerShows(c: Client, a: Act)
    requires c.pc.Owner? && OwnerEnabled(c.pc.owner, a)
    ensures Shows(c, a, AdvanceOwner(c, c.pc.owner, a))
  {
  }

  lemma EarlyShows(c: Client, a: Act)
    requires c.pc.Early? && EarlyEnabled(c.pc.early, a)
    ensures Shows(c, a, AdvanceEarly(c, c.pc.early, a))
  {
  }

  lemma WaitShows(c: Client, a: Act)
    requires c.pc.Waiting? && WaitEnabled(c.pc.wait, a)
    ensures Shows(c, a, AdvanceWait(c, c.pc.wait, a))
  {
  }

  lemma DownShows(c: Client, a: Act)
    requires c.pc.Down? && DownEnabled(c.pc.down, a)
    ensures Shows(c, a, AdvanceDown(c, c.pc.down, a))
  {
    if a.Request? {
      RequestShows(c, a.response);
    }
  }

  lemma RequestShows(c: Client, r: Response)
    requires c.pc.Down?
    ensures Shows(c, Request(r), AdvanceRequest(c, r))
  {
  }

  lemma ActShows(c: Client, a: Act)
    requires Enabled(c.pc, a)
    ensures Shows(c, a, Advance(c, a))
  {
    if !a.Throw? {
      match c.pc {
        case Start =>
        case Owner(_) => OwnerShows(c, a);
        case Early(_) => EarlyShows(c, a);
        case Waiting(_) => WaitShows(c, a);
        case Down(_) => DownShows(c, a);
        case Closing(_) =>
      }
    }
  }

  lemma TouchStep(c: Client, a: Act)
    requires Enabled(c.pc, a) && (Touches(a) || !Untouched(c) || GaveUp(c.pc))
    ensures !Untouched(Advance(c, a)) || GaveUp(Advance(c, a).pc)
  {
    ActShows(c, a);
  }

  lemma {:induction false} TouchIsRemembered(strict: bool, acts: seq<Act>, n: nat, k: nat)
    requires Accepts(NewClient(strict), acts) && k < n <= |acts| && Touches(acts[k])
    ensures Accepts(NewClient(strict), acts[..n])
    ensures var c := After(NewClient(strict), acts[..n]); !Untouched(c) || GaveUp(c.pc)
    decreases n
  {
    LastStep(NewClient(strict), acts, n - 1);
    if k < n - 1 {
      TouchIsRemembered(strict, acts, n - 1, k);
    }
    TouchStep(After(NewClient(strict), acts[..n - 1]), acts[n - 1]);
  }

  // ----- The certificate. -----

  predicate BegunRunning(acts: seq<Act>) {
    |acts| > 0 && acts[0].Read? && acts[0].latest.Some? && acts[0].latest.value.status == Running
  }

  lemma {:induction false} SeenIsFirstRead(strict: bool, acts: seq<Act>, n: nat)
    requires Accepts(NewClient(strict), acts) && 0 < n <= |acts| && acts[0].Read?
    ensures Accepts(NewClient(strict), acts[..n])
    ensures var c := After(NewClient(strict), acts[..n]);
            (c.seen == acts[0].latest || c.pc == Done(NotRunning)) && !c.pc.Start?
    decreases n
  {
    LastStep(NewClient(strict), acts, n - 1);
    if n > 1 {
      SeenIsFirstRead(strict, acts, n - 1);
      ActShows(After(NewClient(strict), acts[..n - 1]), acts[n - 1]);
    } else {
      assert acts[..0] == [];
    }
  }

  lemma ThrowEnds(c: Client, acts: seq<Act>)
    requires Accepts(c, acts) && |acts| > 0 && acts[0].Throw?
    ensures After(c, acts).pc == Done(Threw)
  {
    assert acts[1..] == [] || Enabled(Done(Threw), acts[1..][0]);
  }

  lemma RequestKnows(c: Client, a: Act)
    requires Knows(c) && Enabled(c.pc, a) && a.Request? && c.seen.Some? && c.seen.value.status == Running
    ensures c.facts.marked && c.facts.sentinelDead
  {
  }

  /** No shutdown request before the stopping marker was written and the sentinel was then seen gone. */
  lemma RequestInOrder(strict: bool, acts: seq<Act>, k: nat)
    requires Accepts(NewClient(strict), acts) && k < |acts| && acts[k].Request? && BegunRunning(acts)
    ensures GoneAfterMark(acts[..k])
  {
    LastStep(NewClient(strict), acts, k);
    assert k > 0;
    SeenIsFirstRead(strict, acts, k);
    KnowledgeOfWholeStop(NewClient(strict), acts[..k]);
    RequestKnows(After(NewClient(strict), acts[..k]), acts[k]);
    FactsHappened(strict, acts, k);
  }

  /** What the client knows at the end. */
  lemma StopFacts(strict: bool, acts: seq<Act>)
    requires Accepts(NewClient(strict), acts)
    ensures
      var c := After(NewClient(strict), acts);
      var f := c.facts;
      && (ReportsStopped(c.pc) ==>
            && c.seen.Some? && Stoppable(c.seen.value)
            && (c.seen.value.status == Running ==> f.marked && f.sentinelDead)
            && (f.appGone || (f.requested && f.silent && f.cleanup.Some? && Clean(f.cleanup.value, strict))))
      && (RefusesUntouched(c.pc) ==> !f.marked && !f.stopped && !f.requested && f.kills == 0)
      && (c.pc.Done? ==> (f.stopped <==> ReportsStopped(c.pc) || c.pc == Done(OrphanStopped)))
  {
    KnowledgeOfWholeStop(NewClient(strict), acts);
    StrictnessIsFixed(NewClient(strict), acts);
  }

  /** A stop that reports 'stopped' did the whole protocol in order. */
  lemma StopInOrder(strict: bool, acts: seq<Act>)
    requires Accepts(NewClient(strict), acts) && BegunRunning(acts)
    requires ReportsStopped(After(NewClient(strict), acts).pc)
    ensures acts[|acts| - 1] == MarkStopped(true) && GoneAfterMark(acts)
    ensures ToldAppGone(acts) || SilentAfterAccepted(acts, strict)
  {
    var n := |acts|;
    assert acts[..n] == acts;
    LastStep(NewClient(strict), acts, n - 1);
    ActShows(After(NewClient(strict), acts[..n - 1]), acts[n - 1]);
    SeenIsFirstRead(strict, acts, n);
    StopFacts(strict, acts);
    FactsHappened(strict, acts, n);
  }

  /** A stop that exits with 2, finds nothing running or loses its first marker has touched nothing. */
  lemma RefusalTouchesNothing(strict: bool, acts: seq<Act>)
    requires Accepts(NewClient(strict), acts)
    requires var pc := After(NewClient(strict), acts).pc;
             pc.Done? && (pc.result.ExitCode() == Some(2) || RefusesUntouched(pc))
    ensures forall a :: a in acts ==> !Touches(a)
  {
    assert acts[..|acts|] == acts;
    KnowledgeOfWholeStop(NewClient(strict), acts);
    forall k | 0 <= k < |acts|
      ensures !Touches(acts[k])
    {
      if Touches(acts[k]) {
        TouchIsRemembered(strict, acts, |acts|, k);
      }
    }
  }

  lemma {:induction false} StoppedIsRemembered(strict: bool, acts: seq<Act>, n: nat, k: nat)
    requires Accepts(NewClient(strict), acts) && k < n <= |acts| && acts[k] == MarkStopped(true)
    ensures Accepts(NewClient(strict), acts[..n]) && After(NewClient(strict), acts[..n]).facts.stopped
    decreases n
  {
    LastStep(NewClient(strict), acts, n - 1);
    if k < n - 1 {
      StoppedIsRemembered(strict, acts, n - 1, k);
    }
    ActShows(After(NewClient(strict), acts[..n - 1]), acts[n - 1]);
  }

  /** A client believes it wrote the stopped marker exactly when it did. */
  lemma SuccessIsWritten(strict: bool, acts: seq<Act>)
    requires Accepts(NewClient(strict), acts)
    ensures var c := After(NewClient(strict), acts);
            && (MarkStopped(true) in acts ==> c.facts.stopped)
            && (ReportsStopped(c.pc) || c.pc == Done(OrphanStopped) ==> MarkStopped(true) in acts)
  {
    var n, c := |acts|, After(NewClient(strict), acts);
    assert acts[..n] == acts;
    if k :| 0 <= k < n && acts[k] == MarkStopped(true) {
      StoppedIsRemembered(strict, acts, n, k);
    } else if c.pc.Done? {
      LastStep(NewClient(strict), acts, n - 1);
      ActShows(After(NewClient(strict), acts[..n - 1]), acts[n - 1]);
    }
  }

  /** A stop begun from `running` that reports 'stopped' did the whole protocol in order: stopping marker, sentinel
      gone, only then a shutdown request; the app was seen gone, or health fell silent after an accepted request; and
      the stopped marker came last. A refusal touched nothing, and success is reported exactly with an own stopped
      marker. */
  lemma StopCertificate(strict: bool, acts: seq<Act>)
    requires Accepts(NewClient(strict), acts)
    ensures
      var c := After(NewClient(strict), acts);
      var f := c.facts;
      && (ReportsStopped(c.pc) ==>
            && c.seen.Some? && Stoppable(c.seen.value)
            && (c.seen.value.status == Running ==> f.marked && f.sentinelDead)
            && (f.appGone || (f.requested && f.silent && f.cleanup.Some? && Clean(f.cleanup.value, strict))))
      && (RefusesUntouched(c.pc) ==> !f.marked && !f.stopped && !f.requested && f.kills == 0)
      && (c.pc.Done? ==> (f.stopped <==> ReportsStopped(c.pc) || c.pc == Done(OrphanStopped)))
    ensures
      var c := After(NewClient(strict), acts);
      && (ReportsStopped(c.pc) && BegunRunning(acts) ==>
            && acts[|acts| - 1] == MarkStopped(true) && GoneAfterMark(acts)
            && (ToldAppGone(acts) || SilentAfterAccepted(acts, strict)))
      && (c.pc.Done? && (c.pc.result.ExitCode() == Some(2) || RefusesUntouched(c.pc)) ==>
          forall a :: a in acts ==> !Touches(a))
    ensures BegunRunning(acts) ==> forall k :: 0 <= k < |acts| && acts[k].Request? ==> GoneAfterMark(acts[..k])
  {
    var c := After(NewClient(strict), acts);
    StopFacts(strict, acts);
    if BegunRunning(acts) {
      if ReportsStopped(c.pc) {
        StopInOrder(strict, acts);
      }
      forall k | 0 <= k < |acts| && acts[k].Request?
        ensures GoneAfterMark(acts[..k])
      {
        RequestInOrder(strict, acts, k);
      }
    }
    if c.pc.Done? && (c.pc.result.ExitCode() == Some(2) || RefusesUntouched(c.pc)) {
      RefusalTouchesNothing(strict, acts);
    }
  }

  lemma {:induction false} StrictnessIsFixed(c: Client, acts: seq<Act>)
    requires Accepts(c, acts)
    ensures After(c, acts).strict == c.strict
    decreases |acts|
  {
    if acts != [] {
      StrictnessIsFixed(Advance(c, acts[0]), acts[1..]);
    }
  }

  lemma {:induction false} AcceptsAppend(c: Client, acts: seq<Act>, a: Act)
    requires Accepts(c, acts) && Enabled(After(c, acts).pc, a)
    ensures Accepts(c, acts + [a]) && After(c, acts + [a]) == Advance(After(c, acts), a)
    decreases |acts|
  {
    if acts == [] {
      assert acts + [a] == [a];
      assert [a][1..] == [];
    } else {
      assert (acts + [a])[1..] == acts[1..] + [a];
      AcceptsAppend(Advance(c, acts[0]), acts[1..], a);
    }
  }
}
