/** `stopDaemon` in the form the source has it: wait loops against a clock, one absolute deadline, and
    early returns.  Every answer of the environment is arbitrary.  The method records what it does and
    is proved to follow the automaton of StopClient from start to end. */
module StopDaemon {
  import opened DaemonState
  import opened Wrappers
  import opened StopClient
  import opened StopOutcomes
  import opened Timing

  datatype Options = Options(timeoutMs: int, intervalMs: int, graceMs: int, forceMs: int, strict: bool)

  datatype HealthAnswer = Nonresponse | Responds(statusCode: int)

  /** A budgeted wait: when it began, what was left before the deadline then, and how much of that it was given. */
  datatype Wait = Wait(startedAt: int, leftMs: int, allowedMs: int)

  class World {
    const time: Clock
    ghost const strict: bool
    ghost var trace: seq<Act>
    ghost var waits: seq<Wait>

    constructor (time: Clock, ghost strict: bool)
      ensures this.time == time && this.strict == strict && trace == [] && waits == []
    {
      this.time := time;
      this.strict := strict;
      trace := [];
      waits := [];
    }

    ghost predicate Following()
      reads this
    {
      Accepts(NewClient(strict), trace)
    }

    /** Where the automaton is after everything done so far. */
    ghost function Self(): Client
      requires Following()
      reads this
    {
      After(NewClient(strict), trace)
    }

    ghost method Did(a: Act)
      requires Following() && Enabled(Self().pc, a)
      modifies this`trace
      ensures Following() && trace == old(trace) + [a] && Self() == Advance(old(Self()), a)
    {
      AcceptsAppend(NewClient(strict), trace, a);
      trace := trace + [a];
    }

    ghost method Starts(leftMs: int, allowedMs: int)
      modifies this`waits
      ensures waits == old(waits) + [Wait(time.now, leftMs, allowedMs)]
    {
      waits := waits + [Wait(time.now, leftMs, allowedMs)];
    }
  }

  /** What is left of the budget: something exactly as long as the deadline is ahead, and then a wait of that length
      ends at the deadline; with nothing left the stage fails. */
  method Budget(time: Clock, deadline: int) returns (left: int)
    ensures left >= 0 && (left > 0 <==> time.now < deadline)
    ensures left > 0 ==> time.now + left == deadline
  {
    left := Max(0, deadline - time.now);
  }

  function ProbeTime(start: int, k: nat, intervalMs: int): int {
    start + k * intervalMs
  }

  lemma ProbesAdvance(start: int, i: nat, j: nat, intervalMs: int)
    requires i <= j && intervalMs >= 1
    ensures ProbeTime(start, i, intervalMs) <= ProbeTime(start, j, intervalMs)
  {
    assert (j - i) * intervalMs >= 0;
  }

  /** Some probe found the process gone: the first one, or one before the deadline. */
  ghost predicate ProbedGone(alive: int -> bool, start: int, timeoutMs: int, intervalMs: int) {
    exists k: nat :: (k == 0 || ProbeTime(start, k, intervalMs) < start + timeoutMs) &&
      !alive(ProbeTime(start, k, intervalMs))
  }

  /** `waitForProcessExit`: probes at the start and then every interval before the deadline.  With
      `alive` the process's fate over time, the answer is exactly whether a probe found it gone. */
  method WaitForProcessExit(time: Clock, alive: int -> bool, timeoutMs: int, intervalMs: int) returns (exited: bool)
    requires intervalMs >= 1
    modifies time
    ensures old(time.now) <= time.now <= old(time.now) + Max(0, timeoutMs) + intervalMs
    ensures exited ==> !alive(time.now)
    ensures exited <==> ProbedGone(alive, old(time.now), timeoutMs, intervalMs)
  {
    var deadline := time.now + timeoutMs;
    ghost var start := time.now;
    ghost var k: nat := 0;
    while true
      invariant start <= time.now && time.now == start + k * intervalMs
      invariant k == 0 || time.now < deadline
      invariant time.now <= start + Max(0, timeoutMs)
      invariant forall j: nat :: j < k ==> alive(ProbeTime(start, j, intervalMs))
      decreases deadline - time.now
    {
      if !alive(time.now) {
        assert ProbeTime(start, k, intervalMs) == time.now;
        return true;
      }
      if time.now < deadline {
        time.Sleep(intervalMs);
      }
      assert alive(ProbeTime(start, k, intervalMs));
      if time.now >= deadline {
        forall j: nat | j == 0 || ProbeTime(start, j, intervalMs) < deadline
          ensures alive(ProbeTime(start, j, intervalMs)) {
          if j > k {
            ProbesAdvance(start, k + 1, j, intervalMs);
          }
        }
        return false;
      }
      k := k + 1;
    }
  }

  /** `waitForHealthNonresponse`: polls until health falls silent, answers anything but 200, or time is up. */
  method WaitForHealthNonresponse(time: Clock, timeoutMs: int, intervalMs: int)
    returns (silent: bool, ghost answers: seq<HealthAnswer>)
    requires intervalMs >= 1
    modifies time
    ensures old(time.now) <= time.now <= old(time.now) + Max(0, timeoutMs) + intervalMs
    ensures |answers| > 0 && (forall j :: 0 <= j < |answers| - 1 ==> answers[j] == Responds(200))
    ensures silent <==> answers[|answers| - 1] == Nonresponse
    ensures !silent ==> answers[|answers| - 1] != Responds(200) || time.now >= old(time.now) + timeoutMs
  {
    var deadline := time.now + timeoutMs;
    answers := [];
    while true
      invariant old(time.now) <= time.now && (time.now == old(time.now) || time.now < deadline)
      invariant forall j :: 0 <= j < |answers| ==> answers[j] == Responds(200)
      decreases deadline - time.now
    {
      time.Request(Min(intervalMs, 1000));
      var answer: HealthAnswer := *;
      answers := answers + [answer];
      if answer == Nonresponse {
        return true, answers;
      }
      if answer.statusCode != 200 {
        return false, answers;
      }
      if time.now < deadline {
        time.Sleep(intervalMs);
      }
      if time.now >= deadline {
        return false, answers;
      }
    }
  }

  /** What every stage keeps: the automaton is followed, and every budgeted wait so far began before the deadline and
      was given what was left until then, or less. */
  ghost predicate OnTime(w: World, deadline: int)
    reads w
  {
    && w.Following()
    && forall k :: 0 <= k < |w.waits| ==>
          && w.waits[k].leftMs > 0 && w.waits[k].startedAt + w.waits[k].leftMs == deadline
          && w.waits[k].allowedMs <= w.waits[k].leftMs
  }

  /** A wait is given all that is left, or no more than its own limit. */
  predicate Granted(wait: Wait, limit: Option<int>) {
    wait.allowedMs == if limit.Some? then Min(wait.leftMs, limit.value) else wait.leftMs
  }

  /** `makeAlreadyExitedStoppedResult`. */
  method MarkAlreadyExited(w: World, ghost deadline: int) returns (r: Result)
    requires OnTime(w, deadline) && w.Self().pc == Waiting(FinalGone)
    modifies w`trace
    ensures OnTime(w, deadline) && w.Self().pc == Done(r)
  {
    var ok: bool := *;
    w.Did(MarkStopped(ok));
    return if ok then StoppedAlreadyExited else LostBeforeStopped;
  }

  /** `tryStopFatalPortOwner`; NotRunning stands for its null. */
  method TryStopFatalPortOwner(w: World, o: Options, deadline: int, ghost limit: int) returns (r: Result)
    requires o.intervalMs >= 1 && deadline <= limit && w.time.now <= limit
    requires OnTime(w, deadline) && w.Self().pc == Owner(Lookup)
    modifies w, w.time
    ensures OnTime(w, deadline) && w.Self().pc == Done(r)
    ensures w.time.now <= limit + o.intervalMs
  {
    var owner: Option<Pid> := *;
    w.Did(FoundOwner(owner));
    if owner.None? {
      return NotRunning;
    }
    var valid: bool := *;
    w.Did(Validated(valid));
    if !valid {
      return ValidationFailed;
    }
    r := TerminateOrphan(w, o, deadline, limit);
  }

  method TerminateOrphan(w: World, o: Options, deadline: int, ghost limit: int) returns (r: Result)
    requires o.intervalMs >= 1 && deadline <= limit && w.time.now <= limit
    requires OnTime(w, deadline) && w.Self().pc == Owner(KillOwner)
    modifies w, w.time
    ensures OnTime(w, deadline) && w.Self().pc == Done(r)
    ensures w.time.now <= limit + o.intervalMs
  {
    var budget := Budget(w.time, deadline);
    if budget <= 0 {
      w.Did(OutOfBudget);
      return GracefulFailure;
    }
    var terminated: bool := *;
    w.Did(TerminateOwner(terminated));
    if !terminated {
      return GracefulFailure;
    }
    w.Starts(budget, budget);
    var ownerAlive: int -> bool := *;
    var exited := WaitForProcessExit(w.time, ownerAlive, budget, o.intervalMs);
    w.Did(OwnerWait(exited));
    if !exited {
      return GracefulFailure;
    }
    r := ConfirmOwnerGone(w, o, deadline, limit);
  }

  method ConfirmOwnerGone(w: World, o: Options, deadline: int, ghost limit: int) returns (r: Result)
    requires o.intervalMs >= 1 && deadline <= limit && w.time.now <= limit + o.intervalMs
    requires OnTime(w, deadline) && w.Self().pc == Owner(OwnerHealth)
    modifies w, w.time
    ensures OnTime(w, deadline) && w.Self().pc == Done(r)
    ensures w.time.now <= limit + o.intervalMs
  {
    var budget := Budget(w.time, deadline);
    if budget <= 0 {
      w.Did(OutOfBudget);
      return GracefulFailure;
    }
    w.Starts(budget, budget);
    var silent, answers := WaitForHealthNonresponse(w.time, budget, o.intervalMs);
    w.Did(Health(silent));
    if !silent {
      return GracefulFailure;
    }
    var ok: bool := *;
    w.Did(MarkStopped(ok));
    return if ok then OrphanStopped else LostBeforeStopped;
  }

  /** The app was gone when stop began: mark stopping unless resuming, wait for the sentinel, mark stopped. */
  method StopGoneApp(w: World, o: Options, resuming: bool, sentinelAlive: int -> bool, deadline: int, ghost limit: int)
    returns (r: Result)
    requires o.intervalMs >= 1 && deadline <= limit && w.time.now <= limit
    requires OnTime(w, deadline) && w.Self().pc == (if resuming then Waiting(GoneCheck) else Early(MarkGone))
    modifies w, w.time
    ensures OnTime(w, deadline) && w.Self().pc == Done(r)
    ensures w.time.now <= limit + o.intervalMs
  {
    if !resuming {
      var marked: bool := *;
      w.Did(MarkStopping(marked));
      if !marked {
        return LostBeforeStopping;
      }
    }
    r := AwaitSentinelOfGoneApp(w, o, sentinelAlive, deadline, limit);
  }

  method AwaitSentinelOfGoneApp(w: World, o: Options, sentinelAlive: int -> bool, deadline: int, ghost limit: int)
    returns (r: Result)
    requires o.intervalMs >= 1 && deadline <= limit && w.time.now <= limit
    requires OnTime(w, deadline) && w.Self().pc == Waiting(GoneCheck)
    modifies w, w.time
    ensures OnTime(w, deadline) && w.Self().pc == Done(r)
    ensures w.time.now <= limit + o.intervalMs
  {
    var present := sentinelAlive(w.time.now);
    w.Did(SeeSentinel(present));
    if present {
      var budget := Budget(w.time, deadline);
      if budget <= 0 {
        w.Did(OutOfBudget);
        return GracefulFailure;
      }
      w.Starts(budget, budget);
      var exited := WaitForProcessExit(w.time, sentinelAlive, budget, o.intervalMs);
      w.Did(SentinelWait(exited));
      if !exited {
        return GracefulFailure;
      }
    }
    r := MarkAlreadyExited(w, deadline);
  }

  /** Validates both processes and writes the stopping marker; a resumed stop only validates the app. It goes on
      exactly when its last act is that validation, or the marker; it ends with its reason otherwise. */
  method ValidateAndMark(w: World, resuming: bool, sentinelAlive: int -> bool, ghost deadline: int)
    returns (r: Option<Result>)
    requires OnTime(w, deadline) && w.Self().pc == Early(ValidateApp) && w.Self().resuming == resuming
    modifies w`trace
    ensures OnTime(w, deadline) && w.Self().resuming == resuming
            && w.Self().sentinelExited == old(w.Self().sentinelExited)
    ensures w.Self().pc == if r.Some? then Done(r.value) else Waiting(WaitCheck)
    ensures r == Some(ValidationFailed) <==> LastIs(w.trace, Validated(false))
    ensures r == Some(LostBeforeStopping) <==> LastIs(w.trace, MarkStopping(false))
    ensures r == None <==> LastIs(w.trace, if resuming then Validated(true) else MarkStopping(true))
  {
    var appValid: bool := *;
    w.Did(Validated(appValid));
    if !appValid {
      return Some(ValidationFailed);
    }
    if resuming {
      return None;
    }
    r := ValidateSentinelAndMark(w, sentinelAlive, deadline);
  }

  method ValidateSentinelAndMark(w: World, sentinelAlive: int -> bool, ghost deadline: int) returns (r: Option<Result>)
    requires OnTime(w, deadline) && w.Self().pc == Early(CheckSentinel)
    modifies w`trace
    ensures OnTime(w, deadline) && w.Self().resuming == old(w.Self().resuming)
            && w.Self().sentinelExited == old(w.Self().sentinelExited)
    ensures w.Self().pc == if r.Some? then Done(r.value) else Waiting(WaitCheck)
    ensures r == Some(ValidationFailed) <==> LastIs(w.trace, Validated(false))
    ensures r == Some(LostBeforeStopping) <==> LastIs(w.trace, MarkStopping(false))
    ensures r == None <==> LastIs(w.trace, MarkStopping(true))
  {
    var present := sentinelAlive(w.time.now);
    w.Did(SeeSentinel(present));
    if present {
      var sentinelValid: bool := *;
      w.Did(Validated(sentinelValid));
      if !sentinelValid {
        return Some(ValidationFailed);
      }
    }
    var marked: bool := *;
    w.Did(MarkStopping(marked));
    return if marked then None else Some(LostBeforeStopping);
  }

  /** Waits for the sentinel; a resumed stop gives it a short grace and goes on with a warning. */
  method AwaitSentinel(w: World, o: Options, resuming: bool, sentinelAlive: int -> bool, deadline: int,
                       ghost limit: int)
    returns (r: Option<Result>, sentinelExited: bool)
    requires o.intervalMs >= 1 && deadline <= limit && w.time.now <= limit
    requires OnTime(w, deadline) && w.Self().pc == Waiting(WaitCheck)
             && w.Self().resuming == resuming && !w.Self().sentinelExited
    modifies w, w.time
    ensures OnTime(w, deadline) && w.Self().sentinelExited == sentinelExited
    ensures w.Self().pc == if r.Some? then Done(r.value) else Waiting(Recheck)
    ensures w.waits == old(w.waits)
            || (&& |w.waits| == |old(w.waits)| + 1
                && Granted(w.waits[|w.waits| - 1], if resuming then Some(o.graceMs) else None))
    ensures w.time.now <= limit + o.intervalMs
  {
    sentinelExited := false;
    var present := sentinelAlive(w.time.now);
    w.Did(SeeSentinel(present));
    if present {
      var budget := Budget(w.time, deadline);
      if budget <= 0 {
        w.Did(OutOfBudget);
        return Some(GracefulFailure), false;
      }
      var allowed := if resuming then Min(budget, o.graceMs) else budget;
      w.Starts(budget, allowed);
      sentinelExited := WaitForProcessExit(w.time, sentinelAlive, allowed, o.intervalMs);
      w.Did(SentinelWait(sentinelExited));
      if !sentinelExited && !resuming {
        return Some(GracefulFailure), false;
      }
    }
    return None, sentinelExited;
  }

  /** Sends the shutdown request and judges its evidence. */
  method RequestShutdown(w: World, o: Options, deadline: int, ghost limit: int) returns (r: Option<Result>)
    requires o.intervalMs >= 1 && deadline <= limit && w.time.now <= limit + o.intervalMs
    requires OnTime(w, deadline) && w.Self().pc == Down(SendShutdown) && w.strict == o.strict
    modifies w, w.time
    ensures OnTime(w, deadline)
    ensures w.Self().pc == if r.Some? then Done(r.value) else Down(HealthWait)
    ensures r.None? ==> w.Self().sentinelExited == old(w.Self().sentinelExited)
    ensures w.time.now <= limit + o.intervalMs
  {
    var budget := Budget(w.time, deadline);
    if budget <= 0 {
      w.Did(OutOfBudget);
      return Some(GracefulFailure);
    }
    w.Starts(budget, budget);
    w.time.Request(budget);
    var response: Response := *;
    w.Did(Request(response));
    StrictnessIsFixed(NewClient(w.strict), w.trace);
    if RequestFailed(response) {
      if response.nonresponse {
        var appAlive: bool := *;
        w.Did(SeeApp(appAlive));
        if !appAlive {
          var gone := MarkAlreadyExited(w, deadline);
          return Some(gone);
        }
      }
      return Some(GracefulFailure);
    }
    return if ShutdownAccepted(response, o.strict) then None else Some(GracefulFailure);
  }

  /** Waits for health to fall silent. */
  method ConfirmSilence(w: World, o: Options, deadline: int, ghost limit: int) returns (r: Option<Result>)
    requires o.intervalMs >= 1 && deadline <= limit && w.time.now <= limit + o.intervalMs
    requires OnTime(w, deadline) && w.Self().pc == Down(HealthWait)
    modifies w, w.time
    ensures OnTime(w, deadline)
    ensures w.Self().pc == if r.Some? then Done(r.value)
                             else Closing(if old(w.Self().sentinelExited) then FinalMark else KillCheck)
    ensures w.time.now <= limit + o.intervalMs
  {
    var budget := Budget(w.time, deadline);
    if budget <= 0 {
      w.Did(OutOfBudget);
      return Some(GracefulFailure);
    }
    w.Starts(budget, budget);
    var silent, answers := WaitForHealthNonresponse(w.time, budget, o.intervalMs);
    w.Did(Health(silent));
    return if silent then None else Some(GracefulFailure);
  }

  /** Terminates a sentinel that never exited, outside the budget but under its own timeout. */
  method TerminateStuckSentinel(w: World, o: Options, sentinelAlive: int -> bool, ghost deadline: int)
    returns (r: Option<Result>)
    requires o.intervalMs >= 1
    requires OnTime(w, deadline) && w.Self().pc == Closing(KillCheck)
    modifies w, w.time
    ensures OnTime(w, deadline)
    ensures w.Self().pc == if r.Some? then Done(r.value) else Closing(FinalMark)
    ensures w.time.now <= old(w.time.now) + Max(0, o.forceMs) + o.intervalMs
  {
    var present := sentinelAlive(w.time.now);
    w.Did(SeeSentinel(present));
    if !present {
      return None;
    }
    var terminated: bool := *;
    w.Did(KillSentinel(terminated));
    if !terminated {
      return Some(GracefulFailure);
    }
    var afterKill: int -> bool := *;
    var exited := WaitForProcessExit(w.time, afterKill, o.forceMs, o.intervalMs);
    w.Did(SentinelWait(exited));
    return if exited then None else Some(GracefulFailure);
  }

  method StopLive(w: World, o: Options, resuming: bool, sentinelAlive: int -> bool, deadline: int, ghost limit: int)
    returns (r: Result)
    requires o.intervalMs >= 1 && deadline <= limit && w.time.now <= limit
    requires OnTime(w, deadline) && w.Self().pc == Early(ValidateApp) && w.Self().resuming == resuming
    requires !w.Self().sentinelExited && w.strict == o.strict
    modifies w, w.time
    ensures OnTime(w, deadline) && w.Self().pc == Done(r)
    ensures w.time.now <= limit + 2 * o.intervalMs + Max(0, o.forceMs)
  {
    var early := ValidateAndMark(w, resuming, sentinelAlive, deadline);
    if early.Some? {
      return early.value;
    }
    var waited, sentinelExited := AwaitSentinel(w, o, resuming, sentinelAlive, deadline, limit);
    if waited.Some? {
      return waited.value;
    }
    var appAlive: bool := *;
    w.Did(SeeApp(appAlive));
    if !appAlive {
      r := MarkAlreadyExited(w, deadline);
      return;
    }
    r := ShutDownAndClose(w, o, sentinelExited, sentinelAlive, deadline, limit);
  }

  method ShutDownAndClose(w: World, o: Options, sentinelExited: bool, sentinelAlive: int -> bool, deadline: int,
                        ghost limit: int)
    returns (r: Result)
    requires o.intervalMs >= 1 && deadline <= limit && w.time.now <= limit + o.intervalMs
    requires OnTime(w, deadline) && w.Self().pc == Down(SendShutdown)
             && w.Self().sentinelExited == sentinelExited && w.strict == o.strict
    modifies w, w.time
    ensures OnTime(w, deadline) && w.Self().pc == Done(r)
    ensures w.time.now <= limit + 2 * o.intervalMs + Max(0, o.forceMs)
  {
    var refused := RequestShutdown(w, o, deadline, limit);
    if refused.Some? {
      return refused.value;
    }
    var loud := ConfirmSilence(w, o, deadline, limit);
    if loud.Some? {
      return loud.value;
    }
    if !sentinelExited {
      var stuck := TerminateStuckSentinel(w, o, sentinelAlive, deadline);
      if stuck.Some? {
        return stuck.value;
      }
    }
    var ok: bool := *;
    w.Did(MarkStopped(ok));
    return if ok then StoppedGracefully else LostBeforeStopped;
  }

  /** `stopDaemon`: whatever the environment answers, the call is a run of the automaton that ends with
      its result; it ends within the timeout, two polling intervals and the forced-exit timeout; every
      budgeted wait began with a positive remainder of the one deadline; and the refusals touch nothing. */
  method StopDaemon(w: World, o: Options, sentinelAlive: int -> bool) returns (r: Result)
    requires o.intervalMs >= 1
    requires w.trace == [] && w.waits == [] && w.strict == o.strict
    modifies w, w.time
    ensures OnTime(w, old(w.time.now) + o.timeoutMs) && w.Self().pc == Done(r)
    ensures w.time.now <= old(w.time.now) + Max(0, o.timeoutMs) + 2 * o.intervalMs + Max(0, o.forceMs)
    ensures r.ExitCode() == Some(2) || r == LostBeforeStopping || r == NotRunning ==>
            forall a :: a in w.trace ==> !Touches(a)
    ensures EndsAs(w.trace, o.strict, r)
    ensures r.ExitCode() == Some(0) <==> ReadsIdle(w.trace) || MarkStopped(true) in w.trace
    ensures r.ExitCode() == Some(2) <==> LastIs(w.trace, Validated(false))
    ensures r.ExitCode() == Some(3) <==> LastIs(w.trace, MarkStopping(false)) || LastIs(w.trace, MarkStopped(false))
  {
    r := ReadAndStop(w, o, sentinelAlive);
    ExitCodeMeans(o.strict, w.trace, r);
  }

  /** The call on every path. */
  method ReadAndStop(w: World, o: Options, sentinelAlive: int -> bool) returns (r: Result)
    requires o.intervalMs >= 1
    requires w.trace == [] && w.waits == [] && w.strict == o.strict
    modifies w, w.time
    ensures OnTime(w, old(w.time.now) + o.timeoutMs) && w.Self().pc == Done(r)
    ensures w.time.now <= old(w.time.now) + Max(0, o.timeoutMs) + 2 * o.intervalMs + Max(0, o.forceMs)
  {
    var deadline := w.time.now + o.timeoutMs;
    ghost var limit := w.time.now + Max(0, o.timeoutMs);
    var state: Option<State> := *;
    w.Did(Read(state));
    if state.None? || !Stoppable(state.value) {
      if state.Some? && RecoverableFatal(state.value) {
        r := TryStopFatalPortOwner(w, o, deadline, limit);
      } else {
        r := NotRunning;
      }
    } else {
      var resuming := state.value.status == Stopping;
      var appAlive: bool := *;
      w.Did(SeeApp(appAlive));
      if !appAlive {
        r := StopGoneApp(w, o, resuming, sentinelAlive, deadline, limit);
      } else {
        r := StopLive(w, o, resuming, sentinelAlive, deadline, limit);
      }
    }
  }
}
