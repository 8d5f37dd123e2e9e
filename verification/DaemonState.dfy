/** The one JSON record every daemon process coordinates through, its validation, and the
    read-modify-write updaters that the sentinel and the stop clients pass to `updateStateAtomic`.
    Timestamps are milliseconds; the paths and tokens no writer changes are folded into `launch`. */
module DaemonState {
  import opened Wrappers

  datatype Mode = Daemon | Foreground

  datatype Status = Starting | Running | Stopping | Stopped | Fatal

  datatype FatalStage = Preflight | TotpPreflight | AppStartup | SentinelRuntime | Shutdown | Unknown

  type Pid = p: int | 0 < p witness 1

  datatype State = State(
    mode: Mode,
    status: Status,
    launch: string,
    attempt: string,
    generation: nat,
    port: Option<int>,
    appPid: Option<Pid>,
    sentinelPid: Option<Pid>,
    appProcessStartedAt: Option<int>,
    heartbeatAt: Option<int>,
    restartCount: nat,
    lastRestartAt: Option<int>,
    restartWindowStartedAt: Option<int>,
    lastExitCode: Option<string>,
    fatalStage: Option<FatalStage>,
    fatalReason: Option<string>,
    updatedAt: int)

  /** What trim() removes: the white space and line terminators of ECMA-262, sections 12.2 and 12.3. */
  predicate IsSpace(c: char) {
    var n := c as int;
    || 0x9 <= n <= 0xD || n == 0x20 || n == 0xA0 || n == 0x1680 || 0x2000 <= n <= 0x200A
    || n == 0x2028 || n == 0x2029 || n == 0x202F || n == 0x205F || n == 0x3000 || n == 0xFEFF
  }

  predicate NonBlank(s: string) {
    exists i :: 0 <= i < |s| && !IsSpace(s[i])
  }

  predicate UsablePort(port: int) {
    1024 <= port <= 65535
  }

  /** What `validateState` accepts; anything else makes it throw. */
  predicate Valid(s: State) {
    && (s.port.Some? ==> UsablePort(s.port.value))
    && ((s.status.Running? || s.status.Stopping?) ==>
          s.appPid.Some? && s.sentinelPid.Some? && s.appProcessStartedAt.Some? && s.heartbeatAt.Some?)
    && (s.status == Fatal ==>
          && s.fatalReason.Some? && NonBlank(s.fatalReason.value)
          && s.fatalStage.Some?
          && (s.fatalStage.value != Preflight ==> s.port.Some?))
  }

  /** The sentinel leaves as soon as the record is gone, is another attempt's, or is no longer live. */
  predicate ShouldExit(latest: Option<State>, attempt: string) {
    || latest.None?
    || latest.value.attempt != attempt
    || (latest.value.status.Stopping? || latest.value.status.Stopped? || latest.value.status.Fatal?)
  }

  function RestartedRunning(s: State, appPid: Pid, restartCount: nat, windowStart: int,
                          exitCode: Option<string>, now: int): State {
    s.(status := Running,
       appPid := Some(appPid),
       generation := s.generation + 1,
       restartCount := restartCount,
       lastRestartAt := Some(now),
       restartWindowStartedAt := Some(windowStart),
       lastExitCode := exitCode,
       fatalReason := None,
       fatalStage := None,
       appProcessStartedAt := Some(now),
       heartbeatAt := Some(now),
       updatedAt := now)
  }

  function FatalFrom(s: State, stage: FatalStage, message: string, exitCode: Option<string>, now: int): State {
    s.(status := Fatal, fatalStage := Some(stage), fatalReason := Some(message), lastExitCode := exitCode,
       updatedAt := now)
  }

  function ToStopping(s: State, now: int): State {
    s.(status := Stopping, updatedAt := now)
  }

  function ToStopped(s: State, now: int): State {
    s.(status := Stopped, appPid := None, sentinelPid := None, appProcessStartedAt := None,
       heartbeatAt := None, lastExitCode := Some("0"), updatedAt := now)
  }

  /** `isSameDaemonState`: the identity every compare-and-set of the stop client is fenced on. */
  predicate SameDaemon(left: State, right: State) {
    && left.mode == Daemon
    && left.attempt == right.attempt
    && left.generation == right.generation
    && left.appPid == right.appPid
    && left.sentinelPid == right.sentinelPid
  }

  predicate Stoppable(s: State) {
    s.mode == Daemon && (s.status.Running? || s.status.Stopping?)
  }

  predicate RecoverableFatal(s: State) {
    && s.mode == Daemon
    && s.status == Fatal
    && s.fatalStage == Some(AppStartup)
    && s.port.Some? && UsablePort(s.port.value)
  }

  // ----- The five updaters.  None means "leave the file alone". -----

  function HeartbeatUpdate(latest: Option<State>, attempt: string, now: int): Option<State> {
    if ShouldExit(latest, attempt) || latest.value.status != Running then None
    else Some(latest.value.(heartbeatAt := Some(now), updatedAt := now))
  }

  function RestartUpdate(latest: Option<State>, attempt: string, planned: State,
                         appPid: Pid, count: nat, windowStart: int, exitCode: Option<string>, now: int): Option<State> {
    if || ShouldExit(latest, attempt)
       || latest.value.status != Running
       || latest.value.appPid != planned.appPid
       || latest.value.generation != planned.generation
    then None
    else Some(RestartedRunning(latest.value, appPid, count, windowStart, exitCode, now))
  }

  function FatalUpdate(latest: Option<State>, attempt: string, stage: FatalStage, message: string,
                       exitCode: Option<string>, now: int): Option<State> {
    if ShouldExit(latest, attempt) then None else Some(FatalFrom(latest.value, stage, message, exitCode, now))
  }

  function StoppingUpdate(latest: Option<State>, expected: State, now: int): Option<State> {
    if latest.None? || latest.value.status != Running || !SameDaemon(latest.value, expected) then None
    else Some(ToStopping(latest.value, now))
  }

  function StoppedUpdate(latest: Option<State>, expected: State, now: int): Option<State> {
    if latest.None? || !SameDaemon(latest.value, expected) then None
    else Some(ToStopped(latest.value, now))
  }

  // ----- What the updaters promise one another. -----

  /** When each update is accepted: the sentinel's on its own attempt's live record, its restart only on the app and
      generation it was planned for; the markers of a stop only on the daemon it read, the first only while running. */
  lemma AcceptedWhen(l: Option<State>, attempt: string, expected: State, planned: State, pid: Pid, count: nat,
                     window: int, exitCode: Option<string>, stage: FatalStage, message: string, now: int)
    ensures HeartbeatUpdate(l, attempt, now).Some?
            <==> l.Some? && l.value.attempt == attempt && l.value.status == Running
    ensures RestartUpdate(l, attempt, planned, pid, count, window, exitCode, now).Some?
            <==> && l.Some? && l.value.attempt == attempt && l.value.status == Running
                 && l.value.appPid == planned.appPid && l.value.generation == planned.generation
    ensures FatalUpdate(l, attempt, stage, message, exitCode, now).Some?
            <==> l.Some? && l.value.attempt == attempt && (l.value.status == Running || l.value.status == Starting)
    ensures StoppedUpdate(l, expected, now).Some?
            <==> && l.Some? && l.value.mode == Daemon && l.value.attempt == expected.attempt
                 && l.value.generation == expected.generation && l.value.appPid == expected.appPid
                 && l.value.sentinelPid == expected.sentinelPid
    ensures StoppingUpdate(l, expected, now).Some?
            <==> StoppedUpdate(l, expected, now).Some? && l.value.status == Running
  {
  }

  /** The identity of the daemon and where it runs. */
  predicate SamePlace(s: State, t: State) {
    t.mode == s.mode && t.launch == s.launch && t.attempt == s.attempt && t.port == s.port
  }

  predicate SameProcesses(s: State, t: State) {
    && t.generation == s.generation && t.appPid == s.appPid && t.sentinelPid == s.sentinelPid
    && t.appProcessStartedAt == s.appProcessStartedAt
  }

  predicate SameRestarts(s: State, t: State) {
    && t.restartCount == s.restartCount && t.lastRestartAt == s.lastRestartAt
    && t.restartWindowStartedAt == s.restartWindowStartedAt
  }

  predicate SameFailure(s: State, t: State) {
    t.lastExitCode == s.lastExitCode && t.fatalStage == s.fatalStage && t.fatalReason == s.fatalReason
  }

  /** What each update that is accepted writes, field by field. */
  lemma UpdatesWrite(s: State, attempt: string, expected: State, planned: State, pid: Pid, count: nat,
                     window: int, exitCode: Option<string>, stage: FatalStage, message: string, now: int)
    ensures var beat := HeartbeatUpdate(Some(s), attempt, now);
            beat.Some? ==>
              && var t := beat.value;
              && SamePlace(s, t) && SameProcesses(s, t) && SameRestarts(s, t) && SameFailure(s, t)
              && t.status == s.status && t.heartbeatAt == Some(now) && t.updatedAt == now
    ensures var restart := RestartUpdate(Some(s), attempt, planned, pid, count, window, exitCode, now);
            restart.Some? ==>
              && var t := restart.value;
              && SamePlace(s, t) && t.sentinelPid == s.sentinelPid && t.status == Running
              && t.appPid == Some(pid) && t.generation == s.generation + 1 && t.appProcessStartedAt == Some(now)
              && t.restartCount == count && t.lastRestartAt == Some(now) && t.restartWindowStartedAt == Some(window)
              && t.lastExitCode == exitCode && t.fatalStage.None? && t.fatalReason.None?
              && t.heartbeatAt == Some(now) && t.updatedAt == now
    ensures var fatal := FatalUpdate(Some(s), attempt, stage, message, exitCode, now);
            fatal.Some? ==>
              && var t := fatal.value;
              && SamePlace(s, t) && SameProcesses(s, t) && SameRestarts(s, t) && t.status == Fatal
              && t.fatalStage == Some(stage) && t.fatalReason == Some(message) && t.lastExitCode == exitCode
              && t.heartbeatAt == s.heartbeatAt && t.updatedAt == now
    ensures var stopping := StoppingUpdate(Some(s), expected, now);
            stopping.Some? ==>
              && var t := stopping.value;
              && SamePlace(s, t) && SameProcesses(s, t) && SameRestarts(s, t) && SameFailure(s, t)
              && t.status == Stopping && t.heartbeatAt == s.heartbeatAt && t.updatedAt == now
    ensures var stopped := StoppedUpdate(Some(s), expected, now);
            stopped.Some? ==>
              && var t := stopped.value;
              && SamePlace(s, t) && SameRestarts(s, t) && t.generation == s.generation && t.status == Stopped
              && t.appPid.None? && t.sentinelPid.None? && t.appProcessStartedAt.None? && t.heartbeatAt.None?
              && t.lastExitCode == Some("0") && t.fatalStage == s.fatalStage && t.fatalReason == s.fatalReason
              && t.updatedAt == now
  {
  }

  /** Whatever valid record an updater is given, the record it writes passes validation again,
      the fatal one exactly when its message is not blank (a blank one makes `validateState` throw). */
  lemma UpdatesStayValid(s: State, expected: State, attempt: string, planned: State, pid: Pid, count: nat,
                         window: int, exitCode: Option<string>, stage: FatalStage, message: string, now: int)
    requires Valid(s) && s.port.Some?
    ensures var beat := HeartbeatUpdate(Some(s), attempt, now); beat.Some? ==> Valid(beat.value)
    ensures var restart := RestartUpdate(Some(s), attempt, planned, pid, count, window, exitCode, now);
            restart.Some? ==> Valid(restart.value)
    ensures var stopping := StoppingUpdate(Some(s), expected, now); stopping.Some? ==> Valid(stopping.value)
    ensures var stopped := StoppedUpdate(Some(s), expected, now); stopped.Some? ==> Valid(stopped.value)
    ensures var fatal := FatalUpdate(Some(s), attempt, stage, message, exitCode, now);
            fatal.Some? ==> (Valid(fatal.value) <==> NonBlank(message))
  {
  }

  /** A heartbeat landing first never makes a restart or a stop marker lose its compare-and-set. */
  lemma HeartbeatMakesNobodyLose(s: State, attempt: string, beat: int, expected: State, planned: State,
                                 pid: Pid, count: nat, window: int, exitCode: Option<string>, now: int)
    requires HeartbeatUpdate(Some(s), attempt, beat).Some?
    ensures var t := HeartbeatUpdate(Some(s), attempt, beat);
            && (StoppingUpdate(Some(s), expected, now).Some? <==> StoppingUpdate(t, expected, now).Some?)
            && (RestartUpdate(Some(s), attempt, planned, pid, count, window, exitCode, now).Some?
                <==> RestartUpdate(t, attempt, planned, pid, count, window, exitCode, now).Some?)
            && RestartUpdate(t, attempt, planned, pid, count, window, exitCode, now)
               == RestartUpdate(Some(s), attempt, planned, pid, count, window, exitCode, now)
  {
  }

  /** Of a restart and a stop marker planned against one record, whichever is written first makes
      the other's compare-and-set fail. */
  lemma RestartAndStopExclude(s: State, attempt: string, expected: State, planned: State,
                              pid: Pid, count: nat, window: int, exitCode: Option<string>, now: int, later: int)
    requires SameDaemon(planned, expected)
    ensures var r := RestartUpdate(Some(s), attempt, planned, pid, count, window, exitCode, now);
            var m := StoppingUpdate(Some(s), expected, now);
            && (r.Some? ==> StoppingUpdate(r, expected, later).None?)
            && (m.Some? ==> RestartUpdate(m, attempt, planned, pid, count, window, exitCode, later).None?)
  {
  }
}
