/** Starting the daemon: the verdict over an existing record, and startDaemon up to the state from which the
    lifecycle protocol runs. While the launcher waits for readiness, other processes may change the record. */
module Launcher {
  import opened DaemonState
  import opened Wrappers
  import Lifecycle
  import LifecycleInvariant
  import RestartPolicy

  // ----- The existing daemon. -----

  datatype Probe = ProbeReady | ProbeIdentity | ProbeOther | ProbeThrew

  datatype Finding = Absent | Stale | Unknown | Active

  function Inspect(s: Option<State>, appRunning: bool, sentinelRunning: bool, probe: Probe): Finding {
    if s.None? || s.value.mode != Daemon || (s.value.status != Running && s.value.status != Stopping) then Absent
    else if s.value.status == Stopping then
      if !appRunning && !sentinelRunning then Stale
      else if !appRunning then Finding.Unknown
      else if probe == ProbeIdentity then Stale
      else Finding.Unknown
    else if !(appRunning && sentinelRunning) then Stale
    else if probe == ProbeReady then Active
    else if probe == ProbeIdentity then Stale
    else Finding.Unknown
  }

  predicate Runs(pid: Option<Pid>, alive: set<Pid>) {
    pid.Some? && pid.value in alive
  }

  /** What the launcher finds on a machine with these processes. */
  function Verdict(probe: Probe, s: Option<State>, alive: set<Pid>): Finding {
    Inspect(s, s.Some? && Runs(s.value.appPid, alive), s.Some? && Runs(s.value.sentinelPid, alive), probe)
  }

  ghost predicate Replaceable(f: Finding) {
    f.Absent? || f.Stale?
  }

  ghost predicate IsLive(s: State) {
    s.mode == Daemon && (s.status.Running? || s.status.Stopping?)
  }

  ghost predicate AppRuns(s: Option<State>, alive: set<Pid>) {
    s.Some? && Runs(s.value.appPid, alive)
  }

  ghost predicate SentinelRuns(s: Option<State>, alive: set<Pid>) {
    s.Some? && Runs(s.value.sentinelPid, alive)
  }

  /** A running record whose two processes run and whose app answers as the recorded one. */
  ghost predicate Serves(probe: Probe, s: Option<State>, alive: set<Pid>) {
    s.Some? && s.value.mode == Daemon && s.value.status.Running? && AppRuns(s, alive) && SentinelRuns(s, alive)
    && probe == ProbeReady
  }

  /** A live record that is neither proved to serve nor to be out of use: stopping, with only its sentinel left or with
      an app on whose port no stranger answers; or running, with both processes and neither answer. */
  ghost predicate CannotTell(probe: Probe, s: Option<State>, alive: set<Pid>) {
    s.Some? && s.value.mode == Daemon
    && (|| (s.value.status.Stopping? && !AppRuns(s, alive) && SentinelRuns(s, alive))
        || (s.value.status.Stopping? && AppRuns(s, alive) && probe != ProbeIdentity)
        || (s.value.status.Running? && AppRuns(s, alive) && SentinelRuns(s, alive)
            && probe != ProbeReady && probe != ProbeIdentity))
  }

  /** No live daemon record; or a stranger on the port of a running app; or a running record with a process missing, a
      stopping one with both. */
  ghost predicate OutOfUse(probe: Probe, s: Option<State>, alive: set<Pid>) {
    || s.None? || !IsLive(s.value)
    || (AppRuns(s, alive) && probe == ProbeIdentity)
    || (s.value.status.Running? && !(AppRuns(s, alive) && SentinelRuns(s, alive)))
    || (s.value.status.Stopping? && !AppRuns(s, alive) && !SentinelRuns(s, alive))
  }

  /** The verdict, and that these are all there are. */
  lemma VerdictMeans(probe: Probe, s: Option<State>, alive: set<Pid>)
    ensures Verdict(probe, s, alive).Active? <==> Serves(probe, s, alive)
    ensures Verdict(probe, s, alive).Unknown? <==> CannotTell(probe, s, alive)
    ensures Replaceable(Verdict(probe, s, alive)) <==> OutOfUse(probe, s, alive)
  {
  }

  /** Whose record may be replaced while its app runs. The launcher means to refuse that, and does so except in three
      cases: the record is not live, as after a crash of the sentinel; another program answers on its port; or it is
      running and its sentinel is gone. */
  lemma RunningAppLosesRecord(s: State, sentinelRunning: bool, probe: Probe)
    ensures Replaceable(Inspect(Some(s), true, sentinelRunning, probe))
            <==> !IsLive(s) || probe == ProbeIdentity || (s.status.Running? && !sentinelRunning)
  {
  }

  /** The same of a sentinel that runs without its app: only a stop in progress protects it. */
  lemma RunningSentinelLosesRecord(s: State, probe: Probe)
    ensures Replaceable(Inspect(Some(s), false, true, probe)) <==> !IsLive(s) || s.status.Running?
  {
  }

  /** The run that makes the first and the third case: the sentinel's look at the app throws, and so may the fatal
      write of its handler. Either way the app runs on, without a sentinel, and its record may be replaced. */
  lemma CrashedSentinelExposesApp(st: Lifecycle.Setup, start: Lifecycle.Sys, note: string, probe: Probe, written: bool)
    returns (events: seq<Lifecycle.Event>, states: seq<Lifecycle.Sys>)
    requires Lifecycle.Init(st, start) && st.initial.appPid.value in start.live
    ensures Lifecycle.IsRun(st, events, states) && states[0] == start
    ensures
      var end := states[|events|];
      && end.sentinel.Exited? && end.file.appPid.Some? && end.file.appPid.value in end.live
      && (if written then end.file.status.Fatal? else end.file == st.initial)
      && Replaceable(Inspect(Some(end.file), true, false, probe))
  {
    var throws := Lifecycle.Fails(SentinelRuntime, false);
    events := [Lifecycle.SentinelStep(Lifecycle.Go, note), Lifecycle.SentinelStep(throws, note),
               Lifecycle.SentinelStep(if written then Lifecycle.Go else throws, note),
               Lifecycle.SentinelStep(Lifecycle.Go, note)];
    var looking := Lifecycle.Apply(st, start, events[0]);
    var crashed := Lifecycle.Apply(st, looking, events[1]);
    var marked := Lifecycle.Apply(st, crashed, events[2]);
    states := [start, looking, crashed, marked, Lifecycle.Apply(st, marked, events[3])];
  }

  // ----- The records of a start. -----

  function NextGeneration(previous: Option<State>): nat {
    if previous.Some? then previous.value.generation + 1 else 1
  }

  function StartingRecord(launch: string, attempt: string, port: int, previous: Option<State>, now: int): State {
    State(Daemon, Starting, launch, attempt, NextGeneration(previous), Some(port), None, None, None, None,
          0, None, None, None, None, None, now)
  }

  function RunningRecord(starting: State, appPid: Pid, sentinelPid: Pid, now: int): State {
    starting.(status := Running, appPid := Some(appPid), sentinelPid := Some(sentinelPid),
              appProcessStartedAt := Some(now), heartbeatAt := Some(now), updatedAt := now)
  }

  /** The records of a start: the next generation of its own attempt, first with no process and no history of restarts,
      then with the two processes; and the second is one from which the lifecycle protocol starts. */
  lemma RunningRecordStartsLifecycle(launch: string, attempt: string, port: int, previous: Option<State>, started: int,
                                     appPid: Pid, sentinelPid: Pid, now: int, policy: RestartPolicy.Policy, pollMs: int)
    requires UsablePort(port) && pollMs >= 1
    ensures
      var starting := StartingRecord(launch, attempt, port, previous, started);
      && starting.mode == Daemon && starting.status == Starting && starting.launch == launch
      && starting.attempt == attempt && starting.port == Some(port) && starting.updatedAt == started
      && starting.generation == (if previous.None? then 1 else previous.value.generation + 1)
      && starting.appPid.None? && starting.sentinelPid.None? && starting.restartCount == 0
      && starting.lastRestartAt.None? && starting.restartWindowStartedAt.None? && starting.fatalStage.None?
    ensures
      var starting := StartingRecord(launch, attempt, port, previous, started);
      var running := RunningRecord(starting, appPid, sentinelPid, now);
      && running.status == Running && running.appPid == Some(appPid) && running.sentinelPid == Some(sentinelPid)
      && running.appProcessStartedAt == Some(now) && running.heartbeatAt == Some(now) && running.updatedAt == now
      && SamePlace(starting, running) && SameRestarts(starting, running) && SameFailure(starting, running)
      && running.generation == starting.generation
    ensures
      var running := RunningRecord(StartingRecord(launch, attempt, port, previous, started), appPid, sentinelPid, now);
      && Valid(running)
      && Lifecycle.Setup(running, sentinelPid, policy, pollMs).WellFormed()
  {
  }

  // ----- startDaemon. -----

  datatype Answer = Ready | NotReady(reason: string) | WaitThrew(message: string)

  datatype Result = Exit(code: int) | Rejected

  /** The state file and the processes of the machine, with what this launcher did to them. */
  class Host {
    var file: Option<State>
    var alive: set<Pid>
    ghost var spawned: set<Pid>
    ghost var handed: map<Pid, nat>
    ghost var killed: set<Pid>
    ghost var writes: seq<State>
    ghost var answered: Option<Answer>
    ghost var disturbed: bool

    ghost predicate Untouched()
      reads this
    {
      spawned == {} && killed == {} && writes == [] && answered == None && !disturbed
    }

    constructor (initial: Option<State>, running: set<Pid>)
      ensures file == initial && alive == running && Untouched()
    {
      file, alive := initial, running;
      spawned, handed, killed, writes, answered, disturbed := {}, map[], {}, [], None, false;
    }

    /** writeStateAtomic, unconditional: it may throw, and does so for an invalid record. */
    method Write(s: State) returns (ok: bool)
      modifies this`file, this`writes
      ensures ok ==> Valid(s) && file == Some(s) && writes == old(writes) + [s]
      ensures !ok ==> file == old(file) && writes == old(writes)
    {
      var succeeds := *;
      ok := succeeds && Valid(s);
      if ok {
        file := Some(s);
        writes := writes + [s];
      }
    }

    /** A detached child that is given the generation of the record; a spawn that throws creates none. */
    method Spawn(generation: nat, unused: Pid) returns (pid: Option<Pid>)
      requires unused !in alive
      modifies this`alive, this`spawned, this`handed
      ensures pid.Some? ==> pid.value == unused && alive == old(alive) + {unused} && spawned == old(spawned) + {unused}
      ensures pid.Some? ==> handed == old(handed)[unused := generation]
      ensures pid.None? ==> alive == old(alive) && spawned == old(spawned) && handed == old(handed)
    {
      var succeeds := *;
      pid := None;
      if succeeds {
        pid := Some(unused);
        alive, spawned, handed := alive + {unused}, spawned + {unused}, handed[unused := generation];
      }
    }

    /** cleanupAttempt: the pids that are set, in order. */
    method CleanupAttempt(pids: seq<Option<Pid>>)
      modifies this`alive, this`killed
      ensures alive == old(alive) - Given(pids) && killed == old(killed) + Given(pids)
    {
      var i := 0;
      while i < |pids|
        invariant 0 <= i <= |pids|
        invariant alive == old(alive) - Given(pids[..i]) && killed == old(killed) + Given(pids[..i])
      {
        assert pids[..i + 1] == pids[..i] + [pids[i]];
        if pids[i].Some? {
          assert Given(pids[..i + 1]) == Given(pids[..i]) + {pids[i].value};
          alive, killed := alive - {pids[i].value}, killed + {pids[i].value};
        } else {
          assert Given(pids[..i + 1]) == Given(pids[..i]);
        }
        i := i + 1;
      }
      assert pids[..i] == pids;
    }

    /** The readiness wait, during which the sentinel, stop clients and the app itself may act. */
    method AwaitReadiness() returns (r: Answer)
      modifies this`file, this`alive, this`answered, this`disturbed
      ensures answered == Some(r)
      ensures !disturbed ==> file == old(file) && alive == old(alive) && !old(disturbed)
    {
      r := *;
      answered := Some(r);
      var others := *;
      if others {
        file, alive := *, *;
        disturbed := true;
      }
    }

    method StartDaemon(launch: string, attempt: string, port: int, now: int,
                       probe: Probe, requiresFreshStart: bool, sameContract: bool,
                       portFree: Option<bool>, preflight: Option<(FatalStage, string)>, unused: (Pid, Pid))
      returns (r: Result)
      requires Untouched() && unused.0 !in alive && unused.1 !in alive && unused.0 != unused.1
      modifies this
      // Refused or already running: nothing was written, started or killed.
      ensures r == Exit(2) || r == Exit(3) || (r == Exit(0) && spawned == {}) ==>
                Untouched() && file == old(file) && alive == old(alive)
      // What it answers to what it finds: already running, refused as unverified, refused as it is or for its port.
      ensures r == Exit(0) && spawned == {} <==>
                Serves(probe, old(file), old(alive)) && !requiresFreshStart && sameContract
      ensures r == Exit(3) <==> CannotTell(probe, old(file), old(alive))
      ensures r == Exit(2) <==> || (Serves(probe, old(file), old(alive)) && (requiresFreshStart || !sameContract))
                                || (OutOfUse(probe, old(file), old(alive)) && portFree == Some(false))
      // Only a record that is out of use is replaced: by the new one, unless the port is taken or the write refused.
      ensures !OutOfUse(probe, old(file), old(alive)) ==> Untouched() && file == old(file) && alive == old(alive)
      ensures OutOfUse(probe, old(file), old(alive)) && portFree != Some(false) && r != Rejected ==>
                && writes != [] && writes[0] == StartingRecord(launch, attempt, port, old(file), now)
                && writes[0].generation == (if old(file).None? then 1 else old(file).value.generation + 1)
      // A start that failed leaves none of its processes, and a fatal record of its own attempt with the reason.
      ensures r == Exit(1) || r == Rejected ==> spawned !! alive
      ensures r == Exit(1) ==>
                && file.Some? && file.value.status == Fatal && Valid(file.value)
                && file.value.attempt == attempt && file.value.generation == NextGeneration(old(file))
                && FailedBecause(file.value, preflight, answered)
      // It succeeds exactly when the app it started was answered to be ready.
      ensures r == Exit(0) && spawned != {} <==> answered == Some(Ready)
      ensures preflight.Some? ==> spawned == {}
      // A start that succeeded recorded the two processes it started, the app with the generation it was given.
      ensures r == Exit(0) && spawned != {} ==>
                && spawned == {unused.0, unused.1} && killed == {}
                && writes == [StartingRecord(launch, attempt, port, old(file), now),
                              RunningRecord(StartingRecord(launch, attempt, port, old(file), now),
                                            unused.0, unused.1, now)]
                && unused.0 in handed && handed[unused.0] == writes[1].generation
                && (!disturbed ==> file == Some(writes[1]) && alive == old(alive) + spawned)
      // Processes it did not start are never killed.
      ensures killed <= spawned
      ensures r.Exit? ==> 0 <= r.code <= 3
    {
      var previous := file;
      var verdict := Verdict(probe, previous, alive);
      VerdictMeans(probe, previous, alive);
      if verdict.Unknown? {
        return Exit(3);
      }
      if verdict.Active? {
        if requiresFreshStart {
          return Exit(2);
        }
        return if sameContract then Exit(0) else Exit(2);
      }
      if portFree == Some(false) {
        return Exit(2);
      }
      var starting := StartingRecord(launch, attempt, port, previous, now);
      var ok := Write(starting);
      if !ok {
        return Rejected;
      }
      r := SpawnAndWait(starting, now, preflight, unused);
    }

    /** The try block and its handler. */
    method SpawnAndWait(starting: State, now: int, preflight: Option<(FatalStage, string)>, unused: (Pid, Pid))
      returns (r: Result)
      requires spawned == {} && killed == {} && writes == [starting] && !disturbed && file == Some(starting)
      requires answered == None
      requires unused.0 !in alive && unused.1 !in alive && unused.0 != unused.1
      modifies this
      ensures r == Exit(0) || r == Exit(1) || r == Rejected
      ensures writes != [] && writes[0] == starting
      ensures r != Exit(0) ==> spawned !! alive
      ensures r == Exit(0) <==> answered == Some(Ready)
      ensures preflight.Some? ==> spawned == {}
      ensures r == Exit(1) ==>
                && file.Some? && file.value.status == Fatal && Valid(file.value)
                && file.value.attempt == starting.attempt && file.value.generation == starting.generation
                && FailedBecause(file.value, preflight, answered)
      ensures r == Exit(0) ==>
                && spawned == {unused.0, unused.1} && killed == {}
                && writes == [starting, RunningRecord(starting, unused.0, unused.1, now)]
                && unused.0 in handed && handed[unused.0] == starting.generation
                && (!disturbed ==> file == Some(writes[1]) && alive == old(alive) + spawned)
      ensures killed <= spawned
    {
      GivenTwo(None, None);
      if preflight.Some? {
        r := Fail(starting, None, None, preflight.value.0, preflight.value.1, now);
        return;
      }
      var appPid := Spawn(starting.generation, unused.0);
      if appPid.None? {
        r := Fail(starting, None, None, AppStartup, "spawn failed", now);
        return;
      }
      GivenTwo(None, appPid);
      var sentinelPid := Spawn(starting.generation, unused.1);
      if sentinelPid.None? {
        r := Fail(starting, appPid, None, AppStartup, "spawn failed", now);
        return;
      }
      GivenTwo(sentinelPid, appPid);
      var running := RunningRecord(starting, appPid.value, sentinelPid.value, now);
      var ok := Write(running);
      if !ok {
        r := Fail(starting, appPid, sentinelPid, AppStartup, "write failed", now);
        return;
      }
      var answer := AwaitReadiness();
      match answer {
        case Ready =>
          return Exit(0);
        case NotReady(reason) =>
          CleanupAttempt([sentinelPid, appPid]);
          ok := Write(FatalFrom(running, AppStartup, reason, None, now));
          if ok {
            return Exit(1);
          }
          r := Fail(starting, appPid, sentinelPid, AppStartup, "write failed", now);
        case WaitThrew(message) =>
          r := Fail(starting, appPid, sentinelPid, AppStartup, message, now);
      }
    }

    /** The handler: kill what was started, then write the starting record as fatal, whatever the file holds now. */
    method Fail(starting: State, appPid: Option<Pid>, sentinelPid: Option<Pid>, stage: FatalStage,
                message: string, now: int)
      returns (r: Result)
      requires spawned == Given([sentinelPid, appPid]) && killed <= spawned
      modifies this`alive, this`killed, this`file, this`writes
      ensures killed == spawned && spawned !! alive
      ensures writes == old(writes) || writes == old(writes) + [FatalFrom(starting, stage, message, None, now)]
      ensures r == Exit(1) || r == Rejected
      ensures r == Exit(1) ==> file == Some(FatalFrom(starting, stage, message, None, now)) && Valid(file.value)
    {
      CleanupAttempt([sentinelPid, appPid]);
      var ok := Write(FatalFrom(starting, stage, message, None, now));
      return if ok then Exit(1) else Rejected;
    }
  }

  /** The stage and the reason a failed start records: those of its preflight, else the startup of the app with what the
      wait for it was answered, unless a spawn or a write failed; "spawn failed" and "write failed" stand for the
      messages of what they throw. */
  ghost predicate FailedBecause(fatal: State, preflight: Option<(FatalStage, string)>, answered: Option<Answer>) {
    && fatal.fatalStage == Some(if preflight.Some? then preflight.value.0 else AppStartup)
    && fatal.fatalReason.Some?
    && var reason := fatal.fatalReason.value;
       if preflight.Some? then reason == preflight.value.1
       else match answered
            case None => reason == "spawn failed" || reason == "write failed"
            case Some(Ready) => false
            case Some(NotReady(why)) => reason == why || reason == "write failed"
            case Some(WaitThrew(message)) => reason == message
  }

  ghost function Given(pids: seq<Option<Pid>>): set<Pid> {
    set i | 0 <= i < |pids| && pids[i].Some? :: pids[i].value
  }

  function AsSet(pid: Option<Pid>): set<Pid> {
    if pid.Some? then {pid.value} else {}
  }

  lemma GivenTwo(a: Option<Pid>, b: Option<Pid>)
    ensures Given([a, b]) == AsSet(a) + AsSet(b)
  {
    var two := [a, b];
    forall p
      ensures p in Given(two) <==> p in AsSet(a) + AsSet(b)
    {
      if p in AsSet(a) {
        assert two[0].Some?;
      }
      if p in AsSet(b) {
        assert two[1].Some?;
      }
    }
  }

  // ----- Why the protocol is only promised from the end of startDaemon on. -----

  /** The write is one the protocol allows over this file. */
  ghost predicate Allowed(file: State, next: State, at: int) {
    exists kind, actor :: LifecycleInvariant.LegalWrite(Lifecycle.Write(kind, actor, file, next, at))
  }

  /** The file still says what the launcher wrote, up to the fields a fatal record replaces. */
  predicate StillAsWritten(file: State, running: State) {
    && file.status.Running?
    && file == running.(fatalStage := file.fatalStage, fatalReason := file.fatalReason,
                        lastExitCode := file.lastExitCode, updatedAt := file.updatedAt)
  }

  /** When the launcher's fatal write after a failed readiness wait is harmless: exactly while nobody else has written
      the record since. Already a heartbeat is taken back by it. */
  lemma LateFatalWriteIsAllowed(file: State, running: State, reason: string, later: int)
    requires running.status.Running?
    ensures Allowed(file, FatalFrom(running, AppStartup, reason, None, later), later) <==> StillAsWritten(file, running)
  {
    var fatal := FatalFrom(running, AppStartup, reason, None, later);
    if StillAsWritten(file, running) {
      assert LifecycleInvariant.LegalWrite(Lifecycle.Write(Lifecycle.FatalMark, Lifecycle.BySentinel,
             file, fatal, later));
    }
  }

  /** The handler's fatal write, made from the starting record, is never allowed over a live record: it forgets both
      pids. */
  lemma HandlerWriteIsNeverAllowed(file: State, starting: State, stage: FatalStage, message: string, later: int)
    requires Valid(file) && IsLive(file) && starting.appPid.None?
    ensures !Allowed(file, FatalFrom(starting, stage, message, None, later), later)
  {
  }

  /** While the launcher still waits, a sentinel restart that has been committed is undone by the launcher's fatal
      write: the new app is neither recorded nor among the pids that are killed, and the write is none the protocol
      allows. */
  lemma LateFatalWriteOrphans(running: State, attempt: string, child: Pid, count: nat, window: int,
                              reason: string, now: int, later: int)
    requires running.status.Running? && running.mode == Daemon && running.attempt == attempt
    requires running.appPid.Some? && running.appPid != Some(child) && running.sentinelPid != Some(child)
    ensures
      var restarted := RestartUpdate(Some(running), attempt, running, child, count, window, None, now);
      var fatal := FatalFrom(running, AppStartup, reason, None, later);
      && restarted.Some? && restarted.value.appPid == Some(child)
      && fatal.appPid != Some(child)
      && child !in Given([running.sentinelPid, running.appPid])
      && !Allowed(restarted.value, fatal, later)
  {
    var restarted := RestartUpdate(Some(running), attempt, running, child, count, window, None, now);
    LateFatalWriteIsAllowed(restarted.value, running, reason, later);
  }

  /** The same write also takes back a stop that another process has completed. */
  lemma LateFatalWriteUndoesStop(running: State, reason: string, now: int, later: int)
    requires running.status.Running?
    ensures
      var stopped := ToStopped(ToStopping(running, now), now);
      var fatal := FatalFrom(running, AppStartup, reason, None, later);
      !Allowed(stopped, fatal, later)
  {
    LateFatalWriteIsAllowed(ToStopped(ToStopping(running, now), now), running, reason, later);
  }
}
