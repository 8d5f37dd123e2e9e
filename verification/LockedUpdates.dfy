/** The lock and the protocol joined: what the updates of sentinel and stop clients leave in the state file, file
    operation by file operation, is a history of single writes as the Lifecycle model makes them. */
module LockedUpdates {
  import opened DaemonState
  import opened Wrappers
  import opened StateLock
  import Lifecycle
  import LifecycleHistory
  import LifecycleInvariant

  /** The five updates with their arguments. */
  datatype Update =
    | Beat(attempt: string, at: int)
    | Restart(attempt: string, planned: State, pid: Pid, count: nat, window: int, exitCode: Option<string>, at: int)
    | MarkFatal(attempt: string, stage: FatalStage, message: string, exitCode: Option<string>, at: int)
    | MarkStopping(expected: State, at: int)
    | MarkStopped(expected: State, at: int)

  function Effect(u: Update, latest: Option<State>): Option<State> {
    match u
    case Beat(attempt, at) => HeartbeatUpdate(latest, attempt, at)
    case Restart(attempt, planned, pid, count, window, exitCode, at) =>
      RestartUpdate(latest, attempt, planned, pid, count, window, exitCode, at)
    case MarkFatal(attempt, stage, message, exitCode, at) => FatalUpdate(latest, attempt, stage, message, exitCode, at)
    case MarkStopping(expected, at) => StoppingUpdate(latest, expected, at)
    case MarkStopped(expected, at) => StoppedUpdate(latest, expected, at)
  }

  function Kind(u: Update): Lifecycle.WriteKind {
    match u
    case Beat(_, _) => Lifecycle.Heartbeat
    case Restart(_, _, _, _, _, _, _) => Lifecycle.RestartMark
    case MarkFatal(_, _, _, _, _) => Lifecycle.FatalMark
    case MarkStopping(_, _) => Lifecycle.StopMark
    case MarkStopped(_, _) => Lifecycle.StoppedMark
  }

  function Author(u: Update, writer: nat): Lifecycle.Actor {
    if u.MarkStopping? || u.MarkStopped? then Lifecycle.ByClient(writer) else Lifecycle.BySentinel
  }

  ghost predicate Performs(f: Updater, u: Update) {
    forall latest :: f(latest) == Effect(u, latest)
  }

  ghost predicate IsKnown(f: Updater) {
    exists u :: Performs(f, u)
  }

  /** Only these updates are ever begun. */
  ghost predicate OnlyKnown(events: seq<Event>) {
    forall k :: 0 <= k < |events| && events[k].Begin? ==> IsKnown(events[k].updater)
  }

  ghost predicate AllKnown(d: Disk) {
    && (forall p :: p in d.procs ==> IsKnown(d.procs[p].updater))
    && (forall k :: 0 <= k < |d.log| ==> IsKnown(d.log[k].updater))
  }

  lemma EventKeepsKnown(d: Disk, e: Event)
    requires AllKnown(d) && Enabled(d, e) && (e.Begin? ==> IsKnown(e.updater))
    ensures AllKnown(Apply(d, e))
  {
  }

  lemma {:induction false} RunKeepsKnown(events: seq<Event>, disks: seq<Disk>, i: nat)
    requires IsRun(events, disks) && i < |disks| && OnlyKnown(events)
    ensures AllKnown(disks[i])
    decreases i
  {
    if i > 0 {
      RunKeepsKnown(events, disks, i - 1);
      EventKeepsKnown(disks[i - 1], events[i - 1]);
    }
  }

  /** The write a log entry is, if it performs this update. */
  function WriteOf(e: Entry, u: Update): Lifecycle.Write
    requires e.before.Some?
  {
    Lifecycle.Write(Kind(u), Author(u, e.writer), e.before.value, e.after, u.at)
  }

  /** What the model adds to the updaters' own tests: the pid of a restart is new, and the fatal and the stopped marker
      are written over the records their authors write them over. */
  predicate Fenced(u: Update, before: State) {
    match u
    case Restart(_, _, pid, _, _, _, _) => before.appPid != Some(pid)
    case MarkFatal(_, _, _, _, _) => before.status.Running?
    case MarkStopped(_, _) => before.status.Stopping? || before.status.Fatal?
    case _ => true
  }

  lemma AcceptedIsLegal(u: Update, before: State, after: State, actor: Lifecycle.Actor)
    requires Effect(u, Some(before)) == Some(after)
    ensures LifecycleInvariant.LegalWrite(Lifecycle.Write(Kind(u), actor, before, after, u.at)) <==> Fenced(u, before)
  {
  }

  /** The log, update by update. */
  ghost predicate IsHistory(log: seq<Entry>, updates: seq<Update>, h: seq<Lifecycle.Write>) {
    && |updates| == |h| == |log|
    && forall k :: 0 <= k < |log| ==>
         && Performs(log[k].updater, updates[k])
         && log[k].before.Some? && h[k] == WriteOf(log[k], updates[k])
         && Effect(updates[k], Some(h[k].before)) == Some(h[k].after)
         && (LifecycleInvariant.LegalWrite(h[k]) <==> Fenced(updates[k], h[k].before))
  }

  lemma {:induction false} NameUpdates(log: seq<Entry>, n: nat) returns (updates: seq<Update>, h: seq<Lifecycle.Write>)
    requires n <= |log|
    requires forall k :: 0 <= k < |log| ==> IsKnown(log[k].updater) && log[k].before.Some?
    requires forall k :: 0 <= k < |log| ==> log[k].updater(log[k].before) == Some(log[k].after)
    ensures IsHistory(log[..n], updates, h)
    decreases n
  {
    if n == 0 {
      updates, h := [], [];
    } else {
      updates, h := NameUpdates(log, n - 1);
      var e := log[n - 1];
      assert IsKnown(e.updater);
      var u :| Performs(e.updater, u);
      AcceptedIsLegal(u, e.before.value, e.after, Author(u, e.writer));
      assert log[..n] == log[..n - 1] + [e];
      updates, h := updates + [u], h + [WriteOf(e, u)];
    }
  }

  lemma BeforesAreThere(initial: State, log: seq<Entry>, last: Option<State>)
    requires Sequential(Some(initial), log, last)
    ensures forall k :: 0 <= k < |log| ==> log[k].before.Some?
    ensures last.Some?
  {
    forall k | 0 <= k < |log|
      ensures log[k].before.Some?
    {
      assert k > 0 ==> log[k].before == Some(log[k - 1].after);
    }
  }

  /** In every run in which no lock gets too old and only these updates are begun, the file operations of all processes
      amount to a sequence of single writes: each one is an update that its author's compare-and-set accepted on what
      the write before it left. When each also meets the model's fences, this is a history of the kind every run of the
      Lifecycle model has, and all that is proved of such chains holds of it. */
  lemma LogIsHistory(events: seq<Event>, disks: seq<Disk>, i: nat, st: Lifecycle.Setup)
    returns (updates: seq<Update>, h: seq<Lifecycle.Write>)
    requires IsRun(events, disks) && i < |disks| && OnlyKnown(events)
    requires forall k :: 0 <= k < i ==> Prompt(disks[k])
    requires Content(disks[0].file) == Some(st.initial)
    ensures IsHistory(disks[i].log, updates, h)
    ensures Content(disks[i].file) == Some(if |h| == 0 then st.initial else h[|h| - 1].after)
    ensures |h| > 0 ==> h[0].before == st.initial
    ensures forall k :: 0 < k < |h| ==> h[k].before == h[k - 1].after
    ensures (forall k :: 0 <= k < |h| ==> Fenced(updates[k], h[k].before)) <==>
            LifecycleHistory.Chained(st, h, Content(disks[i].file).value)
  {
    var log := disks[i].log;
    NoLostUpdate(events, disks, i);
    RunKeepsKnown(events, disks, i);
    BeforesAreThere(st.initial, log, Content(disks[i].file));
    updates, h := NameUpdates(log, |log|);
    assert log[..|log|] == log;
  }
}
