/** What the history of the state file says about every run: legal moves only, one winner per
    generation, generation fencing, and the restart rate. */
module LifecycleHistory {
  import opened DaemonState
  import opened Wrappers
  import opened RestartPolicy
  import opened StopClient
  import opened Lifecycle
  import opened LifecycleInvariant

  // ----- The history is one chain of legal writes. -----

  predicate Chained(st: Setup, h: seq<Write>, file: State) {
    && (|h| == 0 ==> file == st.initial)
    && (|h| > 0 ==> h[0].before == st.initial && h[|h| - 1].after == file)
    && (forall i :: 0 < i < |h| ==> h[i].before == h[i - 1].after)
    && (forall i :: 0 <= i < |h| ==> LegalWrite(h[i]))
  }

  /** The event left the file and its history alone, or made one legal write. */
  predicate OneWriteAtMost(s: Sys, t: Sys) {
    || (t.file == s.file && t.history == s.history)
    || (&& |t.history| == |s.history| + 1
        && t.history[..|s.history|] == s.history
        && var w := t.history[|s.history|];
           w == Write(w.kind, w.actor, s.file, t.file, s.clock) && LegalWrite(w))
  }

  lemma FatalWritesLegally(st: Setup, s: Sys, ch: Choice, note: string)
    requires Ready(st, s)
    ensures s.sentinel.WritingFatal? ==> OneWriteAtMost(s, NextWritingFatal(st, s, ch, note))
    ensures OneWriteAtMost(s, NextCrashed(st, s, ch, note))
  {
  }

  lemma SentinelWritesLegally(st: Setup, s: Sys, ch: Choice, note: string)
    requires Ready(st, s) && SentinelEnabled(st, s, ch)
    ensures OneWriteAtMost(s, SentinelNext(st, s, ch, note))
  {
    match s.sentinel {
      case WritingFatal(_, _) => FatalWritesLegally(st, s, ch, note);
      case Crashed => FatalWritesLegally(st, s, ch, note);
      case _ =>
    }
  }

  function WriteOf(s: Sys, id: nat, after: State): Write {
    Write(if after.status == Stopping then StopMark else StoppedMark, ByClient(id), s.file, after, s.clock)
  }

  lemma ClientWriteIsLegal(st: Setup, s: Sys, id: nat, c: Client, a: Act)
    requires Ready(st, s) && ClientOk(st, s, c) && Enabled(c.pc, a) && ClientWrite(s, c, a).Some?
    ensures LegalWrite(WriteOf(s, id, ClientWrite(s, c, a).value))
  {
    if !MarksStopping(c.pc) {
      StoppedWriteIsDue(st, s, c);
    }
  }

  lemma EffectAppends(s: Sys, id: nat, c: Client, a: Act)
    ensures var t := ClientEffect(s, id, c, a); var write := ClientWrite(s, c, a);
            if write.Some? then t.history == s.history + [WriteOf(s, id, write.value)] && t.file == write.value
            else t.history == s.history && t.file == s.file
  {
  }

  lemma ClientWritesLegally(st: Setup, s: Sys, id: nat, a: Act)
    requires Inv(st, s) && Enables(st, s, ClientStep(id, a))
    ensures OneWriteAtMost(s, ClientNext(s, id, a))
  {
    var c := s.clients[id];
    EffectAppends(s, id, c, a);
    if ClientWrite(s, c, a).Some? {
      ClientWriteIsLegal(st, s, id, c, a);
    }
  }

  lemma EventWritesLegally(st: Setup, s: Sys, e: Event)
    requires Inv(st, s) && Enables(st, s, e)
    ensures OneWriteAtMost(s, Apply(st, s, e))
  {
    match e {
      case SentinelStep(ch, note) => SentinelWritesLegally(st, s, ch, note);
      case ClientStep(id, a) => ClientWritesLegally(st, s, id, a);
      case _ =>
    }
  }

  lemma OneWriteKeepsChain(st: Setup, s: Sys, t: Sys)
    requires Chained(st, s.history, s.file) && OneWriteAtMost(s, t)
    ensures Chained(st, t.history, t.file)
  {
    if t.history != s.history {
      assert forall i :: 0 <= i < |s.history| ==> t.history[i] == t.history[..|s.history|][i];
    }
  }

  lemma {:induction false} RunIsChained(st: Setup, events: seq<Event>, states: seq<Sys>, i: nat)
    requires IsRun(st, events, states) && i < |states|
    ensures Chained(st, states[i].history, states[i].file)
  {
    if i > 0 {
      RunIsChained(st, events, states, i - 1);
      RunKeepsInv(st, events, states, i - 1);
      assert Leads(st, events, states, i - 1);
      EventWritesLegally(st, states[i - 1], events[i - 1]);
      OneWriteKeepsChain(st, states[i - 1], states[i]);
    }
  }

  // ----- Along one chain. -----

  lemma {:induction false} Onward(st: Setup, h: seq<Write>, file: State, i: nat, j: nat)
    requires Chained(st, h, file) && i < j < |h|
    ensures h[i].after.generation <= h[j].before.generation
    ensures h[i].after.attempt == h[j].before.attempt
    ensures h[i].after.generation == h[j].before.generation && h[j].before.appPid.Some? ==>
              h[i].after.appPid == h[j].before.appPid
    ensures !h[i].after.status.Running? ==> !h[j].before.status.Running?
    ensures h[i].after.status.Stopping? ==> h[j].before.status.Stopping?
    ensures h[i].after.status.Fatal? ==> h[j].before.status.Fatal?
    ensures !h[i].after.status.Stopped?
    decreases j
  {
    assert h[j].before == h[j - 1].after && LegalWrite(h[j]) && LegalWrite(h[j - 1]);
    if i < j - 1 {
      Onward(st, h, file, i, j - 1);
    }
  }

  /** The status only ever moves forward, and nothing undoes a stopping, fatal or stopped marker. */
  lemma MarkersAreFinal(st: Setup, h: seq<Write>, file: State, i: nat, j: nat)
    requires Chained(st, h, file) && i < j < |h|
    ensures h[i].kind == StopMark ==> h[j].kind == StoppedMark && j == |h| - 1
    ensures h[i].kind == FatalMark ==> h[j].kind == StoppedMark && j == |h| - 1
    ensures h[i].kind != StoppedMark
  {
    Onward(st, h, file, i, j);
    assert LegalWrite(h[i]) && LegalWrite(h[j]);
    if j < |h| - 1 {
      Onward(st, h, file, j, |h| - 1);
    }
  }

  /** From one (attempt, generation, app), at most one of the sentinel's restart and the stop markers
      is ever written. */
  lemma OneWinnerPerGeneration(st: Setup, h: seq<Write>, file: State, i: nat, j: nat)
    requires Chained(st, h, file) && i < j < |h|
    requires h[i].kind == RestartMark || h[i].kind == StopMark
    requires h[j].kind == RestartMark || h[j].kind == StopMark
    ensures (h[i].before.attempt, h[i].before.generation, h[i].before.appPid)
         != (h[j].before.attempt, h[j].before.generation, h[j].before.appPid)
  {
    Onward(st, h, file, i, j);
    assert LegalWrite(h[i]) && LegalWrite(h[j]);
  }

  /** A record of the chain: the one it started from, or one of the written ones. */
  function Record(st: Setup, h: seq<Write>, k: nat): State
    requires k <= |h|
  {
    if k == 0 then st.initial else h[k - 1].after
  }

  /** Generations only grow, and each is recorded with at most one app. */
  lemma {:induction false} GenerationsGrow(st: Setup, h: seq<Write>, file: State, i: nat, j: nat)
    requires Chained(st, h, file) && i <= j <= |h|
    ensures Record(st, h, i).generation <= Record(st, h, j).generation
    ensures var a, b := Record(st, h, i), Record(st, h, j);
            a.generation == b.generation && b.appPid.Some? ==> a.appPid == b.appPid
    decreases j
  {
    if i < j {
      GenerationsGrow(st, h, file, i, j - 1);
      assert LegalWrite(h[j - 1]);
      assert j > 1 ==> h[j - 1].before == h[j - 2].after;
    }
  }

  // ----- The restart rate. -----

  /** A write that committed a restart; every legal restart write carries both times. */
  predicate IsRestart(w: Write) {
    w.kind == RestartMark && w.after.lastRestartAt.Some? && w.after.restartWindowStartedAt.Some?
  }

  function AsRestart(w: Write): Restart
    requires IsRestart(w)
  {
    RestartPolicy.Restart(w.after.lastRestartAt.value, w.at, w.after.restartWindowStartedAt.value, w.after.restartCount)
  }

  /** The restarts that reached the file, in order. */
  function RestartsOf(h: seq<Write>): seq<Restart> {
    if |h| == 0 then []
    else RestartsOf(h[..|h| - 1]) + if IsRestart(h[|h| - 1]) then [AsRestart(h[|h| - 1])] else []
  }

  lemma RestartsAppend(h: seq<Write>, w: Write)
    ensures RestartsOf(h + [w]) == RestartsOf(h) + if IsRestart(w) then [AsRestart(w)] else []
  {
    assert (h + [w])[..|h|] == h;
  }

  predicate NoLaterThan(h: seq<Restart>, time: int) {
    |h| > 0 ==> h[|h| - 1].committedAt <= time
  }

  /** A planned restart may be appended to the history. */
  predicate Due(p: Policy, h: seq<Restart>, d: Decision, now: int) {
    var next := RestartPolicy.Restart(now, now, d.windowStart, d.count);
    && 1 <= d.count <= p.maxRestarts
    && (if |h| == 0 then OpensWindow(next) else Follows(p, h[|h| - 1], next))
  }

  predicate SleptFor(p: Policy, h: seq<Restart>, seen: State, startedAt: int, total: int) {
    NoLaterThan(h, startedAt) && total == Decide(p, seen, startedAt).backoffMs
  }

  predicate TimingOk(st: Setup, s: Sys, h: seq<Restart>) {
    && Admissible(st.policy, h) && Remembers(s.file, h) && NoLaterThan(h, s.clock)
    && match s.sentinel
       case BackingOff(seen, startedAt, total, wakeAt, left) =>
         SleptFor(st.policy, h, seen, startedAt, total) && startedAt <= s.clock
         && wakeAt + left >= startedAt + total && left >= 0
       case Rechecking(seen, startedAt, total) =>
         SleptFor(st.policy, h, seen, startedAt, total) && startedAt <= s.clock && s.clock >= startedAt + total
       case Planned(_, latest, d, now) => Due(st.policy, h, d, now) && now <= s.clock
       case _ => true
  }

  lemma NoWriteKeepsTiming(st: Setup, s: Sys, t: Sys, h: seq<Restart>)
    requires TimingOk(st, s, h) && t.clock >= s.clock
    requires SameRestartInfo(s.file, t.file)
    requires t.sentinel == s.sentinel || (!t.sentinel.BackingOff? && !t.sentinel.Rechecking? && !t.sentinel.Planned?)
    ensures TimingOk(st, t, h)
  {
  }

  lemma PauseKeepsTiming(st: Setup, s: Sys, ch: Choice, note: string, h: seq<Restart>)
    requires Ready(st, s) && SentinelEnabled(st, s, ch) && TimingOk(st, s, h)
    requires s.sentinel.Ticking? || s.sentinel.BackingOff? || s.sentinel.Rechecking?
    ensures TimingOk(st, SentinelNext(st, s, ch, note), h)
  {
  }

  predicate Restarts(s: Sys, t: Sys) {
    |t.history| == |s.history| + 1 && t.history[|s.history|].kind == RestartMark
  }

  lemma OnlyRestartsCount(s: Sys, t: Sys)
    requires OneWriteAtMost(s, t)
    ensures !Restarts(s, t) ==> RestartsOf(t.history) == RestartsOf(s.history) && SameRestartInfo(s.file, t.file)
    ensures Restarts(s, t) ==>
              && IsRestart(t.history[|s.history|])
              && RestartsOf(t.history) == RestartsOf(s.history) + [AsRestart(t.history[|s.history|])]
  {
    if t.history != s.history {
      var w := t.history[|s.history|];
      assert t.history == s.history + [w];
      RestartsAppend(s.history, w);
    }
  }

  /** The commit step: what was due is appended. */
  lemma CommitKeepsTiming(st: Setup, s: Sys, ch: Choice, note: string, h: seq<Restart>)
    requires Ready(st, s) && SentinelEnabled(st, s, ch) && TimingOk(st, s, h)
    requires s.sentinel.Planned?
    ensures var t := SentinelNext(st, s, ch, note);
            if Restarts(s, t) then
              && IsRestart(t.history[|s.history|])
              && TimingOk(st, t, h + [AsRestart(t.history[|s.history|])])
            else TimingOk(st, t, h)
  {
  }

  lemma OtherSentinelKeepsTiming(st: Setup, s: Sys, ch: Choice, note: string, h: seq<Restart>)
    requires Ready(st, s) && SentinelEnabled(st, s, ch) && TimingOk(st, s, h)
    requires !s.sentinel.Ticking? && !s.sentinel.BackingOff? && !s.sentinel.Rechecking? && !s.sentinel.Planned?
    ensures !Restarts(s, SentinelNext(st, s, ch, note)) && TimingOk(st, SentinelNext(st, s, ch, note), h)
  {
  }

  predicate Timed(st: Setup, s: Sys) {
    Chained(st, s.history, s.file) && TimingOk(st, s, RestartsOf(s.history))
  }

  lemma SentinelKeepsTiming(st: Setup, s: Sys, ch: Choice, note: string)
    requires Inv(st, s) && SentinelEnabled(st, s, ch) && Timed(st, s)
    requires OneWriteAtMost(s, SentinelNext(st, s, ch, note))
    ensures Timed(st, SentinelNext(st, s, ch, note))
  {
    var t := SentinelNext(st, s, ch, note);
    OneWriteKeepsChain(st, s, t);
    OnlyRestartsCount(s, t);
    var h := RestartsOf(s.history);
    if s.sentinel.Planned? {
      CommitKeepsTiming(st, s, ch, note, h);
    } else if s.sentinel.Ticking? || s.sentinel.BackingOff? || s.sentinel.Rechecking? {
      PauseKeepsTiming(st, s, ch, note, h);
    } else {
      OtherSentinelKeepsTiming(st, s, ch, note, h);
    }
  }

  lemma ClientNeverRestarts(s: Sys, id: nat, a: Act)
    requires id in s.clients && Enabled(s.clients[id].pc, a)
    ensures var t := ClientNext(s, id, a);
            !Restarts(s, t) && t.clock == s.clock && (t.sentinel == s.sentinel || t.sentinel.Exited?)
  {
  }

  lemma EventKeepsTiming(st: Setup, s: Sys, e: Event)
    requires Inv(st, s) && Enables(st, s, e) && Timed(st, s)
    ensures Timed(st, Apply(st, s, e))
  {
    var t := Apply(st, s, e);
    EventWritesLegally(st, s, e);
    match e {
      case SentinelStep(ch, note) => SentinelKeepsTiming(st, s, ch, note);
      case ClientStep(id, a) =>
        OneWriteKeepsChain(st, s, t);
        OnlyRestartsCount(s, t);
        ClientNeverRestarts(s, id, a);
        NoWriteKeepsTiming(st, s, t, RestartsOf(s.history));
      case _ => NoWriteKeepsTiming(st, s, t, RestartsOf(s.history));
    }
  }

  lemma {:induction false} RunIsTimed(st: Setup, events: seq<Event>, states: seq<Sys>, i: nat)
    requires IsRun(st, events, states) && i < |states|
    ensures Timed(st, states[i])
  {
    if i > 0 {
      RunIsTimed(st, events, states, i - 1);
      RunKeepsInv(st, events, states, i - 1);
      assert Leads(st, events, states, i - 1);
      EventKeepsTiming(st, states[i - 1], events[i - 1]);
    }
  }
}
