/** One process's call of `updateStateAtomic` from begin to return, among the file operations of all the others: what it
    read, and that exactly an accepted update reaches the file. */
module UpdateSessions {
  import opened DaemonState
  import opened Wrappers
  import opened StateLock

  /** The entries of one process, in order. */
  function By(log: seq<Entry>, p: nat): seq<Entry> {
    if log == [] then []
    else By(log[..|log| - 1], p) + if log[|log| - 1].writer == p then [log[|log| - 1]] else []
  }

  lemma ByOneMore(log: seq<Entry>, e: Entry, p: nat)
    ensures By(log + [e], p) == By(log, p) + if e.writer == p then [e] else []
  {
    assert (log + [e])[..|log|] == log;
  }

  /** The latest call of a process: its updater, its entries before the call, the record it read, whether one of its
      file operations threw, and the file its own write left. */
  datatype Session = Session(updater: Updater, before: seq<Entry>, read: Option<Option<State>>, failed: bool,
                             left: Option<File>)

  function NoSession(): Session {
    Session(s => None, [], None, false, None)
  }

  /** What an event that leads from `d` to `t` adds to the session of `p`. */
  ghost function Noted(s: Session, d: Disk, e: Event, t: Disk, p: nat): Session {
    match e
    case Begin(q, updater) => if q == p then Session(updater, By(d.log, p), None, false, None) else s
    case Fail(q) => if q == p then s.(failed := true) else s
    case Step(q) =>
      if q != p || p !in d.procs then s
      else if d.procs[p].pc.Reading? then s.(read := Some(Content(d.file)))
      else if t.log != d.log then s.(left := t.file)
      else s
    case Pass(_) => s
  }

  ghost function SessionOf(events: seq<Event>, disks: seq<Disk>, p: nat, i: nat): Session
    requires |disks| == |events| + 1 && i <= |events|
  {
    if i == 0 then NoSession()
    else Noted(SessionOf(events, disks, p, i - 1), disks[i - 1], events[i - 1], disks[i], p)
  }

  /** The record the session asks to be written, if it is one that passes validation. */
  function Asked(s: Session): Option<State> {
    if s.read.None? then None
    else
      var next := s.updater(s.read.value);
      if next.Some? && Valid(next.value) then next else None
  }

  ghost predicate NothingWritten(s: Session, log: seq<Entry>, p: nat) {
    By(log, p) == s.before && s.left.None?
  }

  /** Exactly the accepted update has been written, and was the whole file when it was. */
  ghost predicate Landed(s: Session, log: seq<Entry>, p: nat) {
    && s.read.Some?
    && if Asked(s).Some? then
         && By(log, p) == s.before + [Entry(p, s.updater, s.read.value, Asked(s).value)]
         && s.left == Some(Whole(Asked(s).value))
       else NothingWritten(s, log, p)
  }

  ghost predicate SessionFits(s: Session, d: Disk, p: nat) {
    p in d.procs ==>
      && d.procs[p].updater == s.updater
      && if s.failed then
           NothingWritten(s, d.log, p) && (d.procs[p].pc.Closing? || d.procs[p].pc.Releasing? || d.procs[p].pc.Idle?)
         else StageFits(s, d, p)
  }

  ghost predicate StageFits(s: Session, d: Disk, p: nat)
    requires p in d.procs
  {
    match d.procs[p].pc
    case Idle => Landed(s, d.log, p)
    case Closing => Landed(s, d.log, p)
    case Releasing => Landed(s, d.log, p)
    case Updating(read) => s.read == Some(read) && NothingWritten(s, d.log, p)
    case WritingTemp(read, next) => s.read == Some(read) && Asked(s) == Some(next) && NothingWritten(s, d.log, p)
    case FillingTemp(read, next) => s.read == Some(read) && Asked(s) == Some(next) && NothingWritten(s, d.log, p)
    case Renaming(read, next) => s.read == Some(read) && Asked(s) == Some(next) && NothingWritten(s, d.log, p)
    case _ => s.read.None? && NothingWritten(s, d.log, p)
  }

  lemma OwnStepFits(s: Session, d: Disk, p: nat)
    requires Inv(d) && Prompt(d) && p in d.procs && !d.procs[p].pc.Idle? && SessionFits(s, d, p)
    ensures SessionFits(Noted(s, d, Step(p), Advance(d, p), p), Advance(d, p), p)
  {
    assert ProcessOk(d, p);
    match d.procs[p].pc {
      case Renaming(read, next) =>
        ByOneMore(d.log, Entry(p, d.procs[p].updater, read, next), p);
      case _ =>
    }
  }

  lemma OtherStepFits(s: Session, d: Disk, p: nat, q: nat)
    requires q in d.procs && !d.procs[q].pc.Idle? && q != p && SessionFits(s, d, p)
    ensures SessionFits(s, Advance(d, q), p)
  {
  }

  lemma EventFits(s: Session, d: Disk, e: Event, p: nat)
    requires Inv(d) && Prompt(d) && Enabled(d, e) && SessionFits(s, d, p)
    ensures SessionFits(Noted(s, d, e, Apply(d, e), p), Apply(d, e), p)
  {
    match e {
      case Step(q) =>
        if q == p {
          OwnStepFits(s, d, p);
        } else {
          OtherStepFits(s, d, p, q);
        }
      case _ =>
    }
  }

  lemma {:induction false} RunFits(events: seq<Event>, disks: seq<Disk>, p: nat, i: nat)
    requires IsRun(events, disks) && i < |disks|
    requires forall k :: 0 <= k < i ==> Prompt(disks[k])
    ensures SessionFits(SessionOf(events, disks, p, i), disks[i], p)
  {
    if i > 0 {
      RunFits(events, disks, p, i - 1);
      RunKeepsInv(events, disks, i - 1);
      EventFits(SessionOf(events, disks, p, i - 1), disks[i - 1], events[i - 1], p);
    }
  }

  /** In every run in which no lock gets too old: when a call is back, the log has gained nothing of it if one of its
      file operations threw; else it has read the record, and the log has gained exactly its update over what it read,
      which was then the whole file, if the updater made a valid record of it, and otherwise nothing. */
  lemma AcceptedUpdateLands(events: seq<Event>, disks: seq<Disk>, p: nat, i: nat)
    requires IsRun(events, disks) && i < |disks|
    requires forall k :: 0 <= k < i ==> Prompt(disks[k])
    requires p in disks[i].procs && disks[i].procs[p].pc.Idle?
    ensures
      var s := SessionOf(events, disks, p, i);
      if s.failed then By(disks[i].log, p) == s.before && s.left.None?
      else
        && s.read.Some?
        && var next := s.updater(s.read.value);
           if next.Some? && Valid(next.value) then
             && By(disks[i].log, p) == s.before + [Entry(p, s.updater, s.read.value, next.value)]
             && s.left == Some(Whole(next.value))
           else By(disks[i].log, p) == s.before && s.left.None?
  {
    RunFits(events, disks, p, i);
  }

  // ----- A call that nobody disturbs. -----

  function Alone(d: Disk, p: nat, n: nat): Disk
    decreases n
  {
    if n == 0 || p !in d.procs || d.procs[p].pc.Idle? then d else Alone(Advance(d, p), p, n - 1)
  }

  /** What a call leaves that finds the lock free and goes on alone. */
  function Updated(d: Disk, p: nat, updater: Updater): (Option<File>, seq<Entry>) {
    var read := Content(d.file);
    var next := updater(read);
    if next.Some? && Valid(next.value) then (Some(Whole(next.value)), d.log + [Entry(p, updater, read, next.value)])
    else (d.file, d.log)
  }

  /** Inside the lock: read, write if accepted, release. */
  lemma FromReading(d: Disk, p: nat)
    requires p in d.procs && d.procs[p].pc.Reading?
    ensures var t := Alone(d, p, 7);
            && p in t.procs && t.procs[p].pc.Idle? && t.lock.None?
            && (p !in d.temps ==> p !in t.temps)
            && (t.file, t.log) == Updated(d, p, d.procs[p].updater)
  {
    var d1 := Advance(d, p);
    var d2 := Advance(d1, p);
    if d2.procs[p].pc.Closing? {
    } else {
      var d3 := Advance(d2, p);
      var d4 := Advance(d3, p);
      var d5 := Advance(d4, p);

      assert Alone(d2, p, 5) == Alone(d3, p, 4) == Alone(d4, p, 3) == Alone(d5, p, 2);
    }
    assert Alone(d, p, 7) == Alone(d1, p, 6) == Alone(d2, p, 5);
  }

  /** A call that begins with the lock free and is left alone returns within nine file operations, with the accepted
      update in the file, the lock free again, and no temporary file left. */
  lemma LoneCallReturns(d: Disk, p: nat, updater: Updater)
    requires d.lock.None? && Enabled(d, Begin(p, updater))
    ensures var t := Alone(Apply(d, Begin(p, updater)), p, 9);
            && p in t.procs && t.procs[p].pc.Idle? && t.lock.None? && (p !in d.temps ==> p !in t.temps)
            && (t.file, t.log) == Updated(d, p, updater)
  {
    var d0 := Apply(d, Begin(p, updater));
    var d1 := Advance(d0, p);
    var d2 := Advance(d1, p);
    assert Alone(d0, p, 9) == Alone(d1, p, 8) == Alone(d2, p, 7);
    FromReading(d2, p);
  }
}
