/** `withStateLock` and `updateStateAtomic` taken apart into single file operations of any number of
    processes: exclusive create, stamp, stat, stale removal, read, temp write, rename, close, removal.
    When no lock file ever outlives LOCK_STALE_MS this refines the one-step update the Lifecycle model
    uses, as LockedUpdates shows; the last lemmas here show what happens when one does. */
module StateLock {
  import opened DaemonState
  import opened Wrappers

  const LOCK_STALE_MS := 30000

  type Updater = Option<State> -> Option<State>

  /** A file being written is torn until the write completes; a rename moves it whole. */
  datatype File = Torn | Whole(state: State)

  datatype LockFile = LockFile(mtime: int, creator: nat)

  datatype Pc =
    | Idle
    | Trying                                        // open(lock, 'wx')
    | Statting                                      // after EEXIST
    | RemovingStale                                 // rm(lock, force)
    | Stamping                                      // write pid and time into the file that was created
    | Reading
    | Updating(read: Option<State>)
    | WritingTemp(read: Option<State>, next: State)
    | FillingTemp(read: Option<State>, next: State)
    | Renaming(read: Option<State>, next: State)
    | Closing
    | Releasing                                     // rm(lock, force), whoever made it

  datatype Process = Process(pc: Pc, updater: Updater)

  /** One update that reached the state file. */
  datatype Entry = Entry(writer: nat, updater: Updater, before: Option<State>, after: State)

  datatype Disk = Disk(
    now: int,
    lock: Option<LockFile>,
    file: Option<File>,
    temps: map<nat, File>,
    procs: map<nat, Process>,
    log: seq<Entry>)

  datatype Event =
    | Begin(id: nat, updater: Updater)
    | Step(id: nat)
    | Fail(id: nat)      // the current file operation throws
    | Pass(ms: nat)

  function At(d: Disk, p: nat, pc: Pc): Disk
    requires p in d.procs
  {
    d.(procs := d.procs[p := d.procs[p].(pc := pc)])
  }

  predicate InCritical(pc: Pc) {
    !(pc.Idle? || pc.Trying? || pc.Statting? || pc.RemovingStale?)
  }

  predicate MayFail(pc: Pc) {
    // Statting fails when the wait for the lock times out.
    pc.Statting? || pc.Reading? || pc.Updating? || pc.WritingTemp? || pc.FillingTemp? || pc.Renaming?
  }

  predicate Enabled(d: Disk, e: Event) {
    match e
    case Begin(p, _) => p !in d.procs || d.procs[p].pc.Idle?
    case Step(p) => p in d.procs && !d.procs[p].pc.Idle?
    case Fail(p) => p in d.procs && MayFail(d.procs[p].pc)
    case Pass(_) => true
  }

  /** The lock file that is there is the one the process created. */
  predicate Owns(d: Disk, p: nat) {
    d.lock.Some? && d.lock.value.creator == p
  }

  function Content(file: Option<File>): Option<State> {
    if file.Some? && file.value.Whole? then Some(file.value.state) else None
  }

  function Advance(d: Disk, p: nat): Disk
    requires p in d.procs && !d.procs[p].pc.Idle?
  {
    match d.procs[p].pc
    case Trying =>
      if d.lock.None? then At(d.(lock := Some(LockFile(d.now, p))), p, Stamping) else At(d, p, Statting)
    case Statting =>
      At(d, p, if d.lock.Some? && d.now - d.lock.value.mtime > LOCK_STALE_MS then RemovingStale else Trying)
    case RemovingStale => At(d.(lock := None), p, Trying)
    case Stamping => At(if Owns(d, p) then d.(lock := Some(LockFile(d.now, p))) else d, p, Reading)
    case Reading => At(d, p, Updating(Content(d.file)))
    case Updating(read) =>
      var next := d.procs[p].updater(read);
      At(d, p, if next.Some? && Valid(next.value) then WritingTemp(read, next.value) else Closing)
    case WritingTemp(read, next) => At(d.(temps := d.temps[p := Torn]), p, FillingTemp(read, next))
    case FillingTemp(read, next) => At(d.(temps := d.temps[p := Whole(next)]), p, Renaming(read, next))
    case Renaming(read, next) =>
      if p !in d.temps then At(d, p, Closing)
      else At(d.(file := Some(d.temps[p]), temps := d.temps - {p},
                 log := d.log + [Entry(p, d.procs[p].updater, read, next)]), p, Closing)
    case Closing => At(d, p, Releasing)
    case Releasing => At(d.(lock := None), p, Idle)
  }

  function Apply(d: Disk, e: Event): Disk
    requires Enabled(d, e)
  {
    match e
    case Begin(p, updater) => d.(procs := d.procs[p := Process(Trying, updater)])
    case Step(p) => Advance(d, p)
    case Fail(p) => At(d, p, if d.procs[p].pc.Statting? then Idle else Closing)
    case Pass(ms) => d.(now := d.now + ms)
  }

  predicate Init(d: Disk) {
    d.lock.None? && d.procs == map[] && d.log == []
    && (d.file.Some? ==> d.file.value.Whole? && Valid(d.file.value.state))
  }

  ghost predicate IsRun(events: seq<Event>, disks: seq<Disk>) {
    && |disks| == |events| + 1
    && Init(disks[0])
    && (forall i :: 0 <= i < |events| ==> Enabled(disks[i], events[i]) && disks[i + 1] == Apply(disks[i], events[i]))
  }

  /** No lock file is older than LOCK_STALE_MS: every holder released in time. */
  predicate Prompt(d: Disk) {
    d.lock.Some? ==> d.now - d.lock.value.mtime <= LOCK_STALE_MS
  }

  // ----- The invariant. -----

  /** What a process inside has in hand still matches the file and its own temp file. */
  predicate InHand(d: Disk, p: nat, proc: Process) {
    match proc.pc
    case Updating(read) => read == Content(d.file)
    case WritingTemp(read, next) => read == Content(d.file) && proc.updater(read) == Some(next) && Valid(next)
    case FillingTemp(read, next) => read == Content(d.file) && proc.updater(read) == Some(next) && Valid(next)
    case Renaming(read, next) =>
      read == Content(d.file) && proc.updater(read) == Some(next) && Valid(next)
      && p in d.temps && d.temps[p] == Whole(next)
    case _ => true
  }

  predicate ProcessOk(d: Disk, p: nat) {
    p in d.procs ==>
      && !d.procs[p].pc.RemovingStale?
      && (InCritical(d.procs[p].pc) ==> Owns(d, p) && InHand(d, p, d.procs[p]))
  }

  predicate WholeFile(d: Disk) {
    d.file.Some? ==> d.file.value.Whole? && Valid(d.file.value.state)
  }

  predicate Inv(d: Disk) {
    && WholeFile(d)
    && (forall p :: p in d.procs ==> ProcessOk(d, p))
    && (d.lock.Some? ==> d.lock.value.creator in d.procs && InCritical(d.procs[d.lock.value.creator].pc))
  }

  /** A step of somebody else leaves a process as it was, as long as it takes no lock that is held. */
  lemma OthersUndisturbed(d: Disk, p: nat, q: nat)
    requires Inv(d) && Prompt(d) && p in d.procs && !d.procs[p].pc.Idle? && q != p && q in d.procs
    ensures ProcessOk(Advance(d, p), q)
  {
    assert ProcessOk(d, p) && ProcessOk(d, q);
  }

  lemma SelfOk(d: Disk, p: nat)
    requires Inv(d) && Prompt(d) && p in d.procs && !d.procs[p].pc.Idle?
    ensures ProcessOk(Advance(d, p), p)
  {
    assert ProcessOk(d, p);
  }

  lemma AdvanceKeeps(d: Disk, p: nat)
    requires Inv(d) && Prompt(d) && p in d.procs && !d.procs[p].pc.Idle?
    ensures Inv(Advance(d, p))
  {
    var t := Advance(d, p);
    assert ProcessOk(d, p);
    forall q | q in t.procs ensures ProcessOk(t, q) {
      if q == p {
        SelfOk(d, p);
      } else {
        OthersUndisturbed(d, p, q);
      }
    }
  }

  lemma EventKeeps(d: Disk, e: Event)
    requires Inv(d) && Prompt(d) && Enabled(d, e)
    ensures Inv(Apply(d, e))
  {
    match e {
      case Begin(p, updater) =>
        forall q | q in Apply(d, e).procs ensures ProcessOk(Apply(d, e), q) {
          assert q in d.procs ==> ProcessOk(d, q);
        }
      case Step(p) => AdvanceKeeps(d, p);
      case Fail(p) =>
        forall q | q in Apply(d, e).procs ensures ProcessOk(Apply(d, e), q) {
          assert ProcessOk(d, q);
        }
      case Pass(ms) =>
        forall q | q in d.procs ensures ProcessOk(Apply(d, e), q) {
          assert ProcessOk(d, q);
        }
    }
  }

  lemma {:induction false} RunKeepsInv(events: seq<Event>, disks: seq<Disk>, i: nat)
    requires IsRun(events, disks) && i < |disks|
    requires forall k :: 0 <= k < i ==> Prompt(disks[k])
    ensures Inv(disks[i])
  {
    if i > 0 {
      RunKeepsInv(events, disks, i - 1);
      EventKeeps(disks[i - 1], events[i - 1]);
    }
  }

  // ----- Mutual exclusion, no lost update, no torn read. -----

  lemma MutualExclusion(events: seq<Event>, disks: seq<Disk>, i: nat, p: nat, q: nat)
    requires IsRun(events, disks) && i < |disks|
    requires forall k :: 0 <= k < i ==> Prompt(disks[k])
    requires p in disks[i].procs && InCritical(disks[i].procs[p].pc)
    requires q in disks[i].procs && InCritical(disks[i].procs[q].pc)
    ensures p == q
  {
    RunKeepsInv(events, disks, i);
    assert ProcessOk(disks[i], p) && ProcessOk(disks[i], q);
  }

  /** What is on its way to the state file is valid, and a process that is about to rename has its own temp file
      whole; with or without the lock. */
  predicate OnItsWay(d: Disk, p: nat) {
    p in d.procs ==>
      match d.procs[p].pc
      case WritingTemp(_, next) => Valid(next)
      case FillingTemp(_, next) => Valid(next)
      case Renaming(_, next) => Valid(next) && (p in d.temps ==> d.temps[p] == Whole(next))
      case _ => true
  }

  predicate FilesOk(d: Disk) {
    WholeFile(d) && forall p :: p in d.procs ==> OnItsWay(d, p)
  }

  lemma StepKeepsFiles(d: Disk, p: nat)
    requires FilesOk(d) && p in d.procs && !d.procs[p].pc.Idle?
    ensures FilesOk(Advance(d, p))
  {
    var t := Advance(d, p);
    assert OnItsWay(d, p);
    forall q | q in t.procs ensures OnItsWay(t, q) {
      assert OnItsWay(d, q);
    }
  }

  lemma EventKeepsFiles(d: Disk, e: Event)
    requires FilesOk(d) && Enabled(d, e)
    ensures FilesOk(Apply(d, e))
  {
    match e {
      case Step(p) => StepKeepsFiles(d, p);
      case _ =>
        forall q | q in Apply(d, e).procs ensures OnItsWay(Apply(d, e), q) {
          assert q in d.procs ==> OnItsWay(d, q);
        }
    }
  }

  lemma {:induction false} RunKeepsFiles(events: seq<Event>, disks: seq<Disk>, i: nat)
    requires IsRun(events, disks) && i < |disks|
    ensures FilesOk(disks[i])
  {
    if i > 0 {
      RunKeepsFiles(events, disks, i - 1);
      EventKeepsFiles(disks[i - 1], events[i - 1]);
    }
  }

  /** A reader that never takes the lock finds no file or a whole, validated record, in every run: slow holders and
      stolen locks included. */
  lemma ReadersSeeWholeStates(events: seq<Event>, disks: seq<Disk>, i: nat)
    requires IsRun(events, disks) && i < |disks|
    ensures disks[i].file.Some? ==> disks[i].file.value.Whole? && Valid(disks[i].file.value.state)
  {
    RunKeepsFiles(events, disks, i);
  }

  /** The log is the sequential application of its updaters, from the first content to the last. */
  predicate Sequential(first: Option<State>, log: seq<Entry>, last: Option<State>) {
    && (|log| == 0 ==> first == last)
    && (|log| > 0 ==> log[0].before == first && Some(log[|log| - 1].after) == last)
    && (forall k :: 0 < k < |log| ==> log[k].before == Some(log[k - 1].after))
    && (forall k :: 0 <= k < |log| ==> log[k].updater(log[k].before) == Some(log[k].after) && Valid(log[k].after))
  }

  lemma AdvanceIsSequential(first: Option<State>, d: Disk, p: nat)
    requires Inv(d) && p in d.procs && !d.procs[p].pc.Idle? && Sequential(first, d.log, Content(d.file))
    ensures Sequential(first, Advance(d, p).log, Content(Advance(d, p).file))
  {
    assert ProcessOk(d, p);
  }

  /** No update is lost: the state file at any moment is the result of applying the updaters that
      renamed, one after the other, each to exactly what its predecessor left. */
  lemma {:induction false} NoLostUpdate(events: seq<Event>, disks: seq<Disk>, i: nat)
    requires IsRun(events, disks) && i < |disks|
    requires forall k :: 0 <= k < i ==> Prompt(disks[k])
    ensures Sequential(Content(disks[0].file), disks[i].log, Content(disks[i].file))
  {
    if i > 0 {
      NoLostUpdate(events, disks, i - 1);
      RunKeepsInv(events, disks, i - 1);
      match events[i - 1] {
        case Step(p) => AdvanceIsSequential(Content(disks[0].file), disks[i - 1], p);
        case _ =>
      }
    }
  }

  // ----- Without the hypothesis. -----

  /** Process 0 holds the lock past its time while process 1 takes it for stale. */
  function SlowHolder(): seq<Event> {
    var keep: Updater := s => None;
    [Begin(0, keep), Step(0), Step(0), Begin(1, keep), Step(1), Pass(LOCK_STALE_MS + 1), Step(1), Step(1), Step(1)]
  }

  /** Once the lock file is too old and its holder still inside, every process that is not inside an update has a
      continuation that ends with both inside. */
  lemma StaleLockIsStolen(d: Disk, p: nat, q: nat, updater: Updater)
    requires Inv(d) && !Prompt(d) && Owns(d, p) && p != q && (q !in d.procs || d.procs[q].pc.Idle?)
    ensures
      var d1 := Apply(d, Begin(q, updater));
      && Enabled(d1, Step(q)) && Enabled(Advance(d1, q), Step(q))
      && var d3 := Advance(Advance(d1, q), q);
      && Enabled(d3, Step(q)) && Enabled(Advance(d3, q), Step(q))
      && var d5 := Advance(Advance(d3, q), q);
      p in d5.procs && q in d5.procs && InCritical(d5.procs[p].pc) && InCritical(d5.procs[q].pc)
  {
    assert ProcessOk(d, p);
    var d1 := Apply(d, Begin(q, updater));
    var d2 := Advance(d1, q);
    assert d2.procs[q].pc == Statting;
    var d3 := Advance(d2, q);
    assert d3.procs[q].pc == RemovingStale;
    var d4 := Advance(d3, q);
    assert d4.procs[q].pc == Trying && d4.lock.None?;
  }

  /** A holder that takes too long loses the lock without noticing: both processes end up inside. */
  lemma SlowHolderBreaksExclusion()
    returns (disks: seq<Disk>)
    ensures IsRun(SlowHolder(), disks)
    ensures var d := disks[|disks| - 1];
            0 in d.procs && 1 in d.procs && InCritical(d.procs[0].pc) && InCritical(d.procs[1].pc)
  {
    var es := SlowHolder();
    var d0 := Disk(0, None, None, map[], map[], []);
    var d1 := Apply(d0, es[0]);
    var d2 := Apply(d1, es[1]);
    var d3 := Apply(d2, es[2]);
    var d4 := Apply(d3, es[3]);
    var d5 := Apply(d4, es[4]);
    var d6 := Apply(d5, es[5]);
    var d7 := Apply(d6, es[6]);
    var d8 := Apply(d7, es[7]);
    var d9 := Apply(d8, es[8]);
    disks := [d0, d1, d2, d3, d4, d5, d6, d7, d8, d9];
  }
}
