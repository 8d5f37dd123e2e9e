/** Open documents, stored records waiting to be restored, and the reads in flight between them: the races of
    frontend/src/hooks/useEditorWindows.ts, each update committed before the next. */
module EditorRestore {
  type Path = string

  type Workspace = string

  type Tab = int

  datatype Document = Document(path: Path, tab: Tab, workspace: Workspace)

  /** What the store keeps of a document. */
  datatype Record = Record(tab: Tab, path: Path)

  /** An image step whose read is in flight: the tab shows `from` and is to show `to`. */
  datatype ImageStep = ImageStep(from: Path, to: Path, tab: Tab, workspace: Workspace)

  /** A document asked for by hand: the read of its file, or the write that creates it, is in flight. */
  datatype OpenRead = OpenRead(path: Path, tab: Tab, workspace: Workspace)

  /** `read`, `shown` and `dropped` are history: the records each workspace read from its store, the paths that have
      had a document, and the paths an image step forgot without opening them. */
  datatype State = State(
    documents: seq<Document>,
    pending: map<Workspace, seq<Record>>,
    closed: set<Path>,
    reading: map<Workspace, seq<Record>>,
    opens: multiset<OpenRead>,
    steps: multiset<ImageStep>,
    read: map<Workspace, seq<Record>>,
    shown: set<Path>,
    dropped: set<Path>
  )

  datatype Event =
    | StartRestore(workspace: Workspace, records: seq<Record>)
    | RestoreLands(workspace: Workspace, loaded: seq<bool>)
    | StartOpen(asked: OpenRead)
    | OpenFails(asked: OpenRead)
    | OpenLands(asked: OpenRead)
    | Close(paths: set<Path>)
    | StartStep(from: Path, to: Path)
    | StepFails(step: ImageStep)
    | StepLands(step: ImageStep)

  // ----- Lists of documents and records. -----

  function Paths(documents: seq<Document>): set<Path> {
    set d | d in documents :: d.path
  }

  /** selectRestorableDocuments: neither open already nor closed by the user. */
  function Admit(restored: seq<Document>, open: set<Path>, closed: set<Path>): (r: seq<Document>)
    ensures forall d :: d in r <==> d in restored && d.path !in open && d.path !in closed
  {
    if |restored| == 0 then []
    else
      var last := restored[|restored| - 1];
      var rest := Admit(restored[..|restored| - 1], open, closed);
      assert restored == restored[..|restored| - 1] + [last];
      if last.path !in open && last.path !in closed then rest + [last] else rest
  }

  function Without(documents: seq<Document>, paths: set<Path>): (r: seq<Document>)
    ensures forall d :: d in r <==> d in documents && d.path !in paths
  {
    if |documents| == 0 then []
    else
      var last := documents[|documents| - 1];
      var rest := Without(documents[..|documents| - 1], paths);
      assert documents == documents[..|documents| - 1] + [last];
      if last.path !in paths then rest + [last] else rest
  }

  function Remaining(records: seq<Record>, paths: set<Path>): (r: seq<Record>)
    ensures forall x :: x in r <==> x in records && x.path !in paths
  {
    if |records| == 0 then []
    else
      var last := records[|records| - 1];
      var rest := Remaining(records[..|records| - 1], paths);
      assert records == records[..|records| - 1] + [last];
      if last.path !in paths then rest + [last] else rest
  }

  /** forgetPendingRestore, for every workspace. */
  function Forget(pending: map<Workspace, seq<Record>>, paths: set<Path>): map<Workspace, seq<Record>> {
    map w | w in pending :: Remaining(pending[w], paths)
  }

  /** The documents of the records whose read succeeded, in order. */
  function Restored(records: seq<Record>, loaded: seq<bool>, w: Workspace): (r: seq<Document>)
    requires |loaded| == |records|
    ensures forall d :: d in r ==> exists x :: x in records && x.path == d.path
  {
    if |records| == 0 then []
    else
      var last := records[|records| - 1];
      var rest := Restored(records[..|records| - 1], loaded[..|records| - 1], w);
      assert records == records[..|records| - 1] + [last];
      if loaded[|records| - 1] then rest + [Document(last.path, last.tab, w)] else rest
  }

  /** Every document at one path becomes another. */
  function Replace(documents: seq<Document>, from: Path, other: Document): (r: seq<Document>)
    ensures |r| == |documents|
    ensures forall i :: 0 <= i < |r| ==> r[i] == if documents[i].path == from then other else documents[i]
  {
    seq(|documents|, i requires 0 <= i < |documents| => if documents[i].path == from then other else documents[i])
  }

  function First(documents: seq<Document>, path: Path): (d: Document)
    requires path in Paths(documents)
    ensures d in documents && d.path == path
  {
    if documents[0].path == path then documents[0]
    else
      assert documents == [documents[0]] + documents[1..];
      First(documents[1..], path)
  }

  // ----- What each event does. -----

  ghost predicate Possible(s: State, e: Event) {
    match e
    case StartRestore(w, _) => w !in s.pending
    case RestoreLands(w, loaded) => w in s.reading && |loaded| == |s.reading[w]|
    case StartOpen(_) => true
    case OpenFails(o) => o in s.opens
    case OpenLands(o) => o in s.opens
    case Close(_) => true
    case StartStep(_, _) => true
    case StepFails(step) => step in s.steps
    case StepLands(step) => step in s.steps
  }

  /** The records are held before the first read. */
  function Started(s: State, w: Workspace, records: seq<Record>): State {
    s.(pending := s.pending[w := records], read := s.read[w := records],
       reading := if |records| == 0 then s.reading else s.reading[w := records])
  }

  function Landed(s: State, w: Workspace, loaded: seq<bool>): State
    requires w in s.reading && |loaded| == |s.reading[w]|
  {
    var added := Admit(Restored(s.reading[w], loaded, w), Paths(s.documents), s.closed);
    s.(documents := s.documents + added, pending := Forget(s.pending, Paths(added)),
       shown := s.shown + Paths(added), reading := s.reading - {w})
  }

  /** addWindow. */
  function Added(s: State, path: Path, tab: Tab, w: Workspace): State {
    s.(documents := if path in Paths(s.documents) then s.documents else s.documents + [Document(path, tab, w)],
       pending := Forget(s.pending, {path}), closed := s.closed - {path}, shown := s.shown + {path})
  }

  function OpenLanded(s: State, o: OpenRead): State {
    Added(s, o.path, o.tab, o.workspace).(opens := s.opens - multiset{o})
  }

  function Closed(s: State, paths: set<Path>): State {
    s.(documents := Without(s.documents, paths), closed := s.closed + paths)
  }

  function StepStarted(s: State, from: Path, to: Path): State {
    if from == to || from !in Paths(s.documents) || to in Paths(s.documents) then s
    else
      var current := First(s.documents, from);
      s.(steps := s.steps + multiset{ImageStep(from, to, current.tab, current.workspace)})
  }

  function StepDocuments(documents: seq<Document>, step: ImageStep): seq<Document> {
    if step.to in Paths(documents) then documents
    else Replace(documents, step.from, Document(step.to, step.tab, step.workspace))
  }

  /** The landing forgets the pending record of `to` whether or not the tab that asked for it is still there. */
  function StepLanded(s: State, step: ImageStep): State {
    var open := Paths(s.documents);
    var shows := step.to in open || step.from in open;
    s.(documents := StepDocuments(s.documents, step),
       pending := Forget(s.pending, {step.to}),
       steps := s.steps - multiset{step},
       shown := if shows then s.shown + {step.to} else s.shown,
       dropped := if shows then s.dropped else s.dropped + {step.to})
  }

  function Next(s: State, e: Event): State
    requires Possible(s, e)
  {
    match e
    case StartRestore(w, records) => Started(s, w, records)
    case RestoreLands(w, loaded) => Landed(s, w, loaded)
    case StartOpen(o) => s.(opens := s.opens + multiset{o})
    case OpenFails(o) => s.(opens := s.opens - multiset{o})
    case OpenLands(o) => OpenLanded(s, o)
    case Close(paths) => Closed(s, paths)
    case StartStep(from, to) => StepStarted(s, from, to)
    case StepFails(step) => s.(steps := s.steps - multiset{step})
    case StepLands(step) => StepLanded(s, step)
  }

  function Empty(): State {
    State([], map[], {}, map[], multiset{}, multiset{}, map[], {}, {})
  }

  /** What can happen from the first state on. */
  ghost predicate IsPath(states: seq<State>, events: seq<Event>) {
    && |states| == |events| + 1
    && forall i :: 0 <= i < |events| ==> Possible(states[i], events[i]) && states[i + 1] == Next(states[i], events[i])
  }

  /** A whole page load. */
  ghost predicate IsRun(states: seq<State>, events: seq<Event>) {
    IsPath(states, events) && states[0] == Empty()
  }

  // ----- One document per path. -----

  ghost predicate Distinct(documents: seq<Document>) {
    forall i, j :: 0 <= i < j < |documents| ==> documents[i].path != documents[j].path
  }

  ghost predicate DistinctRecords(records: seq<Record>) {
    forall i, j :: 0 <= i < j < |records| ==> records[i].path != records[j].path
  }

  lemma DistinctConcat(a: seq<Document>, b: seq<Document>)
    requires Paths(a) !! Paths(b)
    ensures Distinct(a + b) <==> Distinct(a) && Distinct(b)
  {
    var c := a + b;
    if Distinct(c) {
      forall i, j | 0 <= i < j < |a|
        ensures a[i].path != a[j].path
      {
        assert c[i] == a[i] && c[j] == a[j];
      }
      forall i, j | 0 <= i < j < |b|
        ensures b[i].path != b[j].path
      {
        assert c[|a| + i] == b[i] && c[|a| + j] == b[j];
      }
    }
    if Distinct(a) && Distinct(b) {
      forall i, j | 0 <= i < j < |c|
        ensures c[i].path != c[j].path
      {
        if i < |a| <= j {
          assert a[i].path in Paths(a) && b[j - |a|].path in Paths(b);
        }
      }
    }
  }

  lemma {:induction false} AdmitKeepsDistinct(restored: seq<Document>, open: set<Path>, closed: set<Path>)
    requires Distinct(restored)
    ensures Distinct(Admit(restored, open, closed))
    decreases |restored|
  {
    if |restored| > 0 {
      var init, last := restored[..|restored| - 1], restored[|restored| - 1];
      AdmitKeepsDistinct(init, open, closed);
      assert forall d :: d in Admit(init, open, closed) ==> d in init && d.path != last.path;
    }
  }

  lemma {:induction false} RestoredDistinct(records: seq<Record>, loaded: seq<bool>, w: Workspace)
    requires |loaded| == |records| && DistinctRecords(records)
    ensures Distinct(Restored(records, loaded, w))
    decreases |records|
  {
    if |records| > 0 {
      var n := |records| - 1;
      RestoredDistinct(records[..n], loaded[..n], w);
      assert forall d :: d in Restored(records[..n], loaded[..n], w) ==> d.path != records[n].path;
    }
  }

  lemma {:induction false} WithoutKeepsDistinct(documents: seq<Document>, paths: set<Path>)
    requires Distinct(documents)
    ensures Distinct(Without(documents, paths))
    decreases |documents|
  {
    if |documents| > 0 {
      var init, last := documents[..|documents| - 1], documents[|documents| - 1];
      WithoutKeepsDistinct(init, paths);
      assert forall d :: d in Without(init, paths) ==> d in init && d.path != last.path;
    }
  }

  /** A landing batch keeps one document per path exactly when the documents it admits have different paths. */
  lemma LandingKeepsDistinct(s: State, w: Workspace, loaded: seq<bool>)
    requires w in s.reading && |loaded| == |s.reading[w]| && Distinct(s.documents)
    ensures Distinct(Landed(s, w, loaded).documents)
            <==> Distinct(Admit(Restored(s.reading[w], loaded, w), Paths(s.documents), s.closed))
  {
    DistinctConcat(s.documents, Admit(Restored(s.reading[w], loaded, w), Paths(s.documents), s.closed));
  }

  /** The batches in flight name every path once. */
  ghost predicate CleanBatches(s: State) {
    forall w :: w in s.reading ==> DistinctRecords(s.reading[w])
  }

  ghost predicate CleanStart(e: Event) {
    e.StartRestore? ==> DistinctRecords(e.records)
  }

  lemma EventKeepsDistinct(s: State, e: Event)
    requires Possible(s, e) && CleanStart(e) && Distinct(s.documents) && CleanBatches(s)
    ensures Distinct(Next(s, e).documents) && CleanBatches(Next(s, e))
  {
    match e {
      case RestoreLands(w, loaded) =>
        RestoredDistinct(s.reading[w], loaded, w);
        AdmitKeepsDistinct(Restored(s.reading[w], loaded, w), Paths(s.documents), s.closed);
        LandingKeepsDistinct(s, w, loaded);
      case OpenLands(o) =>
        if o.path !in Paths(s.documents) {
          DistinctConcat(s.documents, [Document(o.path, o.tab, o.workspace)]);
        }
      case Close(paths) => WithoutKeepsDistinct(s.documents, paths);
      case StepLands(step) =>
        assert step.to !in Paths(s.documents) ==> forall d :: d in s.documents ==> d.path != step.to;
      case _ =>
    }
  }

  /** As long as every store that is read names each path once, no path ever has two documents. */
  lemma {:induction false} OneDocumentPerPath(states: seq<State>, events: seq<Event>, i: nat)
    requires IsRun(states, events) && i < |states| && (forall e :: e in events ==> CleanStart(e))
    ensures Distinct(states[i].documents) && CleanBatches(states[i])
    decreases i
  {
    if i > 0 {
      OneDocumentPerPath(states, events, i - 1);
      assert events[i - 1] in events;
      EventKeepsDistinct(states[i - 1], events[i - 1]);
    }
  }

  // ----- What saving writes. -----

  function Own(documents: seq<Document>, w: Workspace): (r: seq<Record>)
    ensures forall x :: x in r <==> exists d :: d in documents && d.workspace == w && x == Record(d.tab, d.path)
  {
    if |documents| == 0 then []
    else
      var last := documents[|documents| - 1];
      var rest := Own(documents[..|documents| - 1], w);
      assert documents == documents[..|documents| - 1] + [last];
      if last.workspace == w then rest + [Record(last.tab, last.path)] else rest
  }

  function RecordPaths(records: seq<Record>): set<Path> {
    set x | x in records :: x.path
  }

  /** The records of a save: the workspace's documents, and its pending records that no document of it covers. */
  function Saved(s: State, w: Workspace): seq<Record>
    requires w in s.pending
  {
    var own := Own(s.documents, w);
    own + Remaining(s.pending[w], RecordPaths(own))
  }

  /** A pending record's path is in every save. */
  lemma PendingIsSaved(s: State, w: Workspace, x: Record)
    requires w in s.pending && x in s.pending[w]
    ensures x in Saved(s, w) || exists y :: y in Own(s.documents, w) && y in Saved(s, w) && y.path == x.path
  {
  }

  /** Every record a workspace has read is still pending, unless its path has had a document or an image step has
      dropped it. */
  ghost predicate Carried(s: State) {
    && s.read.Keys == s.pending.Keys
    && forall w, x :: w in s.read && x in s.read[w] ==> x in s.pending[w] || x.path in s.shown || x.path in s.dropped
  }

  lemma EventKeepsCarried(s: State, e: Event)
    requires Possible(s, e) && Carried(s)
    ensures Carried(Next(s, e))
  {
  }

  /** The history says what happened: a path counts as shown only once it is open, and as dropped only when an image
      step landed on it with neither of its paths open. */
  lemma HistoryIsHonest(s: State, e: Event, p: Path)
    requires Possible(s, e)
    ensures p in Next(s, e).shown && p !in s.shown ==> p in Paths(Next(s, e).documents)
    ensures p in Next(s, e).dropped && p !in s.dropped <==>
              && p !in s.dropped && e.StepLands? && p == e.step.to
              && e.step.to !in Paths(s.documents) && e.step.from !in Paths(s.documents)
  {
    match e {
      case RestoreLands(w, loaded) =>
        PathsOfBoth(s.documents, Admit(Restored(s.reading[w], loaded, w), Paths(s.documents), s.closed));
      case OpenLands(o) => OpenShows(s, o);
      case StepLands(step) =>
        if step.from in Paths(s.documents) {
          StepShows(s, step);
        }
      case _ =>
    }
  }

  lemma OpenShows(s: State, o: OpenRead)
    ensures Paths(OpenLanded(s, o).documents) == Paths(s.documents) + {o.path}
  {
    PathsOfBoth(s.documents, [Document(o.path, o.tab, o.workspace)]);
  }

  lemma StepShows(s: State, step: ImageStep)
    requires step.from in Paths(s.documents)
    ensures step.to in Paths(StepLanded(s, step).documents)
  {
    var i :| 0 <= i < |s.documents| && s.documents[i].path == step.from;
    var replaced := Replace(s.documents, step.from, Document(step.to, step.tab, step.workspace));
    assert replaced[i] in replaced;
  }

  lemma PathsOfBoth(a: seq<Document>, b: seq<Document>)
    ensures Paths(a + b) == Paths(a) + Paths(b)
  {
  }

  /** In every run, every save of a workspace rewrites each record it read until the record's path is opened, with
      one exception: paths an image step dropped. */
  lemma {:induction false} RecordsAreRewritten(states: seq<State>, events: seq<Event>, i: nat)
    requires IsRun(states, events) && i < |states|
    ensures Carried(states[i])
    ensures forall w, x :: w in states[i].read && x in states[i].read[w] ==>
                             || x.path in states[i].shown || x.path in states[i].dropped
                             || (w in states[i].pending && x.path in RecordPaths(Saved(states[i], w)))
    decreases i
  {
    if i > 0 {
      RecordsAreRewritten(states, events, i - 1);
      EventKeepsCarried(states[i - 1], events[i - 1]);
    }
    var s := states[i];
    forall w, x | w in s.read && x in s.read[w] && x in s.pending[w]
      ensures x.path in RecordPaths(Saved(s, w))
    {
      PendingIsSaved(s, w, x);
    }
  }

  /** When an image step loses a record: in every run, a landing step leaves a pending record of its path neither
      pending nor open exactly when neither of its two paths is open any more. */
  lemma StepDropsRecord(states: seq<State>, events: seq<Event>, k: nat, w: Workspace, x: Record)
    requires IsRun(states, events) && k < |events| && events[k].StepLands?
    requires w in states[k].pending && x in states[k].pending[w] && x.path == events[k].step.to
    ensures w in states[k + 1].pending
    ensures
      var open := Paths(states[k].documents);
      (x !in states[k + 1].pending[w] && x.path !in Paths(states[k + 1].documents))
      <==> events[k].step.from !in open && events[k].step.to !in open
  {
    assert Possible(states[k], events[k]) && states[k + 1] == StepLanded(states[k], events[k].step);
    if events[k].step.from in Paths(states[k].documents) {
      StepShows(states[k], events[k].step);
    }
  }

  /** What a save writes names every path once, so a store this code has written reads back clean. */
  lemma SavedIsDistinct(s: State, w: Workspace)
    requires w in s.pending && Distinct(s.documents) && DistinctRecords(s.pending[w])
    ensures DistinctRecords(Saved(s, w))
  {
    var own := Own(s.documents, w);
    OwnDistinct(s.documents, w);
    RemainingDistinct(s.pending[w], RecordPaths(own));
    var rest := Remaining(s.pending[w], RecordPaths(own));
    forall i, j | 0 <= i < j < |own + rest|
      ensures (own + rest)[i].path != (own + rest)[j].path
    {
      if i < |own| <= j {
        assert own[i] in own && rest[j - |own|] in rest;
      }
    }
  }

  lemma {:induction false} OwnDistinct(documents: seq<Document>, w: Workspace)
    requires Distinct(documents)
    ensures DistinctRecords(Own(documents, w))
    decreases |documents|
  {
    if |documents| > 0 {
      var init, last := documents[..|documents| - 1], documents[|documents| - 1];
      OwnDistinct(init, w);
      assert forall x :: x in Own(init, w) ==> x.path != last.path;
    }
  }

  lemma {:induction false} RemainingDistinct(records: seq<Record>, paths: set<Path>)
    requires DistinctRecords(records)
    ensures DistinctRecords(Remaining(records, paths))
    decreases |records|
  {
    if |records| > 0 {
      var init, last := records[..|records| - 1], records[|records| - 1];
      RemainingDistinct(init, paths);
      assert forall x :: x in Remaining(init, paths) ==> x in init && x.path != last.path;
    }
  }

  // ----- A closed document stays closed, unless it was already on its way. -----

  /** The events by which the user asks for a path. */
  ghost predicate Asks(e: Event, p: Path) {
    (e.StartOpen? && e.asked.path == p) || (e.StartStep? && e.to == p)
  }

  ghost predicate Unasked(events: seq<Event>, p: Path) {
    forall e :: e in events ==> !Asks(e, p)
  }

  /** A read in flight is to show the path. */
  ghost predicate Heading(s: State, p: Path) {
    (exists o :: o in s.opens && o.path == p) || (exists step :: step in s.steps && step.to == p)
  }

  /** Closed by the user, and nothing in flight is to show it. */
  ghost predicate Gone(s: State, p: Path) {
    p in s.closed && p !in Paths(s.documents) && !Heading(s, p)
  }

  lemma EventStartsNothing(s: State, e: Event, p: Path)
    requires Possible(s, e) && !Asks(e, p) && Heading(Next(s, e), p)
    ensures Heading(s, p)
  {
    if o :| o in Next(s, e).opens && o.path == p {
      assert o in s.opens;
    } else {
      var step :| step in Next(s, e).steps && step.to == p;
      assert step in s.steps;
    }
  }

  lemma EventShowsNothing(s: State, e: Event, p: Path)
    requires Possible(s, e) && p in s.closed && p !in Paths(s.documents) && !Heading(s, p)
    ensures p in Next(s, e).closed && p !in Paths(Next(s, e).documents)
  {
    match e {
      case OpenLands(o) => OpenShows(s, o);
      case RestoreLands(w, loaded) =>
        PathsOfBoth(s.documents, Admit(Restored(s.reading[w], loaded, w), Paths(s.documents), s.closed));
      case StepLands(step) =>
        assert step.to != p;
        StepShowsNothing(s, step, p);
      case _ =>
    }
  }

  lemma StepShowsNothing(s: State, step: ImageStep, p: Path)
    requires step.to != p && p !in Paths(s.documents)
    ensures p !in Paths(StepLanded(s, step).documents)
  {
  }

  lemma EventKeepsGone(s: State, e: Event, p: Path)
    requires Possible(s, e) && !Asks(e, p) && Gone(s, p)
    ensures Gone(Next(s, e), p)
  {
    EventShowsNothing(s, e, p);
    if Heading(Next(s, e), p) {
      EventStartsNothing(s, e, p);
    }
  }

  /** A path that is gone stays gone until the user asks for it again, whatever stored records and other reads land
      meanwhile. */
  lemma {:induction false} GoneStaysGone(states: seq<State>, events: seq<Event>, p: Path, i: nat)
    requires IsPath(states, events) && i < |states|
    requires Gone(states[0], p) && Unasked(events, p)
    ensures Gone(states[i], p)
    decreases i
  {
    if i > 0 {
      GoneStaysGone(states, events, p, i - 1);
      assert events[i - 1] in events;
      EventKeepsGone(states[i - 1], events[i - 1], p);
    }
  }

  lemma ClosingCloses(s: State, paths: set<Path>, p: Path)
    requires p in paths
    ensures p in Closed(s, paths).closed && p !in Paths(Closed(s, paths).documents)
    ensures Heading(Closed(s, paths), p) <==> Heading(s, p)
  {
  }

  /** What is open on a path at the end of one way to continue, along which the user does not ask for it. */
  ghost predicate ComesBack(s: State, p: Path, states: seq<State>, events: seq<Event>) {
    && IsPath(states, events) && states[0] == s && Unasked(events, p)
    && p in Paths(states[|events|].documents)
  }

  /** An image step never goes from a path to itself. */
  ghost predicate StepsMove(s: State) {
    forall step :: step in s.steps ==> step.from != step.to
  }

  lemma EventKeepsStepsMove(s: State, e: Event)
    requires Possible(s, e) && StepsMove(s)
    ensures StepsMove(Next(s, e))
  {
  }

  lemma {:induction false} RunStepsMove(states: seq<State>, events: seq<Event>, i: nat)
    requires IsRun(states, events) && i < |states|
    ensures StepsMove(states[i])
    decreases i
  {
    if i > 0 {
      RunStepsMove(states, events, i - 1);
      EventKeepsStepsMove(states[i - 1], events[i - 1]);
    }
  }

  /** A landing open deletes the path from the closed ones; it does not ask whether it was closed after the open
      began. */
  lemma OpenInFlightReopens(s: State, o: OpenRead)
    requires o in s.opens
    ensures ComesBack(s, o.path, [s, OpenLanded(s, o)], [OpenLands(o)])
    ensures o.path !in OpenLanded(s, o).closed
  {
    OpenShows(s, o);
  }

  /** A landing step does not look at the closed paths at all. */
  lemma StepInFlightReopens(s: State, step: ImageStep)
    requires step in s.steps && step.from in Paths(s.documents)
    ensures ComesBack(s, step.to, [s, StepLanded(s, step)], [StepLands(step)])
    ensures StepLanded(s, step).closed == s.closed
  {
    StepShows(s, step);
  }

  /** If the tab it came from is gone as well, opening that document again is enough. */
  lemma StepInFlightReopensLater(s: State, step: ImageStep) returns (states: seq<State>, events: seq<Event>)
    requires step in s.steps && step.from != step.to
    ensures ComesBack(s, step.to, states, events)
  {
    var o := OpenRead(step.from, 0, "");
    var asked := Next(s, StartOpen(o));
    var landed := Next(asked, OpenLands(o));
    OpenShows(asked, o);
    StepInFlightReopens(landed, step);
    states := [s, asked, landed, StepLanded(landed, step)];
    events := [StartOpen(o), OpenLands(o), StepLands(step)];
  }

  lemma HeadingComesBack(s: State, p: Path) returns (states: seq<State>, events: seq<Event>)
    requires Heading(s, p) && StepsMove(s)
    ensures ComesBack(s, p, states, events)
  {
    if o :| o in s.opens && o.path == p {
      OpenInFlightReopens(s, o);
      states, events := [s, OpenLanded(s, o)], [OpenLands(o)];
    } else {
      var step :| step in s.steps && step.to == p;
      states, events := StepInFlightReopensLater(s, step);
    }
  }

  /** Closing a path keeps it closed, however the run goes on without the user asking for it again, exactly when no
      read that is to show it was in flight at the close. */
  lemma CloseIsFinal(states: seq<State>, events: seq<Event>, paths: set<Path>, p: Path)
    requires IsRun(states, events) && p in paths
    ensures
      var s := states[|events|];
      (exists later, more :: ComesBack(Closed(s, paths), p, later, more)) <==> Heading(s, p)
  {
    var s := states[|events|];
    var closed := Closed(s, paths);
    ClosingCloses(s, paths, p);
    RunStepsMove(states, events, |events|);
    if Heading(s, p) {
      var later, more := HeadingComesBack(closed, p);
    }
    if later, more :| ComesBack(closed, p, later, more) {
      if !Heading(s, p) {
        GoneStaysGone(later, more, p, |more|);
        assert false;
      }
    }
  }

  lemma PathExtends(states: seq<State>, events: seq<Event>, e: Event)
    requires IsPath(states, events) && Possible(states[|events|], e)
    ensures IsPath(states + [Next(states[|events|], e)], events + [e])
  {
  }

  /** A document opened while none is, and an image step from it in flight. */
  lemma StepAsked(states: seq<State>, events: seq<Event>, a: OpenRead, to: Path)
    returns (later: seq<State>, more: seq<Event>)
    requires IsPath(states, events) && states[|events|].documents == [] && a.path != to
    ensures IsPath(later, more) && later[0] == states[0]
    ensures more == events + [StartOpen(a)] + [OpenLands(a)] + [StartStep(a.path, to)]
    ensures
      var before, after := states[|events|], later[|more|];
      && after.documents == [Document(a.path, a.tab, a.workspace)]
      && ImageStep(a.path, to, a.tab, a.workspace) in after.steps
      && after.pending == Forget(before.pending, {a.path}) && after.read == before.read
      && after.shown == before.shown + {a.path}
  {
    var asked := Next(states[|events|], StartOpen(a));
    var landed := Next(asked, OpenLands(a));
    assert landed.documents == [Document(a.path, a.tab, a.workspace)];
    assert landed.documents[0].path in Paths(landed.documents);
    PathExtends(states, events, StartOpen(a));
    PathExtends(states + [asked], events + [StartOpen(a)], OpenLands(a));
    later, more := states + [asked] + [landed], events + [StartOpen(a)] + [OpenLands(a)];
    PathExtends(later, more, StartStep(a.path, to));
    later, more := later + [Next(landed, StartStep(a.path, to))], more + [StartStep(a.path, to)];
  }

  lemma NothingYet() returns (states: seq<State>, events: seq<Event>)
    ensures IsRun(states, events) && events == [] && states[0] == Empty()
  {
    states, events := [Empty()], [];
  }

  /** A document opened and closed again while other things are in flight. */
  lemma OpenedAndClosed(states: seq<State>, events: seq<Event>, b: OpenRead)
      returns (later: seq<State>, more: seq<Event>)
    requires IsPath(states, events)
    ensures IsPath(later, more) && later[0] == states[0]
    ensures more == events + [StartOpen(b)] + [OpenLands(b)] + [Close({b.path})]
    ensures
      var before, after := states[|events|], later[|more|];
      && after.steps == before.steps && after.opens == before.opens && b.path !in Paths(after.documents)
      && forall d :: d in before.documents && d.path != b.path ==> d in after.documents
  {
    var s0 := states[|events|];
    var s1 := Next(s0, StartOpen(b));
    var s2 := Next(s1, OpenLands(b));
    var s3 := Next(s2, Close({b.path}));
    PathExtends(states, events, StartOpen(b));
    PathExtends(states + [s1], events + [StartOpen(b)], OpenLands(b));
    PathExtends(states + [s1] + [s2], events + [StartOpen(b)] + [OpenLands(b)], Close({b.path}));
    later := states + [s1] + [s2] + [s3];
    more := events + [StartOpen(b)] + [OpenLands(b)] + [Close({b.path})];
  }

  /** A run in which a closed document comes back: the image step is asked for, its target is opened by hand and closed,
      and the step lands. */
  lemma ClosedImageComesBack(a: OpenRead, b: OpenRead) returns (states: seq<State>, events: seq<Event>)
    requires a.path != b.path
    ensures IsRun(states, events)
    ensures
      var step := ImageStep(a.path, b.path, a.tab, a.workspace);
      events == [StartOpen(a), OpenLands(a), StartStep(a.path, b.path), StartOpen(b), OpenLands(b), Close({b.path}),
                 StepLands(step)]
    ensures b.path !in Paths(states[6].documents) && b.path in Paths(states[7].documents)
  {
    var step := ImageStep(a.path, b.path, a.tab, a.workspace);
    var d := Document(a.path, a.tab, a.workspace);
    var states0, events0 := NothingYet();
    var states3, events3 := StepAsked(states0, events0, a, b.path);
    var states6, events6 := OpenedAndClosed(states3, events3, b);
    assert d.path in Paths(states6[6].documents);
    StepShows(states6[6], step);
    PathExtends(states6, events6, StepLands(step));
    states, events := states6 + [Next(states6[6], StepLands(step))], events6 + [StepLands(step)];
  }

  /** A restore whose only read fails: its record stays pending. */
  lemma RestoreFailed(w: Workspace, x: Record) returns (states: seq<State>, events: seq<Event>)
    ensures IsRun(states, events) && events == [StartRestore(w, [x]), RestoreLands(w, [false])]
    ensures
      var s := states[2];
      s.documents == [] && w in s.pending && x in s.pending[w] && w in s.read && x in s.read[w] && s.shown == {}
  {
    var started := Next(Empty(), StartRestore(w, [x]));
    var landed := Next(started, RestoreLands(w, [false]));
    assert Restored([x], [false], w) == [];
    assert Admit([], Paths(started.documents), started.closed) == [];
    states := [Empty(), started, landed];
    events := [StartRestore(w, [x]), RestoreLands(w, [false])];
  }

  lemma OnlyOneCloses(d: Document)
    ensures Without([d], {d.path}) == []
  {
    assert [d][..0] == [];
  }

  /** The run up to the landing. */
  lemma StepMayLoseRecord(w: Workspace, x: Record, a: OpenRead) returns (states: seq<State>, events: seq<Event>)
    requires a.path != x.path
    ensures IsRun(states, events)
    ensures events == [StartRestore(w, [x]), RestoreLands(w, [false]), StartOpen(a), OpenLands(a),
                       StartStep(a.path, x.path), Close({a.path})]
    ensures
      var s := states[6];
      && s.documents == [] && ImageStep(a.path, x.path, a.tab, a.workspace) in s.steps
      && w in s.pending && x in s.pending[w] && w in s.read && x in s.read[w] && x.path !in s.shown
  {
    var states2, events2 := RestoreFailed(w, x);
    var states5, events5 := StepAsked(states2, events2, a, x.path);
    OnlyOneCloses(Document(a.path, a.tab, a.workspace));
    PathExtends(states5, events5, Close({a.path}));
    states, events := states5 + [Next(states5[5], Close({a.path}))], events5 + [Close({a.path})];
  }

  /** A run in which a record is lost: its read fails, so every save carries it; an image step to its path is asked
      for, the tab that asked is closed, and the step lands. The path was never on screen, and no save names it. */
  lemma StepLosesRecord(w: Workspace, x: Record, a: OpenRead) returns (states: seq<State>, events: seq<Event>)
    requires a.path != x.path
    ensures IsRun(states, events)
    ensures events == [StartRestore(w, [x]), RestoreLands(w, [false]), StartOpen(a), OpenLands(a),
                       StartStep(a.path, x.path), Close({a.path}),
                       StepLands(ImageStep(a.path, x.path, a.tab, a.workspace))]
    ensures w in states[6].pending && x.path in RecordPaths(Saved(states[6], w))
    ensures
      var end := states[7];
      && w in end.read && x in end.read[w] && x.path !in end.shown
      && w in end.pending && x.path !in RecordPaths(Saved(end, w))
  {
    var step := ImageStep(a.path, x.path, a.tab, a.workspace);
    var states6, events6 := StepMayLoseRecord(w, x, a);
    PendingIsSaved(states6[6], w, x);
    StepForgets(states6[6], step, w);
    PathExtends(states6, events6, StepLands(step));
    states, events := states6 + [Next(states6[6], StepLands(step))], events6 + [StepLands(step)];
  }

  lemma StepForgets(s: State, step: ImageStep, w: Workspace)
    requires s.documents == [] && w in s.pending
    ensures
      var n := StepLanded(s, step);
      w in n.pending && step.to !in RecordPaths(Saved(n, w)) && n.shown == s.shown && n.read == s.read
  {
    assert StepLanded(s, step).documents == [];
  }

  lemma OpenAsked(o: OpenRead) returns (states: seq<State>, events: seq<Event>)
    ensures IsRun(states, events) && events == [StartOpen(o)] && o in states[1].opens
  {
    states, events := [Empty(), Next(Empty(), StartOpen(o))], [StartOpen(o)];
  }

  /** Another: a document is asked for twice, and closed between the two answers. */
  lemma SecondReadReopens(o: OpenRead) returns (states: seq<State>, events: seq<Event>)
    ensures IsRun(states, events)
    ensures events == [StartOpen(o), StartOpen(o), OpenLands(o), Close({o.path}), OpenLands(o)]
    ensures o.path !in Paths(states[4].documents) && o.path in Paths(states[5].documents)
  {
    var states1, events1 := OpenAsked(o);
    var states4, events4 := OpenedAndClosed(states1, events1, o);
    OpenShows(states4[4], o);
    PathExtends(states4, events4, OpenLands(o));
    states, events := states4 + [Next(states4[4], OpenLands(o))], events4 + [OpenLands(o)];
  }

  /** A store that names a path twice puts it on screen twice. */
  lemma TwoRecordsTwoDocuments(s: State, w: Workspace, p: Path, a: Tab, b: Tab)
    requires w in s.reading && s.reading[w] == [Record(a, p), Record(b, p)]
    requires p !in Paths(s.documents) && p !in s.closed
    ensures Landed(s, w, [true, true]).documents == s.documents + [Document(p, a, w), Document(p, b, w)]
    ensures !Distinct(Landed(s, w, [true, true]).documents)
  {
    TwoRestored(a, b, p, w);
    var both := [Document(p, a, w), Document(p, b, w)];
    TwoAdmitted(both, Paths(s.documents), s.closed);
    var n := s.documents + both;
    assert n[|s.documents|].path == n[|s.documents| + 1].path;
  }

  /** The run: a first visit to a workspace whose store does so, and both reads succeed. */
  lemma StoredTwiceOpensTwice(w: Workspace, p: Path, a: Tab, b: Tab) returns (states: seq<State>, events: seq<Event>)
    ensures IsRun(states, events)
    ensures events == [StartRestore(w, [Record(a, p), Record(b, p)]), RestoreLands(w, [true, true])]
    ensures states[2].documents == [Document(p, a, w), Document(p, b, w)]
  {
    var records := [Record(a, p), Record(b, p)];
    var started := Next(Empty(), StartRestore(w, records));
    TwoRecordsTwoDocuments(started, w, p, a, b);
    states := [Empty(), started, Landed(started, w, [true, true])];
    events := [StartRestore(w, records), RestoreLands(w, [true, true])];
  }

  lemma TwoRestored(a: Tab, b: Tab, p: Path, w: Workspace)
    ensures Restored([Record(a, p), Record(b, p)], [true, true], w) == [Document(p, a, w), Document(p, b, w)]
  {
    var records := [Record(a, p), Record(b, p)];
    assert records[..1] == [Record(a, p)] && [true, true][..1] == [true];
    assert Restored([Record(a, p)], [true], w) == [Document(p, a, w)];
  }

  lemma TwoAdmitted(both: seq<Document>, open: set<Path>, closed: set<Path>)
    requires |both| == 2 && forall d :: d in both ==> d.path !in open && d.path !in closed
    ensures Admit(both, open, closed) == both
  {
    assert both[0] in both && both[1] in both;
    assert Admit(both[..1], open, closed) == [both[0]];
  }
}
