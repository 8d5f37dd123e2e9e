/** Which paths are open, closed and waiting, told from the events of a page alone, as sets; the documents, records and
    reads in flight of EditorRestore are proved to be exactly what is told. */
module EditorStory {
  import opened EditorRestore

  /** `waiting` are the paths each workspace still holds a record of, `stores` those being read, `opens` the
      documents asked for by hand. */
  datatype Story = Story(
    open: set<Path>,
    closed: set<Path>,
    waiting: map<Workspace, set<Path>>,
    stores: map<Workspace, seq<Record>>,
    opens: multiset<OpenRead>)

  function RecordPaths(records: seq<Record>): set<Path> {
    set x | x in records :: x.path
  }

  /** The paths whose read succeeded. */
  function Loaded(records: seq<Record>, loaded: seq<bool>): set<Path>
    requires |loaded| == |records|
  {
    set i | 0 <= i < |records| && loaded[i] :: records[i].path
  }

  function Without(waiting: map<Workspace, set<Path>>, paths: set<Path>): map<Workspace, set<Path>> {
    map w | w in waiting :: waiting[w] - paths
  }

  /** A restore shows what it could read, unless the user has closed it; a document asked for by hand is shown, and no
      longer counts as closed; a close hides its paths; an image step moves its tab to the new path if that is not open
      and the tab is still there. What is shown by hand, restored or stepped to is not waited for any more. */
  function Told(t: Story, e: Event): Story {
    match e
    case StartRestore(w, records) =>
      t.(waiting := t.waiting[w := RecordPaths(records)],
         stores := if records == [] then t.stores else t.stores[w := records])
    case RestoreLands(w, loaded) =>
      if w !in t.stores || |loaded| != |t.stores[w]| then t
      else
        var arrived := Loaded(t.stores[w], loaded) - t.open - t.closed;
        t.(open := t.open + arrived, waiting := Without(t.waiting, arrived), stores := t.stores - {w})
    case StartOpen(o) => t.(opens := t.opens + multiset{o})
    case OpenFails(o) => t.(opens := t.opens - multiset{o})
    case OpenLands(o) =>
      t.(open := t.open + {o.path}, closed := t.closed - {o.path}, waiting := Without(t.waiting, {o.path}),
         opens := t.opens - multiset{o})
    case Close(paths) => t.(open := t.open - paths, closed := t.closed + paths)
    case StepLands(step) =>
      t.(open := if step.to in t.open || step.from !in t.open then t.open else t.open - {step.from} + {step.to},
         waiting := Without(t.waiting, {step.to}))
    case _ => t
  }

  function StoryOf(events: seq<Event>): Story {
    if events == [] then Story({}, {}, map[], map[], multiset{})
    else Told(StoryOf(events[..|events| - 1]), events[|events| - 1])
  }

  ghost predicate Tells(t: Story, s: State) {
    && t.open == Paths(s.documents) && t.closed == s.closed
    && t.waiting.Keys == s.pending.Keys && (forall w :: w in s.pending ==> t.waiting[w] == RecordPaths(s.pending[w]))
    && t.stores == s.reading && t.opens == s.opens
  }

  // ----- The lists and their sets. -----

  lemma {:induction false} RestoredPaths(records: seq<Record>, loaded: seq<bool>, w: Workspace)
    requires |loaded| == |records|
    ensures Paths(Restored(records, loaded, w)) == Loaded(records, loaded)
    decreases |records|
  {
    if |records| > 0 {
      var n := |records| - 1;
      RestoredPaths(records[..n], loaded[..n], w);
      var last := Document(records[n].path, records[n].tab, w);
      LoadedNext(records, loaded);
    }
  }

  lemma LoadedNext(records: seq<Record>, loaded: seq<bool>)
    requires 0 < |records| == |loaded|
    ensures var n := |records| - 1;
            Loaded(records, loaded)
            == Loaded(records[..n], loaded[..n]) + if loaded[n] then {records[n].path} else {}
  {
    var n := |records| - 1;
    forall p | p in Loaded(records[..n], loaded[..n])
      ensures p in Loaded(records, loaded)
    {
      var i :| 0 <= i < n && loaded[..n][i] && records[..n][i].path == p;
      assert loaded[i] && records[i].path == p;
    }
    forall p | p in Loaded(records, loaded)
      ensures p in Loaded(records[..n], loaded[..n]) || (loaded[n] && p == records[n].path)
    {
      var i :| 0 <= i < |records| && loaded[i] && records[i].path == p;
      assert i < n ==> loaded[..n][i] && records[..n][i].path == p;
    }
  }

  lemma PathsOfBoth(a: seq<Document>, b: seq<Document>)
    ensures Paths(a + b) == Paths(a) + Paths(b)
  {
  }

  lemma SteppedPaths(documents: seq<Document>, step: ImageStep)
    requires step.from != step.to
    ensures Paths(StepDocuments(documents, step))
         == if step.to in Paths(documents) || step.from !in Paths(documents) then Paths(documents)
            else Paths(documents) - {step.from} + {step.to}
  {
    var r, open := StepDocuments(documents, step), Paths(documents);
    if step.to !in open {
      forall p
        ensures p in Paths(r) <==> if step.from in open then p in open - {step.from} + {step.to} else p in open
      {
        if p in open && p != step.from {
          var i :| 0 <= i < |documents| && documents[i].path == p;
          assert r[i] == documents[i];
        }
        if step.from in open && p == step.to {
          var i :| 0 <= i < |documents| && documents[i].path == step.from;
          assert r[i].path == step.to;
        }
      }
    }
  }

  // ----- Every event. -----

  lemma LandingTells(t: Story, s: State, w: Workspace, loaded: seq<bool>)
    requires Tells(t, s) && w in s.reading && |loaded| == |s.reading[w]|
    ensures Tells(Told(t, RestoreLands(w, loaded)), Landed(s, w, loaded))
  {
    var restored := Restored(s.reading[w], loaded, w);
    RestoredPaths(s.reading[w], loaded, w);

    PathsOfBoth(s.documents, Admit(restored, Paths(s.documents), s.closed));
  }

  lemma OpeningTells(t: Story, s: State, o: OpenRead)
    requires Tells(t, s)
    ensures Tells(Told(t, OpenLands(o)), OpenLanded(s, o))
  {
  }

  lemma EventTells(t: Story, s: State, e: Event)
    requires Tells(t, s) && Possible(s, e) && StepsMove(s)
    ensures Tells(Told(t, e), Next(s, e))
  {
    match e {
      case StartRestore(w, records) =>
      case RestoreLands(w, loaded) => LandingTells(t, s, w, loaded);
      case OpenLands(o) => OpeningTells(t, s, o);
      case Close(paths) =>
      case StepLands(step) =>
      case _ =>
    }
  }

  /** The image steps in flight: those asked for from an open tab to a path that is not open, without those that
      ended. */
  ghost function StepsOf(states: seq<State>, events: seq<Event>, i: nat): multiset<ImageStep>
    requires |states| == |events| + 1 && i <= |events|
  {
    if i == 0 then multiset{}
    else
      var before, s := StepsOf(states, events, i - 1), states[i - 1];
      match events[i - 1]
      case StartStep(from, to) =>
        if from != to && from in Paths(s.documents) && to !in Paths(s.documents) then
          before + multiset{ImageStep(from, to, First(s.documents, from).tab, First(s.documents, from).workspace)}
        else before
      case StepFails(step) => before - multiset{step}
      case StepLands(step) => before - multiset{step}
      case _ => before
  }

  lemma {:induction false} RunTells(states: seq<State>, events: seq<Event>, i: nat)
    requires IsRun(states, events) && i < |states|
    ensures Tells(StoryOf(events[..i]), states[i])
    ensures states[i].steps == StepsOf(states, events, i)
    decreases i
  {
    if i > 0 {
      RunTells(states, events, i - 1);
      assert events[..i][..i - 1] == events[..i - 1];
      RunStepsMove(states, events, i - 1);
      EventTells(StoryOf(events[..i - 1]), states[i - 1], events[i - 1]);
    }
  }

  /** In every run from an empty page: the open documents, the closed paths, the paths each workspace still waits for,
      the stores being read and the opens and steps in flight are exactly those its events tell. */
  lemma PageIsAsTold(states: seq<State>, events: seq<Event>, i: nat)
    requires IsRun(states, events) && i < |states|
    ensures
      var s, t := states[i], StoryOf(events[..i]);
      && Paths(s.documents) == t.open && s.closed == t.closed
      && s.pending.Keys == t.waiting.Keys
      && (forall w :: w in s.pending ==> RecordPaths(s.pending[w]) == t.waiting[w])
      && s.reading == t.stores && s.opens == t.opens && s.steps == StepsOf(states, events, i)
  {
    RunTells(states, events, i);
  }
}
