/** The document half of the useEditorWindows hook as the object it is: state and refs that its callbacks change. */
module EditorWindows {
  import opened Wrappers
  import opened EditorRestore

  /** What loadDocument answers. */
  datatype Outcome = Loaded | Missing | Failed

  class Hook {
    var documents: seq<Document>
    var pendingRestore: map<Workspace, seq<Record>>
    var closedByUser: set<Path>
    var restoreStarted: set<Workspace>
    var createPrompt: Option<OpenRead>
    var openError: bool
    ghost var opens: multiset<OpenRead>
    ghost var reading: map<Workspace, seq<Record>>
    ghost var steps: multiset<ImageStep>
    ghost var read: map<Workspace, seq<Record>>
    ghost var shown: set<Path>
    ghost var dropped: set<Path>

    ghost function Now(): State
      reads this
    {
      State(documents, pendingRestore, closedByUser, reading, opens, steps, read, shown, dropped)
    }

    constructor ()
      ensures Now() == Empty() && restoreStarted == {}
    {
      documents, pendingRestore, closedByUser, restoreStarted := [], map[], {}, {};
      createPrompt, openError := None, false;
      reading, opens, steps, read, shown, dropped := map[], multiset{}, multiset{}, map[], {}, {};
    }

    method ForgetPendingRestore(path: Path)
      modifies this`pendingRestore
      ensures pendingRestore == Forget(old(pendingRestore), {path})
    {
      var todo := pendingRestore.Keys;
      while todo != {}
        invariant todo <= old(pendingRestore).Keys == pendingRestore.Keys
        invariant forall w :: w in pendingRestore ==>
                                pendingRestore[w] == if w in todo then old(pendingRestore)[w]
                                                     else Remaining(old(pendingRestore)[w], {path})
        decreases |todo|
      {
        var w :| w in todo;
        var next := Remaining(pendingRestore[w], {path});
        if |next| != |pendingRestore[w]| {
          pendingRestore := pendingRestore[w := next];
        } else {
          NothingRemoved(pendingRestore[w], {path});
        }
        todo := todo - {w};
      }
    }

    /** openWindow up to its read; without a session nothing is asked for. */
    method StartOpenWindow(o: OpenRead, session: bool)
      modifies this`opens, this`openError
      ensures Now() == if session then Next(old(Now()), StartOpen(o)) else old(Now())
      ensures openError == (old(openError) || !session)
    {
      if !session {
        openError := true;
        return;
      }
      opens := opens + multiset{o};
    }

    /** The rest of it, once the read has answered: only a file that is there is shown, and one that is missing is asked
        about. */
    method FinishOpenWindow(o: OpenRead, outcome: Outcome)
      requires o in opens
      modifies this
      ensures Now() == Next(old(Now()), if outcome.Loaded? then OpenLands(o) else OpenFails(o))
      ensures createPrompt == if outcome.Missing? then Some(o) else old(createPrompt)
      ensures openError == (old(openError) || outcome.Failed?) && restoreStarted == old(restoreStarted)
    {
      opens := opens - multiset{o};
      if outcome.Loaded? {
        AddWindow(o.path, o.tab, o.workspace);
      } else if outcome.Missing? {
        createPrompt := Some(o);
      } else {
        openError := true;
      }
    }

    /** confirmCreate up to its write, which lands or fails as a read does. */
    method StartCreate(w: Workspace, session: bool)
      modifies this`opens, this`openError, this`createPrompt
      ensures createPrompt == None
      ensures
        match old(createPrompt)
        case Some(o) =>
          && Now() == (if session then Next(old(Now()), StartOpen(o.(workspace := w))) else old(Now()))
          && openError == (old(openError) || !session)
        case None => Now() == old(Now()) && openError == old(openError)
    {
      var prompt := createPrompt;
      createPrompt := None;
      if prompt.Some? {
        StartOpenWindow(prompt.value.(workspace := w), session);
      }
    }

    method AddWindow(path: Path, tab: Tab, w: Workspace)
      modifies this`documents, this`pendingRestore, this`closedByUser, this`shown
      ensures Now() == Added(old(Now()), path, tab, w)
    {
      ForgetPendingRestore(path);
      closedByUser := closedByUser - {path};
      if path !in Paths(documents) {
        documents := documents + [Document(path, tab, w)];
      }
      shown := shown + {path};
    }

    method CloseDocuments(paths: seq<Path>)
      modifies this
      ensures Now() == Closed(old(Now()), set p | p in paths) && restoreStarted == old(restoreStarted)
    {
      var closing := set p | p in paths;
      var i := 0;
      while i < |paths|
        invariant 0 <= i <= |paths|
        invariant closedByUser == old(closedByUser) + set p | p in paths[..i]
        invariant Now() == old(Now()).(closed := closedByUser) && restoreStarted == old(restoreStarted)
      {
        assert paths[..i + 1] == paths[..i] + [paths[i]];
        closedByUser := closedByUser + {paths[i]};
        i := i + 1;
      }
      assert paths[..i] == paths;
      documents := Without(documents, closing);
    }

    /** The restore effect up to its first read; a workspace is restored once per page load. */
    method StartRestore(w: Workspace, records: seq<Record>)
      requires restoreStarted == pendingRestore.Keys
      modifies this
      ensures restoreStarted == pendingRestore.Keys
      ensures Now() == if w in old(restoreStarted) then old(Now()) else Started(old(Now()), w, records)
    {
      if w in restoreStarted {
        return;
      }
      restoreStarted := restoreStarted + {w};
      pendingRestore := pendingRestore[w := records];
      read := read[w := records];
      if |records| == 0 {
        return;
      }
      reading := reading[w := records];
    }

    /** The loop over the records; a read that fails leaves its record out. */
    static method ReadRecords(w: Workspace, records: seq<Record>, loaded: seq<bool>) returns (restored: seq<Document>)
      requires |loaded| == |records|
      ensures restored == Restored(records, loaded, w)
    {
      restored := [];
      var i := 0;
      while i < |records|
        invariant 0 <= i <= |records|
        invariant restored == Restored(records[..i], loaded[..i], w)
      {
        RestoredNext(records, loaded, i, w);
        if loaded[i] {
          restored := restored + [Document(records[i].path, records[i].tab, w)];
        }
        i := i + 1;
      }
      assert records[..i] == records && loaded[..i] == loaded;
    }

    /** The rest of the effect, once all reads have answered. */
    method FinishRestore(w: Workspace, records: seq<Record>, loaded: seq<bool>)
      requires w in reading && reading[w] == records && |loaded| == |records|
      modifies this
      ensures Now() == Landed(old(Now()), w, loaded) && restoreStarted == old(restoreStarted)
    {
      var restored := ReadRecords(w, records, loaded);
      reading := reading - {w};
      var added := Admit(restored, Paths(documents), closedByUser);
      if |added| == 0 {
        assert Paths(added) == {};
        ForgetNothing(pendingRestore);
        assert documents + [] == documents && shown + {} == shown;
        return;
      }
      AdmitAgain(restored, Paths(documents), closedByUser);
      documents := documents + Admit(added, Paths(documents), closedByUser);
      shown := shown + Paths(added);
      ForgetAll(added);
    }

    /** The documents that have become windows leave the pending lists, one path after the other. */
    method ForgetAll(added: seq<Document>)
      modifies this`pendingRestore
      ensures pendingRestore == Forget(old(pendingRestore), Paths(added))
    {
      ghost var start := pendingRestore;
      var i := 0;
      ForgetStart(start, added);
      while i < |added|
        invariant 0 <= i <= |added|
        invariant pendingRestore == Forgotten(start, added, i)
      {
        ForgetNext(start, added, i);
        ForgetPendingRestore(added[i].path);
        i := i + 1;
      }
      ForgetEnd(start, added);
    }

    /** The document updater of a landing step. */
    method ShowStep(step: ImageStep)
      modifies this`documents
      ensures documents == StepDocuments(old(documents), step)
    {
      if step.to !in Paths(documents) {
        documents := Replace(documents, step.from, Document(step.to, step.tab, step.workspace));
      }
    }

    method FinishImageStep(step: ImageStep)
      requires step in steps
      modifies this
      ensures Now() == StepLanded(old(Now()), step) && restoreStarted == old(restoreStarted)
    {
      ghost var before := Now();
      RecordStep(step);
      ForgetPendingRestore(step.to);
      ShowStep(step);
      assert Now() == before.(documents := StepDocuments(before.documents, step),
                              pending := Forget(before.pending, {step.to}),
                              steps := steps, shown := shown, dropped := dropped);
    }

    /** History only. */
    ghost method RecordStep(step: ImageStep)
      requires step in steps
      modifies this`steps, this`shown, this`dropped
      ensures steps == StepLanded(old(Now()), step).steps
      ensures shown == StepLanded(old(Now()), step).shown
      ensures dropped == StepLanded(old(Now()), step).dropped
    {
      var shows := step.to in Paths(documents) || step.from in Paths(documents);
      steps := steps - multiset{step};
      shown := if shows then shown + {step.to} else shown;
      dropped := if shows then dropped else dropped + {step.to};
    }

    /** The records the save effect writes, if the workspace has been restored. */
    method RecordsToSave(w: Workspace) returns (records: seq<Record>)
      requires restoreStarted == pendingRestore.Keys && w in restoreStarted
      ensures records == Saved(Now(), w)
      ensures forall d :: d in documents && d.workspace == w ==> Record(d.tab, d.path) in records
      ensures forall x :: x in pendingRestore[w] ==> x.path in RecordPaths(records)
      ensures forall x :: x in records ==> x in pendingRestore[w] || IsOwn(documents, w, x)
      ensures Distinct(documents) && DistinctRecords(pendingRestore[w]) ==> DistinctRecords(records)
    {
      var own := Own(documents, w);
      var stillPending := Remaining(pendingRestore[w], RecordPaths(own));
      records := own + stillPending;
      SaveKeepsEveryRecord(Now(), w);
    }
  }

  // ----- Saving. -----

  /** The record describes a document of the workspace. */
  ghost predicate IsOwn(documents: seq<Document>, w: Workspace, x: Record) {
    Document(x.path, x.tab, w) in documents
  }

  lemma SaveKeepsEveryRecord(s: State, w: Workspace)
    requires w in s.pending
    ensures forall d :: d in s.documents && d.workspace == w ==> Record(d.tab, d.path) in Saved(s, w)
    ensures forall x :: x in s.pending[w] ==> x.path in RecordPaths(Saved(s, w))
    ensures forall x :: x in Saved(s, w) ==> x in s.pending[w] || IsOwn(s.documents, w, x)
    ensures Distinct(s.documents) && DistinctRecords(s.pending[w]) ==> DistinctRecords(Saved(s, w))
  {
    forall x | x in s.pending[w]
      ensures x.path in RecordPaths(Saved(s, w))
    {
      PendingIsSaved(s, w, x);
    }
    if Distinct(s.documents) && DistinctRecords(s.pending[w]) {
      SavedIsDistinct(s, w);
    }
  }

  // ----- Forgetting. -----

  lemma {:induction false} NothingRemoved(records: seq<Record>, paths: set<Path>)
    ensures |Remaining(records, paths)| <= |records|
    ensures |Remaining(records, paths)| == |records| ==> Remaining(records, paths) == records
    decreases |records|
  {
    if |records| > 0 {
      NothingRemoved(records[..|records| - 1], paths);
      assert records == records[..|records| - 1] + [records[|records| - 1]];
    }
  }

  lemma {:induction false} RemainingTwice(records: seq<Record>, a: set<Path>, b: set<Path>)
    ensures Remaining(Remaining(records, a), b) == Remaining(records, a + b)
    decreases |records|
  {
    if |records| > 0 {
      var init, last := records[..|records| - 1], records[|records| - 1];
      RemainingTwice(init, a, b);
      if last.path !in a {
        assert (Remaining(init, a) + [last])[..|Remaining(init, a)|] == Remaining(init, a);
      }
    }
  }

  lemma ForgetTwice(pending: map<Workspace, seq<Record>>, a: set<Path>, b: set<Path>)
    ensures Forget(Forget(pending, a), b) == Forget(pending, a + b)
  {
    forall w | w in pending
      ensures Remaining(Remaining(pending[w], a), b) == Remaining(pending[w], a + b)
    {
      RemainingTwice(pending[w], a, b);
    }
  }

  /** The pending records without those of the first documents of a list. */
  ghost function Forgotten(pending: map<Workspace, seq<Record>>, added: seq<Document>, i: nat)
    : map<Workspace, seq<Record>>
    requires i <= |added|
  {
    Forget(pending, Paths(added[..i]))
  }

  lemma ForgetNext(pending: map<Workspace, seq<Record>>, added: seq<Document>, i: nat)
    requires i < |added|
    ensures Forget(Forgotten(pending, added, i), {added[i].path}) == Forgotten(pending, added, i + 1)
  {
    ForgetTwice(pending, Paths(added[..i]), {added[i].path});
    assert added[..i + 1] == added[..i] + [added[i]];
    assert Paths(added[..i + 1]) == Paths(added[..i]) + {added[i].path};
  }

  lemma ForgetEnd(pending: map<Workspace, seq<Record>>, added: seq<Document>)
    ensures Forgotten(pending, added, |added|) == Forget(pending, Paths(added))
  {
    assert added[..|added|] == added;
  }

  lemma ForgetStart(pending: map<Workspace, seq<Record>>, added: seq<Document>)
    ensures pending == Forgotten(pending, added, 0)
  {
    ForgetNothing(pending);
    assert Paths(added[..0]) == {};
  }

  lemma {:induction false} RemainingAll(records: seq<Record>)
    ensures Remaining(records, {}) == records
    decreases |records|
  {
    if |records| > 0 {
      RemainingAll(records[..|records| - 1]);
    }
  }

  lemma ForgetNothing(pending: map<Workspace, seq<Record>>)
    ensures Forget(pending, {}) == pending
  {
    forall w | w in pending
      ensures Remaining(pending[w], {}) == pending[w]
    {
      RemainingAll(pending[w]);
    }
  }

  /** The admission is checked twice, with the same answer when nothing was committed in between. */
  lemma {:induction false} AdmitAgain(restored: seq<Document>, open: set<Path>, closed: set<Path>)
    ensures Admit(Admit(restored, open, closed), open, closed) == Admit(restored, open, closed)
    decreases |restored|
  {
    if |restored| > 0 {
      var init, last := restored[..|restored| - 1], restored[|restored| - 1];
      AdmitAgain(init, open, closed);
      var rest := Admit(init, open, closed);
      assert (rest + [last])[..|rest|] == rest;
    }
  }

  lemma RestoredNext(records: seq<Record>, loaded: seq<bool>, i: nat, w: Workspace)
    requires i < |records| == |loaded|
    ensures Restored(records[..i + 1], loaded[..i + 1], w)
         == Restored(records[..i], loaded[..i], w)
            + if loaded[i] then [Document(records[i].path, records[i].tab, w)] else []
  {
    assert records[..i + 1][..i] == records[..i] && loaded[..i + 1][..i] == loaded[..i];
  }
}
