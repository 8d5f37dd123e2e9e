/** The divergence record between the sealed inventory and the current one. The identity texts of the source are
    integers here: equal texts are equal integers, and a place is a decision with an evidence locator. */
module Divergence {
  import opened Sorting

  datatype Entry = Entry(decision: int, locator: int, hash: int)

  datatype Place = Place(decision: int, locator: int)

  datatype Drift = Drift(retired: seq<int>, introduced: seq<int>) {
    predicate Empty() {
      retired == [] && introduced == []
    }
  }

  datatype Relocated = Relocated(title: int, drift: Drift)

  datatype Record = Record(
    decisionDrift: Drift,
    classificationDrift: Drift,
    relocatedEvidence: seq<Relocated>,
    hashOnlyChanged: nat
  )

  // ----- Counting. -----

  function Keys<T, K>(values: seq<T>, key: T -> K): (r: seq<K>)
    ensures |r| == |values|
  {
    seq(|values|, i requires 0 <= i < |values| => key(values[i]))
  }

  ghost predicate Counts(counts: map<int, nat>, keys: seq<int>) {
    && (forall id :: id in counts <==> id in keys)
    && (forall id :: id in counts ==> counts[id] == multiset(keys)[id])
  }

  method CountBy<T>(values: seq<T>, key: T -> int) returns (counts: map<int, nat>)
    ensures Counts(counts, Keys(values, key))
  {
    counts := map[];
    var i := 0;
    while i < |values|
      invariant 0 <= i <= |values|
      invariant Counts(counts, Keys(values, key)[..i])
    {
      var id := key(values[i]);
      assert Keys(values, key)[..i + 1] == Keys(values, key)[..i] + [id];
      counts := counts[id := (if id in counts then counts[id] else 0) + 1];
      i := i + 1;
    }
    assert Keys(values, key)[..i] == Keys(values, key);
  }

  function Lookup<K>(counts: map<K, nat>, id: K): nat {
    if id in counts then counts[id] else 0
  }

  function Beyond<K>(counts: map<K, nat>, other: map<K, nat>, id: K): nat {
    if Lookup(counts, id) > Lookup(other, id) then Lookup(counts, id) - Lookup(other, id) else 0
  }

  /** One loop of the drift: every identity, as often as `counts` has it beyond `other`, in any map order. */
  method Excess<K(==)>(counts: map<K, nat>, other: map<K, nat>) returns (out: seq<K>)
    ensures forall id :: multiset(out)[id] == Beyond(counts, other, id)
  {
    out := [];
    var todo := counts.Keys;
    while todo != {}
      invariant todo <= counts.Keys
      invariant forall id :: multiset(out)[id] == if id in todo then 0 else Beyond(counts, other, id)
      decreases |todo|
    {
      var id :| id in todo;
      ghost var done := multiset(out);
      var index: int := counts[id] - Lookup(other, id);
      ghost var pushed: nat := 0;
      while index > 0
        invariant pushed + (if index > 0 then index else 0) == Beyond(counts, other, id)
        invariant multiset(out) == done[id := pushed]
      {
        out := out + [id];
        pushed := pushed + 1;
        index := index - 1;
      }
      todo := todo - {id};
    }
  }

  /** What a drift of two key lists is: the multiset differences both ways, sorted. */
  ghost predicate IsDrift(d: Drift, before: seq<int>, after: seq<int>) {
    && Sorted(d.retired) && multiset(d.retired) == multiset(before) - multiset(after)
    && Sorted(d.introduced) && multiset(d.introduced) == multiset(after) - multiset(before)
  }

  method MultisetDrift<T>(before: seq<T>, after: seq<T>, key: T -> int) returns (d: Drift)
    ensures IsDrift(d, Keys(before, key), Keys(after, key))
  {
    var beforeCounts := CountBy(before, key);
    var afterCounts := CountBy(after, key);
    var retired := Excess(beforeCounts, afterCounts);
    var introduced := Excess(afterCounts, beforeCounts);
    DifferenceOf(retired, Keys(before, key), Keys(after, key), beforeCounts, afterCounts);
    DifferenceOf(introduced, Keys(after, key), Keys(before, key), afterCounts, beforeCounts);
    d := Drift(Sort(retired), Sort(introduced));
  }

  lemma DifferenceOf(out: seq<int>, of: seq<int>, other: seq<int>, counts: map<int, nat>, otherCounts: map<int, nat>)
    requires Counts(counts, of) && Counts(otherCounts, other)
    requires forall id :: multiset(out)[id] == Beyond(counts, otherCounts, id)
    ensures multiset(out) == multiset(of) - multiset(other)
  {
    forall id
      ensures multiset(out)[id] == (multiset(of) - multiset(other))[id]
    {
      assert Lookup(counts, id) == multiset(of)[id];
      assert Lookup(otherCounts, id) == multiset(other)[id];
    }
  }

  lemma DriftIsEmpty(d: Drift, before: seq<int>, after: seq<int>)
    requires IsDrift(d, before, after)
    ensures d.Empty() <==> multiset(before) == multiset(after)
  {
  }

  // ----- Grouping. -----

  function OfDecision(entries: seq<Entry>, decision: int): seq<Entry> {
    if |entries| == 0 then []
    else
      var rest := OfDecision(entries[..|entries| - 1], decision);
      var last := entries[|entries| - 1];
      if last.decision == decision then rest + [last] else rest
  }

  function Decisions(entries: seq<Entry>): seq<int> {
    Keys(entries, (e: Entry) => e.decision)
  }

  function Locators(entries: seq<Entry>, decision: int): seq<int> {
    Keys(OfDecision(entries, decision), (e: Entry) => e.locator)
  }

  /** The hashes recorded at a place, in inventory order. */
  function Hashes(entries: seq<Entry>, place: Place): seq<int> {
    if |entries| == 0 then []
    else
      var rest := Hashes(entries[..|entries| - 1], place);
      var last := entries[|entries| - 1];
      if Place(last.decision, last.locator) == place then rest + [last.hash] else rest
  }

  function Places(entries: seq<Entry>): set<Place> {
    set e | e in entries :: Place(e.decision, e.locator)
  }

  method GroupHashes(entries: seq<Entry>) returns (grouped: map<Place, seq<int>>)
    ensures grouped.Keys == Places(entries)
    ensures forall p :: p in grouped ==> grouped[p] == Hashes(entries, p)
  {
    grouped := map[];
    var i := 0;
    while i < |entries|
      invariant 0 <= i <= |entries|
      invariant grouped.Keys == Places(entries[..i])
      invariant forall p :: p in grouped ==> grouped[p] == Hashes(entries[..i], p)
      invariant forall p :: p !in grouped ==> Hashes(entries[..i], p) == []
    {
      var p := Place(entries[i].decision, entries[i].locator);
      assert entries[..i + 1] == entries[..i] + [entries[i]];
      assert entries[..i + 1][..i] == entries[..i];
      grouped := grouped[p := (if p in grouped then grouped[p] else []) + [entries[i].hash]];
      i := i + 1;
    }
    assert entries[..i] == entries;
  }

  /** Positions at which two lists of the same length differ. */
  function Mismatches(after: seq<int>, before: seq<int>): (n: nat)
    requires |after| == |before|
    ensures n == 0 <==> after == before
  {
    if |after| == 0 then 0
    else
      var last := |after| - 1;
      assert after == after[..last] + [after[last]] && before == before[..last] + [before[last]];
      Mismatches(after[..last], before[..last]) + if after[last] != before[last] then 1 else 0
  }

  /** What one place adds to the count of changed hashes. */
  function HashOnlyAt(historical: seq<Entry>, current: seq<Entry>, place: Place): nat {
    var before, after := Sort(Hashes(historical, place)), Sort(Hashes(current, place));
    if |before| != |after| then 0 else Mismatches(after, before)
  }

  ghost function HashOnly(historical: seq<Entry>, current: seq<Entry>, places: set<Place>): nat {
    if places == {} then 0
    else
      var p :| p in places;
      HashOnlyAt(historical, current, p) + HashOnly(historical, current, places - {p})
  }

  lemma {:induction false} HashOnlyWithout(historical: seq<Entry>, current: seq<Entry>, places: set<Place>, q: Place)
    requires q in places
    ensures HashOnly(historical, current, places)
         == HashOnlyAt(historical, current, q) + HashOnly(historical, current, places - {q})
    decreases |places|
  {
    var p :| p in places && HashOnly(historical, current, places)
                            == HashOnlyAt(historical, current, p) + HashOnly(historical, current, places - {p});
    if p != q {
      HashOnlyWithout(historical, current, places - {p}, q);
      HashOnlyWithout(historical, current, places - {q}, p);
      assert places - {p} - {q} == places - {q} - {p};
    }
  }

  // ----- The record. -----

  ghost predicate IsShared(historical: seq<Entry>, current: seq<Entry>, decision: int) {
    OfDecision(historical, decision) != [] && OfDecision(current, decision) != []
  }

  /** A surviving decision whose evidence moved. */
  ghost predicate IsMoved(historical: seq<Entry>, current: seq<Entry>, decision: int) {
    && IsShared(historical, current, decision)
    && multiset(Locators(historical, decision)) != multiset(Locators(current, decision))
  }

  ghost predicate IsRelocation(x: Relocated, decision: int, title: int -> int,
                               historical: seq<Entry>, current: seq<Entry>) {
    x.title == title(decision) && IsDrift(x.drift, Locators(historical, decision), Locators(current, decision))
  }

  /** One relocation for each of the decisions in `order`, which are different. */
  ghost predicate Pairs(relocated: seq<Relocated>, order: seq<int>, title: int -> int, historical: seq<Entry>,
                        current: seq<Entry>)
  {
    && |order| == |relocated|
    && (forall i, j :: 0 <= i < j < |order| ==> order[i] != order[j])
    && (forall i :: 0 <= i < |order| ==> IsRelocation(relocated[i], order[i], title, historical, current))
  }

  /** The relocations of the moved decisions, once each. */
  ghost predicate Relocates(relocated: seq<Relocated>, order: seq<int>, title: int -> int, historical: seq<Entry>,
                            current: seq<Entry>)
  {
    && Pairs(relocated, order, title, historical, current)
    && forall d :: d in order <==> IsMoved(historical, current, d)
  }

  function Texts(relocated: seq<Relocated>, text: Relocated -> int): seq<int> {
    Keys(relocated, text)
  }

  /** What the record says; the relocations stand in the order of their texts. */
  ghost predicate Describes(r: Record, title: int -> int, text: Relocated -> int, historical: seq<Entry>,
                            current: seq<Entry>, historicalClasses: seq<int>, currentClasses: seq<int>)
  {
    && IsDrift(r.decisionDrift, Decisions(historical), Decisions(current))
    && IsDrift(r.classificationDrift, historicalClasses, currentClasses)
    && (exists found, order ::
          Relocates(found, order, title, historical, current) && multiset(r.relocatedEvidence) == multiset(found))
    && Sorted(Texts(r.relocatedEvidence, text))
    && r.hashOnlyChanged == HashOnly(historical, current, Places(current))
  }

  /** The body of the loop over decisions. */
  method DescribeDecision(title: int -> int, historical: seq<Entry>, current: seq<Entry>, decision: int)
    returns (moved: bool, record: Relocated)
    ensures moved <==> IsMoved(historical, current, decision)
    ensures moved ==> IsRelocation(record, decision, title, historical, current)
  {
    record := Relocated(title(decision), Drift([], []));
    var historicalGroup := OfDecision(historical, decision);
    var currentGroup := OfDecision(current, decision);
    if |historicalGroup| == 0 || |currentGroup| == 0 {
      return false, record;
    }
    var drift := MultisetDrift(historicalGroup, currentGroup, (e: Entry) => e.locator);
    DriftIsEmpty(drift, Locators(historical, decision), Locators(current, decision));
    return !drift.Empty(), Relocated(title(decision), drift);
  }

  method DescribeRelocations(title: int -> int, historical: seq<Entry>, current: seq<Entry>)
    returns (relocated: seq<Relocated>)
    ensures exists order :: Relocates(relocated, order, title, historical, current)
  {
    relocated := [];
    ghost var order: seq<int> := [];
    var decisions := set e | e in historical + current :: e.decision;
    ghost var all := decisions;
    while decisions != {}
      invariant decisions <= all
      invariant Pairs(relocated, order, title, historical, current)
      invariant forall d :: d in order ==> d !in decisions
      invariant forall d :: d in order <==> d in all && d !in decisions && IsMoved(historical, current, d)
      decreases |decisions|
    {
      var decision :| decision in decisions;
      decisions := decisions - {decision};
      var moved, record := DescribeDecision(title, historical, current, decision);
      if moved {
        relocated := relocated + [record];
        order := order + [decision];
      }
    }
    forall d | IsMoved(historical, current, d)
      ensures d in all
    {
      GroupsAreMembers(historical, d);
      var e := OfDecision(historical, d)[0];
      assert e in historical + current;
    }
    assert Relocates(relocated, order, title, historical, current);
  }

  function InsertByText(s: seq<Relocated>, x: Relocated, text: Relocated -> int): (r: seq<Relocated>)
    ensures multiset(r) == multiset(s) + multiset{x}
    ensures Texts(r, text) == Insert(Texts(s, text), text(x))
  {
    if |s| == 0 || text(x) <= text(s[0]) then
      assert Texts([x] + s, text) == [text(x)] + Texts(s, text);
      [x] + s
    else
      var rest := InsertByText(s[1..], x, text);
      assert s == [s[0]] + s[1..];
      assert Texts(s, text)[1..] == Texts(s[1..], text);
      assert Texts([s[0]] + rest, text) == [text(s[0])] + Texts(rest, text);
      [s[0]] + rest
  }

  /** relocatedEvidence.sort */
  function SortByText(s: seq<Relocated>, text: Relocated -> int): (r: seq<Relocated>)
    ensures multiset(r) == multiset(s) && Sorted(Texts(r, text))
  {
    if |s| == 0 then []
    else
      var rest := SortByText(s[1..], text);
      assert s == [s[0]] + s[1..];
      InsertKeepsOrder(Texts(rest, text), text(s[0]));
      InsertByText(rest, s[0], text)
  }

  lemma {:induction false} GroupsAreMembers(entries: seq<Entry>, decision: int)
    ensures forall e :: e in OfDecision(entries, decision) <==> e in entries && e.decision == decision
    decreases |entries|
  {
    if |entries| > 0 {
      GroupsAreMembers(entries[..|entries| - 1], decision);
      assert entries == entries[..|entries| - 1] + [entries[|entries| - 1]];
    }
  }

  method CountHashOnly(historical: seq<Entry>, current: seq<Entry>) returns (changed: nat)
    ensures changed == HashOnly(historical, current, Places(current))
  {
    var historicalHashes := GroupHashes(historical);
    var currentHashes := GroupHashes(current);
    changed := 0;
    var places := currentHashes.Keys;
    while places != {}
      invariant places <= currentHashes.Keys
      invariant changed + HashOnly(historical, current, places) == HashOnly(historical, current, Places(current))
      decreases |places|
    {
      var place :| place in places;
      HashOnlyWithout(historical, current, places, place);
      NoHashesElsewhere(historical, place);
      places := places - {place};
      var before := Sort(if place in historicalHashes then historicalHashes[place] else []);
      var after := Sort(currentHashes[place]);
      if |before| != |after| {
        continue;
      }
      changed := changed + Mismatches(after, before);
    }
  }

  lemma {:induction false} NoHashesElsewhere(entries: seq<Entry>, place: Place)
    ensures place !in Places(entries) ==> Hashes(entries, place) == []
    decreases |entries|
  {
    if |entries| > 0 {
      NoHashesElsewhere(entries[..|entries| - 1], place);
      assert entries[|entries| - 1] in entries;
      assert forall e :: e in entries[..|entries| - 1] ==> e in entries;
    }
  }

  method DescribeDivergence(title: int -> int, text: Relocated -> int, historical: seq<Entry>, current: seq<Entry>,
                            historicalClasses: seq<int>, currentClasses: seq<int>)
    returns (r: Record)
    ensures Describes(r, title, text, historical, current, historicalClasses, currentClasses)
  {
    var decisionDrift := MultisetDrift(historical, current, (e: Entry) => e.decision);
    var classificationDrift := MultisetDrift(historicalClasses, currentClasses, (c: int) => c);
    assert Keys(historicalClasses, (c: int) => c) == historicalClasses;
    assert Keys(currentClasses, (c: int) => c) == currentClasses;
    var relocated := DescribeRelocations(title, historical, current);
    ghost var order :| Relocates(relocated, order, title, historical, current);
    var changed := CountHashOnly(historical, current);
    r := Record(decisionDrift, classificationDrift, SortByText(relocated, text), changed);
  }

  // ----- Completeness. -----

  ghost predicate NothingRecorded(r: Record) {
    r.decisionDrift.Empty() && r.classificationDrift.Empty() && r.relocatedEvidence == [] && r.hashOnlyChanged == 0
  }

  lemma {:induction false} CountByDecision(entries: seq<Entry>, d: int)
    ensures multiset(Decisions(entries))[d] == |OfDecision(entries, d)|
    decreases |entries|
  {
    if |entries| > 0 {
      var init, last := entries[..|entries| - 1], entries[|entries| - 1];
      CountByDecision(init, d);
      assert Decisions(entries) == Decisions(init) + [last.decision];
    }
  }

  lemma {:induction false} CountByPlace(entries: seq<Entry>, d: int, l: int)
    ensures multiset(Locators(entries, d))[l] == |Hashes(entries, Place(d, l))|
    decreases |entries|
  {
    if |entries| > 0 {
      var init, last := entries[..|entries| - 1], entries[|entries| - 1];
      CountByPlace(init, d, l);
      if last.decision == d {
        assert Locators(entries, d) == Locators(init, d) + [last.locator];
      }
    }
  }

  lemma {:induction false} CountByHash(entries: seq<Entry>, e: Entry)
    ensures multiset(entries)[e] == multiset(Hashes(entries, Place(e.decision, e.locator)))[e.hash]
    decreases |entries|
  {
    if |entries| > 0 {
      var init, last := entries[..|entries| - 1], entries[|entries| - 1];
      CountByHash(init, e);
      assert entries == init + [last];
    }
  }

  lemma {:induction false} HashOnlyIsZero(historical: seq<Entry>, current: seq<Entry>, places: set<Place>)
    ensures HashOnly(historical, current, places) == 0
            <==> forall p :: p in places ==> HashOnlyAt(historical, current, p) == 0
    decreases |places|
  {
    if places != {} {
      var p :| p in places && HashOnly(historical, current, places)
                              == HashOnlyAt(historical, current, p) + HashOnly(historical, current, places - {p});
      HashOnlyIsZero(historical, current, places - {p});
    }
  }

  /** With the same decisions and no moved evidence, every place holds the same number of entries on both sides. */
  lemma PlacesAgree(historical: seq<Entry>, current: seq<Entry>, p: Place)
    requires multiset(Decisions(historical)) == multiset(Decisions(current))
    requires !IsMoved(historical, current, p.decision)
    ensures |Hashes(historical, p)| == |Hashes(current, p)|
  {
    CountByDecision(historical, p.decision);
    CountByDecision(current, p.decision);
    CountByPlace(historical, p.decision, p.locator);
    CountByPlace(current, p.decision, p.locator);
  }

  lemma EntriesAgree(historical: seq<Entry>, current: seq<Entry>, e: Entry)
    requires multiset(Decisions(historical)) == multiset(Decisions(current))
    requires !IsMoved(historical, current, e.decision)
    requires HashOnly(historical, current, Places(current)) == 0
    ensures multiset(historical)[e] == multiset(current)[e]
  {
    var p := Place(e.decision, e.locator);
    PlacesAgree(historical, current, p);
    HashOnlyIsZero(historical, current, Places(current));
    NoHashesElsewhere(current, p);
    CountByHash(historical, e);
    CountByHash(current, e);
    var before, after := Hashes(historical, p), Hashes(current, p);
    if p in Places(current) {
      assert Sort(before) == Sort(after);
      SameSortedForm(before, after);
    }
  }

  /** Nothing is recorded exactly when the two inventories, and the two lists of classifications, are equal as
      multisets: no change escapes all four axes, and no axis reports a change that is not there. */
  lemma RecordIsComplete(r: Record, title: int -> int, text: Relocated -> int, historical: seq<Entry>,
                         current: seq<Entry>, historicalClasses: seq<int>, currentClasses: seq<int>)
    requires Describes(r, title, text, historical, current, historicalClasses, currentClasses)
    ensures NothingRecorded(r) <==>
              multiset(historical) == multiset(current) && multiset(historicalClasses) == multiset(currentClasses)
  {
    var found, order :| Relocates(found, order, title, historical, current)
                        && multiset(r.relocatedEvidence) == multiset(found);
    SameSize(r.relocatedEvidence, found);
    DriftIsEmpty(r.decisionDrift, Decisions(historical), Decisions(current));
    DriftIsEmpty(r.classificationDrift, historicalClasses, currentClasses);
    if NothingRecorded(r) {
      forall e
        ensures multiset(historical)[e] == multiset(current)[e]
      {
        assert e.decision !in order;
        EntriesAgree(historical, current, e);
      }
      assert multiset(historical) == multiset(current);
    }
    if multiset(historical) == multiset(current) {
      SameEntriesSameRecord(historical, current);
      if |order| > 0 {
        assert order[0] in order;
      }
    }
  }

  /** The decision occurs in both inventories, at places that differ. */
  ghost predicate Survives(historical: seq<Entry>, current: seq<Entry>, decision: int) {
    && (exists e :: e in historical && e.decision == decision)
    && (exists e :: e in current && e.decision == decision)
    && multiset(Locators(historical, decision)) != multiset(Locators(current, decision))
  }

  lemma MovedSurvives(historical: seq<Entry>, current: seq<Entry>, decision: int)
    ensures IsMoved(historical, current, decision) <==> Survives(historical, current, decision)
  {
    GroupsAreMembers(historical, decision);
    GroupsAreMembers(current, decision);
    if IsMoved(historical, current, decision) {
      assert OfDecision(historical, decision)[0] in historical && OfDecision(current, decision)[0] in current;
    }
  }

  /** The relocations of a record are those of exactly the decisions that occur in both inventories at different places,
      one for each, with its title and what it lost and gained. */
  lemma RelocationsSurvive(r: Record, title: int -> int, text: Relocated -> int, historical: seq<Entry>,
                           current: seq<Entry>, historicalClasses: seq<int>, currentClasses: seq<int>)
    returns (found: seq<Relocated>, order: seq<int>)
    requires Describes(r, title, text, historical, current, historicalClasses, currentClasses)
    ensures multiset(r.relocatedEvidence) == multiset(found) && |order| == |found|
    ensures forall i, j :: 0 <= i < j < |order| ==> order[i] != order[j]
    ensures forall d :: d in order <==> Survives(historical, current, d)
    ensures forall i :: 0 <= i < |order| ==>
              && found[i].title == title(order[i])
              && IsDrift(found[i].drift, Locators(historical, order[i]), Locators(current, order[i]))
  {
    found, order :| Relocates(found, order, title, historical, current)
                    && multiset(r.relocatedEvidence) == multiset(found);
    forall d
      ensures d in order <==> Survives(historical, current, d)
    {
      MovedSurvives(historical, current, d);
    }
  }

  lemma SameHashes(a: seq<Entry>, b: seq<Entry>, p: Place)
    requires multiset(a) == multiset(b)
    ensures multiset(Hashes(a, p)) == multiset(Hashes(b, p)) && Sort(Hashes(a, p)) == Sort(Hashes(b, p))
  {
    forall h
      ensures multiset(Hashes(a, p))[h] == multiset(Hashes(b, p))[h]
    {
      CountByHash(a, Entry(p.decision, p.locator, h));
      CountByHash(b, Entry(p.decision, p.locator, h));
    }
    SameSortedForm(Hashes(a, p), Hashes(b, p));
  }

  lemma SameLocators(a: seq<Entry>, b: seq<Entry>, d: int)
    requires multiset(a) == multiset(b)
    ensures multiset(Locators(a, d)) == multiset(Locators(b, d)) && |OfDecision(a, d)| == |OfDecision(b, d)|
  {
    forall l
      ensures multiset(Locators(a, d))[l] == multiset(Locators(b, d))[l]
    {
      CountByPlace(a, d, l);
      CountByPlace(b, d, l);
      SameHashes(a, b, Place(d, l));
      SameSize(Hashes(a, Place(d, l)), Hashes(b, Place(d, l)));
    }
    SameSize(Locators(a, d), Locators(b, d));
  }

  lemma SameDecisions(a: seq<Entry>, b: seq<Entry>)
    requires multiset(a) == multiset(b)
    ensures multiset(Decisions(a)) == multiset(Decisions(b))
  {
    forall d
      ensures multiset(Decisions(a))[d] == multiset(Decisions(b))[d]
    {
      CountByDecision(a, d);
      CountByDecision(b, d);
      SameLocators(a, b, d);
    }
  }

  lemma SameEntriesSameRecord(historical: seq<Entry>, current: seq<Entry>)
    requires multiset(historical) == multiset(current)
    ensures multiset(Decisions(historical)) == multiset(Decisions(current))
    ensures forall d :: !IsMoved(historical, current, d)
    ensures HashOnly(historical, current, Places(current)) == 0
  {
    SameDecisions(historical, current);
    forall d
      ensures !IsMoved(historical, current, d)
    {
      SameLocators(historical, current, d);
    }
    HashOnlyIsZero(historical, current, Places(current));
    forall p | p in Places(current)
      ensures HashOnlyAt(historical, current, p) == 0
    {
      SameHashes(historical, current, p);
    }
  }

  // ----- The record depends on what is in the inventories, not on their order. -----

  lemma SameDrift(d: Drift, e: Drift, before: seq<int>, after: seq<int>, otherBefore: seq<int>, otherAfter: seq<int>)
    requires IsDrift(d, before, after) && IsDrift(e, otherBefore, otherAfter)
    requires multiset(before) == multiset(otherBefore) && multiset(after) == multiset(otherAfter)
    ensures d == e
  {
    SortedIsUnique(d.retired, e.retired);
    SortedIsUnique(d.introduced, e.introduced);
  }

  lemma {:induction false} SameCount(h: seq<Entry>, c: seq<Entry>, h2: seq<Entry>, c2: seq<Entry>, places: set<Place>)
    requires multiset(h) == multiset(h2) && multiset(c) == multiset(c2)
    ensures HashOnly(h, c, places) == HashOnly(h2, c2, places)
    decreases |places|
  {
    if places != {} {
      var p :| p in places;
      HashOnlyWithout(h, c, places, p);
      HashOnlyWithout(h2, c2, places, p);
      SameHashes(h, h2, p);
      SameHashes(c, c2, p);
      SameCount(h, c, h2, c2, places - {p});
    }
  }

  lemma SamePlaces(a: seq<Entry>, b: seq<Entry>)
    requires multiset(a) == multiset(b)
    ensures Places(a) == Places(b)
  {
    assert forall e :: e in a <==> e in multiset(a);
    assert forall e :: e in b <==> e in multiset(b);
  }

  lemma SameRelocation(x: Relocated, y: Relocated, d: int, title: int -> int, h: seq<Entry>, c: seq<Entry>,
                       h2: seq<Entry>, c2: seq<Entry>)
    requires multiset(h) == multiset(h2) && multiset(c) == multiset(c2)
    requires IsRelocation(x, d, title, h, c) && IsRelocation(y, d, title, h2, c2)
    ensures x == y
  {
    SameLocators(h, h2, d);
    SameLocators(c, c2, d);
    SameDrift(x.drift, y.drift, Locators(h, d), Locators(c, d), Locators(h2, d), Locators(c2, d));
  }

  function RemoveAt<T>(s: seq<T>, j: nat): (r: seq<T>)
    requires j < |s|
    ensures |r| == |s| - 1
  {
    s[..j] + s[j + 1..]
  }

  lemma CountRemoved<T>(s: seq<T>, j: nat)
    requires j < |s|
    ensures multiset(s) == multiset(RemoveAt(s, j)) + multiset{s[j]}
  {
    assert s == s[..j] + [s[j]] + s[j + 1..];
  }

  lemma Cancel<T>(a: multiset<T>, b: multiset<T>, x: T)
    requires a + multiset{x} == b + multiset{x}
    ensures a == b
  {
    assert a == (a + multiset{x}) - multiset{x} && b == (b + multiset{x}) - multiset{x};
  }

  lemma {:induction false} SameKeys<T, K>(a: seq<T>, b: seq<T>, f: T -> K)
    requires multiset(a) == multiset(b)
    ensures multiset(Keys(a, f)) == multiset(Keys(b, f))
    decreases |a|
  {
    SameSize(a, b);
    if |a| > 0 {
      assert a[0] in multiset(b);
      var j :| 0 <= j < |b| && b[j] == a[0];
      CountRemoved(a, 0);
      CountRemoved(b, j);
      Cancel(multiset(RemoveAt(a, 0)), multiset(RemoveAt(b, j)), a[0]);
      SameKeys(RemoveAt(a, 0), RemoveAt(b, j), f);
      assert Keys(RemoveAt(a, 0), f) == RemoveAt(Keys(a, f), 0);
      assert Keys(RemoveAt(b, j), f) == RemoveAt(Keys(b, f), j);
      CountRemoved(Keys(a, f), 0);
      CountRemoved(Keys(b, f), j);
    } else {
      assert Keys(a, f) == Keys(b, f);
    }
  }

  lemma {:induction false} CountDistinct<T>(s: seq<T>, x: T)
    requires forall i, j :: 0 <= i < j < |s| ==> s[i] != s[j]
    ensures multiset(s)[x] == if x in s then 1 else 0
    decreases |s|
  {
    if |s| > 0 {
      var n := |s| - 1;
      CountDistinct(s[..n], x);
      assert s == s[..n] + [s[n]];
    }
  }

  /** The relocations with the decisions they belong to. */
  function Zip(order: seq<int>, found: seq<Relocated>): (r: seq<(int, Relocated)>)
    requires |order| == |found|
    ensures |r| == |order|
  {
    seq(|order|, i requires 0 <= i < |order| => (order[i], found[i]))
  }

  ghost predicate Distinguishes(text: Relocated -> int, a: seq<Relocated>, b: seq<Relocated>) {
    forall x, y :: x in a && y in b && text(x) == text(y) ==> x == y
  }

  lemma SameInTextOrder(a: seq<Relocated>, b: seq<Relocated>, text: Relocated -> int)
    requires Distinguishes(text, a, b) && multiset(a) == multiset(b)
    requires Sorted(Texts(a, text)) && Sorted(Texts(b, text))
    ensures a == b
  {
    SameKeys(a, b, text);
    SortedIsUnique(Texts(a, text), Texts(b, text));
    assert forall i :: 0 <= i < |a| ==> Texts(a, text)[i] == text(a[i]) && Texts(b, text)[i] == text(b[i]);
  }

  /** Every pair of one side is one of the other. */
  lemma PairIsShared(found: seq<Relocated>, found2: seq<Relocated>, order: seq<int>, order2: seq<int>,
                     title: int -> int, h: seq<Entry>, c: seq<Entry>, h2: seq<Entry>, c2: seq<Entry>, i: nat)
    requires multiset(h) == multiset(h2) && multiset(c) == multiset(c2)
    requires Relocates(found, order, title, h, c) && Relocates(found2, order2, title, h2, c2)
    requires i < |order|
    ensures Zip(order, found)[i] in Zip(order2, found2)
  {
    var d := order[i];
    SameLocators(h, h2, d);
    SameLocators(c, c2, d);
    assert d in order && IsMoved(h, c, d) && IsMoved(h2, c2, d) && d in order2;
    var j :| 0 <= j < |order2| && order2[j] == d;
    SameRelocation(found[i], found2[j], d, title, h, c, h2, c2);
    assert Zip(order2, found2)[j] == Zip(order, found)[i];
  }

  lemma SameRelocations(found: seq<Relocated>, found2: seq<Relocated>, order: seq<int>, order2: seq<int>,
                        title: int -> int, h: seq<Entry>, c: seq<Entry>, h2: seq<Entry>, c2: seq<Entry>)
    requires multiset(h) == multiset(h2) && multiset(c) == multiset(c2)
    requires Relocates(found, order, title, h, c) && Relocates(found2, order2, title, h2, c2)
    ensures multiset(found) == multiset(found2)
  {
    var a, b := Zip(order, found), Zip(order2, found2);
    forall i | 0 <= i < |a|
      ensures a[i] in b
    {
      PairIsShared(found, found2, order, order2, title, h, c, h2, c2, i);
    }
    forall i | 0 <= i < |b|
      ensures b[i] in a
    {
      PairIsShared(found2, found, order2, order, title, h2, c2, h, c, i);
    }
    forall x
      ensures multiset(a)[x] == multiset(b)[x]
    {
      ZipIsDistinct(order, found);
      ZipIsDistinct(order2, found2);
      CountDistinct(a, x);
      CountDistinct(b, x);
    }
    SameKeys(a, b, (p: (int, Relocated)) => p.1);
    assert Keys(a, (p: (int, Relocated)) => p.1) == found;
    assert Keys(b, (p: (int, Relocated)) => p.1) == found2;
  }

  lemma ZipIsDistinct(order: seq<int>, found: seq<Relocated>)
    requires |order| == |found| && forall i, j :: 0 <= i < j < |order| ==> order[i] != order[j]
    ensures forall i, j :: 0 <= i < j < |order| ==> Zip(order, found)[i] != Zip(order, found)[j]
  {
  }

  /** Two inventories that hold the same entries give the same record, whatever the order of their entries and of the
      maps and sets the code walks through, when the texts it sorts by tell relocations apart. */
  lemma RecordIsDetermined(r: Record, r2: Record, title: int -> int, text: Relocated -> int, h: seq<Entry>,
                           c: seq<Entry>, hc: seq<int>, cc: seq<int>, h2: seq<Entry>, c2: seq<Entry>, hc2: seq<int>,
                           cc2: seq<int>)
    requires multiset(h) == multiset(h2) && multiset(c) == multiset(c2)
    requires multiset(hc) == multiset(hc2) && multiset(cc) == multiset(cc2)
    ensures
      && Describes(r, title, text, h, c, hc, cc) && Describes(r2, title, text, h2, c2, hc2, cc2)
      && Distinguishes(text, r.relocatedEvidence, r2.relocatedEvidence)
      ==> r == r2
  {
    if && Describes(r, title, text, h, c, hc, cc) && Describes(r2, title, text, h2, c2, hc2, cc2)
       && Distinguishes(text, r.relocatedEvidence, r2.relocatedEvidence)
    {
      SameDecisions(h, h2);
      SameDecisions(c, c2);
      SameDrift(r.decisionDrift, r2.decisionDrift, Decisions(h), Decisions(c), Decisions(h2), Decisions(c2));
      SameDrift(r.classificationDrift, r2.classificationDrift, hc, cc, hc2, cc2);
      var found, order :| Relocates(found, order, title, h, c) && multiset(r.relocatedEvidence) == multiset(found);
      var found2, order2 :| Relocates(found2, order2, title, h2, c2)
                            && multiset(r2.relocatedEvidence) == multiset(found2);
      SameRelocations(found, found2, order, order2, title, h, c, h2, c2);
      SameInTextOrder(r.relocatedEvidence, r2.relocatedEvidence, text);
      SamePlaces(c, c2);
      SameCount(h, c, h2, c2, Places(c));
    }
  }

  // ----- How far the count of changed hashes is from the number of changed tuples. -----

  ghost function Pick<T>(s: set<T>): (x: T)
    requires s != {}
    ensures x in s
  {
    var x :| x in s;
    x
  }

  ghost function PickFrom<T>(s: multiset<T>): (x: T)
    requires |s| > 0
    ensures x in s
  {
    var x :| x in s;
    x
  }

  function Positions<T(==)>(s: seq<T>, h: T): set<nat> {
    set i: nat | i < |s| && s[i] == h
  }

  /** One list has the hash wherever the other one has it. */
  ghost predicate Nested<T>(a: seq<T>, b: seq<T>, h: T) {
    Positions(a, h) <= Positions(b, h) || Positions(b, h) <= Positions(a, h)
  }

  ghost predicate AllNested<T(!new)>(a: seq<T>, b: seq<T>) {
    forall h :: Nested(a, b, h)
  }

  /** Where two lists differ at a hash of the given ones. */
  ghost function Differing<T>(after: seq<T>, before: seq<T>, hashes: set<T>): set<nat>
    requires |after| == |before|
  {
    set i: nat | i < |after| && after[i] in hashes && after[i] != before[i]
  }

  lemma {:induction false} CountPositions<T>(s: seq<T>, h: T)
    ensures multiset(s)[h] == |Positions(s, h)|
    decreases |s|
  {
    if |s| > 0 {
      var init, last := s[..|s| - 1], s[|s| - 1];
      CountPositions(init, h);
      assert s == init + [last];
      assert Positions(s, h) == Positions(init, h) + if last == h then {|s| - 1} else {};
    }
  }

  lemma {:induction false} CountDiffering(after: seq<int>, before: seq<int>, hashes: set<int>)
    requires |after| == |before| && forall h :: h in after ==> h in hashes
    ensures Mismatches(after, before) == |Differing(after, before, hashes)|
    decreases |after|
  {
    if |after| > 0 {
      var last := |after| - 1;
      assert after[last] in after && forall h :: h in after[..last] ==> h in after;
      CountDiffering(after[..last], before[..last], hashes);
      assert Differing(after, before, hashes)
          == Differing(after[..last], before[..last], hashes) + if after[last] != before[last] then {last} else {};
    }
  }

  lemma Contained<T>(a: set<T>, b: set<T>)
    ensures |a - b| == 0 <==> a <= b
  {
    if |a - b| == 0 {
      forall x | x in a
        ensures x in b
      {
        assert x !in a - b;
      }
    }
  }

  /** Of one hash: at least as many positions differ as there are more of it, and exactly so many when nested. */
  lemma OneHash<T>(a: set<T>, b: set<T>)
    ensures |a - b| >= |a| - |b|
    ensures |a - b| == (if |a| > |b| then |a| - |b| else 0) <==> a <= b || b <= a
  {
    var both := a * b;
    assert |a| == |a - b| + |both| by { assert a == (a - b) + both; }
    assert |b| == |b - a| + |both| by { assert b == (b - a) + both; }
    Contained(a, b);
    Contained(b, a);
  }

  /** Hash by hash. */
  lemma {:induction false} CompareHashes<T>(after: seq<T>, before: seq<T>, hashes: set<T>, changed: multiset<T>)
    requires |after| == |before|
    requires forall h :: changed[h] == if h in hashes then (multiset(after) - multiset(before))[h] else 0
    ensures |changed| <= |Differing(after, before, hashes)|
    ensures |changed| == |Differing(after, before, hashes)| <==> forall h :: h in hashes ==> Nested(after, before, h)
    decreases hashes
  {
    if hashes == {} {
      assert changed == multiset{};
    } else {
      var h := Pick(hashes);
      var others := hashes - {h};
      CompareHashes(after, before, others, changed[h := 0]);
      CountPositions(after, h);
      CountPositions(before, h);
      var here := Positions(after, h) - Positions(before, h);
      OneHash(Positions(after, h), Positions(before, h));
      assert Differing(after, before, hashes) == Differing(after, before, others) + here;
      assert hashes == others + {h};
    }
  }

  function Elements<T(==)>(s: seq<T>): set<T> {
    set x | x in s
  }

  lemma CompareLists<T(!new)>(after: seq<T>, before: seq<T>)
    requires |after| == |before|
    ensures |multiset(after) - multiset(before)| <= |Differing(after, before, Elements(after))|
    ensures |multiset(after) - multiset(before)| == |Differing(after, before, Elements(after))|
            <==> AllNested(after, before)
  {
    CompareHashes(after, before, Elements(after), multiset(after) - multiset(before));
    forall h | h !in after
      ensures Nested(after, before, h)
    {
      assert Positions(after, h) == {};
    }
  }

  /** The positional comparison never misses a changed hash, and it counts the changed hashes exactly when no hash has a
      position of its own on both sides. */
  lemma MismatchesCoverChanges(after: seq<int>, before: seq<int>)
    requires |after| == |before|
    ensures |multiset(after) - multiset(before)| <= Mismatches(after, before)
    ensures Mismatches(after, before) == |multiset(after) - multiset(before)| <==> AllNested(after, before)
  {
    CountDiffering(after, before, Elements(after));
    CompareLists(after, before);
  }

  // ----- Over all places. -----

  function PlaceOf(e: Entry): Place {
    Place(e.decision, e.locator)
  }

  /** Only places with as many entries as before are compared. */
  predicate IsCompared(historical: seq<Entry>, current: seq<Entry>, p: Place) {
    |Hashes(historical, p)| == |Hashes(current, p)|
  }

  function Compared(historical: seq<Entry>, current: seq<Entry>, entries: seq<Entry>): seq<Entry> {
    if |entries| == 0 then []
    else
      var rest := Compared(historical, current, entries[..|entries| - 1]);
      var last := entries[|entries| - 1];
      if IsCompared(historical, current, PlaceOf(last)) then rest + [last] else rest
  }

  lemma {:induction false} CountCompared(historical: seq<Entry>, current: seq<Entry>, entries: seq<Entry>, e: Entry)
    ensures multiset(Compared(historical, current, entries))[e]
         == if IsCompared(historical, current, PlaceOf(e)) then multiset(entries)[e] else 0
    decreases |entries|
  {
    if |entries| > 0 {
      CountCompared(historical, current, entries[..|entries| - 1], e);
      assert entries == entries[..|entries| - 1] + [entries[|entries| - 1]];
    }
  }

  /** The current tuples at compared places that the historical inventory does not hold. */
  function Changed(historical: seq<Entry>, current: seq<Entry>): multiset<Entry> {
    multiset(Compared(historical, current, current)) - multiset(historical)
  }

  ghost predicate NestedAt(historical: seq<Entry>, current: seq<Entry>, p: Place) {
    AllNested(Sort(Hashes(current, p)), Sort(Hashes(historical, p)))
  }

  /** The tuples of one place with the given hashes. */
  ghost function Tuples(p: Place, hashes: multiset<int>): (r: multiset<Entry>)
    ensures |r| == |hashes|
    ensures forall e :: r[e] == if PlaceOf(e) == p then hashes[e.hash] else 0
    decreases |hashes|
  {
    if |hashes| == 0 then multiset{}
    else
      var h := PickFrom(hashes);
      Tuples(p, hashes - multiset{h}) + multiset{Entry(p.decision, p.locator, h)}
  }

  ghost function ChangedAt(historical: seq<Entry>, current: seq<Entry>, p: Place): multiset<Entry> {
    if IsCompared(historical, current, p) then
      Tuples(p, multiset(Hashes(current, p)) - multiset(Hashes(historical, p)))
    else multiset{}
  }

  lemma ChangedAtIsCounted(historical: seq<Entry>, current: seq<Entry>, p: Place)
    ensures |ChangedAt(historical, current, p)| <= HashOnlyAt(historical, current, p)
    ensures HashOnlyAt(historical, current, p) == |ChangedAt(historical, current, p)|
            <==> (IsCompared(historical, current, p) ==> NestedAt(historical, current, p))
  {
    if IsCompared(historical, current, p) {
      MismatchesCoverChanges(Sort(Hashes(current, p)), Sort(Hashes(historical, p)));
    }
  }

  ghost predicate IsChange(historical: seq<Entry>, current: seq<Entry>, places: set<Place>, changed: multiset<Entry>) {
    forall e :: changed[e] == if PlaceOf(e) in places && IsCompared(historical, current, PlaceOf(e)) then
                                (multiset(current) - multiset(historical))[e] else 0
  }

  lemma ChangedEntry(historical: seq<Entry>, current: seq<Entry>, p: Place, e: Entry)
    ensures ChangedAt(historical, current, p)[e] ==
            if PlaceOf(e) == p && IsCompared(historical, current, p) then (multiset(current) - multiset(historical))[e]
            else 0
  {
    CountByHash(historical, e);
    CountByHash(current, e);
  }

  lemma Partition<T>(whole: multiset<T>, part: multiset<T>)
    requires part <= whole
    ensures |whole| == |whole - part| + |part|
  {
    assert whole == (whole - part) + part;
  }

  lemma ChangeWithout(historical: seq<Entry>, current: seq<Entry>, places: set<Place>,
                      changed: multiset<Entry>, p: Place)
    requires IsChange(historical, current, places, changed) && p in places
    ensures
      var here := ChangedAt(historical, current, p);
      IsChange(historical, current, places - {p}, changed - here) && |changed| == |changed - here| + |here|
  {
    var here := ChangedAt(historical, current, p);
    forall e
      ensures here[e] == if PlaceOf(e) == p then changed[e] else 0
    {
      ChangedEntry(historical, current, p, e);
    }
    Partition(changed, here);
  }

  /** Place by place. */
  lemma {:induction false} ComparePlaces(historical: seq<Entry>, current: seq<Entry>, places: set<Place>,
                                         changed: multiset<Entry>)
    requires IsChange(historical, current, places, changed)
    ensures |changed| <= HashOnly(historical, current, places)
    ensures HashOnly(historical, current, places) == |changed|
            <==> forall p :: p in places && IsCompared(historical, current, p) ==> NestedAt(historical, current, p)
    decreases |places|
  {
    if places == {} {
      assert changed == multiset{};
    } else {
      var p :| p in places;
      HashOnlyWithout(historical, current, places, p);
      ChangedAtIsCounted(historical, current, p);
      ChangeWithout(historical, current, places, changed, p);
      ComparePlaces(historical, current, places - {p}, changed - ChangedAt(historical, current, p));
    }
  }

  /** The count of the record is never below the number of changed tuples at compared places, and it is that number
      exactly when at every one of them the sorted hashes are nested. */
  lemma CountCoversChanges(historical: seq<Entry>, current: seq<Entry>)
    ensures |Changed(historical, current)| <= HashOnly(historical, current, Places(current))
    ensures HashOnly(historical, current, Places(current)) == |Changed(historical, current)|
            <==> forall p :: p in Places(current) && IsCompared(historical, current, p) ==>
                               NestedAt(historical, current, p)
  {
    forall e
      ensures Changed(historical, current)[e] ==
              if PlaceOf(e) in Places(current) && IsCompared(historical, current, PlaceOf(e)) then
                (multiset(current) - multiset(historical))[e] else 0
    {
      CountCompared(historical, current, current, e);
      if PlaceOf(e) !in Places(current) {
        assert e !in current;
      }
    }
    ComparePlaces(historical, current, Places(current), Changed(historical, current));
  }

  /** All changed tuples are at compared places exactly when every other place only lost entries. */
  lemma AllChangesCompared(historical: seq<Entry>, current: seq<Entry>)
    ensures Changed(historical, current) == multiset(current) - multiset(historical)
            <==> forall p :: !IsCompared(historical, current, p) ==>
                               multiset(Hashes(current, p)) <= multiset(Hashes(historical, p))
  {
    forall e
      ensures Changed(historical, current)[e] ==
              if IsCompared(historical, current, PlaceOf(e)) then (multiset(current) - multiset(historical))[e] else 0
      ensures (multiset(current) - multiset(historical))[e]
           == (multiset(Hashes(current, PlaceOf(e))) - multiset(Hashes(historical, PlaceOf(e))))[e.hash]
    {
      CountCompared(historical, current, current, e);
      CountByHash(historical, e);
      CountByHash(current, e);
    }
    if Changed(historical, current) == multiset(current) - multiset(historical) {
      forall p, h | !IsCompared(historical, current, p)
        ensures multiset(Hashes(current, p))[h] <= multiset(Hashes(historical, p))[h]
      {
        var e := Entry(p.decision, p.locator, h);
        assert PlaceOf(e) == p && Changed(historical, current)[e] == 0;
      }
    }
  }

  /** If every place that is not compared only lost entries, the count is never below the number of changed tuples. */
  lemma NeverFewer(historical: seq<Entry>, current: seq<Entry>)
    requires forall p :: !IsCompared(historical, current, p) ==>
                           multiset(Hashes(current, p)) <= multiset(Hashes(historical, p))
    ensures |multiset(current) - multiset(historical)| <= HashOnly(historical, current, Places(current))
    ensures HashOnly(historical, current, Places(current)) == |multiset(current) - multiset(historical)|
            <==> forall p :: p in Places(current) && IsCompared(historical, current, p) ==>
                               NestedAt(historical, current, p)
  {
    AllChangesCompared(historical, current);
    CountCoversChanges(historical, current);
  }

  /** The entries of one place with the given hashes. */
  function AtOnePlace(hashes: seq<int>): seq<Entry> {
    seq(|hashes|, i requires 0 <= i < |hashes| => Entry(0, 0, hashes[i]))
  }

  lemma {:induction false} HashesAtOnePlace(hashes: seq<int>)
    ensures Hashes(AtOnePlace(hashes), Place(0, 0)) == hashes
    decreases |hashes|
  {
    if |hashes| > 0 {
      var n := |hashes| - 1;
      HashesAtOnePlace(hashes[..n]);
      assert AtOnePlace(hashes)[..n] == AtOnePlace(hashes[..n]);
      assert hashes == hashes[..n] + [hashes[n]];
    }
  }

  /** It can report fewer than changed: a place that does not hold as many entries as before is skipped, although some
      of its entries may be new. */
  lemma SkippedPlace(before: seq<int>, after: seq<int>)
    requires |before| != |after|
    ensures HashOnly(AtOnePlace(before), AtOnePlace(after), Places(AtOnePlace(after))) == 0
    ensures forall h :: h in after && h !in before ==>
                          Entry(0, 0, h) in multiset(AtOnePlace(after)) - multiset(AtOnePlace(before))
  {
    var historical, current := AtOnePlace(before), AtOnePlace(after);
    HashesAtOnePlace(before);
    HashesAtOnePlace(after);
    assert forall e :: e in current ==> PlaceOf(e) == Place(0, 0);
    HashOnlyIsZero(historical, current, Places(current));
    forall h | h in after && h !in before
      ensures Entry(0, 0, h) in multiset(current) - multiset(historical)
    {
      CountByHash(historical, Entry(0, 0, h));
      CountByHash(current, Entry(0, 0, h));
    }
  }

  /** It can report more than changed: when the smallest of three hashes becomes the largest, every position moves. */
  lemma OneChangeCountedThreeTimes(a: int, b: int, c: int, d: int)
    requires a < b < c < d
    ensures |multiset(AtOnePlace([d, b, c])) - multiset(AtOnePlace([a, b, c]))| == 1
    ensures HashOnlyAt(AtOnePlace([a, b, c]), AtOnePlace([d, b, c]), Place(0, 0)) == 3
  {
    OneReplaced(d, a, [b, c]);
    assert [d, b, c] == [d] + [b, c] && [a, b, c] == [a] + [b, c];
    ThreeSorted(a, b, c);
    ThreeSorted(b, c, d);
    Rotated(b, c, d);
    SortedHashes(a, b, c, [a, b, c]);
    SortedHashes(d, b, c, [b, c, d]);
    ThreeMismatches(b, c, d, a, b, c);
    CountAt(AtOnePlace([a, b, c]), AtOnePlace([d, b, c]), [a, b, c], [b, c, d]);
  }

  lemma CountAt(historical: seq<Entry>, current: seq<Entry>, before: seq<int>, after: seq<int>)
    requires |before| == |after|
    requires Sort(Hashes(historical, Place(0, 0))) == before && Sort(Hashes(current, Place(0, 0))) == after
    ensures HashOnlyAt(historical, current, Place(0, 0)) == Mismatches(after, before)
  {
  }

  lemma ThreeSorted(a: int, b: int, c: int)
    requires a <= b <= c
    ensures Sorted([a, b, c])
  {
  }

  lemma SortedHashes(a: int, b: int, c: int, sorted: seq<int>)
    requires Sorted(sorted) && multiset([a, b, c]) == multiset(sorted)
    ensures Sort(Hashes(AtOnePlace([a, b, c]), Place(0, 0))) == sorted
  {
    HashesAtOnePlace([a, b, c]);
    SortIs([a, b, c], sorted);
  }

  lemma SortIs(s: seq<int>, t: seq<int>)
    requires Sorted(t) && multiset(s) == multiset(t)
    ensures Sort(s) == t
  {
    SortedIsUnique(Sort(s), t);
  }

  lemma Rotated(a: int, b: int, c: int)
    ensures multiset([c, a, b]) == multiset([a, b, c])
  {
  }

  lemma OneReplaced(x: int, y: int, rest: seq<int>)
    requires x != y && x !in rest
    ensures |multiset(AtOnePlace([x] + rest)) - multiset(AtOnePlace([y] + rest))| == 1
  {
    var xs, ys := AtOnePlace([x] + rest), AtOnePlace([y] + rest);
    assert xs == [Entry(0, 0, x)] + AtOnePlace(rest) && ys == [Entry(0, 0, y)] + AtOnePlace(rest);
    assert multiset(xs) - multiset(ys) == multiset{Entry(0, 0, x)};
  }

  lemma ThreeMismatches(a: int, b: int, c: int, x: int, y: int, z: int)
    requires a != x && b != y && c != z
    ensures Mismatches([a, b, c], [x, y, z]) == 3
  {
    assert [a, b, c][..2] == [a, b] && [x, y, z][..2] == [x, y];
    assert [a, b][..1] == [a] && [x, y][..1] == [x];
    assert Mismatches([a], [x]) == 1;
    assert Mismatches([a, b], [x, y]) == 2;
  }
}
