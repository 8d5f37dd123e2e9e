/** Log rotation of tools/daemon/log.js over a map of files. Generation 0 is the live file, generation g the file with
    the suffix `.g`; contents are bytes. */
module LogRotation {
  type Bytes = seq<int>

  type Files = map<nat, Bytes>

  function Content(files: Files, g: nat): Bytes {
    if g in files then files[g] else []
  }

  /** The generations from `g` down to the live file, oldest first. */
  function Kept(files: Files, g: nat): Bytes {
    if g == 0 then Content(files, 0) else Content(files, g) + Kept(files, g - 1)
  }

  ghost predicate IsSuffix(s: Bytes, t: Bytes) {
    |s| <= |t| && t[|t| - |s|..] == s
  }

  function Rename(files: Files, from: nat, to: nat): Files
    requires from in files
  {
    files[to := files[from]] - {from}
  }

  // ----- The specification of a rotation, file operation by file operation. -----

  /** Removing the oldest generation is operation 0; operation k moves generation keep - k up by one, and the last
      one, with k == keep, moves the live file aside. */
  function AfterOperations(files: Files, keep: nat, performed: nat): Files
    requires 1 <= keep && performed <= keep + 1
  {
    if performed == 0 then files
    else
      var before := AfterOperations(files, keep, performed - 1);
      var g := keep + 1 - performed;
      if performed == 1 then before - {keep}
      else if g in before then Rename(before, g, g + 1) else before
  }

  /** A rotation attempt that performs only so many operations before one fails. */
  function Rotate(files: Files, maxBytes: nat, keep: nat, performed: nat): Files
    requires 1 <= keep && performed <= keep + 1
  {
    if 0 in files && |files[0]| >= maxBytes then AfterOperations(files, keep, performed) else files
  }

  function Append(files: Files, bytes: Bytes): Files {
    files[0 := Content(files, 0) + bytes]
  }

  // ----- The code. -----

  class LogDirectory {
    var files: Files

    constructor ()
      ensures files == map[]
    {
      files := map[];
    }

    /** fs.rmSync with force, which may fail. */
    method Remove(g: nat) returns (ok: bool)
      modifies this
      ensures files == if ok then old(files) - {g} else old(files)
    {
      ok := *;
      if ok {
        files := files - {g};
      }
    }

    /** fs.renameSync, which may fail. */
    method Move(from: nat, to: nat) returns (ok: bool)
      requires from in files
      modifies this
      ensures files == if ok then Rename(old(files), from, to) else old(files)
    {
      ok := *;
      if ok {
        files := Rename(files, from, to);
      }
    }

    /** Never throws: a failing operation ends the attempt where it is. */
    method RotateLogIfOversized(maxBytes: nat, keep: nat) returns (rotated: bool, ghost performed: nat)
      requires 1 <= keep
      modifies this
      ensures performed <= keep + 1
      ensures files == Rotate(old(files), maxBytes, keep, performed)
      ensures rotated <==> performed == keep + 1
      ensures rotated ==> 0 in old(files) && |old(files)[0]| >= maxBytes
    {
      performed := 0;
      var readable := *;
      if !readable || 0 !in files || |files[0]| < maxBytes {
        return false, 0;
      }
      ghost var was := files;
      var ok := Remove(keep);
      if !ok {
        return false, 0;
      }
      performed := 1;
      assert files == AfterOperations(was, keep, 1);
      var generation := keep - 1;
      while generation >= 1
        invariant 0 <= generation <= keep - 1
        invariant performed == keep - generation
        invariant files == AfterOperations(was, keep, performed)
        invariant 0 in files
      {
        if generation in files {
          ok := Move(generation, generation + 1);
          if !ok {
            return false, performed;
          }
        }
        performed := performed + 1;
        generation := generation - 1;
      }
      ok := Move(0, 1);
      if !ok {
        return false, performed;
      }
      return true, performed + 1;
    }

    /** Appending writes everything, or fails having written only a part. */
    method AppendLog(maxBytes: nat, keep: nat, message: Bytes) returns (ghost performed: nat, ghost written: Bytes)
      requires 1 <= keep
      modifies this
      ensures performed <= keep + 1 && written <= message
      ensures files == Append(Rotate(old(files), maxBytes, keep, performed), written)
    {
      var rotated;
      rotated, performed := RotateLogIfOversized(maxBytes, keep);
      var n :| 0 <= n <= |message|;
      var part := message[..n];
      written := part;
      files := files[0 := (if 0 in files then files[0] else []) + part];
    }
  }

  // ----- What stays is a suffix, in order. -----

  /** What the operations performed so far leave: the generations above `gap` are those of the start, moved up by one;
      generation `gap` is free; those below are untouched. */
  lemma {:induction false} Shifted(files: Files, keep: nat, performed: nat)
    requires 1 <= keep && 1 <= performed <= keep + 1
    ensures
      var after := AfterOperations(files, keep, performed);
      var gap := keep + 1 - performed;
      && gap !in after
      && (forall g :: 0 <= g < gap ==> (g in after <==> g in files) && Content(after, g) == Content(files, g))
      && (forall g :: gap < g <= keep ==>
                        (g in after <==> g - 1 in files) && Content(after, g) == Content(files, g - 1))
      && (forall g :: keep < g ==> (g in after <==> g in files) && Content(after, g) == Content(files, g))
    decreases performed
  {
    if performed > 1 {
      Shifted(files, keep, performed - 1);
    }
  }

  lemma {:induction false} SameBelow(a: Files, b: Files, g: nat)
    requires forall h :: 0 <= h <= g ==> Content(a, h) == Content(b, h)
    ensures Kept(a, g) == Kept(b, g)
    decreases g
  {
    if g > 0 {
      SameBelow(a, b, g - 1);
    }
  }

  /** Moving generations up past a free one changes nothing in the concatenation. */
  lemma {:induction false} ShiftKeepsContent(a: Files, b: Files, gap: nat, g: nat)
    requires gap <= g && Content(b, gap) == []
    requires forall h :: 0 <= h < gap ==> Content(b, h) == Content(a, h)
    requires forall h :: gap < h <= g ==> Content(b, h) == Content(a, h - 1)
    ensures Kept(b, g) == if g == 0 then [] else Kept(a, g - 1)
    decreases g
  {
    if g > gap {
      ShiftKeepsContent(a, b, gap, g - 1);
      if gap == 0 && g == 1 {
        assert Content(b, 1) + [] == Content(a, 0);
      }
    } else if g > 0 {
      SameBelow(a, b, g - 1);
      assert [] + Kept(b, g - 1) == Kept(b, g - 1);
    }
  }

  /** However far a rotation gets, it only drops the oldest generation. */
  lemma RotationDropsOldest(files: Files, maxBytes: nat, keep: nat, performed: nat)
    requires 1 <= keep && performed <= keep + 1
    ensures
      var after := Kept(Rotate(files, maxBytes, keep, performed), keep);
      after == Kept(files, keep) || after == Kept(files, keep - 1)
  {
    if performed > 0 && 0 in files && |files[0]| >= maxBytes {
      Shifted(files, keep, performed);
      ShiftKeepsContent(files, AfterOperations(files, keep, performed), keep + 1 - performed, keep);
    }
  }

  lemma {:induction false} AppendExtends(files: Files, bytes: Bytes, g: nat)
    ensures Kept(Append(files, bytes), g) == Kept(files, g) + bytes
    decreases g
  {
    if g > 0 {
      AppendExtends(files, bytes, g - 1);
      assert Content(files, g) + (Kept(files, g - 1) + bytes) == Content(files, g) + Kept(files, g - 1) + bytes;
    }
  }

  datatype Event = Rotation(performed: nat) | Appended(bytes: Bytes)

  ghost predicate Possible(events: seq<Event>, keep: nat) {
    forall i :: 0 <= i < |events| && events[i].Rotation? ==> events[i].performed <= keep + 1
  }

  function After(events: seq<Event>, maxBytes: nat, keep: nat): Files
    requires 1 <= keep && Possible(events, keep)
  {
    if |events| == 0 then map[]
    else
      var before := After(events[..|events| - 1], maxBytes, keep);
      match events[|events| - 1]
      case Rotation(performed) => Rotate(before, maxBytes, keep, performed)
      case Appended(bytes) => Append(before, bytes)
  }

  function Written(events: seq<Event>): Bytes {
    if |events| == 0 then []
    else
      match events[|events| - 1]
      case Rotation(_) => Written(events[..|events| - 1])
      case Appended(bytes) => Written(events[..|events| - 1]) + bytes
  }

  /** After any appends and rotations, with a failure at any file operation, the generations from oldest to live hold
      the last bytes written, in order, each once. */
  lemma {:induction false} KeptIsSuffix(events: seq<Event>, maxBytes: nat, keep: nat)
    requires 1 <= keep && Possible(events, keep)
    ensures IsSuffix(Kept(After(events, maxBytes, keep), keep), Written(events))
    decreases |events|
  {
    if |events| == 0 {
      NothingKept(keep);
    } else {
      var init, last := events[..|events| - 1], events[|events| - 1];
      KeptIsSuffix(init, maxBytes, keep);
      var before := After(init, maxBytes, keep);
      match last {
        case Rotation(performed) =>
          RotationDropsOldest(before, maxBytes, keep, performed);
          SuffixOfSuffix(Content(before, keep), Kept(before, keep - 1), Written(init));
        case Appended(bytes) =>
          AppendExtends(before, bytes, keep);
          SuffixGrows(Kept(before, keep), Written(init), bytes);
      }
    }
  }

  lemma {:induction false} NothingKept(g: nat)
    ensures Kept(map[], g) == []
    decreases g
  {
    if g > 0 {
      NothingKept(g - 1);
    }
  }

  lemma SuffixOfSuffix(a: Bytes, b: Bytes, t: Bytes)
    requires IsSuffix(a + b, t)
    ensures IsSuffix(b, t)
  {
  }

  lemma SuffixGrows(s: Bytes, t: Bytes, more: Bytes)
    requires IsSuffix(s, t)
    ensures IsSuffix(s + more, t + more)
  {
  }

  // ----- How much is kept when no rotation fails. -----

  /** appendLog without failures. */
  function Logged(files: Files, maxBytes: nat, keep: nat, message: Bytes): Files
    requires 1 <= keep
  {
    Append(Rotate(files, maxBytes, keep, keep + 1), message)
  }

  function AfterLogging(messages: seq<Bytes>, maxBytes: nat, keep: nat): Files
    requires 1 <= keep
  {
    if |messages| == 0 then map[]
    else Logged(AfterLogging(messages[..|messages| - 1], maxBytes, keep), maxBytes, keep, messages[|messages| - 1])
  }

  ghost predicate Short(messages: seq<Bytes>, longest: nat) {
    forall i :: 0 <= i < |messages| ==> |messages[i]| <= longest
  }

  ghost predicate Small(files: Files, keep: nat, most: int) {
    forall g :: 0 <= g <= keep ==> |Content(files, g)| <= most
  }

  lemma LoggedStaysSmall(files: Files, maxBytes: nat, keep: nat, message: Bytes, longest: nat)
    requires 1 <= keep && 0 < maxBytes && |message| <= longest
    requires Small(files, keep, maxBytes + longest - 1)
    ensures Small(Logged(files, maxBytes, keep, message), keep, maxBytes + longest - 1)
  {
    var rotated := Rotate(files, maxBytes, keep, keep + 1);
    if 0 in files && |files[0]| >= maxBytes {
      Shifted(files, keep, keep + 1);
    }
    forall g | 0 <= g <= keep
      ensures |Content(Append(rotated, message), g)| <= maxBytes + longest - 1
    {
      if g == 0 {
        assert |Content(rotated, 0)| < maxBytes;
      } else {
        assert Content(Append(rotated, message), g) == Content(rotated, g);
        assert Content(rotated, g) == Content(files, g) || Content(rotated, g) == Content(files, g - 1);
      }
    }
  }

  lemma {:induction false} LoggingStaysSmall(messages: seq<Bytes>, maxBytes: nat, keep: nat, longest: nat)
    requires 1 <= keep && 0 < maxBytes && Short(messages, longest)
    ensures Small(AfterLogging(messages, maxBytes, keep), keep, maxBytes + longest - 1)
    decreases |messages|
  {
    if |messages| > 0 {
      var init := messages[..|messages| - 1];
      LoggingStaysSmall(init, maxBytes, keep, longest);
      LoggedStaysSmall(AfterLogging(init, maxBytes, keep), maxBytes, keep, messages[|messages| - 1], longest);
    }
  }

  lemma {:induction false} TotalOf(files: Files, keep: nat, most: nat, g: nat)
    requires g <= keep && Small(files, keep, most)
    ensures |Kept(files, g)| <= (g + 1) * most
    decreases g
  {
    if g > 0 {
      TotalOf(files, keep, most, g - 1);
      assert Kept(files, g) == Content(files, g) + Kept(files, g - 1);
      assert |Content(files, g)| <= most;
      OneMoreTimes(g, most);
    } else {
      assert |Content(files, 0)| <= most;
    }
  }

  lemma OneMoreTimes(n: nat, limit: nat)
    ensures (n + 1) * limit == n * limit + limit
  {
  }

  /** When no rotation fails, at most keep + 1 files of one byte less than the limit plus the longest message are
      kept. */
  lemma TotalIsBounded(messages: seq<Bytes>, maxBytes: nat, keep: nat, longest: nat)
    requires 1 <= keep && 0 < maxBytes && Short(messages, longest)
    ensures |Kept(AfterLogging(messages, maxBytes, keep), keep)| <= (keep + 1) * (maxBytes + longest - 1)
  {
    LoggingStaysSmall(messages, maxBytes, keep, longest);
    TotalOf(AfterLogging(messages, maxBytes, keep), keep, maxBytes + longest - 1, keep);
  }

  // ----- The bound is attained. -----

  /** So many bytes. */
  function Filler(n: nat): (b: Bytes)
    ensures |b| == n
  {
    seq(n, i => 0)
  }

  /** Messages that fill one generation to the brim: one byte each until one is missing, then the longest one. */
  ghost function Round(maxBytes: nat, longest: nat): (messages: seq<Bytes>)
    requires 0 < maxBytes && 0 < longest
    ensures |messages| == maxBytes && Short(messages, longest)
    ensures forall i :: 0 <= i < maxBytes ==> |messages[i]| == if i == maxBytes - 1 then longest else 1
  {
    Ones(maxBytes - 1) + [Filler(longest)]
  }

  function Ones(n: nat): (messages: seq<Bytes>)
    ensures |messages| == n
    ensures forall i :: 0 <= i < n ==> |messages[i]| == 1
  {
    if n == 0 then [] else Ones(n - 1) + [Filler(1)]
  }

  ghost function Rounds(n: nat, maxBytes: nat, longest: nat): (messages: seq<Bytes>)
    requires 0 < maxBytes && 0 < longest
    ensures Short(messages, longest)
  {
    if n == 0 then [] else Rounds(n - 1, maxBytes, longest) + Round(maxBytes, longest)
  }

  /** The live file has so many bytes, and the generations up to n are full. */
  ghost predicate Filled(files: Files, n: nat, live: nat, size: nat) {
    && (0 in files <==> live > 0) && |Content(files, 0)| == live
    && forall g :: 1 <= g <= n ==> |Content(files, g)| == size
  }

  /** A live file below the limit grows by a message. */
  lemma FilledGrows(files: Files, maxBytes: nat, keep: nat, n: nat, live: nat, size: nat, message: Bytes)
    requires 1 <= keep && live < maxBytes && 0 < |message|
    requires Filled(files, n, live, size)
    ensures Filled(Logged(files, maxBytes, keep, message), n, live + |message|, size)
  {
    var logged := Append(files, message);
    assert Rotate(files, maxBytes, keep, keep + 1) == files;
    assert forall g :: 1 <= g <= n ==> Content(logged, g) == Content(files, g);
  }

  /** A full one is moved aside. */
  lemma FilledMoves(files: Files, maxBytes: nat, keep: nat, n: nat, size: nat, message: Bytes)
    requires n < keep && 0 < maxBytes <= size && 0 < |message|
    requires Filled(files, n, size, size)
    ensures Filled(Logged(files, maxBytes, keep, message), n + 1, |message|, size)
  {
    var rotated := Rotate(files, maxBytes, keep, keep + 1);
    Shifted(files, keep, keep + 1);
    assert Content(rotated, 0) == [];
    forall g | 1 <= g <= n + 1
      ensures |Content(Append(rotated, message), g)| == size
    {
      assert Content(Append(rotated, message), g) == Content(rotated, g) == Content(files, g - 1);
    }
  }

  /** How long the live file is after so many messages of a round. */
  function LiveAfter(maxBytes: nat, longest: nat, k: nat): (live: nat)
    requires 0 < maxBytes && 0 < longest
  {
    if k == maxBytes then maxBytes + longest - 1 else k
  }

  /** The state after some messages of the round that follows n full ones. */
  lemma {:induction false} RoundFills(maxBytes: nat, keep: nat, longest: nat, n: nat, k: nat)
    requires 1 <= keep && 0 < maxBytes && 0 < longest && n <= keep && 1 <= k <= maxBytes
    ensures
      var messages := Rounds(n, maxBytes, longest) + Round(maxBytes, longest)[..k];
      Filled(AfterLogging(messages, maxBytes, keep), n, LiveAfter(maxBytes, longest, k), maxBytes + longest - 1)
    decreases n, k
  {
    var size, round := maxBytes + longest - 1, Round(maxBytes, longest);
    var before, last := Rounds(n, maxBytes, longest) + round[..k - 1], round[k - 1];
    var files := AfterLogging(before, maxBytes, keep);
    assert Rounds(n, maxBytes, longest) + round[..k] == before + [last];
    LoggedNext(before, last, maxBytes, keep);
    if k > 1 {
      RoundFills(maxBytes, keep, longest, n, k - 1);
      FilledGrows(files, maxBytes, keep, n, k - 1, size, last);
    } else {
      assert before == Rounds(n, maxBytes, longest);
      if n == 0 {
        FilledGrows(files, maxBytes, keep, 0, 0, size, last);
      } else {
        RoundFills(maxBytes, keep, longest, n - 1, maxBytes);
        assert round[..maxBytes] == round;
        FilledMoves(files, maxBytes, keep, n - 1, size, last);
      }
    }
  }

  lemma LoggedNext(before: seq<Bytes>, last: Bytes, maxBytes: nat, keep: nat)
    requires 1 <= keep
    ensures AfterLogging(before + [last], maxBytes, keep)
            == Logged(AfterLogging(before, maxBytes, keep), maxBytes, keep, last)
  {
    assert (before + [last])[..|before|] == before;
  }

  lemma {:induction false} TotalWhenFilled(files: Files, size: nat, g: nat)
    requires Filled(files, g, size, size)
    ensures |Kept(files, g)| == (g + 1) * size
    decreases g
  {
    if g > 0 {
      TotalWhenFilled(files, size, g - 1);
      assert Kept(files, g) == Content(files, g) + Kept(files, g - 1);
      OneMoreTimes(g, size);
    }
  }

  /** For every limit and every longest message some history keeps exactly that much. */
  lemma BoundIsAttained(maxBytes: nat, keep: nat, longest: nat)
    requires 1 <= keep && 0 < maxBytes && 0 < longest
    ensures
      var messages := Rounds(keep + 1, maxBytes, longest);
      Short(messages, longest) &&
      |Kept(AfterLogging(messages, maxBytes, keep), keep)| == (keep + 1) * (maxBytes + longest - 1)
  {
    var round := Round(maxBytes, longest);
    assert round[..maxBytes] == round;
    RoundFills(maxBytes, keep, longest, keep, maxBytes);
    TotalWhenFilled(AfterLogging(Rounds(keep + 1, maxBytes, longest), maxBytes, keep), maxBytes + longest - 1, keep);
  }

  // ----- The documented total. -----

  ghost predicate KeepsDocumentedTotal(messages: seq<Bytes>, maxBytes: nat, keep: nat)
    requires 1 <= keep
  {
    |Kept(AfterLogging(messages, maxBytes, keep), keep)| <= maxBytes * (keep + 1)
  }

  /** The limit is checked before the append, so the documented total of maxBytes * (keep + 1) holds of all histories
      with messages up to some length exactly when that length is at most one byte. */
  lemma DocumentedTotalIsMet(maxBytes: nat, keep: nat, longest: nat)
    requires 1 <= keep && 0 < maxBytes
    ensures (forall messages :: Short(messages, longest) ==> KeepsDocumentedTotal(messages, maxBytes, keep))
            <==> longest <= 1
  {
    if longest <= 1 {
      forall messages | Short(messages, longest)
        ensures KeepsDocumentedTotal(messages, maxBytes, keep)
      {
        TotalIsBounded(messages, maxBytes, keep, longest);
        TimesGrows(keep + 1, maxBytes + longest - 1, maxBytes);
      }
    } else {
      DocumentedTotalIsExceeded(maxBytes, keep, longest);
    }
  }

  lemma TimesGrows(n: nat, a: int, b: int)
    requires a <= b
    ensures n * a <= n * b
  {
  }

  /** With messages of two bytes or more, some history exceeds it. */
  lemma DocumentedTotalIsExceeded(maxBytes: nat, keep: nat, longest: nat)
    requires 1 <= keep && 0 < maxBytes && 2 <= longest
    ensures
      var messages := Rounds(keep + 1, maxBytes, longest);
      Short(messages, longest) && !KeepsDocumentedTotal(messages, maxBytes, keep)
  {
    BoundIsAttained(maxBytes, keep, longest);
    TimesGrows(keep + 1, maxBytes + 1, maxBytes + longest - 1);
    OneMoreTimes(maxBytes, keep + 1);
  }
}
