/** Line endings and byte order mark of the editor: what frontend/src/editor/lineEndings.ts reads from a file, and
    what saving writes back. */
module LineEndings {
  const CR := '\r'

  const LF := '\n'

  const BOM := '\U{FEFF}'

  datatype Ending = Crlf | Lf | Cr

  datatype Layout = Layout(eol: Ending, bom: bool, body: string)

  function Units(e: Ending): (t: string)
    ensures 1 <= |t| <= 2
  {
    match e
    case Crlf => [CR, LF]
    case Lf => [LF]
    case Cr => [CR]
  }

  // ----- The line breaks of a text. -----

  predicate CrlfAt(t: string, i: nat) {
    i + 1 < |t| && t[i] == CR && t[i + 1] == LF
  }

  /** The breaks from left to right, CRLF counting as one. */
  ghost function Breaks(t: string): seq<Ending> {
    if |t| == 0 then []
    else if CrlfAt(t, 0) then [Crlf] + Breaks(t[2..])
    else if t[0] == CR then [Cr] + Breaks(t[1..])
    else if t[0] == LF then [Lf] + Breaks(t[1..])
    else Breaks(t[1..])
  }

  /** The kind of break that starts at a position, told from its neighbours; the LF of a CRLF starts none. */
  ghost predicate BreakAt(t: string, i: nat, e: Ending)
    requires i < |t|
  {
    match e
    case Crlf => CrlfAt(t, i)
    case Lf => t[i] == LF && (i == 0 || t[i - 1] != CR)
    case Cr => t[i] == CR && !CrlfAt(t, i)
  }

  /** How many breaks of one kind there are. */
  ghost function Count(t: string, e: Ending): nat {
    |PositionsFrom(t, e, 0)|
  }

  ghost function PositionsFrom(t: string, e: Ending, i: nat): set<nat> {
    set j: nat | i <= j < |t| && BreakAt(t, j, e)
  }

  lemma NextPosition(t: string, e: Ending, i: nat)
    requires i < |t|
    ensures |PositionsFrom(t, e, i)| == (if BreakAt(t, i, e) then 1 else 0) + |PositionsFrom(t, e, i + 1)|
  {
    var here, rest := PositionsFrom(t, e, i), PositionsFrom(t, e, i + 1);
    if BreakAt(t, i, e) {
      OneMore(here, rest, i);
    } else {
      assert here == rest;
    }
  }

  lemma OneMore(here: set<nat>, rest: set<nat>, i: nat)
    requires i !in rest && forall j :: j in here <==> j in rest || j == i
    ensures |here| == 1 + |rest|
  {
    assert here == rest + {i};
  }

  lemma NoPositionsLeft(t: string, e: Ending)
    ensures |PositionsFrom(t, e, |t|)| == 0
  {
  }

  lemma CountFirst(first: seq<Ending>, rest: seq<Ending>, e: Ending)
    requires |first| <= 1
    ensures multiset(first + rest)[e] == (if first == [e] then 1 else 0) + multiset(rest)[e]
  {
  }

  /** How often a kind is in the list of the breaks from a position on. */
  ghost function CountFrom(t: string, i: nat, e: Ending): nat
    requires i <= |t|
  {
    multiset(Breaks(t[i..]))[e]
  }

  /** Counting by position agrees with the list of breaks. */
  lemma {:induction false} BreaksByPosition(t: string, e: Ending, i: nat)
    requires i <= |t| && !(0 < i && CrlfAt(t, i - 1))
    ensures |PositionsFrom(t, e, i)| == CountFrom(t, i, e)
    decreases |t| - i
  {
    if i == |t| {
      NoPositionsLeft(t, e);
    } else {
      CountStep(t, i, e);
      PositionsStep(t, e, i);
      BreaksByPosition(t, e, i + Width(t, i));
    }
  }

  lemma PositionsStep(t: string, e: Ending, i: nat)
    requires i < |t| && !(0 < i && CrlfAt(t, i - 1))
    ensures |PositionsFrom(t, e, i)| == (if Met(t, i) == [e] then 1 else 0) + |PositionsFrom(t, e, i + Width(t, i))|
  {
    NextPosition(t, e, i);
    if CrlfAt(t, i) {
      NextPosition(t, e, i + 1);
    }
  }

  lemma CountStep(t: string, i: nat, e: Ending)
    requires i < |t|
    ensures CountFrom(t, i, e) == (if Met(t, i) == [e] then 1 else 0) + CountFrom(t, i + Width(t, i), e)
  {
    FirstBreak(t, i);
    CountFirst(Met(t, i), Breaks(t[i + Width(t, i)..]), e);
  }

  /** The break that a scan meets at a position, if any. */
  ghost function Met(t: string, i: nat): (met: seq<Ending>)
    requires i < |t|
    ensures |met| <= 1
  {
    if CrlfAt(t, i) then [Crlf] else if t[i] == CR then [Cr] else if t[i] == LF then [Lf] else []
  }

  ghost function Width(t: string, i: nat): nat {
    if CrlfAt(t, i) then 2 else 1
  }

  lemma FirstBreak(t: string, i: nat)
    requires i < |t|
    ensures Breaks(t[i..]) == Met(t, i) + Breaks(t[i + Width(t, i)..])
  {
  }

  // ----- Reading. -----

  /** The ending has the most breaks; ties go to CRLF, then LF, then CR, and a text without breaks gets LF. */
  ghost predicate IsDominant(crlf: nat, lf: nat, cr: nat, e: Ending) {
    match e
    case Crlf => crlf > 0 && crlf >= lf && crlf >= cr
    case Lf => (lf > crlf || crlf == 0) && lf >= cr
    case Cr => cr > lf && cr > crlf
  }

  ghost predicate IsEndingOf(t: string, e: Ending) {
    IsDominant(Count(t, Crlf), Count(t, Lf), Count(t, Cr), e)
  }

  /** There is one such ending, no kind of break is more frequent, and it occurs if any break does. */
  lemma EndingIsMostFrequent(t: string, a: Ending)
    requires IsEndingOf(t, a)
    ensures forall b :: Count(t, b) <= Count(t, a)
    ensures forall b :: IsEndingOf(t, b) ==> b == a
    ensures forall b :: Count(t, b) > 0 ==> Count(t, a) > 0
  {
  }

  method AnalyzeText(raw: string) returns (layout: Layout)
    ensures layout.bom <==> |raw| > 0 && raw[0] == BOM
    ensures raw == (if layout.bom then [BOM] else []) + layout.body
    ensures IsEndingOf(layout.body, layout.eol)
  {
    var bom := |raw| > 0 && raw[0] == BOM;
    var body := if bom then raw[1..] else raw;
    var crlf, lf, cr := CountBreaks(body);
    var eol := Lf;
    if crlf > 0 && crlf >= lf && crlf >= cr {
      eol := Crlf;
    } else if cr > lf {
      eol := Cr;
    }
    layout := Layout(eol, bom, body);
  }

  /** The counting loop, which steps over the LF of a CRLF. */
  method CountBreaks(body: string) returns (crlf: nat, lf: nat, cr: nat)
    ensures crlf == Count(body, Crlf) && lf == Count(body, Lf) && cr == Count(body, Cr)
  {
    crlf, lf, cr := 0, 0, 0;
    var i := 0;
    while i < |body|
      invariant 0 <= i <= |body| && !(0 < i && CrlfAt(body, i - 1))
      invariant crlf + |PositionsFrom(body, Crlf, i)| == Count(body, Crlf)
      invariant lf + |PositionsFrom(body, Lf, i)| == Count(body, Lf)
      invariant cr + |PositionsFrom(body, Cr, i)| == Count(body, Cr)
    {
      AllNext(body, i);
      var c := body[i];
      if c == CR {
        if i + 1 < |body| && body[i + 1] == LF {
          AllNext(body, i + 1);
          crlf := crlf + 1;
          i := i + 1;
        } else {
          cr := cr + 1;
        }
      } else if c == LF {
        lf := lf + 1;
      }
      i := i + 1;
    }
    NoPositionsLeft(body, Crlf);
    NoPositionsLeft(body, Lf);
    NoPositionsLeft(body, Cr);
  }

  lemma AllNext(t: string, i: nat)
    requires i < |t|
    ensures forall e :: |PositionsFrom(t, e, i)| == (if BreakAt(t, i, e) then 1 else 0) + |PositionsFrom(t, e, i + 1)|
  {
    forall e
      ensures |PositionsFrom(t, e, i)| == (if BreakAt(t, i, e) then 1 else 0) + |PositionsFrom(t, e, i + 1)|
    {
      NextPosition(t, e, i);
    }
  }

  function EncodeForSave(editorText: string, bom: bool): string {
    if bom then [BOM] + editorText else editorText
  }

  // ----- The editor's document: characters, and breaks that stand for the file's ending. -----

  datatype Token = Char(unit: char) | Break

  /** The text of a document: every break written as the file's ending. */
  function Render(doc: seq<Token>, e: Ending): string {
    if |doc| == 0 then [] else Piece(doc[0], e) + Render(doc[1..], e)
  }

  function Piece(t: Token, e: Ending): string {
    match t
    case Char(u) => [u]
    case Break => Units(e)
  }

  /** Reading a text: only the file's ending breaks lines, anything else stays in the line. */
  function Tokenize(t: string, e: Ending): seq<Token> {
    if |t| == 0 then []
    else if AtEnding(t, e) then [Break] + Tokenize(t[|Units(e)|..], e)
    else [Char(t[0])] + Tokenize(t[1..], e)
  }

  predicate AtEnding(t: string, e: Ending)
    ensures AtEnding(t, e) ==> |t| >= |Units(e)| && t == Units(e) + t[|Units(e)|..]
  {
    match e
    case Crlf => CrlfAt(t, 0)
    case Lf => |t| > 0 && t[0] == LF
    case Cr => |t| > 0 && t[0] == CR
  }

  lemma {:induction false} RenderTokenize(t: string, e: Ending)
    ensures Render(Tokenize(t, e), e) == t
    decreases |t|
  {
    if |t| > 0 {
      var n := if AtEnding(t, e) then |Units(e)| else 1;
      RenderTokenize(t[n..], e);
      assert t == t[..n] + t[n..];
      assert Tokenize(t, e)[1..] == Tokenize(t[n..], e);
    }
  }

  lemma Regroup(a: string, b: string, c: string)
    ensures a + (b + c) == (a + b) + c
  {
  }

  lemma RenderFirst(first: Token, rest: seq<Token>, e: Ending)
    ensures Render([first] + rest, e) == Piece(first, e) + Render(rest, e)
  {
    assert ([first] + rest)[1..] == rest;
  }

  lemma {:induction false} RenderConcat(a: seq<Token>, b: seq<Token>, e: Ending)
    ensures Render(a + b, e) == Render(a, e) + Render(b, e)
    decreases |a|
  {
    if |a| == 0 {
      assert a + b == b;
    } else {
      var rest := a[1..];
      RenderConcat(rest, b, e);
      assert a + b == [a[0]] + (rest + b) && a == [a[0]] + rest;
      RenderFirst(a[0], rest + b, e);
      RenderFirst(a[0], rest, e);
      Regroup(Piece(a[0], e), Render(rest, e), Render(b, e));
    }
  }

  /** Opening a file and saving it unchanged writes back what was read, whatever endings it mixes. */
  method OpenAndSave(raw: string) returns (saved: string)
    ensures saved == raw
  {
    var layout := AnalyzeText(raw);
    var doc := Tokenize(layout.body, layout.eol);
    RenderTokenize(layout.body, layout.eol);
    saved := EncodeForSave(Render(doc, layout.eol), layout.bom);
  }

  // ----- What is typed or pasted. -----

  /** text.replace(/\r\n|\r|\n/g, eol) */
  function Normalize(t: string, e: Ending): string {
    if |t| == 0 then []
    else if |t| >= 2 && t[0] == CR && t[1] == LF then Units(e) + Normalize(t[2..], e)
    else if t[0] == CR || t[0] == LF then Units(e) + Normalize(t[1..], e)
    else [t[0]] + Normalize(t[1..], e)
  }

  /** The text between the breaks. */
  ghost function Lines(t: string): (lines: seq<string>)
    ensures |lines| >= 1
  {
    if |t| == 0 then [[]]
    else if CrlfAt(t, 0) then [[]] + Lines(t[2..])
    else if t[0] == CR || t[0] == LF then [[]] + Lines(t[1..])
    else
      var rest := Lines(t[1..]);
      [[t[0]] + rest[0]] + rest[1..]
  }

  lemma {:induction false} NormalizedStart(t: string, e: Ending)
    ensures !e.Lf? && |Normalize(t, e)| > 0 ==> Normalize(t, e)[0] != LF
  {
  }

  /** Normalising replaces every break by the file's ending, break for break, and leaves the lines alone. */
  lemma {:induction false} NormalizeKeepsLines(t: string, e: Ending)
    ensures Breaks(Normalize(t, e)) == seq(|Breaks(t)|, _ => e)
    ensures Lines(Normalize(t, e)) == Lines(t)
    decreases |t|
  {
    if |t| > 0 {
      var n := if CrlfAt(t, 0) then 2 else 1;
      NormalizeKeepsLines(t[n..], e);
      var rest := Normalize(t[n..], e);
      NormalizedStart(t[n..], e);
      if t[0] == CR || t[0] == LF {
        LeadingEnding(rest, e);
        assert Breaks(t) == [if n == 2 then Crlf else if t[0] == CR then Cr else Lf] + Breaks(t[n..]);
        assert seq(|Breaks(t)|, _ => e) == [e] + seq(|Breaks(t[n..])|, _ => e);
      } else {
        assert ([t[0]] + rest)[1..] == rest;
        assert !CrlfAt([t[0]] + rest, 0);
      }
    }
  }

  lemma LeadingEnding(rest: string, e: Ending)
    requires e.Cr? && |rest| > 0 ==> rest[0] != LF
    ensures Breaks(Units(e) + rest) == [e] + Breaks(rest)
    ensures Lines(Units(e) + rest) == [[]] + Lines(rest)
  {
    assert (Units(e) + rest)[|Units(e)|..] == rest;
  }

  // ----- One transaction. -----

  datatype Change = Change(from: nat, to: nat, insert: seq<Token>)

  /** Changes in document order that do not overlap. */
  ghost predicate Fits(doc: seq<Token>, changes: seq<Change>) {
    && (forall i :: 0 <= i < |changes| ==> changes[i].from <= changes[i].to <= |doc|)
    && (forall i, j :: 0 <= i < j < |changes| ==> changes[i].to <= changes[j].from)
  }

  /** The document after the changes: the parts between them are kept. */
  ghost function Apply(doc: seq<Token>, changes: seq<Change>): seq<Token>
    requires Fits(doc, changes)
  {
    ApplyFrom(doc, changes, 0)
  }

  ghost function ApplyFrom(doc: seq<Token>, changes: seq<Change>, at: nat): seq<Token>
    requires Fits(doc, changes) && at <= |doc| && (|changes| > 0 ==> at <= changes[0].from)
    decreases |changes|
  {
    if |changes| == 0 then doc[at..]
    else doc[at..changes[0].from] + changes[0].insert + ApplyFrom(doc, changes[1..], changes[0].to)
  }

  /** The same range, with the inserted text normalised. */
  ghost predicate Normalizes(r: Change, c: Change, e: Ending) {
    r.from == c.from && r.to == c.to && Render(r.insert, e) == Normalize(Render(c.insert, e), e)
  }

  ghost predicate NormalizesAll(rs: seq<Change>, cs: seq<Change>, e: Ending) {
    |rs| == |cs| && forall i :: 0 <= i < |cs| ==> Normalizes(rs[i], cs[i], e)
  }

  lemma NormalizesOneMore(rs: seq<Change>, cs: seq<Change>, r: Change, i: nat, e: Ending)
    requires i < |cs| && NormalizesAll(rs, cs[..i], e) && Normalizes(r, cs[i], e)
    ensures NormalizesAll(rs + [r], cs[..i + 1], e)
  {
  }

  /** The transaction filter: when no inserted text changes, the transaction goes through as it is. */
  method FilterTransaction(changes: seq<Change>, e: Ending) returns (result: seq<Change>)
    ensures NormalizesAll(result, changes, e)
  {
    var next: seq<Change> := [];
    var rewritten := false;
    var i := 0;
    while i < |changes|
      invariant 0 <= i <= |changes|
      invariant NormalizesAll(next, changes[..i], e)
      invariant !rewritten ==> NormalizesAll(changes[..i], changes[..i], e)
    {
      var normalized, differs := FilterChange(changes[i], e);
      NormalizesOneMore(next, changes, normalized, i, e);
      if differs {
        rewritten := true;
      } else if !rewritten {
        NormalizesOneMore(changes[..i], changes, changes[i], i, e);
        assert changes[..i] + [changes[i]] == changes[..i + 1];
      }
      next := next + [normalized];
      i := i + 1;
    }
    assert changes[..i] == changes;
    result := if rewritten then next else changes;
  }

  /** The body of the loop over the changes. */
  method FilterChange(c: Change, e: Ending) returns (normalized: Change, differs: bool)
    ensures Normalizes(normalized, c, e)
    ensures !differs ==> Normalizes(c, c, e)
  {
    var text := Render(c.insert, e);
    var insert := Normalize(text, e);
    RenderTokenize(insert, e);
    normalized := Change(c.from, c.to, Tokenize(insert, e));
    differs := insert != text;
  }

  /** The saved text of an edited document, straight from the bytes of the old one: the bytes between the changed
      ranges are the old ones, and each changed range is replaced by normalised text. */
  ghost function Spliced(doc: seq<Token>, changes: seq<Change>, at: nat, e: Ending): string
    requires Fits(doc, changes) && at <= |doc| && (|changes| > 0 ==> at <= changes[0].from)
    decreases |changes|
  {
    if |changes| == 0 then Render(doc[at..], e)
    else
      Render(doc[at..changes[0].from], e) + Normalize(Render(changes[0].insert, e), e)
      + Spliced(doc, changes[1..], changes[0].to, e)
  }

  lemma {:induction false} EditTouchesOnlyItsRanges(doc: seq<Token>, changes: seq<Change>, result: seq<Change>,
                                                  at: nat, e: Ending)
    requires Fits(doc, changes) && Fits(doc, result) && NormalizesAll(result, changes, e)
    requires at <= |doc| && (|changes| > 0 ==> at <= changes[0].from)
    ensures Render(ApplyFrom(doc, result, at), e) == Spliced(doc, changes, at, e)
    decreases |changes|
  {
    if |changes| > 0 {
      var c := result[0];
      EditTouchesOnlyItsRanges(doc, changes[1..], result[1..], c.to, e);
      var rest := ApplyFrom(doc, result[1..], c.to);
      RenderConcat(doc[at..c.from] + c.insert, rest, e);
      RenderConcat(doc[at..c.from], c.insert, e);
    }
  }

  /** The bytes of the old document fall into the same kept ranges, with the replaced ones between them. */
  lemma {:induction false} OldBytesInRanges(doc: seq<Token>, from: nat, to: nat, e: Ending)
    requires from <= to <= |doc|
    ensures Render(doc, e) == Render(doc[..from], e) + Render(doc[from..to], e) + Render(doc[to..], e)
  {
    RenderConcat(doc[..from], doc[from..to], e);
    RenderConcat(doc[..to], doc[to..], e);
    assert doc[..to] == doc[..from] + doc[from..to];
    assert doc == doc[..to] + doc[to..];
  }

  /** One edit of an opened file, saved: outside the edited range the file keeps its bytes, minority endings
      included, and every line break of the inserted text has become the file's own. */
  lemma OneEdit(doc: seq<Token>, c: Change, r: Change, e: Ending)
    requires c.from <= c.to <= |doc| && Normalizes(r, c, e)
    ensures Fits(doc, [r])
    ensures
      var inserted := Normalize(Render(c.insert, e), e);
      && Render(Apply(doc, [r]), e) == Render(doc[..c.from], e) + inserted + Render(doc[c.to..], e)
      && Render(doc, e) == Render(doc[..c.from], e) + Render(doc[c.from..c.to], e) + Render(doc[c.to..], e)
      && (forall b :: b in Breaks(inserted) ==> b == e)
      && Lines(inserted) == Lines(Render(c.insert, e))
  {
    EditTouchesOnlyItsRanges(doc, [c], [r], 0, e);
    assert [c][1..] == [] && doc[0..c.from] == doc[..c.from];
    assert Spliced(doc, [], c.to, e) == Render(doc[c.to..], e);
    OldBytesInRanges(doc, c.from, c.to, e);
    NormalizeKeepsLines(Render(c.insert, e), e);
  }

  // ----- The seams of an edit. -----

  /** A carriage return and a line feed meet where two texts are joined. */
  predicate Seam(a: string, b: string) {
    |a| > 0 && |b| > 0 && a[|a| - 1] == CR && b[0] == LF
  }

  /** Joined texts keep their breaks; across a seam two of them become one CRLF. */
  lemma {:induction false} JoinedBreaks(a: string, b: string)
    ensures !Seam(a, b) ==> Breaks(a + b) == Breaks(a) + Breaks(b)
    ensures Seam(a, b) ==> |Breaks(a + b)| == |Breaks(a)| + |Breaks(b)| - 1
    decreases |a|
  {
    if |a| == 0 {
      assert a + b == b;
    } else if a == [CR] && Seam(a, b) {
      SeamBreaks(b);
    } else {
      var n := Width(a, 0);
      JoinedBreaks(a[n..], b);
      JoinStep(a, b);
      if !Seam(a, b) {
        RegroupBreaks(Met(a, 0), Breaks(a[n..]), Breaks(b));
      }
    }
  }

  lemma RegroupBreaks(a: seq<Ending>, b: seq<Ending>, c: seq<Ending>)
    ensures a + (b + c) == (a + b) + c
  {
  }

  lemma JoinStep(a: string, b: string)
    requires |a| > 0 && !(a == [CR] && Seam(a, b))
    ensures Seam(a, b) <==> Seam(a[Width(a, 0)..], b)
    ensures Breaks(a) == Met(a, 0) + Breaks(a[Width(a, 0)..])
    ensures Breaks(a + b) == Met(a, 0) + Breaks(a[Width(a, 0)..] + b)
  {
    var n := Width(a, 0);
    assert a[0..] == a && (a + b)[0..] == a + b && (a + b)[n..] == a[n..] + b;
    FirstBreak(a, 0);
    FirstBreak(a + b, 0);
  }

  lemma SeamBreaks(b: string)
    requires Seam([CR], b)
    ensures |Breaks([CR] + b)| == |Breaks([CR])| + |Breaks(b)| - 1
  {
    var all := [CR] + b;
    assert all[2..] == b[1..];
    assert Breaks(all) == [Crlf] + Breaks(b[1..]);
    assert Breaks(b) == [Lf] + Breaks(b[1..]);
    assert Breaks([CR]) == [Cr] + Breaks([]);
  }

  /** The saved breaks of an edit are those of the kept text before it, of the inserted text and of the kept text
      behind it exactly when no carriage return meets a line feed at either end of the inserted text. */
  lemma EditKeepsBreaks(before: string, inserted: string, behind: string)
    ensures Breaks(before + inserted + behind) == Breaks(before) + Breaks(inserted) + Breaks(behind)
            <==> !Seam(before, inserted) && !Seam(before + inserted, behind)
  {
    JoinedBreaks(before, inserted);
    JoinedBreaks(before + inserted, behind);
    if Seam(before, inserted) || Seam(before + inserted, behind) {
      assert |Breaks(before) + Breaks(inserted) + Breaks(behind)|
          == |Breaks(before)| + |Breaks(inserted)| + |Breaks(behind)|;
      assert |Breaks(before + inserted)| <= |Breaks(before)| + |Breaks(inserted)|;
    }
  }

  /** The same of one edit of an opened file. */
  lemma OneEditKeepsBreaks(doc: seq<Token>, c: Change, r: Change, e: Ending)
    requires c.from <= c.to <= |doc| && Normalizes(r, c, e)
    ensures Fits(doc, [r])
    ensures
      var before, inserted, behind := Render(doc[..c.from], e), Normalize(Render(c.insert, e), e),
          Render(doc[c.to..], e);
      Breaks(Render(Apply(doc, [r]), e)) == Breaks(before) + Breaks(inserted) + Breaks(behind)
      <==> !Seam(before, inserted) && !Seam(before + inserted, behind)
  {
    OneEdit(doc, c, r, e);
    EditKeepsBreaks(Render(doc[..c.from], e), Normalize(Render(c.insert, e), e), Render(doc[c.to..], e));
  }

  function Joined(pieces: seq<string>): string {
    if |pieces| == 0 then "" else Joined(pieces[..|pieces| - 1]) + pieces[|pieces| - 1]
  }

  ghost function BreaksOfEach(pieces: seq<string>): seq<Ending> {
    if |pieces| == 0 then []
    else BreaksOfEach(pieces[..|pieces| - 1]) + Breaks(pieces[|pieces| - 1])
  }

  /** No piece begins with a line feed behind a text that ends in a carriage return. */
  ghost predicate Seamless(pieces: seq<string>) {
    forall k :: 0 <= k < |pieces| ==> !Seam(Joined(pieces[..k]), pieces[k])
  }

  lemma {:induction false} JoinedPieces(pieces: seq<string>)
    ensures Seamless(pieces) ==> Breaks(Joined(pieces)) == BreaksOfEach(pieces)
    ensures !Seamless(pieces) ==> |Breaks(Joined(pieces))| < |BreaksOfEach(pieces)|
    decreases |pieces|
  {
    if |pieces| > 0 {
      var init, last := pieces[..|pieces| - 1], pieces[|pieces| - 1];
      JoinedPieces(init);
      JoinedBreaks(Joined(init), last);
      SeamlessLast(pieces);
    }
  }

  lemma SeamlessLast(pieces: seq<string>)
    requires |pieces| > 0
    ensures
      var init, last := pieces[..|pieces| - 1], pieces[|pieces| - 1];
      Seamless(pieces) <==> Seamless(init) && !Seam(Joined(init), last)
  {
    var init := pieces[..|pieces| - 1];
    assert forall k :: 0 <= k < |init| ==> init[..k] == pieces[..k] && init[k] == pieces[k];
  }

  lemma {:induction false} JoinedFront(first: string, rest: seq<string>)
    ensures Joined([first] + rest) == first + Joined(rest)
    decreases |rest|
  {
    if |rest| == 0 {
      assert ([first] + rest)[..0] == [] && Joined([]) == "";
    } else {
      JoinedFront(first, rest[..|rest| - 1]);
      assert ([first] + rest)[..|rest|] == [first] + rest[..|rest| - 1];
    }
  }

  lemma JoinedOne(piece: string)
    ensures Joined([piece]) == piece
  {
    assert [piece][..0] == [];
  }

  lemma JoinedTwo(kept: string, inserted: string, rest: seq<string>)
    ensures Joined([kept] + ([inserted] + rest)) == kept + inserted + Joined(rest)
  {
    JoinedFront(inserted, rest);
    JoinedFront(kept, [inserted] + rest);
  }

  /** The pieces of a saved transaction: kept and inserted texts in turn. */
  ghost function Pieces(doc: seq<Token>, changes: seq<Change>, at: nat, e: Ending): seq<string>
    requires Fits(doc, changes) && at <= |doc| && (|changes| > 0 ==> at <= changes[0].from)
    decreases |changes|
  {
    if |changes| == 0 then [Render(doc[at..], e)]
    else
      [Render(doc[at..changes[0].from], e)]
      + ([Normalize(Render(changes[0].insert, e), e)] + Pieces(doc, changes[1..], changes[0].to, e))
  }

  lemma {:induction false} SplicedIsJoined(doc: seq<Token>, changes: seq<Change>, at: nat, e: Ending)
    requires Fits(doc, changes) && at <= |doc| && (|changes| > 0 ==> at <= changes[0].from)
    ensures Joined(Pieces(doc, changes, at, e)) == Spliced(doc, changes, at, e)
    decreases |changes|
  {
    if |changes| == 0 {
      JoinedOne(Render(doc[at..], e));
    } else {
      var c := changes[0];
      SplicedIsJoined(doc, changes[1..], c.to, e);
      JoinedTwo(Render(doc[at..c.from], e), Normalize(Render(c.insert, e), e), Pieces(doc, changes[1..], c.to, e));
    }
  }

  /** The same of any transaction: the saved breaks are those of its kept and inserted texts exactly when no carriage
      return meets a line feed at any end of a changed range. */
  lemma TransactionKeepsBreaks(doc: seq<Token>, changes: seq<Change>, result: seq<Change>, e: Ending)
    requires Fits(doc, changes) && Fits(doc, result) && NormalizesAll(result, changes, e)
    ensures Breaks(Render(Apply(doc, result), e)) == BreaksOfEach(Pieces(doc, changes, 0, e))
            <==> Seamless(Pieces(doc, changes, 0, e))
  {
    EditTouchesOnlyItsRanges(doc, changes, result, 0, e);
    SplicedIsJoined(doc, changes, 0, e);
    JoinedPieces(Pieces(doc, changes, 0, e));
  }

  /** Across the seam the guarantee stops: in a file whose ending is LF, a line feed typed right behind a stray
      carriage return that was kept as a byte turns the two into one CRLF. */
  lemma SeamCanMerge()
    ensures
      var doc := [Char('A'), Char(CR)];
      var typed := Change(2, 2, [Break]);
      && Normalizes(typed, typed, Lf)
      && Breaks(Render(doc, Lf)) == [Cr]
      && Breaks(Render(Apply(doc, [typed]), Lf)) == [Crlf]
  {
    var doc := [Char('A'), Char(CR)];
    var typed := Change(2, 2, [Break]);
    assert Render([Char(CR)], Lf) == [CR] && doc[1..] == [Char(CR)];
    assert Render(doc, Lf) == ['A', CR];
    assert ['A', CR][1..] == [CR] && Breaks([CR]) == [Cr];
    assert Render([Break], Lf) == [LF] + Render([], Lf);
    assert Normalize([LF], Lf) == [LF] + Normalize([], Lf);
    OneEdit(doc, typed, typed, Lf);
    assert doc[..2] == doc && doc[2..] == [];
    assert ['A', CR] + [LF] + [] == ['A', CR, LF];
    assert ['A', CR, LF][1..] == [CR, LF] && [CR, LF][2..] == [];
    assert Breaks([CR, LF]) == [Crlf] + Breaks([]);
  }
}
