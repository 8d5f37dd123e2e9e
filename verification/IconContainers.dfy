/** The PNG, ICNS and ICO containers of tools/daemon/icon-assets.js, each with an independent reader. The PNG
    chunk layout is that of RFC 2083, section 3.2. */
module IconContainers {
  import opened Bits
  import opened Wrappers
  import opened Powers
  import opened ShiftRegister
  import opened Crc32
  import opened ByteFields

  /** A typed payload. */
  datatype Entry = Entry(kind: string, data: seq<Byte>)

  /** Buffer.from(text, 'ascii') keeps the low byte of every code unit. */
  function Ascii(text: string): (b: seq<Byte>)
    ensures |b| == |text|
  {
    seq(|text|, i requires 0 <= i < |text| => (text[i] as int) % 256)
  }

  function Text(b: seq<Byte>): (s: string)
    ensures |s| == |b|
  {
    seq(|b|, i requires 0 <= i < |b| => b[i] as char)
  }

  ghost predicate IsAscii(text: string) {
    forall i :: 0 <= i < |text| ==> text[i] as int < 128
  }

  lemma TextOfAscii(text: string)
    requires IsAscii(text)
    ensures Text(Ascii(text)) == text
  {
  }

  /** Fields written one after the other extend the written prefix. */
  lemma OverlayNextField(buffer: seq<Byte>, at: nat, field: seq<Byte>)
    requires at + |field| <= |buffer|
    ensures Overlay(buffer, at, field)[..at + |field|] == buffer[..at] + field
  {
  }

  // ----- PNG chunks. -----

  /** The four bytes of the type field. */
  function TypeField(kind: seq<Byte>): (b: seq<Byte>)
    ensures |b| == 4
  {
    seq(4, i requires 0 <= i < 4 => if i < |kind| then kind[i] else 0)
  }

  lemma CrcFits(data: seq<Byte>)
    ensures Crc(data) < LIMIT
  {
    ToNatBound(Add(ShiftBits(POLYNOMIAL, AllOnes(), BitsOf(data)), AllOnes()).bits);
    assert Pow2(8) == 256;
    Pow2Add(8, 8);
    Pow2Add(16, 16);
  }

  function CrcField(data: seq<Byte>): (b: seq<Byte>)
    ensures |b| == 4
  {
    CrcFits(data);
    U32BE(Crc(data))
  }

  /** Length, type, data, and the CRC of type and data. */
  function PngLayout(kind: seq<Byte>, data: seq<Byte>): (b: seq<Byte>)
    requires |data| < LIMIT
    ensures |b| == 12 + |data|
  {
    U32BE(|data|) + TypeField(kind) + data + CrcField(kind + data)
  }

  lemma PngOverlays(kind: seq<Byte>, data: seq<Byte>, blank: seq<Byte>)
    requires |data| < LIMIT && |blank| == 12 + |data| && (forall i :: 0 <= i < |blank| ==> blank[i] == 0)
    ensures
      var named := Overlay(Overlay(blank, 0, U32BE(|data|)), 4, kind);
      Overlay(Overlay(named, 8, data), 8 + |data|, CrcField(kind + data)) == PngLayout(kind, data)
  {
    var sized := Overlay(blank, 0, U32BE(|data|));
    var named := Overlay(sized, 4, kind);
    forall i | 0 <= i < 8
      ensures named[i] == (U32BE(|data|) + TypeField(kind))[i]
    {
      if i >= 4 {
        assert sized[i] == 0;
      }
    }
    assert named[..8] == U32BE(|data|) + TypeField(kind);
    var filled := Overlay(named, 8, data);
    assert filled[..8 + |data|] == named[..8] + data;
    assert Overlay(filled, 8 + |data|, CrcField(kind + data)) == filled[..8 + |data|] + CrcField(kind + data);
  }

  /** crc32(Buffer.concat([typeBuffer, data])). */
  method CrcOfBoth(crc: CrcTable, typeBuffer: seq<Byte>, data: seq<Byte>) returns (sum: nat)
    requires crc.Valid()
    modifies crc
    ensures crc.Valid()
    ensures sum == Crc(typeBuffer + data) < LIMIT
  {
    var both := new Byte[|typeBuffer| + |data|](_ => 0);
    Copy(typeBuffer, both, 0);
    Copy(data, both, |typeBuffer|);
    assert both[..] == typeBuffer + data;
    sum := crc.Crc32(both);
    CrcFits(typeBuffer + data);
  }

  method PngChunk(crc: CrcTable, kind: string, data: seq<Byte>) returns (r: Outcome<array<Byte>>)
    requires crc.Valid()
    modifies crc
    ensures crc.Valid()
    ensures r == RangeError || (r.Ok? && fresh(r.value))
    ensures r.Ok? <==> |data| < LIMIT
    ensures r.Ok? ==> r.value[..] == PngLayout(Ascii(kind), data)
  {
    var typeBuffer := Ascii(kind);
    var chunk := new Byte[12 + |data|](_ => 0);
    ghost var blank := chunk[..];
    var ok := WriteU32BE(chunk, |data|, 0);
    if !ok {
      return RangeError;
    }
    Copy(typeBuffer, chunk, 4);
    Copy(data, chunk, 8);
    var sum := CrcOfBoth(crc, typeBuffer, data);
    ok := WriteU32BE(chunk, sum, 8 + |data|);
    PngOverlays(typeBuffer, data, blank);
    return Ok(chunk);
  }

  /** The reader: one chunk from the front, refused when it is cut short or its CRC does not match. */
  function ReadPngChunk(b: seq<Byte>): (r: Option<Entry>)
    ensures r.Some? ==> 12 + |r.value.data| <= |b|
  {
    if |b| < 12 || 12 + ReadU32BE(b, 0) > |b| then None
    else
      var n := ReadU32BE(b, 0);
      if ReadU32BE(b, 8 + n) != Crc(b[4..8 + n]) then None else Some(Entry(Text(b[4..8]), b[8..8 + n]))
  }

  function ReadPngChunks(b: seq<Byte>): Option<seq<Entry>>
    decreases |b|
  {
    if |b| == 0 then Some([])
    else
      var first := ReadPngChunk(b);
      if first.None? then None
      else
        var rest := ReadPngChunks(b[12 + |first.value.data|..]);
        if rest.None? then None else Some([first.value] + rest.value)
  }

  /** What a chunk with intact length, type and CRC fields reads back as, whatever its data bytes are. */
  lemma ReadLaidOut(kind: string, data: seq<Byte>, written: seq<Byte>, rest: seq<Byte>)
    requires |kind| == 4 && IsAscii(kind) && |data| == |written| < LIMIT
    ensures
      var b := U32BE(|data|) + Ascii(kind) + written + CrcField(Ascii(kind) + data) + rest;
      ReadPngChunk(b) == if Crc(Ascii(kind) + written) == Crc(Ascii(kind) + data)
                         then Some(Entry(kind, written)) else None
  {
    var n := |data|;
    var crc := CrcField(Ascii(kind) + data);
    var b := U32BE(n) + Ascii(kind) + written + crc + rest;
    assert b == [] + U32BE(n) + (Ascii(kind) + written + crc + rest);
    FieldRoundTrip(n, [], Ascii(kind) + written + crc + rest);
    CrcFits(Ascii(kind) + data);
    assert b == (U32BE(n) + Ascii(kind) + written) + U32BE(Crc(Ascii(kind) + data)) + rest;
    FieldRoundTrip(Crc(Ascii(kind) + data), U32BE(n) + Ascii(kind) + written, rest);
    assert b[4..8] == Ascii(kind);
    assert b[8..8 + n] == written;
    assert b[4..8 + n] == Ascii(kind) + written;
    TextOfAscii(kind);
  }

  ghost predicate PngEntry(e: Entry) {
    |e.kind| == 4 && IsAscii(e.kind) && |e.data| < LIMIT
  }

  lemma PngChunkRoundTrip(e: Entry, rest: seq<Byte>)
    requires PngEntry(e)
    ensures ReadPngChunk(PngLayout(Ascii(e.kind), e.data) + rest) == Some(e)
  {
    assert TypeField(Ascii(e.kind)) == Ascii(e.kind);
    ReadLaidOut(e.kind, e.data, e.data, rest);
  }

  /** A chunk whose data was damaged within any four neighbouring bytes is refused. */
  lemma DamagedChunkIsRefused(kind: string, before: seq<Byte>, x: seq<Byte>, y: seq<Byte>,
                             after: seq<Byte>, rest: seq<Byte>)
    requires |kind| == 4 && IsAscii(kind) && |before + x + after| < LIMIT
    requires |x| == |y| <= 4 && x != y
    ensures ReadPngChunk(U32BE(|before + x + after|) + Ascii(kind) + (before + y + after)
                         + CrcField(Ascii(kind) + (before + x + after)) + rest) == None
  {
    FourBytesAreDetected(Ascii(kind) + before, x, y, after);
    assert Ascii(kind) + before + x + after == Ascii(kind) + (before + x + after);
    assert Ascii(kind) + before + y + after == Ascii(kind) + (before + y + after);
    ReadLaidOut(kind, before + x + after, before + y + after, rest);
  }

  ghost function PngBody(entries: seq<Entry>): seq<Byte>
    requires forall e :: e in entries ==> PngEntry(e)
  {
    if |entries| == 0 then []
    else
      assert PngEntry(entries[0]);
      PngLayout(Ascii(entries[0].kind), entries[0].data) + PngBody(entries[1..])
  }

  /** Any list of chunks, one after the other, reads back as that list. */
  lemma {:induction false} PngRoundTrip(entries: seq<Entry>)
    requires forall e :: e in entries ==> PngEntry(e)
    ensures ReadPngChunks(PngBody(entries)) == Some(entries)
    decreases |entries|
  {
    if |entries| > 0 {
      assert PngEntry(entries[0]);
      var first := PngLayout(Ascii(entries[0].kind), entries[0].data);
      PngChunkRoundTrip(entries[0], PngBody(entries[1..]));
      PngRoundTrip(entries[1..]);
      assert (first + PngBody(entries[1..]))[|first|..] == PngBody(entries[1..]);
      assert entries == [entries[0]] + entries[1..];
    }
  }

  // ----- When a written chunk is a PNG chunk. -----

  const LONGEST_CHUNK: nat := 0x7fff_ffff

  predicate IsLetter(b: Byte) {
    65 <= b <= 90 || 97 <= b <= 122
  }

  predicate IsLetters(b: seq<Byte>) {
    forall i :: 0 <= i < |b| ==> IsLetter(b[i])
  }

  /** RFC 2083, section 3.2: a length of at most 2^31 - 1, a type of four ASCII letters, so many bytes of data, and the
      CRC of the type and the data that stand there. */
  predicate IsPngChunk(b: seq<Byte>) {
    && |b| >= 12
    && ReadU32BE(b, 0) <= LONGEST_CHUNK
    && |b| == 12 + ReadU32BE(b, 0)
    && IsLetters(b[4..8])
    && ReadU32BE(b, |b| - 4) == Crc(b[4..|b| - 4])
  }

  lemma FieldsOfLayout(kind: seq<Byte>, data: seq<Byte>)
    requires |data| < LIMIT
    ensures
      var b := PngLayout(kind, data);
      && ReadU32BE(b, 0) == |data| && b[4..8] == TypeField(kind)
      && b[4..|b| - 4] == TypeField(kind) + data && ReadU32BE(b, |b| - 4) == Crc(kind + data)
  {
    var size, stored, crc := U32BE(|data|), TypeField(kind), CrcField(kind + data);
    var b := PngLayout(kind, data);
    assert b == [] + size + (stored + data + crc);
    FieldRoundTrip(|data|, [], stored + data + crc);
    CrcFits(kind + data);
    assert b == (size + stored + data) + U32BE(Crc(kind + data)) + [];
    FieldRoundTrip(Crc(kind + data), size + stored + data, []);
  }

  /** Exactly when what the writer produces conforms: the length field allows twice too much, and the CRC covers the
      whole type although only four bytes of it are stored. */
  lemma WrittenChunkConforms(kind: seq<Byte>, data: seq<Byte>)
    requires |data| < LIMIT
    ensures IsPngChunk(PngLayout(kind, data))
            <==> |data| <= LONGEST_CHUNK && IsLetters(TypeField(kind))
                 && Crc(kind + data) == Crc(TypeField(kind) + data)
  {
    FieldsOfLayout(kind, data);
  }

  /** For a type of four bytes the CRC is right; a shorter type never conforms. */
  lemma FourByteTypeConforms(kind: string, data: seq<Byte>)
    requires |data| < LIMIT
    ensures |kind| == 4 ==> (IsPngChunk(PngLayout(Ascii(kind), data))
                             <==> |data| <= LONGEST_CHUNK && IsLetters(Ascii(kind)))
    ensures |kind| < 4 ==> !IsPngChunk(PngLayout(Ascii(kind), data))
  {
    WrittenChunkConforms(Ascii(kind), data);
    if |kind| == 4 {
      assert TypeField(Ascii(kind)) == Ascii(kind);
    } else if |kind| < 4 {
      assert TypeField(Ascii(kind))[3] == 0;
    }
  }

  /** The shortest data that the writer accepts and section 3.2 does not; without its first byte it would do. */
  lemma LongChunkIsNoPngChunk(kind: string, data: seq<Byte>)
    requires |data| == LONGEST_CHUNK + 1
    ensures |data| < LIMIT && !IsPngChunk(PngLayout(Ascii(kind), data))
    ensures |kind| == 4 && IsLetters(Ascii(kind)) ==> IsPngChunk(PngLayout(Ascii(kind), data[1..]))
  {
    WrittenChunkConforms(Ascii(kind), data);
    FourByteTypeConforms(kind, data[1..]);
  }

  // ----- ICNS. -----

  predicate IsTypeChar(c: char) {
    'A' <= c <= 'Z' || 'a' <= c <= 'z' || '0' <= c <= '9' || c == ' '
  }

  predicate ValidType(kind: string) {
    |kind| == 4 && forall i :: 0 <= i < 4 ==> IsTypeChar(kind[i])
  }

  function IcnsChunkLayout(e: Entry): (b: seq<Byte>)
    requires 8 + |e.data| < LIMIT
    ensures |b| == 4 + |e.kind| + |e.data|
  {
    Ascii(e.kind) + U32BE(8 + |e.data|) + e.data
  }

  method CreateIcnsChunk(kind: string, data: seq<Byte>) returns (r: Outcome<array<Byte>>)
    ensures r.InvalidType? <==> !ValidType(kind)
    ensures r.Ok? <==> ValidType(kind) && 8 + |data| < LIMIT
    ensures r.Ok? ==> fresh(r.value) && r.value[..] == IcnsChunkLayout(Entry(kind, data))
  {
    if !ValidType(kind) {
      return InvalidType;
    }
    r := WriteIcnsChunk(Ascii(kind), data);
  }

  method WriteIcnsChunk(kind: seq<Byte>, data: seq<Byte>) returns (r: Outcome<array<Byte>>)
    requires |kind| == 4
    ensures !r.InvalidType? && (r.Ok? <==> 8 + |data| < LIMIT)
    ensures r.Ok? ==> fresh(r.value) && r.value[..] == kind + U32BE(8 + |data|) + data
  {
    var chunk := new Byte[8 + |data|](_ => 0);
    OverlayNextField(chunk[..], 0, kind);
    Copy(kind, chunk, 0);
    ghost var named := chunk[..];
    var ok := WriteU32BE(chunk, chunk.Length, 4);
    if !ok {
      return RangeError;
    }
    OverlayNextField(named, 4, U32BE(chunk.Length));
    OverlayNextField(chunk[..], 8, data);
    Copy(data, chunk, 8);
    assert chunk[..] == chunk[..][..8 + |data|];
    return Ok(chunk);
  }

  function PayloadSize(entries: seq<Entry>): nat {
    if |entries| == 0 then 0 else PayloadSize(entries[..|entries| - 1]) + 8 + |entries[|entries| - 1].data|
  }

  function Payload(entries: seq<Entry>): seq<Byte>
    requires forall e :: e in entries ==> 8 + |e.data| < LIMIT
  {
    if |entries| == 0 then [] else Payload(entries[..|entries| - 1]) + IcnsChunkLayout(entries[|entries| - 1])
  }

  function Flatten(parts: seq<seq<Byte>>): seq<Byte> {
    if |parts| == 0 then [] else Flatten(parts[..|parts| - 1]) + parts[|parts| - 1]
  }

  /** Buffer.concat. */
  method Concat(parts: seq<seq<Byte>>) returns (r: array<Byte>)
    ensures fresh(r) && r[..] == Flatten(parts)
  {
    var size := 0;
    var i := 0;
    while i < |parts|
      invariant 0 <= i <= |parts|
      invariant size == |Flatten(parts[..i])|
    {
      assert parts[..i + 1][..i] == parts[..i];
      size := size + |parts[i]|;
      i := i + 1;
    }
    assert parts[..i] == parts;
    r := new Byte[size](_ => 0);
    var at := 0;
    i := 0;
    while i < |parts|
      invariant 0 <= i <= |parts|
      invariant at == |Flatten(parts[..i])| <= r.Length
      invariant r[..at] == Flatten(parts[..i])
      invariant r.Length == |Flatten(parts)|
    {
      FlattenGrows(parts, i + 1);
      assert parts[..i + 1][..i] == parts[..i];
      Copy(parts[i], r, at);
      at := at + |parts[i]|;
      i := i + 1;
    }
    assert parts[..i] == parts;
  }

  lemma {:induction false} FlattenGrows(parts: seq<seq<Byte>>, i: nat)
    requires i <= |parts|
    ensures |Flatten(parts[..i])| <= |Flatten(parts)|
    decreases |parts| - i
  {
    if i == |parts| {
      assert parts[..i] == parts;
    } else {
      FlattenGrows(parts, i + 1);
      assert parts[..i + 1][..i] == parts[..i];
    }
  }

  function Magic(): (b: seq<Byte>)
    ensures |b| == 4
  {
    Ascii("icns")
  }

  function IcnsLayout(entries: seq<Entry>): seq<Byte>
    requires 8 + PayloadSize(entries) < LIMIT
  {
    EachFits(entries);
    Magic() + U32BE(8 + PayloadSize(entries)) + Payload(entries)
  }

  lemma {:induction false} EachFits(entries: seq<Entry>)
    ensures forall e :: e in entries ==> 8 + |e.data| <= PayloadSize(entries)
    decreases |entries|
  {
    if |entries| > 0 {
      EachFits(entries[..|entries| - 1]);
      assert entries == entries[..|entries| - 1] + [entries[|entries| - 1]];
    }
  }

  /** The first entry that cannot be encoded decides the error; otherwise the size of the whole file does. */
  method CreateIcnsFromPngs(entries: seq<Entry>) returns (r: Outcome<array<Byte>>)
    ensures r.Ok? <==> (forall e :: e in entries ==> ValidType(e.kind)) && 8 + PayloadSize(entries) < LIMIT
    ensures r.Ok? ==> fresh(r.value) && r.value[..] == IcnsLayout(entries)
    ensures r.InvalidType? <==> exists i ::
                                  && 0 <= i < |entries| && !ValidType(entries[i].kind)
                                  && forall j :: 0 <= j < i ==> 8 + |entries[j].data| < LIMIT
  {
    var chunks: seq<seq<Byte>> := [];
    var sum := 0;
    var i := 0;
    while i < |entries|
      invariant 0 <= i <= |entries| == |chunks| + (|entries| - i)
      invariant forall j :: 0 <= j < i ==> ValidType(entries[j].kind) && 8 + |entries[j].data| < LIMIT
      invariant sum == PayloadSize(entries[..i])
      invariant Flatten(chunks) == Payload(entries[..i])
    {
      var one := CreateIcnsChunk(entries[i].kind, entries[i].data);
      if !one.Ok? {
        EachFits(entries);
        assert entries[i] in entries;
        return if one.InvalidType? then InvalidType else RangeError;
      }
      assert entries[..i + 1][..i] == entries[..i];
      assert (chunks + [one.value[..]])[..i] == chunks;
      chunks := chunks + [one.value[..]];
      sum := sum + one.value.Length;
      i := i + 1;
    }
    assert entries[..i] == entries;
    r := JoinIcns(Magic(), sum, chunks);
  }

  /** The header, and the chunks behind it. */
  method JoinIcns(magic: seq<Byte>, sum: nat, chunks: seq<seq<Byte>>) returns (r: Outcome<array<Byte>>)
    requires |magic| == 4
    ensures !r.InvalidType? && (r.Ok? <==> 8 + sum < LIMIT)
    ensures r.Ok? ==> fresh(r.value) && r.value[..] == magic + U32BE(8 + sum) + Flatten(chunks)
  {
    var header := new Byte[8](_ => 0);
    Copy(magic, header, 0);
    var ok := WriteU32BE(header, 8 + sum, 4);
    if !ok {
      return RangeError;
    }
    assert header[..] == magic + U32BE(8 + sum);
    FlattenCons(header[..], chunks);
    var file := Concat([header[..]] + chunks);
    return Ok(file);
  }

  lemma {:induction false} FlattenCons(first: seq<Byte>, parts: seq<seq<Byte>>)
    ensures Flatten([first] + parts) == first + Flatten(parts)
    decreases |parts|
  {
    if |parts| == 0 {
      assert ([first] + parts)[..0] == [];
      assert [first] + parts == [first];
    } else {
      FlattenCons(first, parts[..|parts| - 1]);
      assert ([first] + parts)[..|parts|] == [first] + parts[..|parts| - 1];
    }
  }

  /** The reader: elements one after the other, each as long as its own length field says. */
  function WalkIcns(b: seq<Byte>): Option<seq<Entry>>
    decreases |b|
  {
    if |b| == 0 then Some([])
    else if |b| < 8 || ReadU32BE(b, 4) < 8 || ReadU32BE(b, 4) > |b| then None
    else
      var n := ReadU32BE(b, 4);
      var rest := WalkIcns(b[n..]);
      if rest.None? then None else Some([Entry(Text(b[..4]), b[8..n])] + rest.value)
  }

  function ReadIcns(b: seq<Byte>): Option<seq<Entry>> {
    if |b| < 8 || b[..4] != Magic() || !(8 <= ReadU32BE(b, 4) <= |b|) then None
    else WalkIcns(b[8..ReadU32BE(b, 4)])
  }

  lemma WalkFirst(e: Entry, rest: seq<Byte>, more: seq<Entry>)
    requires ValidType(e.kind) && 8 + |e.data| < LIMIT && WalkIcns(rest) == Some(more)
    ensures WalkIcns(IcnsChunkLayout(e) + rest) == Some([e] + more)
  {
    var b := IcnsChunkLayout(e) + rest;
    var n := 8 + |e.data|;
    FieldRoundTrip(n, Ascii(e.kind), e.data + rest);
    assert b == Ascii(e.kind) + U32BE(n) + (e.data + rest);
    assert b[n..] == rest && b[..4] == Ascii(e.kind) && b[8..n] == e.data;
    TextOfAscii(e.kind);
  }

  lemma {:induction false} WalkPayload(entries: seq<Entry>, tail: seq<Byte>, more: seq<Entry>)
    requires forall e :: e in entries ==> ValidType(e.kind) && 8 + |e.data| < LIMIT
    requires WalkIcns(tail) == Some(more)
    ensures WalkIcns(Payload(entries) + tail) == Some(entries + more)
    decreases |entries|
  {
    if |entries| == 0 {
      assert Payload(entries) + tail == tail && entries + more == more;
    } else {
      var init, last := entries[..|entries| - 1], entries[|entries| - 1];
      WalkFirst(last, tail, more);
      assert forall e :: e in init ==> e in entries;
      WalkPayload(init, IcnsChunkLayout(last) + tail, [last] + more);
      LastFirst(entries, more);
      PayloadSplit(entries, tail);
    }
  }

  lemma LastFirst(entries: seq<Entry>, more: seq<Entry>)
    requires |entries| > 0
    ensures entries + more == entries[..|entries| - 1] + ([entries[|entries| - 1]] + more)
  {
  }

  lemma PayloadSplit(entries: seq<Entry>, tail: seq<Byte>)
    requires |entries| > 0 && forall e :: e in entries ==> 8 + |e.data| < LIMIT
    ensures
      var last := entries[|entries| - 1];
      Payload(entries) + tail == Payload(entries[..|entries| - 1]) + (IcnsChunkLayout(last) + tail)
  {
    Associates(Payload(entries[..|entries| - 1]), IcnsChunkLayout(entries[|entries| - 1]), tail);
  }

  lemma Associates<T>(a: seq<T>, b: seq<T>, c: seq<T>)
    ensures (a + b) + c == a + (b + c)
  {
  }

  lemma {:induction false} PayloadLength(entries: seq<Entry>)
    requires forall e :: e in entries ==> ValidType(e.kind) && 8 + |e.data| < LIMIT
    ensures |Payload(entries)| == PayloadSize(entries)
    decreases |entries|
  {
    if |entries| > 0 {
      PayloadLength(entries[..|entries| - 1]);
    }
  }

  /** A payload behind the header that gives the length of both. */
  function Framed(payload: seq<Byte>): seq<Byte>
    requires 8 + |payload| < LIMIT
  {
    Magic() + U32BE(8 + |payload|) + payload
  }

  lemma LayoutIsFramed(entries: seq<Entry>)
    requires (forall e :: e in entries ==> ValidType(e.kind)) && 8 + PayloadSize(entries) < LIMIT
    ensures (forall e :: e in entries ==> 8 + |e.data| < LIMIT) && |Payload(entries)| == PayloadSize(entries)
    ensures IcnsLayout(entries) == Framed(Payload(entries))
  {
    EachFits(entries);
    PayloadLength(entries);
  }

  lemma ReadFramed(payload: seq<Byte>)
    requires 8 + |payload| < LIMIT
    ensures ReadIcns(Framed(payload)) == WalkIcns(payload)
    ensures |Framed(payload)| >= 8 && ReadU32BE(Framed(payload), 4) == |Framed(payload)|
  {
    FramedBytes(Magic(), payload);
  }

  /** Walking the file by its length fields recovers exactly the entries. */
  lemma IcnsRoundTrip(entries: seq<Entry>)
    requires (forall e :: e in entries ==> ValidType(e.kind)) && 8 + PayloadSize(entries) < LIMIT
    ensures ReadIcns(IcnsLayout(entries)) == Some(entries)
  {
    LayoutIsFramed(entries);
    WalkWhole(entries);
    ReadFramed(Payload(entries));
  }

  predicate IcnsHeader(b: seq<Byte>) {
    && |b| >= 8 && b[..4] == [105, 99, 110, 115]
    && |b| == ((b[4] as int * 256 + b[5] as int) * 256 + b[6] as int) * 256 + b[7] as int
  }

  lemma FramedHeader(payload: seq<Byte>)
    requires 8 + |payload| < LIMIT
    ensures IcnsHeader(Framed(payload))
  {
    var magic, size := Magic(), U32BE(8 + |payload|);
    MostSignificantFirst(8 + |payload|, size);
    var b := magic + size + payload;
    assert b[..4] == magic;
    assert b[4] == size[0] && b[5] == size[1] && b[6] == size[2] && b[7] == size[3];
  }

  /** The bytes of a chunk: its type, its own whole length, most significant byte first, and its data. */
  lemma IcnsChunkBytes(e: Entry)
    requires ValidType(e.kind) && 8 + |e.data| < LIMIT
    ensures
      var b := IcnsChunkLayout(e);
      && (forall i :: 0 <= i < 4 ==> b[i] as int == e.kind[i] as int) && b[8..] == e.data
      && |b| == ((b[4] as int * 256 + b[5] as int) * 256 + b[6] as int) * 256 + b[7] as int
  {
    var kind, size := Ascii(e.kind), U32BE(8 + |e.data|);
    MostSignificantFirst(8 + |e.data|, size);
    var b := kind + size + e.data;
    assert b[4] == size[0] && b[5] == size[1] && b[6] == size[2] && b[7] == size[3];
  }

  /** The bytes of the header: "icns", and the length of the file, most significant byte first. */
  lemma IcnsHeaderBytes(entries: seq<Entry>)
    requires (forall e :: e in entries ==> ValidType(e.kind)) && 8 + PayloadSize(entries) < LIMIT
    ensures IcnsHeader(IcnsLayout(entries))
  {
    LayoutIsFramed(entries);
    FramedHeader(Payload(entries));
  }

  /** The walk ends at the header's total, which is the end of the file. */
  lemma IcnsEndsAtTotal(entries: seq<Entry>)
    requires (forall e :: e in entries ==> ValidType(e.kind)) && 8 + PayloadSize(entries) < LIMIT
    ensures |IcnsLayout(entries)| >= 8 && ReadU32BE(IcnsLayout(entries), 4) == |IcnsLayout(entries)|
  {
    LayoutIsFramed(entries);
    ReadFramed(Payload(entries));
  }

  lemma WalkWhole(entries: seq<Entry>)
    requires forall e :: e in entries ==> ValidType(e.kind) && 8 + |e.data| < LIMIT
    ensures WalkIcns(Payload(entries)) == Some(entries)
  {
    WalkPayload(entries, [], []);
    assert Payload(entries) + [] == Payload(entries) && entries + [] == entries;
  }

  lemma FramedBytes(magic: seq<Byte>, payload: seq<Byte>)
    requires |magic| == 4 && 8 + |payload| < LIMIT
    ensures
      var total := 8 + |payload|;
      var b := magic + U32BE(total) + payload;
      b[..4] == magic && ReadU32BE(b, 4) == total == |b| && b[8..total] == payload
  {
    FieldRoundTrip(8 + |payload|, magic, payload);
  }

  // ----- ICO. -----

  function IcoLayout(png: seq<Byte>): (b: seq<Byte>)
    requires |png| < LIMIT
    ensures |b| == 22 + |png|
  {
    [0, 0, 1, 0, 1, 0, 0, 0, 0, 0, 1, 0, 32, 0] + U32LE(|png|) + U32LE(22) + png
  }

  /** The header and the directory entry up to its size field. */
  method WriteIcoDirectory(icon: array<Byte>)
    requires icon.Length >= 22
    modifies icon
    ensures icon[..14] == [0, 0, 1, 0, 1, 0, 0, 0, 0, 0, 1, 0, 32, 0]
  {
    WriteIcoHeader(icon);
    icon[6] := 0;
    icon[7] := 0;
    icon[8] := 0;
    icon[9] := 0;
    assert icon[..][..10] == [0, 0, 1, 0, 1, 0, 0, 0, 0, 0] by {
      assert icon[..6] == [0, 0, 1, 0, 1, 0];
    }
    OverlayNextField(icon[..], 10, U16LE(1));
    Copy(U16LE(1), icon, 10);
    OverlayNextField(icon[..], 12, U16LE(32));
    Copy(U16LE(32), icon, 12);
    assert icon[..14] == icon[..][..14];
  }

  method WriteIcoHeader(icon: array<Byte>)
    requires icon.Length >= 22
    modifies icon
    ensures icon[..6] == [0, 0, 1, 0, 1, 0]
  {
    OverlayNextField(icon[..], 0, U16LE(0));
    Copy(U16LE(0), icon, 0);
    OverlayNextField(icon[..], 2, U16LE(1));
    Copy(U16LE(1), icon, 2);
    OverlayNextField(icon[..], 4, U16LE(1));
    Copy(U16LE(1), icon, 4);
    assert icon[..6] == icon[..][..6];
  }

  method CreateIcoFromPng(png: seq<Byte>) returns (r: Outcome<array<Byte>>)
    ensures r.Ok? || r == RangeError
    ensures r.Ok? <==> |png| < LIMIT
    ensures r.Ok? ==> fresh(r.value) && r.value[..] == IcoLayout(png)
  {
    var icon := new Byte[22 + |png|](_ => 0);
    WriteIcoDirectory(icon);
    ghost var start := icon[..];
    var ok := WriteU32LE(icon, |png|, 14);
    if !ok {
      return RangeError;
    }
    ok := WriteU32LE(icon, 22, 18);
    Copy(png, icon, 22);
    IcoOverlays(start, png);
    return Ok(icon);
  }

  lemma IcoOverlays(start: seq<Byte>, png: seq<Byte>)
    requires |start| == 22 + |png| && |png| < LIMIT
    requires start[..14] == [0, 0, 1, 0, 1, 0, 0, 0, 0, 0, 1, 0, 32, 0]
    ensures Overlay(Overlay(Overlay(start, 14, U32LE(|png|)), 18, U32LE(22)), 22, png) == IcoLayout(png)
  {
  }

  /** The image that the single directory entry of an icon file delimits. */
  function ReadIco(b: seq<Byte>): Option<seq<Byte>> {
    if |b| < 22 || ReadU16LE(b, 0) != 0 || ReadU16LE(b, 2) != 1 || ReadU16LE(b, 4) != 1 then None
    else
      var size, offset := ReadU32LE(b, 14), ReadU32LE(b, 18);
      if offset + size > |b| then None else Some(b[offset..offset + size])
  }

  lemma IcoRoundTrip(png: seq<Byte>)
    requires |png| < LIMIT
    ensures ReadIco(IcoLayout(png)) == Some(png)
    ensures ReadU32LE(IcoLayout(png), 18) + ReadU32LE(IcoLayout(png), 14) == |IcoLayout(png)|
  {
    var directory: seq<Byte> := [0, 0, 1, 0, 1, 0, 0, 0, 0, 0, 1, 0, 32, 0];
    var b := IcoLayout(png);
    FieldRoundTrip(|png|, directory, U32LE(22) + png);
    assert b == directory + U32LE(|png|) + (U32LE(22) + png);
    FieldRoundTrip(22, directory + U32LE(|png|), png);
    assert b == (directory + U32LE(|png|)) + U32LE(22) + png;
    assert b[22..22 + |png|] == png;
  }

  /** The bytes of an icon file: no reserved field, one image of type 1, 256 by 256 without a palette, one plane of 32
      bits, then its size and its place, least significant byte first, and the image at that place. */
  lemma IcoBytes(png: seq<Byte>)
    requires |png| < LIMIT
    ensures
      var b := IcoLayout(png);
      && b[..14] == [0, 0, 1, 0, 1, 0, 0, 0, 0, 0, 1, 0, 32, 0]
      && |png| == b[14] as int + 256 * (b[15] as int + 256 * (b[16] as int + 256 * (b[17] as int)))
      && b[18..22] == [22, 0, 0, 0] && b[22..] == png
  {
    var directory: seq<Byte> := [0, 0, 1, 0, 1, 0, 0, 0, 0, 0, 1, 0, 32, 0];
    var size, place := U32LE(|png|), U32LE(22);
    LeastSignificantFirst(|png|, size);
    var b := IcoLayout(png);
    assert b[..14] == directory && b[14..18] == size && b[18..22] == place;
  }
}
