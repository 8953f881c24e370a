/** The bytes of a version 2 record batch (record/default_records.py): header, checksum,
    compressed or plain records, and what a reader makes of them. */
module BatchFormat {
  import opened Types
  import opened Bytes
  import opened Varint
  import opened Records
  import Crc32c

  // ---------- Header ----------

  const HEADER_SIZE: nat := 61
  const AFTER_LEN_OFFSET: nat := 12
  const CRC_OFFSET: nat := 17
  const ATTRIBUTES_OFFSET: nat := 21

  datatype Head = Head(
    baseOffset: int, length: int, leaderEpoch: int, magic: int, crc: nat,
    attributes: int, lastOffsetDelta: int, firstTimestamp: int, maxTimestamp: int,
    producerId: int, producerEpoch: int, baseSequence: int, count: int)

  /** Every field is in the range of its width, as `struct.pack` demands. */
  predicate HeadFits(h: Head) {
    && InRange(h.baseOffset, 8) && InRange(h.length, 4) && InRange(h.leaderEpoch, 4) && InRange(h.magic, 1)
    && h.crc < Pow256(4) && TailFits(h)
  }

  predicate TailFits(h: Head) {
    && InRange(h.attributes, 2) && InRange(h.lastOffsetDelta, 4) && InRange(h.firstTimestamp, 8)
    && InRange(h.maxTimestamp, 8) && InRange(h.producerId, 8) && InRange(h.producerEpoch, 2)
    && InRange(h.baseSequence, 4) && InRange(h.count, 4)
  }

  function Front(h: Head): (s: bytes)
    requires HeadFits(h)
    ensures |s| == CRC_OFFSET
  {
    PutS(h.baseOffset, 8) + PutS(h.length, 4) + PutS(h.leaderEpoch, 4) + PutS(h.magic, 1)
  }

  /** What the checksum covers of the header. */
  function Tail(h: Head): (s: bytes)
    requires TailFits(h)
    ensures |s| == HEADER_SIZE - ATTRIBUTES_OFFSET
  {
    PutS(h.attributes, 2) + PutS(h.lastOffsetDelta, 4) + PutS(h.firstTimestamp, 8) + PutS(h.maxTimestamp, 8)
    + PutS(h.producerId, 8) + PutS(h.producerEpoch, 2) + PutS(h.baseSequence, 4) + PutS(h.count, 4)
  }

  function Pack(h: Head): (s: bytes)
    requires HeadFits(h)
    ensures |s| == HEADER_SIZE
  {
    Front(h) + PutU(h.crc, 4) + Tail(h)
  }

  function Field(buffer: bytes, pos: nat, k: nat): int
    requires pos + k <= |buffer|
  {
    GetS(buffer[pos..pos + k])
  }

  function Unpack(buffer: bytes): Head
    requires |buffer| >= HEADER_SIZE
  {
    Head(Field(buffer, 0, 8), Field(buffer, 8, 4), Field(buffer, 12, 4), Field(buffer, 16, 1), GetU(buffer[17..21]),
         Field(buffer, 21, 2), Field(buffer, 23, 4), Field(buffer, 27, 8), Field(buffer, 35, 8),
         Field(buffer, 43, 8), Field(buffer, 51, 2), Field(buffer, 53, 4), Field(buffer, 57, 4))
  }

  lemma FieldIs(buffer: bytes, pos: nat, k: nat, v: int)
    requires InRange(v, k) && At(buffer, pos, PutS(v, k))
    ensures pos + k <= |buffer| && Field(buffer, pos, k) == v
  {
    SignedRoundTrip(v, k);
  }

  lemma FrontReadBack(buffer: bytes, h: Head)
    requires HeadFits(h) && At(buffer, 0, Front(h))
    ensures |buffer| >= 17
    ensures Field(buffer, 0, 8) == h.baseOffset && Field(buffer, 8, 4) == h.length
    ensures Field(buffer, 12, 4) == h.leaderEpoch && Field(buffer, 16, 1) == h.magic
  {
    hide At, PutS, Field, InRange;
    var a, b, c, d := PutS(h.baseOffset, 8), PutS(h.length, 4), PutS(h.leaderEpoch, 4), PutS(h.magic, 1);
    AtSplit(buffer, 0, a + b + c, d);
    AtSplit(buffer, 0, a + b, c);
    AtSplit(buffer, 0, a, b);
    FieldIs(buffer, 0, 8, h.baseOffset);
    FieldIs(buffer, 8, 4, h.length);
    FieldIs(buffer, 12, 4, h.leaderEpoch);
    FieldIs(buffer, 16, 1, h.magic);
  }

  lemma TailReadBack(buffer: bytes, h: Head)
    requires TailFits(h) && At(buffer, 21, Tail(h))
    ensures |buffer| >= 61
    ensures Field(buffer, 21, 2) == h.attributes && Field(buffer, 23, 4) == h.lastOffsetDelta
    ensures Field(buffer, 27, 8) == h.firstTimestamp && Field(buffer, 35, 8) == h.maxTimestamp
    ensures Field(buffer, 43, 8) == h.producerId && Field(buffer, 51, 2) == h.producerEpoch
    ensures Field(buffer, 53, 4) == h.baseSequence && Field(buffer, 57, 4) == h.count
  {
    hide At, PutS, Field, InRange;
    var a, b, c, d :=
        PutS(h.attributes, 2), PutS(h.lastOffsetDelta, 4), PutS(h.firstTimestamp, 8), PutS(h.maxTimestamp, 8);
    var e, f, g, i := PutS(h.producerId, 8), PutS(h.producerEpoch, 2), PutS(h.baseSequence, 4), PutS(h.count, 4);
    AtSplit(buffer, 21, a + b + c + d + e + f + g, i);
    AtSplit(buffer, 21, a + b + c + d + e + f, g);
    AtSplit(buffer, 21, a + b + c + d + e, f);
    AtSplit(buffer, 21, a + b + c + d, e);
    AtSplit(buffer, 21, a + b + c, d);
    AtSplit(buffer, 21, a + b, c);
    AtSplit(buffer, 21, a, b);
    FieldIs(buffer, 21, 2, h.attributes);
    FieldIs(buffer, 23, 4, h.lastOffsetDelta);
    FieldIs(buffer, 27, 8, h.firstTimestamp);
    FieldIs(buffer, 35, 8, h.maxTimestamp);
    FieldIs(buffer, 43, 8, h.producerId);
    FieldIs(buffer, 51, 2, h.producerEpoch);
    FieldIs(buffer, 53, 4, h.baseSequence);
    FieldIs(buffer, 57, 4, h.count);
  }

  /** The header is read back, field by field. */
  lemma HeadReadBack(h: Head, data: bytes)
    requires HeadFits(h)
    ensures Unpack(Pack(h) + data) == h
  {
    hide Front, Tail, PutU, Field, HeadFits, TailFits;
    var buffer := Pack(h) + data;
    assert HeadFits(h) ==> TailFits(h) && h.crc < Pow256(4) by { FitsParts(h); }
    assert buffer == Front(h) + PutU(h.crc, 4) + (Tail(h) + data);
    assert At(buffer, 0, Front(h)) && At(buffer, 21, Tail(h));
    assert buffer[17..21] == PutU(h.crc, 4);
    FrontReadBack(buffer, h);
    TailReadBack(buffer, h);
    UnsignedRoundTrip(h.crc, 4);
  }

  lemma FitsParts(h: Head)
    ensures HeadFits(h) ==> TailFits(h) && h.crc < Pow256(4)
  {
  }

  // ---------- Checksum ----------

  function Halved(n: nat, k: nat): nat {
    if k == 0 then n else Halved(n, k - 1) / 2
  }

  predicate Bit(b: byte, k: nat) {
    Halved(b, k) % 2 == 1
  }

  function Octet(b7: bool, b6: bool, b5: bool, b4: bool, b3: bool, b2: bool, b1: bool, b0: bool): bv8 {
    (if b7 then 0x80 else 0) | (if b6 then 0x40 else 0) | (if b5 then 0x20 else 0) | (if b4 then 0x10 else 0)
    | (if b3 then 0x08 else 0) | (if b2 then 0x04 else 0) | (if b1 then 0x02 else 0) | (if b0 then 0x01 else 0)
  }

  /** A byte as the bits it is made of. */
  function ToBits(b: byte): bv8 {
    Octet(Bit(b, 7), Bit(b, 6), Bit(b, 5), Bit(b, 4), Bit(b, 3), Bit(b, 2), Bit(b, 1), Bit(b, 0))
  }

  function Bits(s: bytes): (r: seq<bv8>)
    ensures |r| == |s|
  {
    seq(|s|, i requires 0 <= i < |s| => ToBits(s[i]))
  }

  /** CRC-32C as a number. */
  function Checksum(s: bytes): (r: nat)
    ensures r < 0x1_0000_0000
  {
    Crc32c.Update(0, Bits(s)) as int
  }

  lemma FourBytes()
    ensures Pow256(4) == 0x1_0000_0000
  {
    assert Pow256(2) == 0x1_0000;
  }

  predicate ChecksumHolds(buffer: bytes)
    requires |buffer| >= HEADER_SIZE
  {
    Unpack(buffer).crc == Checksum(buffer[ATTRIBUTES_OFFSET..])
  }

  /** Everything but the checksum is in range. */
  predicate Packable(h: Head) {
    TailFits(h) && InRange(h.baseOffset, 8) && InRange(h.length, 4) && InRange(h.leaderEpoch, 4) && InRange(h.magic, 1)
  }

  /** The header with its checksum, and the data. */
  function Sealed(h: Head, data: bytes): (s: bytes)
    requires Packable(h)
    ensures |s| == HEADER_SIZE + |data|
  {
    FourBytes();
    Pack(h.(crc := Checksum(Tail(h) + data))) + data
  }

  /** A sealed batch has the right checksum, and its header and data are read back. */
  lemma SealedHolds(h: Head, data: bytes)
    requires Packable(h)
    ensures ChecksumHolds(Sealed(h, data))
    ensures Unpack(Sealed(h, data)) == h.(crc := Checksum(Tail(h) + data))
    ensures Sealed(h, data)[HEADER_SIZE..] == data
  {
    hide Checksum, Unpack, Front, PutU, Tail, HeadFits, TailFits, InRange;
    SealFits(h, Checksum(Tail(h) + data));
    var sealed := h.(crc := Checksum(Tail(h) + data));
    HeadReadBack(sealed, data);
    assert Sealed(h, data)[ATTRIBUTES_OFFSET..] == Tail(h) + data;
  }

  /** Only the checksum field changes when a batch is sealed. */
  lemma SealFits(h: Head, crc: nat)
    requires Packable(h) && crc < 0x1_0000_0000
    ensures var sealed := h.(crc := crc);
      TailFits(h) && HeadFits(sealed) && TailFits(sealed) && Tail(sealed) == Tail(h) && crc < Pow256(4)
  {
    FourBytes();
  }

  lemma BitsApart(v: bytes, w: bytes)
    requires |v| == |w| && v != w
    ensures Bits(v) != Bits(w)
  {
    var i :| 0 <= i < |v| && v[i] != w[i];
    ByteApart(v[i], w[i]);
    assert Bits(v)[i] != Bits(w)[i];
  }

  lemma OctetApart(a: seq<bool>, b: seq<bool>)
    requires |a| == |b| == 8
    requires Octet(a[7], a[6], a[5], a[4], a[3], a[2], a[1], a[0]) ==
      Octet(b[7], b[6], b[5], b[4], b[3], b[2], b[1], b[0])
    ensures forall i :: 0 <= i < 8 ==> a[i] == b[i]
  {
  }

  lemma {:induction false} HalvedBelow(n: nat, k: nat, bound: nat)
    requires n < bound && k <= 8
    ensures Halved(n, k) * Pow2(k) < bound
    decreases k
  {
    if k > 0 {
      HalvedBelow(n, k - 1, bound);
      assert Halved(n, k) * 2 <= Halved(n, k - 1);
      assert Halved(n, k) * Pow2(k) <= Halved(n, k - 1) * Pow2(k - 1);
    }
  }

  function Pow2(k: nat): nat {
    if k == 0 then 1 else 2 * Pow2(k - 1)
  }

  /** Numbers with the same bits and the same rest are the same. */
  lemma {:induction false} SameBits(a: byte, b: byte, k: nat)
    requires Halved(a, k) == Halved(b, k) && forall i :: 0 <= i < k ==> (Bit(a, i) <==> Bit(b, i))
    ensures a == b
    decreases k
  {
    if k > 0 {
      var x, y := Halved(a, k - 1), Halved(b, k - 1);
      assert Bit(a, k - 1) <==> Bit(b, k - 1);
      assert x == 2 * (x / 2) + x % 2 && y == 2 * (y / 2) + y % 2;
      SameBits(a, b, k - 1);
    }
  }

  lemma NothingLeft(b: byte)
    ensures Halved(b, 8) == 0
  {
    HalvedBelow(b, 8, 256);
    assert Pow2(8) == 256 by {
      assert Pow2(4) == 16;
    }
  }

  ghost function BitList(b: byte): (r: seq<bool>)
    ensures |r| == 8 && forall i :: 0 <= i < 8 ==> (r[i] <==> Bit(b, i))
  {
    seq(8, i requires 0 <= i < 8 => Bit(b, i))
  }

  lemma ByteApart(a: byte, b: byte)
    requires a != b
    ensures ToBits(a) != ToBits(b)
  {
    hide Octet, Bit, Halved;
    if ToBits(a) == ToBits(b) {
      OctetApart(BitList(a), BitList(b));
      NothingLeft(a);
      NothingLeft(b);
      forall i | 0 <= i < 8 ensures Bit(a, i) <==> Bit(b, i) {
        assert BitList(a)[i] == BitList(b)[i];
      }
      SameBits(a, b, 8);
    }
  }

  lemma BitsConcat(a: bytes, b: bytes)
    ensures Bits(a + b) == Bits(a) + Bits(b)
  {
  }

  lemma BurstChangesChecksum(before: bytes, w: bytes, v: bytes, after: bytes)
    requires |w| == |v| <= 4 && w != v
    ensures Checksum(before + w + after) != Checksum(before + v + after)
  {
    hide Crc32c.Update, Checksum, Bits;
    BitsConcat(before + w, after);
    BitsConcat(before, w);
    BitsConcat(before + v, after);
    BitsConcat(before, v);
    BitsApart(w, v);
    Crc32c.BurstChangesCrc(0, Bits(before), Bits(w), Bits(v), Bits(after));
    ChecksumApart(before + w + after, before + v + after);
  }

  /** Damage to at most four consecutive bytes of what the checksum covers is noticed: a batch
      with the right checksum has a wrong one afterwards. */
  lemma DamageIsNoticed(front: bytes, before: bytes, w: bytes, v: bytes, after: bytes)
    requires |front| == ATTRIBUTES_OFFSET && |before| + |w| + |after| >= HEADER_SIZE - ATTRIBUTES_OFFSET
    requires |w| == |v| <= 4 && w != v
    requires ChecksumHolds(front + (before + w + after))
    ensures !ChecksumHolds(front + (before + v + after))
  {
    BurstChangesChecksum(before, w, v, after);
    ChecksumOf(front, before + w + after);
    ChecksumOf(front, before + v + after);
    hide ChecksumHolds, Checksum;
  }

  lemma ChecksumOf(front: bytes, covered: bytes)
    requires |front| == ATTRIBUTES_OFFSET && |covered| >= HEADER_SIZE - ATTRIBUTES_OFFSET
    ensures ChecksumHolds(front + covered) <==> GetU(front[17..21]) == Checksum(covered)
  {
    hide Checksum, Field, GetU;
    assert (front + covered)[17..21] == front[17..21];
    assert (front + covered)[ATTRIBUTES_OFFSET..] == covered;
  }

  lemma ChecksumApart(a: bytes, b: bytes)
    requires Crc32c.Update(0, Bits(a)) != Crc32c.Update(0, Bits(b))
    ensures Checksum(a) != Checksum(b)
  {
    hide Crc32c.Update;
    WordApart(Crc32c.Update(0, Bits(a)), Crc32c.Update(0, Bits(b)));
  }

  lemma WordApart(x: bv32, y: bv32)
    requires x != y
    ensures x as int != y as int
  {
    assert (x as int) as bv32 == x && (y as int) as bv32 == y;
  }

  // ---------- Records ----------

  ghost predicate AllRecordsFit(u: Utf8, rs: seq<Record>, first: int) {
    forall r :: r in rs ==> Fits(u, r, first) && Short(Body(u, r, first))
  }

  ghost function Payload(u: Utf8, rs: seq<Record>, first: int): bytes
    requires AllRecordsFit(u, rs, first)
  {
    if rs == [] then [] else Framed(u, rs[0], first) + Payload(u, rs[1..], first)
  }

  lemma {:induction false} PayloadAppend(u: Utf8, rs: seq<Record>, r: Record, first: int)
    requires AllRecordsFit(u, rs, first) && Fits(u, r, first) && Short(Body(u, r, first))
    ensures AllRecordsFit(u, rs + [r], first)
    ensures Payload(u, rs + [r], first) == Payload(u, rs, first) + Framed(u, r, first)
    decreases |rs|
  {
    hide Framed, Fits, Body;
    if rs == [] {
      assert rs + [r] == [r];
      assert Payload(u, [r], first) == Framed(u, r, first) + Payload(u, [], first);
    } else {
      assert (rs + [r])[1..] == rs[1..] + [r];
      PayloadAppend(u, rs[1..], r, first);
      ConcatAssoc(Framed(u, rs[0], first), Payload(u, rs[1..], first), Framed(u, r, first));
    }
  }

  function ParseRecords(u: Utf8, f: Frame, buffer: bytes, pos: nat, count: int): Result<(seq<Record>, nat)>
    decreases count
  {
    if count <= 0 then Ok(([], pos))
    else
      match ParseRecord(u, f, buffer, pos)
      case Err(fault) => Err(fault)
      case Ok((r, next)) =>
        match ParseRecords(u, f, buffer, next, count - 1)
        case Err(fault) => Err(fault)
        case Ok((rs, end)) => Ok(([r] + rs, end))
  }

  function AllSeen(f: Frame, rs: seq<Record>): seq<Record> {
    seq(|rs|, i requires 0 <= i < |rs| => Seen(f, rs[i]))
  }

  lemma {:induction false} RecordsReadBack(u: Utf8, f: Frame, buffer: bytes, pos: nat, rs: seq<Record>)
    requires Faithful(u) && AllRecordsFit(u, rs, f.firstTimestamp) && At(buffer, pos, Payload(u, rs, f.firstTimestamp))
    ensures ParseRecords(u, f, buffer, pos, |rs|) == Ok((AllSeen(f, rs), pos + |Payload(u, rs, f.firstTimestamp)|))
    decreases |rs|
  {
    hide Framed, ParseRecord, At, Seen, Faithful, Fits, Body;
    if rs != [] {
      var first := Framed(u, rs[0], f.firstTimestamp);
      AtSplit(buffer, pos, first, Payload(u, rs[1..], f.firstTimestamp));
      RecordReadBack(u, f, buffer, pos, rs[0]);
      RecordsReadBack(u, f, buffer, pos + |first|, rs[1..]);
      assert [Seen(f, rs[0])] + AllSeen(f, rs[1..]) == AllSeen(f, rs);
    } else {
      assert AllSeen(f, rs) == [];
    }
  }

  // ---------- Compression ----------

  /** The compression libraries, taken as given: which codecs are there, and what they do. */
  datatype Codecs = Codecs(has: int -> bool, encode: (int, bytes) -> bytes, decode: (int, bytes) -> Option<bytes>)

  ghost predicate Lossless(z: Codecs) {
    forall codec, data :: z.decode(codec, z.encode(codec, data)) == Some(data)
  }

  /** Codes 1 to 4 name codecs; the others do not. */
  predicate Supported(z: Codecs, codec: int) {
    1 <= codec <= 4 && z.has(codec)
  }

  // ---------- The fields of the attributes ----------

  function CompressionType(attributes: int): int { attributes % 8 }

  predicate LogAppendTime(attributes: int) { attributes / 8 % 2 == 1 }

  predicate Transactional(attributes: int) { attributes / 16 % 2 == 1 }

  predicate ControlBatch(attributes: int) { attributes / 32 % 2 == 1 }

  function Attributes(codec: int, transactional: bool): int {
    codec + if transactional then 16 else 0
  }

  lemma AttributesReadBack(codec: int, transactional: bool)
    requires 0 <= codec < 8
    ensures var a := Attributes(codec, transactional);
      CompressionType(a) == codec && !LogAppendTime(a) && (Transactional(a) <==> transactional) && !ControlBatch(a)
      && InRange(a, 2)
  {
    assert Pow256(2) == 0x1_0000;
  }

  // ---------- A whole batch ----------

  function FrameOf(h: Head): Frame {
    Frame(h.baseOffset, h.firstTimestamp, h.maxTimestamp, LogAppendTime(h.attributes))
  }

  /** The bytes the records are read from, and where they begin. */
  function Uncompressed(z: Codecs, buffer: bytes): Option<(bytes, nat)>
    requires |buffer| >= HEADER_SIZE
  {
    var codec := CompressionType(Unpack(buffer).attributes);
    if codec == 0 then Some((buffer, HEADER_SIZE))
    else if !Supported(z, codec) then None
    else match z.decode(codec, buffer[HEADER_SIZE..])
      case None => None
      case Some(data) => Some((data, 0))
  }

  /** Iterating over a batch: as many records as the header says, and nothing after them. */
  function ReadBatch(u: Utf8, z: Codecs, buffer: bytes): Result<seq<Record>>
    requires |buffer| >= HEADER_SIZE
  {
    match Uncompressed(z, buffer)
    case None => Err(Corrupt)
    case Some((data, pos)) =>
      match ParseRecords(u, FrameOf(Unpack(buffer)), data, pos, Unpack(buffer).count)
      case Err(fault) => Err(fault)
      case Ok((rs, end)) => if end != |data| then Err(Corrupt) else Ok(rs)
  }

  // ---------- Round trip ----------

  function First(rs: seq<Record>): int {
    if rs == [] then 0 else rs[0].timestamp
  }

  function LastOffset(rs: seq<Record>): int {
    if rs == [] then 0 else rs[|rs| - 1].offset
  }

  /** The latest timestamp, 0 for no records. */
  function Latest(rs: seq<Record>): int {
    if rs == [] then 0
    else if |rs| == 1 then rs[0].timestamp
    else
      var before := Latest(rs[..|rs| - 1]);
      if before < rs[|rs| - 1].timestamp then rs[|rs| - 1].timestamp else before
  }

  lemma {:induction false} LatestIsMaximum(rs: seq<Record>)
    requires rs != []
    ensures forall r :: r in rs ==> r.timestamp <= Latest(rs)
    ensures exists r :: r in rs && r.timestamp == Latest(rs)
    decreases |rs|
  {
    assert rs[0] in rs;
    if |rs| > 1 {
      var n := |rs| - 1;
      assert rs == rs[..n] + [rs[n]];
      LatestIsMaximum(rs[..n]);
    }
  }

  datatype Producer = Producer(id: int, epoch: int, sequence: int)

  datatype Settings = Settings(magic: int, codec: int, transactional: bool)

  /** The header a builder writes over `size` bytes of data. */
  function HeadOf(s: Settings, p: Producer, rs: seq<Record>, size: nat, compressed: bool): Head {
    Head(0, HEADER_SIZE + size - AFTER_LEN_OFFSET, -1, s.magic, 0,
         Attributes(if compressed then s.codec else 0, s.transactional),
         LastOffset(rs), First(rs), Latest(rs), p.id, p.epoch, p.sequence, |rs|)
  }

  /** Compression is used when it makes the data shorter. */
  function Compressed(z: Codecs, codec: int, data: bytes): (bytes, bool) {
    if codec != 0 && |z.encode(codec, data)| < |data| then (z.encode(codec, data), true) else (data, false)
  }

  /** Data that holds the records, plain or compressed, is read back whole, wherever the broker
      places the batch in the log. */
  lemma SealedReadBack(u: Utf8, z: Codecs, h: Head, rs: seq<Record>, codec: int)
    requires Faithful(u) && Lossless(z) && AllRecordsFit(u, rs, h.firstTimestamp) && (codec == 0 || Supported(z, codec))
    requires Packable(h) && h.count == |rs|
    requires var (data, compressed) := Compressed(z, codec, Payload(u, rs, h.firstTimestamp));
      CompressionType(h.attributes) == if compressed then codec else 0
    ensures var data := Compressed(z, codec, Payload(u, rs, h.firstTimestamp)).0;
      ReadBatch(u, z, Sealed(h, data)) == Ok(AllSeen(FrameOf(h), rs))
  {
    hide Faithful, AllRecordsFit, Payload, Packable, Unpack, Checksum, TailFits, InRange, ParseRecords,
         LogAppendTime, CompressionType;
    var payload := Payload(u, rs, h.firstTimestamp);
    var (data, compressed) := Compressed(z, codec, payload);
    var batch := Sealed(h, data);
    SealedHolds(h, data);
    if compressed {
      WholeIsAt(payload);
      RecordsReadBack(u, FrameOf(h), payload, 0, rs);
    } else {
      assert At(batch, HEADER_SIZE, payload);
      RecordsReadBack(u, FrameOf(h), batch, HEADER_SIZE, rs);
    }
  }

  lemma WholeIsAt(s: bytes)
    ensures At(s, 0, s)
  {
  }

  /** What a builder makes of the records. */
  ghost function Built(u: Utf8, z: Codecs, s: Settings, p: Producer, rs: seq<Record>): bytes
    requires AllRecordsFit(u, rs, First(rs))
    requires var (data, compressed) := Compressed(z, s.codec, Payload(u, rs, First(rs)));
      Packable(HeadOf(s, p, rs, |data|, compressed))
  {
    var (data, compressed) := Compressed(z, s.codec, Payload(u, rs, First(rs)));
    Sealed(HeadOf(s, p, rs, |data|, compressed), data)
  }

  /** The header of a batch, field by field at its place: base offset, length, leader epoch,
      magic, codec and transactional bit of the attributes, last offset, first and latest
      timestamp, producer id, epoch and base sequence, and the number of records. */
  ghost predicate HeaderSays(b: bytes, s: Settings, p: Producer, rs: seq<Record>, compressed: bool) {
    && |b| >= HEADER_SIZE
    && Field(b, 0, 8) == 0 && Field(b, 8, 4) == |b| - 12 && Field(b, 12, 4) == -1 && Field(b, 16, 1) == s.magic
    && Field(b, 21, 2) % 8 == (if compressed then s.codec else 0) && Field(b, 21, 2) / 8 % 2 == 0
    && Field(b, 21, 2) / 16 % 2 == (if s.transactional then 1 else 0) && Field(b, 21, 2) / 32 == 0
    && Field(b, 43, 8) == p.id && Field(b, 51, 2) == p.epoch && Field(b, 53, 4) == p.sequence
    && Field(b, 57, 4) == |rs|
    && (rs == [] ==> Field(b, 23, 4) == 0 && Field(b, 27, 8) == 0 && Field(b, 35, 8) == 0)
    && (rs != [] ==>
      && Field(b, 23, 4) == rs[|rs| - 1].offset && Field(b, 27, 8) == rs[0].timestamp
      && (forall r :: r in rs ==> r.timestamp <= Field(b, 35, 8))
      && (exists r :: r in rs && r.timestamp == Field(b, 35, 8)))
  }

  /** A built batch says of itself what the builder was given. */
  lemma HeaderIsSaid(u: Utf8, z: Codecs, s: Settings, p: Producer, rs: seq<Record>)
    requires AllRecordsFit(u, rs, First(rs)) && (s.codec == 0 || Supported(z, s.codec))
    requires var (data, compressed) := Compressed(z, s.codec, Payload(u, rs, First(rs)));
      Packable(HeadOf(s, p, rs, |data|, compressed))
    ensures var payload := Payload(u, rs, First(rs));
      HeaderSays(Built(u, z, s, p, rs), s, p, rs, s.codec != 0 && |z.encode(s.codec, payload)| < |payload|)
  {
    hide AllRecordsFit, Payload, TailFits, InRange, Checksum, Sealed, Packable, Field;
    var (data, compressed) := Compressed(z, s.codec, Payload(u, rs, First(rs)));
    var h := HeadOf(s, p, rs, |data|, compressed);
    SealedHolds(h, data);
    if rs != [] {
      LatestIsMaximum(rs);
    }
    AttributeBits(if compressed then s.codec else 0, s.transactional);
  }

  lemma AttributeBits(codec: int, transactional: bool)
    requires 0 <= codec < 8
    ensures var a := Attributes(codec, transactional);
      a % 8 == codec && a / 8 % 2 == 0 && a / 16 % 2 == (if transactional then 1 else 0) && a / 32 == 0
  {
  }

  /** The batch has the right checksum, and reading it gives exactly the records that were put in. */
  lemma BatchRoundTrip(u: Utf8, z: Codecs, s: Settings, p: Producer, rs: seq<Record>)
    requires Faithful(u) && Lossless(z) && AllRecordsFit(u, rs, First(rs))
    requires 0 <= s.codec < 8 && (s.codec == 0 || Supported(z, s.codec))
    requires var (data, compressed) := Compressed(z, s.codec, Payload(u, rs, First(rs)));
      Packable(HeadOf(s, p, rs, |data|, compressed))
    ensures ChecksumHolds(Built(u, z, s, p, rs))
    ensures ReadBatch(u, z, Built(u, z, s, p, rs)) == Ok(rs)
  {
    hide Faithful, Lossless, AllRecordsFit, Payload, TailFits, InRange, ReadBatch, Unpack, ChecksumHolds,
         CompressionType, LogAppendTime, Transactional, ControlBatch, Attributes, AllSeen, Sealed, Compressed,
         Latest, Supported;
    var (data, compressed) := Compressed(z, s.codec, Payload(u, rs, First(rs)));
    var h := HeadOf(s, p, rs, |data|, compressed);
    AttributesReadBack(if compressed then s.codec else 0, s.transactional);
    SealedHolds(h, data);
    SealedReadBack(u, z, h, rs, s.codec);
    SeenAsWritten(FrameOf(h), rs);
  }

  lemma SeenAsWritten(f: Frame, rs: seq<Record>)
    requires f.baseOffset == 0 && !f.logAppendTime
    ensures AllSeen(f, rs) == rs
  {
  }
}
