/** Reading version 2 record batches (record/default_records.py), and splitting a fetched
    buffer into batches (record/memory_records.py). */
module BatchReader {
  import opened Types
  import opened Bytes
  import opened Varint
  import opened Records
  import opened BatchFormat

  // ---------- One record ----------

  method ReadNullable(buffer: bytes, pos: nat) returns (r: Result<(Option<bytes>, nat)>)
    ensures r == ParseNullable(buffer, pos)
  {
    hide Decoded;
    var length := DecodeVarint(buffer, pos);
    if length.Err? {
      return Err(length.fault);
    }
    var (n, next) := length.value;
    if n >= 0 {
      return Ok((Some(Slice(buffer, next, next + n)), next + n));
    }
    return Ok((None, next));
  }

  method ReadHeader(u: Utf8, buffer: bytes, pos: nat) returns (r: Result<(Header, nat)>)
    ensures r == ParseHeader(u, buffer, pos)
  {
    hide Decoded, ParseNullable;
    var length := DecodeVarint(buffer, pos);
    if length.Err? {
      return Err(length.fault);
    }
    var (n, next) := length.value;
    if n < 0 {
      return Err(Corrupt);
    }
    var key := u.decode(Slice(buffer, next, next + n));
    if key.None? {
      return Err(Corrupt);
    }
    var value := ReadNullable(buffer, next + n);
    if value.Err? {
      return Err(value.fault);
    }
    return Ok((Header(key.value, value.value.0), value.value.1));
  }

  /** Headers read so far, followed by the rest. */
  function Followed(done: seq<Header>, rest: Result<(seq<Header>, nat)>): Result<(seq<Header>, nat)> {
    match rest
    case Err(fault) => Err(fault)
    case Ok((hs, end)) => Ok((done + hs, end))
  }

  lemma FollowedNext(u: Utf8, buffer: bytes, pos: nat, left: nat, done: seq<Header>)
    requires left > 0
    ensures match ParseHeader(u, buffer, pos) {
      case Err(fault) => Followed(done, ParseHeaders(u, buffer, pos, left)) == Err(fault)
      case Ok((h, next)) =>
        Followed(done, ParseHeaders(u, buffer, pos, left)) ==
            Followed(done + [h], ParseHeaders(u, buffer, next, left - 1))
    }
  {
    hide ParseHeader;
    match ParseHeader(u, buffer, pos)
    case Err(_) =>
    case Ok((h, next)) =>
      match ParseHeaders(u, buffer, next, left - 1)
      case Err(_) =>
      case Ok((hs, end)) => ConcatAssoc(done, [h], hs);
  }

  method ReadHeaders(u: Utf8, buffer: bytes, start: nat, count: nat) returns (r: Result<(seq<Header>, nat)>)
    ensures r == ParseHeaders(u, buffer, start, count)
  {
    hide ParseHeader;
    var headers: seq<Header>, pos, left := [], start, count;
    while left > 0
      invariant Followed(headers, ParseHeaders(u, buffer, pos, left)) ==
        Followed([], ParseHeaders(u, buffer, start, count))
      decreases left
    {
      FollowedNext(u, buffer, pos, left, headers);
      var next := ReadHeader(u, buffer, pos);
      if next.Err? {
        FollowedNothing(ParseHeaders(u, buffer, start, count));
        return Err(next.fault);
      }
      headers, pos, left := headers + [next.value.0], next.value.1, left - 1;
    }
    FollowedNothing(ParseHeaders(u, buffer, start, count));
    ConcatNil(headers);
    return Ok((headers, pos));
  }

  lemma FollowedNothing(rest: Result<(seq<Header>, nat)>)
    ensures Followed([], rest) == rest
  {
    if rest.Ok? {
      ConcatNil(rest.value.0);
    }
  }

  method ReadContent(u: Utf8, buffer: bytes, pos: nat) returns (r: Result<(Content, nat)>)
    ensures r == ParseContent(u, buffer, pos)
  {
    hide Decoded, ParseNullable, ParseHeaders;
    var key := ReadNullable(buffer, pos);
    if key.Err? {
      return Err(key.fault);
    }
    var value := ReadNullable(buffer, key.value.1);
    if value.Err? {
      return Err(value.fault);
    }
    var count := DecodeVarint(buffer, value.value.1);
    if count.Err? {
      return Err(count.fault);
    }
    if count.value.0 < 0 {
      return Err(Corrupt);
    }
    var headers := ReadHeaders(u, buffer, count.value.1, count.value.0);
    if headers.Err? {
      return Err(headers.fault);
    }
    return Ok((Content(key.value.0, value.value.0, headers.value.0), headers.value.1));
  }

  /** One record, with its length field checked against the bytes read. */
  method ReadMessage(u: Utf8, f: Frame, buffer: bytes, start: nat) returns (r: Result<(Record, nat)>)
    ensures r == ParseRecord(u, f, buffer, start)
  {
    hide Decoded, ParseContent;
    var length := DecodeVarint(buffer, start);
    if length.Err? {
      return Err(length.fault);
    }
    var attributes := DecodeVarint(buffer, length.value.1);
    if attributes.Err? {
      return Err(attributes.fault);
    }
    var delta := DecodeVarint(buffer, attributes.value.1);
    if delta.Err? {
      return Err(delta.fault);
    }
    var offset := DecodeVarint(buffer, delta.value.1);
    if offset.Err? {
      return Err(offset.fault);
    }
    var content := ReadContent(u, buffer, offset.value.1);
    if content.Err? {
      return Err(content.fault);
    }
    var (c, end) := content.value;
    if end != length.value.1 + length.value.0 {
      return Err(Corrupt);
    }
    var timestamp := if f.logAppendTime then f.maxTimestamp else f.firstTimestamp + delta.value.0;
    return Ok((Record(f.baseOffset + offset.value.0, timestamp, c.key, c.value, c.headers), end));
  }

  // ---------- Iterating over a batch ----------

  lemma {:induction false} ParseOneMore(u: Utf8, f: Frame, buffer: bytes, pos: nat, k: nat)
    requires ParseRecords(u, f, buffer, pos, k).Ok?
    ensures var (rs, end) := ParseRecords(u, f, buffer, pos, k).value;
      match ParseRecord(u, f, buffer, end) {
        case Ok((r, next)) => ParseRecords(u, f, buffer, pos, k + 1) == Ok((rs + [r], next))
        case Err(_) => forall n :: n > k ==> ParseRecords(u, f, buffer, pos, n).Err?
      }
    decreases k
  {
    hide ParseRecord;
    if k == 0 {
      assert forall n :: n > 0 && ParseRecord(u, f, buffer, pos).Err? ==> ParseRecords(u, f, buffer, pos, n).Err?;
      if ParseRecord(u, f, buffer, pos).Ok? {
        var (r, next) := ParseRecord(u, f, buffer, pos).value;
        assert ParseRecords(u, f, buffer, next, 0) == Ok(([], next));
        assert [r] + [] == [] + [r];
      }
    } else {
      var (r, next) := ParseRecord(u, f, buffer, pos).value;
      ParseOneMore(u, f, buffer, next, k - 1);
      var (rs, end) := ParseRecords(u, f, buffer, next, k - 1).value;
      if ParseRecord(u, f, buffer, end).Ok? {
        ConcatAssoc([r], rs, [ParseRecord(u, f, buffer, end).value.0]);
      } else {
        forall n | n > k ensures ParseRecords(u, f, buffer, pos, n).Err? {
          assert ParseRecords(u, f, buffer, next, n - 1).Err?;
        }
      }
    }
  }

  datatype Step = Got(record: Record) | Stop | Fail

  /** An iterator over the records of one batch. */
  class RecordIterator {
    const utf8: Utf8
    const codecs: Codecs
    ghost const batch: bytes
    const head: Head
    var buffer: bytes
    var pos: nat
    var index: nat
    var decompressed: bool
    ghost var start: nat
    ghost var seen: seq<Record>

    ghost predicate Fresh()
      reads this
    {
      !decompressed && buffer == batch && pos == HEADER_SIZE && index == 0 && seen == []
    }

    /** The records seen are those that stand before the position. */
    ghost predicate Valid()
      reads this
    {
      && |batch| >= HEADER_SIZE && head == Unpack(batch)
      && (!decompressed ==> Fresh())
      && (decompressed ==>
            && Uncompressed(codecs, batch) == Some((buffer, start))
            && (index == 0 || index <= head.count)
            && ParseRecords(utf8, FrameOf(head), buffer, start, index) == Ok((seen, pos)))
    }

    constructor (utf8: Utf8, codecs: Codecs, buffer: bytes)
      requires |buffer| >= HEADER_SIZE
      ensures Valid() && Fresh() && batch == buffer && this.utf8 == utf8 && this.codecs == codecs
    {
      this.utf8, this.codecs, this.buffer, batch := utf8, codecs, buffer, buffer;
      head := Unpack(buffer);
      pos, index, decompressed, start, seen := HEADER_SIZE, 0, false, HEADER_SIZE, [];
    }

    method ValidateCrc() returns (ok: bool)
      requires Valid() && !decompressed
      ensures ok <==> ChecksumHolds(batch)
    {
      ok := head.crc == Checksum(buffer[ATTRIBUTES_OFFSET..]);
    }

    /** Begins the iteration; fails exactly when the data cannot be decompressed. */
    method Begin() returns (ok: bool)
      requires Valid()
      modifies this`buffer, this`pos, this`decompressed, this`start
      ensures ok ==> Valid() && decompressed
      ensures !ok ==> ReadBatch(utf8, codecs, batch).Err?
      ensures old(decompressed) ==> ok && buffer == old(buffer) && pos == old(pos)
    {
      hide Unpack, ParseRecord, Supported, CompressionType, LogAppendTime;
      if !decompressed {
        var codec := CompressionType(head.attributes);
        start := HEADER_SIZE;
        if codec != 0 {
          if !Supported(codecs, codec) {
            return false;
          }
          var data := codecs.decode(codec, buffer[HEADER_SIZE..]);
          if data.None? {
            return false;
          }
          buffer, pos, start := data.value, 0, 0;
        }
        decompressed := true;
      }
      return true;
    }

    /** The next record. The iteration stops exactly when the batch can be read whole, with the
        records seen; it fails exactly when it cannot. */
    method Next() returns (step: Step)
      requires Valid() && decompressed
      modifies this`pos, this`index, this`seen
      ensures Valid() && decompressed
      ensures step.Got? ==> seen == old(seen) + [step.record]
      ensures !step.Got? ==> seen == old(seen)
      ensures step.Stop? ==> ReadBatch(utf8, codecs, batch) == Ok(seen)
      ensures step.Fail? ==> ReadBatch(utf8, codecs, batch).Err?
    {
      hide Unpack, ParseRecord, Uncompressed, LogAppendTime;
      if index >= head.count {
        assert ParseRecords(utf8, FrameOf(head), buffer, start, head.count) == Ok((seen, pos));
        if pos != |buffer| {
          return Fail;
        }
        return Stop;
      }
      ParseOneMore(utf8, FrameOf(head), buffer, start, index);
      var message := ReadMessage(utf8, FrameOf(head), buffer, pos);
      if message.Err? {
        return Fail;
      }
      pos, index := message.value.1, index + 1;
      seen := seen + [message.value.0];
      return Got(message.value.0);
    }
  }

  // ---------- A buffer of batches ----------

  const LOG_OVERHEAD: nat := 12
  const LENGTH_OFFSET: nat := 8
  const MIN_SLICE: nat := 26

  /** The length field of a batch counts the bytes after it. */
  predicate Whole(b: bytes) {
    |b| >= LOG_OVERHEAD && LOG_OVERHEAD + Field(b, LENGTH_OFFSET, 4) == |b|
  }

  /** What a broker may leave of a batch at the end of a response. */
  predicate Partial(b: bytes) {
    |b| < LOG_OVERHEAD || LOG_OVERHEAD + Field(b, LENGTH_OFFSET, 4) > |b|
  }

  /** A length field that no batch has. */
  predicate Broken(b: bytes) {
    |b| >= LOG_OVERHEAD && Field(b, LENGTH_OFFSET, 4) < 0
  }

  ghost predicate AllWhole(bs: seq<bytes>) {
    forall b :: b in bs ==> Whole(b)
  }

  function Join(bs: seq<bytes>): bytes {
    if bs == [] then [] else bs[0] + Join(bs[1..])
  }

  /** The whole batches that a buffer starts with. */
  function Batches(b: bytes): seq<bytes>
    decreases |b|
  {
    if Partial(b) || Broken(b) then [] else
      var n := LOG_OVERHEAD + Field(b, LENGTH_OFFSET, 4);
      [b[..n]] + Batches(b[n..])
  }

  /** What comes after them. */
  function Rest(b: bytes): bytes
    decreases |b|
  {
    if Partial(b) || Broken(b) then b else Rest(b[LOG_OVERHEAD + Field(b, LENGTH_OFFSET, 4)..])
  }

  /** Every buffer is whole batches and a rest that is partial or broken. */
  lemma {:induction false} BufferSplits(b: bytes)
    ensures b == Join(Batches(b)) + Rest(b) && AllWhole(Batches(b)) && (Partial(Rest(b)) || Broken(Rest(b)))
    decreases |b|
  {
    hide GetS;
    if !Partial(b) && !Broken(b) {
      var n := LOG_OVERHEAD + Field(b, LENGTH_OFFSET, 4);
      var first := b[..n];
      BufferSplits(b[n..]);
      assert first[LENGTH_OFFSET..LENGTH_OFFSET + 4] == b[LENGTH_OFFSET..LENGTH_OFFSET + 4];
      assert Whole(first);
      ConcatAssoc(first, Join(Batches(b[n..])), Rest(b));
      assert Batches(b)[1..] == Batches(b[n..]);
      assert first + b[n..] == b;
    }
  }

  /** Batches that are joined are found again, whatever follows them. */
  lemma {:induction false} JoinedSplits(bs: seq<bytes>, rest: bytes)
    requires AllWhole(bs) && (Partial(rest) || Broken(rest))
    ensures Batches(Join(bs) + rest) == bs && Rest(Join(bs) + rest) == rest
    decreases |bs|
  {
    if bs == [] {
      ConcatNil(rest);
    } else {
      hide Batches, Rest, Whole, Partial, Broken;
      JoinedSplits(bs[1..], rest);
      ConcatAssoc(bs[0], Join(bs[1..]), rest);
      OneBatch(bs[0], Join(bs[1..]) + rest);
      assert [bs[0]] + bs[1..] == bs;
    }
  }

  lemma OneBatch(first: bytes, more: bytes)
    requires Whole(first)
    ensures Batches(first + more) == [first] + Batches(more) && Rest(first + more) == Rest(more)
  {
    hide GetS;
    var b := first + more;
    assert b[..|first|] == first && b[|first|..] == more;
    assert b[LENGTH_OFFSET..LENGTH_OFFSET + 4] == first[LENGTH_OFFSET..LENGTH_OFFSET + 4];
  }

  // Indices count from the end of the buffer when they are negative.

  function Clamp(b: bytes, i: int): (r: nat)
    ensures r <= |b|
  {
    if i >= |b| then |b| else if i >= 0 then i else if i + |b| >= 0 then i + |b| else 0
  }

  function SliceFrom(b: bytes, i: int, j: int): bytes {
    if Clamp(b, i) <= Clamp(b, j) then b[Clamp(b, i)..Clamp(b, j)] else []
  }

  /** unpack_from of a four-byte field; there may be none at this offset. */
  function UnpackAt(b: bytes, offset: int): Option<int> {
    var at := if offset < 0 then offset + |b| else offset;
    if (offset < 0 && offset + 4 > 0) || at < 0 || at + 4 > |b| then None else Some(Field(b, at, 4))
  }

  /** The slice cut at the rest when its length field is negative. */
  function BrokenSlice(buffer: bytes, rest: bytes): bytes
    requires Broken(rest)
  {
    var start := |buffer| - |rest|;
    SliceFrom(buffer, start, start + LOG_OVERHEAD + Field(rest, LENGTH_OFFSET, 4))
  }

  /** A negative length is noticed, because the slice is too short, unless its end falls
      before the buffer and is counted from the end of it instead. */
  lemma BrokenIsShortIff(buffer: bytes, rest: bytes)
    requires Broken(rest) && |rest| <= |buffer|
    ensures var length := Field(rest, LENGTH_OFFSET, 4);
      |BrokenSlice(buffer, rest)| < MIN_SLICE <==>
        length >= |rest| - |buffer| - LOG_OVERHEAD || length < MIN_SLICE - LOG_OVERHEAD - |buffer|
  {
  }

  /** Such a length: the splitter cuts a batch that is all but the last byte. */
  lemma BrokenIsTaken(buffer: bytes)
    requires |buffer| > MIN_SLICE && Field(buffer, LENGTH_OFFSET, 4) == -13
    ensures Batches(buffer) == [] && Rest(buffer) == buffer && Broken(buffer)
    ensures BrokenSlice(buffer, buffer) == buffer[..|buffer| - 1]
  {
    hide GetS;
  }

  /** Splits a buffer into the batches it starts with, one ahead. */
  class BatchSplitter {
    const buffer: bytes
    var pos: int
    var nextSlice: Option<bytes>
    var remaining: int
    ghost var ahead: seq<bytes>
    ghost const rest: bytes
    ghost var astray: bool  // a slice that is no batch was handed out

    ghost predicate Stopped() {
      |rest| <= |buffer| && (Partial(rest) || Broken(rest))
    }

    /** The batches not handed out yet are the one ahead and those at the position. */
    ghost predicate Valid()
      reads this
    {
      astray ||
      (&& AllWhole(ahead) && Stopped()
       && (if ahead != [] then
             nextSlice == Some(ahead[0]) && 0 <= pos <= |buffer| && buffer[pos..] == Join(ahead[1..]) + rest
           else if Broken(rest) then nextSlice == Some(BrokenSlice(buffer, rest))
           else nextSlice == None && remaining == |rest|))
    }

    constructor (buffer: bytes)
      ensures Valid() && !astray && this.buffer == buffer && ahead == Batches(buffer) && rest == Rest(buffer)
    {
      BufferSplits(buffer);
      this.buffer, this.rest, this.ahead, this.astray := buffer, Rest(buffer), Batches(buffer), false;
      pos, nextSlice, remaining := 0, None, 0;
      new;
      var ok := CacheNext();
    }

    /** Cuts the next slice; there may be no length field to read, but only once astray. */
    method CacheNext() returns (ok: bool)
      requires astray || (AllWhole(ahead) && Stopped() && 0 <= pos <= |buffer| && buffer[pos..] == Join(ahead) + rest)
      modifies this`pos, this`nextSlice, this`remaining
      ensures Valid() && (ok || astray)
    {
      hide GetS;
      if !astray {
        AheadAt(buffer, pos, ahead, rest);
      }
      var left := |buffer| - pos;
      if left < LOG_OVERHEAD {
        remaining, nextSlice := left, None;
        return true;
      }
      var length := UnpackAt(buffer, pos + LENGTH_OFFSET);
      if length.None? {
        return false;
      }
      var end := pos + LOG_OVERHEAD + length.value;
      if end > |buffer| {
        remaining, nextSlice := left, None;
        return true;
      }
      nextSlice := Some(SliceFrom(buffer, pos, end));
      pos := end;
      return true;
    }

    predicate HasNext()
      reads this
    {
      nextSlice.Some?
    }

    /** The next batch, in order; `Ok(None)` after the last, and an error, with nothing taken,
        for a slice below the minimum size. Only a broken rest can give a slice that is no
        batch. */
    method NextBatch() returns (r: Result<Option<bytes>>)
      requires Valid()
      modifies this`pos, this`nextSlice, this`remaining, this`ahead, this`astray
      ensures Valid() && (old(astray) ==> astray)
      ensures !old(astray) ==>
        if old(ahead) != [] then
          && r == (if |old(ahead)[0]| < MIN_SLICE then Err(Corrupt) else Ok(Some(old(ahead)[0])))
          && ahead == (if r.Ok? then old(ahead)[1..] else old(ahead)) && !astray
        else if !Broken(rest) then r == Ok(None) && remaining == |rest| && ahead == [] && !astray
        else if |BrokenSlice(buffer, rest)| < MIN_SLICE then r == Err(Corrupt) && ahead == [] && !astray
        else astray && (r.Ok? ==> r.value == Some(BrokenSlice(buffer, rest)))
    {
      var next := nextSlice;
      if next.None? {
        return Ok(None);
      }
      if |next.value| < MIN_SLICE {
        return Err(Corrupt);
      }
      if ahead != [] {
        ahead := ahead[1..];
      } else {
        astray := true;
      }
      var ok := CacheNext();
      if !ok {
        return Err(OutOfBuffer);
      }
      return Ok(next);
    }
  }

  /** What stands at the position when batches and a rest do. */
  lemma AheadAt(buffer: bytes, pos: int, bs: seq<bytes>, rest: bytes)
    requires AllWhole(bs) && 0 <= pos <= |buffer| && buffer[pos..] == Join(bs) + rest
    ensures bs == [] ==> pos == |buffer| - |rest| && buffer[pos..] == rest
    ensures bs == [] && |rest| >= LOG_OVERHEAD ==>
      UnpackAt(buffer, pos + LENGTH_OFFSET) == Some(Field(rest, LENGTH_OFFSET, 4))
    ensures bs != [] ==> && |buffer| - pos >= |bs[0]| >= LOG_OVERHEAD
                         && UnpackAt(buffer, pos + LENGTH_OFFSET) == Some(|bs[0]| - LOG_OVERHEAD)
                         && buffer[pos..pos + |bs[0]|] == bs[0] && buffer[pos + |bs[0]|..] == Join(bs[1..]) + rest
  {
    hide GetS;
    var all := buffer[pos..];
    if bs == [] {
      ConcatNil(rest);
      assert |rest| >= LOG_OVERHEAD ==>
        rest[LENGTH_OFFSET..LENGTH_OFFSET + 4] == buffer[pos + LENGTH_OFFSET..pos + LENGTH_OFFSET + 4];
    } else {
      assert Whole(bs[0]);
      ConcatAssoc(bs[0], Join(bs[1..]), rest);
      assert all[..|bs[0]|] == bs[0] && all[|bs[0]|..] == Join(bs[1..]) + rest;
      assert buffer[pos..pos + |bs[0]|] == all[..|bs[0]|] && buffer[pos + |bs[0]|..] == all[|bs[0]|..];
      assert bs[0][LENGTH_OFFSET..LENGTH_OFFSET + 4] == buffer[pos + LENGTH_OFFSET..pos + LENGTH_OFFSET + 4];
    }
  }

  /** A sealed batch whose length field is right is whole, so batches written one after
      another are split where they were joined. */
  lemma SealedIsWhole(h: Head, data: bytes)
    requires Packable(h) && h.length == HEADER_SIZE + |data| - AFTER_LEN_OFFSET
    ensures Whole(Sealed(h, data)) && |Sealed(h, data)| >= MIN_SLICE
  {
    SealedHolds(h, data);
  }
}
