/** The builder of version 2 record batches (record/default_records.py). */
module RecordBatch {
  import opened Types
  import opened Bytes
  import opened Varint
  import opened Records
  import opened BatchFormat

  // ---------- Sizes ----------

  method SizeOfNullable(b: Option<bytes>) returns (size: nat)
    requires ShortIfAny(b)
    ensures size == |Nullable(b)|
  {
    if b.None? {
      return 1;
    }
    SizeIsLength(|b.value|);
    size := SizeOfVarint(|b.value|) + |b.value|;
  }

  /** The size of key, value and headers, computed without writing them. */
  method SizeOf(u: Utf8, r: Record) returns (size: nat)
    requires ShortIfAny(r.key) && ShortIfAny(r.value) && HeadersFit(u, r.headers)
    ensures size == |ContentBytes(u, r)|
  {
    hide Encoded, SizeOfVarint, Nullable;
    var key := SizeOfNullable(r.key);
    var value := SizeOfNullable(r.value);
    SizeIsLength(|r.headers|);
    size := key + value + SizeOfVarint(|r.headers|);
    ghost var before := size;
    for i := 0 to |r.headers|
      invariant size + |HeadersBytes(u, r.headers[i..])| == before + |HeadersBytes(u, r.headers)|
    {
      var h := r.headers[i];
      assert HeaderFits(u, h);
      var text := u.encode(h.key);
      SizeIsLength(|text|);
      var more := SizeOfNullable(h.value);
      size := size + SizeOfVarint(|text|) + |text| + more;
      assert r.headers[i..][1..] == r.headers[i + 1..];
    }
  }

  /** Beyond the header and key, value and headers, a record with a 32-bit offset takes at
      most 21 bytes. */
  lemma EstimateIsUpper(u: Utf8, r: Record, first: int)
    requires Fits(u, r, first) && Short(Body(u, r, first))
    requires InRange(r.offset, 4) && |Body(u, r, first)| < 0x4_0000_0000
    ensures |Framed(u, r, first)| <= 21 + |ContentBytes(u, r)|
  {
    FourBytes();
    SizeIsLength(r.timestamp - first);
    SizeIsLength(r.offset);
    SizeIsLength(|Body(u, r, first)|);
    hide Encoded, ContentBytes;
  }

  // ---------- Writing a record ----------

  method WriteNullable(buffer: bytes, b: Option<bytes>) returns (after: bytes)
    requires ShortIfAny(b)
    ensures after == buffer + Nullable(b)
  {
    if b.None? {
      return buffer + [1];
    }
    var length, _ := EncodeVarint(|b.value|);
    ConcatAssoc(buffer, length, b.value);
    after := buffer + length + b.value;
  }

  method WriteHeaders(u: Utf8, buffer: bytes, headers: seq<Header>) returns (after: bytes)
    requires AllFit(u, headers)
    ensures after == buffer + HeadersBytes(u, headers)
  {
    hide Nullable, Encoded;
    after := buffer;
    for i := 0 to |headers|
      invariant after + HeadersBytes(u, headers[i..]) == buffer + HeadersBytes(u, headers)
    {
      var h := headers[i];
      assert HeaderFits(u, h);
      var text := u.encode(h.key);
      var length, _ := EncodeVarint(|text|);
      ghost var before := after;
      after := WriteNullable(after + length + text, h.value);
      HeaderWritten(u, before, h, headers[i..]);
      assert headers[i..][1..] == headers[i + 1..];
    }
    ConcatNil(after);
  }

  lemma HeaderWritten(u: Utf8, before: bytes, h: Header, headers: seq<Header>)
    requires AllFit(u, headers) && headers != [] && headers[0] == h
    ensures HeaderFits(u, h)
    ensures ((before + Encoded(|u.encode(h.key)|) + u.encode(h.key)) + Nullable(h.value))
            + HeadersBytes(u, headers[1..])
            == before + HeadersBytes(u, headers)
  {
    hide Encoded, Nullable;
    assert HeaderFits(u, h);
    var length, text, value, rest :=
        Encoded(|u.encode(h.key)|), u.encode(h.key), Nullable(h.value), HeadersBytes(u, headers[1..]);
    ConcatAssoc(before, length, text);
    ConcatAssoc(before, length + text, value);
    ConcatAssoc(before, length + text + value, rest);
  }

  /** The message buffer of `append`: every field in turn. */
  method WriteBody(u: Utf8, r: Record, first: int) returns (message: bytes)
    requires Fits(u, r, first)
    ensures message == Body(u, r, first)
  {
    hide Encoded, Nullable, HeadersBytes;
    var delta, _ := EncodeVarint(r.timestamp - first);
    var offset, _ := EncodeVarint(r.offset);
    message := [0] + delta + offset;
    message := WriteNullable(message, r.key);
    message := WriteNullable(message, r.value);
    var count, _ := EncodeVarint(|r.headers|);
    message := message + count;
    message := WriteHeaders(u, message, r.headers);
    Nested([0], delta, offset, Nullable(r.key), Nullable(r.value), count, HeadersBytes(u, r.headers));
  }

  lemma Nested(a: bytes, b: bytes, c: bytes, d: bytes, e: bytes, f: bytes, g: bytes)
    ensures a + b + c + d + e + f + g == a + (b + (c + (d + (e + (f + g)))))
  {
    ConcatAssoc(a + b + c + d + e, f, g);
    ConcatAssoc(a + b + c + d, e, f + g);
    ConcatAssoc(a + b + c, d, e + (f + g));
    ConcatAssoc(a + b, c, d + (e + (f + g)));
    ConcatAssoc(a, b, c + (d + (e + (f + g))));
  }

  // ---------- The builder ----------

  class BatchBuilder {
    const utf8: Utf8
    const codecs: Codecs
    const settings: Settings
    const batchSize: int
    var producer: Producer
    var firstTimestamp: Option<int>
    var maxTimestamp: Option<int>
    var lastOffset: int
    var count: nat
    var buffer: bytes
    ghost var records: seq<Record>

    /** Behind room for the header, the buffer holds the records accepted so far; with two or
        more of them it is within the batch size. */
    ghost predicate Valid()
      reads this
    {
      && AllRecordsFit(utf8, records, First(records)) && |buffer| >= HEADER_SIZE
      && buffer[HEADER_SIZE..] == Payload(utf8, records, First(records))
      && firstTimestamp == (if records == [] then None else Some(First(records)))
      && maxTimestamp == (if records == [] then None else Some(BatchFormat.Latest(records)))
      && lastOffset == LastOffset(records) && count == |records|
      && (|records| >= 2 ==> |buffer| <= batchSize)
    }

    constructor (utf8: Utf8, codecs: Codecs, settings: Settings, producer: Producer, batchSize: int)
      requires settings.magic >= 2 && 0 <= settings.codec < 8
      ensures Valid() && records == []
      ensures this.utf8 == utf8 && this.codecs == codecs && this.settings == settings && this.producer == producer
    {
      this.utf8, this.codecs, this.settings, this.producer, this.batchSize :=
          utf8, codecs, settings, producer, batchSize;
      firstTimestamp, maxTimestamp, lastOffset, count, records := None, None, 0, 0, [];
      buffer := seq(HEADER_SIZE, _ => 0);
    }

    /** The timestamp deltas are counted from: the first record's, which may be this one. */
    function Base(timestamp: int): int
      reads this
    {
      if firstTimestamp.None? then timestamp else firstTimestamp.value
    }

    /** The size a record would take, without writing it. */
    method SizeInBytes(r: Record) returns (size: nat)
      requires Valid() && Fits(utf8, r, Base(r.timestamp)) && Short(Body(utf8, r, Base(r.timestamp)))
      ensures size == |Framed(utf8, r, Base(r.timestamp))|
    {
      hide Encoded, SizeOfVarint, ContentBytes, Payload, AllRecordsFit, HeadersFit, BatchFormat.Latest;
      var delta := if firstTimestamp.Some? then r.timestamp - firstTimestamp.value else 0;
      SizeIsLength(r.offset);
      SizeIsLength(delta);
      var content := SizeOf(utf8, r);
      var body := 1 + SizeOfVarint(r.offset) + SizeOfVarint(delta) + content;
      SizeIsLength(|Body(utf8, r, Base(r.timestamp))|);
      size := body + SizeOfVarint(body);
    }

    /** Adds a record, unless it is not the first and would make the batch too long. */
    method Append(r: Record) returns (size: Option<nat>)
      requires Valid() && Fits(utf8, r, Base(r.timestamp)) && Short(Body(utf8, r, Base(r.timestamp)))
      modifies this`firstTimestamp, this`maxTimestamp, this`lastOffset, this`count, this`buffer, this`records
      ensures Valid()
      ensures size.None? <==>
        old(records) != [] && old(|buffer|) + |Framed(utf8, r, old(Base(r.timestamp)))| > batchSize
      ensures size.None? ==> records == old(records) && buffer == old(buffer)
      ensures size.Some? ==> records == old(records) + [r] && size.value == |Framed(utf8, r, old(Base(r.timestamp)))|
      ensures size.Some? ==> buffer == old(buffer) + Framed(utf8, r, old(Base(r.timestamp)))
    {
      hide Encoded, SizeOfVarint, Body, Payload, AllRecordsFit, Fits, BatchFormat.Latest, LastOffset;
      var base, isFirst := Base(r.timestamp), firstTimestamp.None?;
      if isFirst {
        firstTimestamp, maxTimestamp := Some(r.timestamp), Some(r.timestamp);
      }
      var message := WriteBody(utf8, r, base);
      SizeIsLength(|message|);
      var required := |message| + SizeOfVarint(|message|);
      if required + |buffer| > batchSize && !isFirst {
        return None;
      }
      AppendKeeps(utf8, records, r, base);
      if maxTimestamp.value < r.timestamp {
        maxTimestamp := Some(r.timestamp);
      }
      count, lastOffset := count + 1, r.offset;
      var length, _ := EncodeVarint(|message|);
      ConcatAssoc(buffer, length, message);
      TailAppend(buffer, HEADER_SIZE, Framed(utf8, r, base));
      buffer := buffer + length + message;
      records := records + [r];
      return Some(required);
    }

    method SetProducerState(producer: Producer)
      modifies this`producer
      ensures this.producer == producer
    {
      this.producer := producer;
    }

    /** Compresses the records in place if that makes them shorter; `None` when the codec is
        not there. */
    method MaybeCompress() returns (used: Option<bool>)
      requires |buffer| >= HEADER_SIZE
      modifies this`buffer
      ensures used.None? <==> settings.codec != 0 && !Supported(codecs, settings.codec)
      ensures used.Some? ==> |buffer| >= HEADER_SIZE
      ensures used.Some? ==>
        (buffer[HEADER_SIZE..], used.value) == Compressed(codecs, settings.codec, old(buffer)[HEADER_SIZE..])
    {
      if settings.codec != 0 {
        if !Supported(codecs, settings.codec) {
          return None;
        }
        var data := buffer[HEADER_SIZE..];
        var compressed := codecs.encode(settings.codec, data);
        if |data| <= |compressed| {
          return Some(false);
        }
        buffer := buffer[..HEADER_SIZE] + compressed;
        return Some(true);
      }
      return Some(false);
    }

    /** Writes the header over the room left for it, first without and then with the checksum
        of what follows the checksum field. */
    method WriteHeader(useCompression: bool)
      requires |buffer| >= HEADER_SIZE && count == |records| && lastOffset == LastOffset(records)
      requires firstTimestamp == (if records == [] then None else Some(First(records)))
      requires maxTimestamp == (if records == [] then None else Some(BatchFormat.Latest(records)))
      requires Packable(HeadOf(settings, producer, records, |buffer| - HEADER_SIZE, useCompression))
      modifies this`buffer
      ensures buffer == Sealed(HeadOf(settings, producer, records, old(|buffer|) - HEADER_SIZE, useCompression),
        old(buffer)[HEADER_SIZE..])
    {
      hide Checksum, Packable, HeadFits, Sealed, Pack, PutU;
      var codec := if useCompression then settings.codec else 0;
      var head := Head(0, |buffer| - AFTER_LEN_OFFSET, -1, settings.magic, 0, Attributes(codec, settings.transactional),
                       lastOffset, if firstTimestamp.None? then 0 else firstTimestamp.value,
                       if maxTimestamp.None? then 0 else maxTimestamp.value,
                       producer.id, producer.epoch, producer.sequence, count);
      assert head == HeadOf(settings, producer, records, |buffer| - HEADER_SIZE, useCompression);
      var data := buffer[HEADER_SIZE..];
      PackUnsealed(head);
      buffer := Pack(head) + data;
      var crc := Checksum(buffer[ATTRIBUTES_OFFSET..]);
      PackSealed(head, data, crc);
      buffer := buffer[..CRC_OFFSET] + PutU(crc, 4) + buffer[ATTRIBUTES_OFFSET..];
    }

    method Build() returns (batch: Option<bytes>)
      requires Valid()
      requires var (data, compressed) := Compressed(codecs, settings.codec, Payload(utf8, records, First(records)));
        Packable(HeadOf(settings, producer, records, |data|, compressed))
      modifies this`buffer
      ensures batch.None? <==> settings.codec != 0 && !Supported(codecs, settings.codec)
      ensures batch.Some? ==> batch.value == Built(utf8, codecs, settings, producer, records) == buffer
      ensures batch.Some? && |records| >= 2 ==> |batch.value| <= batchSize
      ensures batch.Some? ==>
        var payload := Payload(utf8, records, First(records));
        HeaderSays(batch.value, settings, producer, records,
                   settings.codec != 0 && |codecs.encode(settings.codec, payload)| < |payload|)
    {
      hide HeaderSays, Payload, AllRecordsFit, HeadOf, Packable, Sealed, BatchFormat.Latest, Supported;
      var used := MaybeCompress();
      if used.None? {
        return None;
      }
      WriteHeader(used.value);
      HeaderIsSaid(utf8, codecs, settings, producer, records);
      return Some(buffer);
    }
  }

  lemma PackUnsealed(h: Head)
    requires Packable(h) && h.crc == 0
    ensures HeadFits(h)
  {
    FourBytes();
  }

  /** Putting the checksum in afterwards gives the sealed batch. */
  lemma PackSealed(h: Head, data: bytes, crc: nat)
    requires Packable(h) && HeadFits(h) && crc == Checksum((Pack(h) + data)[ATTRIBUTES_OFFSET..])
    ensures crc < Pow256(4)
    ensures (Pack(h) + data)[..CRC_OFFSET] + PutU(crc, 4) + (Pack(h) + data)[ATTRIBUTES_OFFSET..] == Sealed(h, data)
  {
    hide Checksum, Front, Tail, PutU, Packable, HeadFits, TailFits, InRange;
    FitsParts(h);
    SealFits(h, crc);
    SameFront(h, h.(crc := crc));
    Behind(Front(h), PutU(h.crc, 4), Tail(h), data);
    ConcatAssoc(Front(h) + PutU(crc, 4), Tail(h), data);
  }

  lemma Behind(front: bytes, crc: bytes, tail: bytes, data: bytes)
    requires |front| == CRC_OFFSET && |crc| == 4
    ensures (front + crc + tail + data)[..CRC_OFFSET] == front
    ensures (front + crc + tail + data)[ATTRIBUTES_OFFSET..] == tail + data
  {
  }

  lemma SameFront(h: Head, sealed: Head)
    requires HeadFits(h) && HeadFits(sealed) && sealed == h.(crc := sealed.crc)
    ensures Front(sealed) == Front(h)
  {
  }

  lemma TailAppend(buffer: bytes, k: nat, more: bytes)
    requires k <= |buffer|
    ensures (buffer + more)[k..] == buffer[k..] + more
  {
  }

  lemma AppendKeeps(u: Utf8, rs: seq<Record>, r: Record, base: int)
    requires AllRecordsFit(u, rs, First(rs)) && base == (if rs == [] then r.timestamp else First(rs))
    requires Fits(u, r, base) && Short(Body(u, r, base))
    ensures First(rs + [r]) == base && LastOffset(rs + [r]) == r.offset
    ensures AllRecordsFit(u, rs + [r], base) && AllRecordsFit(u, rs, base)
    ensures Payload(u, rs + [r], base) == Payload(u, rs, base) + Framed(u, r, base)
    ensures Payload(u, rs, base) == Payload(u, rs, First(rs))
    ensures BatchFormat.Latest(rs + [r]) ==
            (if rs == [] || BatchFormat.Latest(rs) < r.timestamp then r.timestamp else BatchFormat.Latest(rs))
  {
    assert (rs + [r])[..|rs|] == rs;
    PayloadAppend(u, rs, r, base);
  }
}
