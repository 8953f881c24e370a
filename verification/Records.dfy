/** One record of a version 2 batch (record/default_records.py): its bytes, how they are
    read, and their size. */
module Records {
  import opened Types
  import opened Bytes
  import opened Varint

  datatype Header = Header(key: string, value: Option<bytes>)

  datatype Record = Record(offset: int, timestamp: int, key: Option<bytes>, value: Option<bytes>, headers: seq<Header>)

  /** The text encoding of header keys, taken as given. */
  datatype Utf8 = Utf8(encode: string -> bytes, decode: bytes -> Option<string>)

  ghost predicate Faithful(u: Utf8) {
    forall s :: u.decode(u.encode(s)) == Some(s)
  }

  predicate Short<T>(s: seq<T>) {
    |s| < TWO_63
  }

  predicate ShortIfAny(b: Option<bytes>) {
    b.Some? ==> Short(b.value)
  }

  predicate HeaderFits(u: Utf8, h: Header) {
    Short(u.encode(h.key)) && ShortIfAny(h.value)
  }

  ghost predicate AllFit(u: Utf8, headers: seq<Header>) {
    forall h :: h in headers ==> HeaderFits(u, h)
  }

  ghost predicate HeadersFit(u: Utf8, headers: seq<Header>) {
    Short(headers) && AllFit(u, headers)
  }

  predicate Is64(v: int) {
    -TWO_63 <= v < TWO_63
  }

  /** What the varints of a record can express, counted from the batch's first timestamp. */
  ghost predicate Fits(u: Utf8, r: Record, first: int) {
    && Is64(r.timestamp - first) && Is64(r.offset)
    && ShortIfAny(r.key) && ShortIfAny(r.value) && HeadersFit(u, r.headers)
  }

  // ---------- Writing ----------

  /** A length and the bytes; the single byte 1, the varint of -1, stands for None. */
  function Nullable(b: Option<bytes>): bytes
    requires ShortIfAny(b)
  {
    if b.None? then [1] else Encoded(|b.value|) + b.value
  }

  ghost function HeaderBytes(u: Utf8, h: Header): bytes
    requires HeaderFits(u, h)
  {
    Encoded(|u.encode(h.key)|) + u.encode(h.key) + Nullable(h.value)
  }

  ghost function HeadersBytes(u: Utf8, headers: seq<Header>): bytes
    requires AllFit(u, headers)
  {
    if headers == [] then [] else HeaderBytes(u, headers[0]) + HeadersBytes(u, headers[1..])
  }

  /** Key, value and headers. */
  ghost function ContentBytes(u: Utf8, r: Record): bytes
    requires ShortIfAny(r.key) && ShortIfAny(r.value) && HeadersFit(u, r.headers)
  {
    Nullable(r.key) + (Nullable(r.value) + (Encoded(|r.headers|) + HeadersBytes(u, r.headers)))
  }

  ghost function Body(u: Utf8, r: Record, first: int): bytes
    requires Fits(u, r, first)
  {
    [0] + (Encoded(r.timestamp - first) + (Encoded(r.offset) + ContentBytes(u, r)))
  }

  ghost function Framed(u: Utf8, r: Record, first: int): bytes
    requires Fits(u, r, first) && Short(Body(u, r, first))
  {
    Encoded(|Body(u, r, first)|) + Body(u, r, first)
  }

  /** A record as the tests of the original give it, in the middle of a batch: second in its
      batch, 168 later than the first, no key, an empty value, no headers. */
  lemma RecordExample(u: Utf8, first: int)
    ensures var r := Record(1, first + 168, None, Some([]), []);
      && Fits(u, r, first) && Short(Body(u, r, first))
      && Framed(u, r, first) == [14, 0, 208, 2, 2, 1, 0, 0]
  {
    assert Encoded(0) == [0] && Encoded(1) == [2] && Encoded(7) == [14];
    assert Groups(2) == [2] && Groups(336) == [128 + 80] + Groups(2);
    assert Encoded(168) == [208, 2];
    var r := Record(1, first + 168, None, Some([]), []);
    assert ContentBytes(u, r) == [1, 0, 0];
    assert Body(u, r, first) == [0, 208, 2, 2, 1, 0, 0];
  }

  /** A record with a key, a value and a header, to tell their places apart. */
  lemma FieldsExample(u: Utf8, first: int)
    requires u.encode("h") == [104]
    ensures var r := Record(3, first, Some([107]), Some([118, 119]), [Header("h", Some([120, 121, 122]))]);
      && Fits(u, r, first)
      && Body(u, r, first) == [0, 0, 6, 2, 107, 4, 118, 119, 2, 2, 104, 6, 120, 121, 122]
  {
    assert Encoded(0) == [0] && Encoded(1) == [2] && Encoded(2) == [4] && Encoded(3) == [6];
    var h := Header("h", Some([120, 121, 122]));
    var r := Record(3, first, Some([107]), Some([118, 119]), [h]);
    assert HeaderBytes(u, h) == [2, 104, 6, 120, 121, 122];
    assert [h][1..] == [];
    assert HeadersBytes(u, [h]) == [2, 104, 6, 120, 121, 122];
  }

  // ---------- Reading ----------

  function ParseNullable(buffer: bytes, pos: nat): Result<(Option<bytes>, nat)> {
    match Decoded(buffer, pos)
    case Err(fault) => Err(fault)
    case Ok((n, next)) =>
      if n >= 0 then Ok((Some(Slice(buffer, next, next + n)), next + n)) else Ok((None, next))
  }

  function ParseHeader(u: Utf8, buffer: bytes, pos: nat): Result<(Header, nat)> {
    match Decoded(buffer, pos)
    case Err(fault) => Err(fault)
    case Ok((n, next)) =>
      if n < 0 then Err(Corrupt)
      else
        match u.decode(Slice(buffer, next, next + n))
        case None => Err(Corrupt)
        case Some(key) =>
          match ParseNullable(buffer, next + n)
          case Err(fault) => Err(fault)
          case Ok((value, end)) => Ok((Header(key, value), end))
  }

  function ParseHeaders(u: Utf8, buffer: bytes, pos: nat, count: nat): Result<(seq<Header>, nat)>
    decreases count
  {
    if count == 0 then Ok(([], pos))
    else
      match ParseHeader(u, buffer, pos)
      case Err(fault) => Err(fault)
      case Ok((h, next)) =>
        match ParseHeaders(u, buffer, next, count - 1)
        case Err(fault) => Err(fault)
        case Ok((hs, end)) => Ok(([h] + hs, end))
  }

  datatype Content = Content(key: Option<bytes>, value: Option<bytes>, headers: seq<Header>)

  function ParseContent(u: Utf8, buffer: bytes, pos: nat): Result<(Content, nat)> {
    match ParseNullable(buffer, pos)
    case Err(fault) => Err(fault)
    case Ok((key, afterKey)) =>
      match ParseNullable(buffer, afterKey)
      case Err(fault) => Err(fault)
      case Ok((value, afterValue)) =>
        match Decoded(buffer, afterValue)
        case Err(fault) => Err(fault)
        case Ok((count, next)) =>
          if count < 0 then Err(Corrupt)
          else
            match ParseHeaders(u, buffer, next, count)
            case Err(fault) => Err(fault)
            case Ok((headers, end)) => Ok((Content(key, value, headers), end))
  }

  /** What a reader knows from the batch header. */
  datatype Frame = Frame(baseOffset: int, firstTimestamp: int, maxTimestamp: int, logAppendTime: bool)

  function ParseBody(u: Utf8, f: Frame, buffer: bytes, pos: nat): Result<(Record, nat)> {
    match Decoded(buffer, pos)
    case Err(fault) => Err(fault)
    case Ok((_, afterAttributes)) =>
      match Decoded(buffer, afterAttributes)
      case Err(fault) => Err(fault)
      case Ok((delta, afterTimestamp)) =>
        match Decoded(buffer, afterTimestamp)
        case Err(fault) => Err(fault)
        case Ok((offset, next)) =>
          match ParseContent(u, buffer, next)
          case Err(fault) => Err(fault)
          case Ok((c, end)) =>
            var timestamp := if f.logAppendTime then f.maxTimestamp else f.firstTimestamp + delta;
            Ok((Record(f.baseOffset + offset, timestamp, c.key, c.value, c.headers), end))
  }

  /** A record whose length field agrees with the bytes read. */
  function ParseRecord(u: Utf8, f: Frame, buffer: bytes, pos: nat): Result<(Record, nat)> {
    match Decoded(buffer, pos)
    case Err(fault) => Err(fault)
    case Ok((length, start)) =>
      match ParseBody(u, f, buffer, start)
      case Err(fault) => Err(fault)
      case Ok((r, end)) => if end - start != length then Err(Corrupt) else Ok((r, end))
  }

  // ---------- Round trip ----------

  lemma NullableReadBack(buffer: bytes, pos: nat, b: Option<bytes>)
    requires ShortIfAny(b) && At(buffer, pos, Nullable(b))
    ensures ParseNullable(buffer, pos) == Ok((b, pos + |Nullable(b)|))
  {
    hide Decoded, Encoded;
    if b.None? {
      assert [1] == Encoded(-1) by {
        MinusOne();
      }
      ReadBack(buffer, pos, -1);
    } else {
      AtSplit(buffer, pos, Encoded(|b.value|), b.value);
      ReadBack(buffer, pos, |b.value|);
    }
  }

  lemma MinusOne()
    ensures Encoded(-1) == [1]
  {
  }

  lemma HeaderReadBack(u: Utf8, buffer: bytes, pos: nat, h: Header)
    requires Faithful(u) && HeaderFits(u, h) && At(buffer, pos, HeaderBytes(u, h))
    ensures ParseHeader(u, buffer, pos) == Ok((h, pos + |HeaderBytes(u, h)|))
  {
    hide Decoded, Encoded, ParseNullable, Nullable;
    var key := u.encode(h.key);
    AtSplit(buffer, pos, Encoded(|key|) + key, Nullable(h.value));
    AtSplit(buffer, pos, Encoded(|key|), key);
    ReadBack(buffer, pos, |key|);
    NullableReadBack(buffer, pos + |Encoded(|key|)| + |key|, h.value);
  }

  lemma {:induction false} HeadersReadBack(u: Utf8, buffer: bytes, pos: nat, headers: seq<Header>)
    requires Faithful(u) && AllFit(u, headers)
    requires At(buffer, pos, HeadersBytes(u, headers))
    ensures ParseHeaders(u, buffer, pos, |headers|) == Ok((headers, pos + |HeadersBytes(u, headers)|))
    decreases |headers|
  {
    hide HeaderBytes, ParseHeader, Faithful, At, HeaderFits;
    if headers != [] {
      AtSplit(buffer, pos, HeaderBytes(u, headers[0]), HeadersBytes(u, headers[1..]));
      HeaderReadBack(u, buffer, pos, headers[0]);
      HeadersReadBack(u, buffer, pos + |HeaderBytes(u, headers[0])|, headers[1..]);
      assert [headers[0]] + headers[1..] == headers;
    }
  }

  lemma ContentReadBack(u: Utf8, buffer: bytes, pos: nat, r: Record)
    requires Faithful(u) && ShortIfAny(r.key) && ShortIfAny(r.value) && HeadersFit(u, r.headers)
    requires At(buffer, pos, ContentBytes(u, r))
    ensures ParseContent(u, buffer, pos) == Ok((Content(r.key, r.value, r.headers), pos + |ContentBytes(u, r)|))
  {
    hide Decoded, Encoded, ParseNullable, Nullable, HeadersBytes, ParseHeaders, At;
    var key, value, count, headers :=
        Nullable(r.key), Nullable(r.value), Encoded(|r.headers|), HeadersBytes(u, r.headers);
    AtSplit(buffer, pos, key, value + (count + headers));
    AtSplit(buffer, pos + |key|, value, count + headers);
    AtSplit(buffer, pos + |key| + |value|, count, headers);
    NullableReadBack(buffer, pos, r.key);
    NullableReadBack(buffer, pos + |key|, r.value);
    ReadBack(buffer, pos + |key| + |value|, |r.headers|);
    HeadersReadBack(u, buffer, pos + |key| + |value| + |count|, r.headers);
  }

  /** The record a reader with this frame gives back. */
  function Seen(f: Frame, r: Record): Record {
    Record(f.baseOffset + r.offset, if f.logAppendTime then f.maxTimestamp else r.timestamp, r.key, r.value, r.headers)
  }

  lemma BodyReadBack(u: Utf8, f: Frame, buffer: bytes, pos: nat, r: Record)
    requires Faithful(u) && Fits(u, r, f.firstTimestamp) && At(buffer, pos, Body(u, r, f.firstTimestamp))
    ensures ParseBody(u, f, buffer, pos) == Ok((Seen(f, r), pos + |Body(u, r, f.firstTimestamp)|))
  {
    hide Decoded, Encoded, ContentBytes, ParseContent, At;
    var delta, offset := Encoded(r.timestamp - f.firstTimestamp), Encoded(r.offset);
    AtSplit(buffer, pos, [0], delta + (offset + ContentBytes(u, r)));
    AtSplit(buffer, pos + 1, delta, offset + ContentBytes(u, r));
    AtSplit(buffer, pos + 1 + |delta|, offset, ContentBytes(u, r));
    ZeroIsOneByte();
    ReadBack(buffer, pos, 0);
    ReadBack(buffer, pos + 1, r.timestamp - f.firstTimestamp);
    ReadBack(buffer, pos + 1 + |delta|, r.offset);
    ContentReadBack(u, buffer, pos + 1 + |delta| + |offset|, r);
  }

  lemma ZeroIsOneByte()
    ensures Encoded(0) == [0]
  {
  }

  /** A record that stands in a buffer is read back, up to its last byte. */
  lemma RecordReadBack(u: Utf8, f: Frame, buffer: bytes, pos: nat, r: Record)
    requires Faithful(u) && Fits(u, r, f.firstTimestamp) && Short(Body(u, r, f.firstTimestamp))
    requires At(buffer, pos, Framed(u, r, f.firstTimestamp))
    ensures ParseRecord(u, f, buffer, pos) == Ok((Seen(f, r), pos + |Framed(u, r, f.firstTimestamp)|))
  {
    hide Decoded, Encoded, Body, ParseBody, At;
    var body := Body(u, r, f.firstTimestamp);
    AtSplit(buffer, pos, Encoded(|body|), body);
    ReadBack(buffer, pos, |body|);
    BodyReadBack(u, f, buffer, pos + |Encoded(|body|)|, r);
  }
}
