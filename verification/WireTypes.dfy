/** The schema language of the wire protocol (protocol/types.py): types built from integers,
    booleans, strings, byte strings, arrays and tuples, plain and compact, and the round trip
    of every value of every such type. */
module WireTypes {
  import opened Types
  import opened Bytes
  import opened Varint
  import opened Records

  datatype Type =
    | Int8 | Int16 | Int32 | UInt32 | Int64 | Boolean | UnsignedVarInt32
    | String | ByteString | Array(of: Type) | Schema(fields: Fields)
    | CompactString | CompactBytes | CompactArray(of: Type)

  datatype Fields = End | Field(first: Type, rest: Fields)

  datatype Value =
    | Null
    | Number(n: int)
    | Truth(b: bool)
    | Text(s: string)
    | Blob(data: bytes)
    | Items(items: seq<Value>)

  const TWO_32: int := 0x1_0000_0000

  // ---------- Unsigned varints ----------

  /** `value & 0xFFFFFFFF`, then groups of seven bits. */
  function Unsigned(value: int): bytes {
    Groups(value % TWO_32)
  }

  const MOST_GROUPS_32: nat := 5

  method EncodeUnsigned(value: int) returns (r: bytes)
    ensures r == Unsigned(value)
  {
    var left: nat := value % TWO_32;
    r := [];
    while left >= 128
      invariant r + Groups(left) == Unsigned(value)
      decreases left
    {
      GroupOut(r, left);
      r := r + [128 + left % 128];
      left := left / 128;
    }
    r := r + [left];
  }

  lemma GroupOut(r: bytes, left: nat)
    requires left >= 128
    ensures r + Groups(left) == (r + [128 + left % 128]) + Groups(left / 128)
  {
    ConcatAssoc(r, [128 + left % 128], Groups(left / 128));
  }

  method DecodeUnsigned(buffer: bytes, start: nat) returns (r: Result<(nat, nat)>)
    ensures r == Read(buffer, start, 0, MOST_GROUPS_32)
  {
    hide Pow128, Shifted;
    var acc: nat, pos: nat, k: nat := 0, start, 0;
    ghost var whole := Read(buffer, start, 0, MOST_GROUPS_32);
    NothingGathered(whole);
    while true
      invariant k < MOST_GROUPS_32
      invariant whole == Gathered(acc, k, Read(buffer, pos, k, MOST_GROUPS_32))
      decreases MOST_GROUPS_32 - k
    {
      if pos >= |buffer| {
        return Err(OutOfBuffer);
      }
      var b := buffer[pos];
      NextGroup(buffer, pos, k, acc, MOST_GROUPS_32);
      acc, pos := acc + Shifted(b, k), pos + 1;
      if b < 128 {
        return Ok((acc, pos));
      }
      k := k + 1;
      if 7 * k > 28 {
        return Err(OutOfRange);
      }
    }
  }

  lemma NothingGathered(r: Result<(nat, nat)>)
    ensures r == Gathered(0, 0, r)
  {
    assert Pow128(0) == 1;
  }

  lemma UnsignedReadBack(buffer: bytes, pos: nat, value: int)
    requires 0 <= value < TWO_32 && At(buffer, pos, Unsigned(value))
    ensures Read(buffer, pos, 0, MOST_GROUPS_32) == Ok((value, pos + |Unsigned(value)|))
  {
    Powers();
    GroupsLength(value, 5);
    AtParts(buffer, pos, Unsigned(value));
    ReadGroups(buffer[..pos], value, buffer[pos + |Unsigned(value)|..], 0, MOST_GROUPS_32);
  }

  // ---------- Values of a type ----------

  /** What a type's encoder takes without raising and without cutting anything off. */
  ghost predicate Has(u: Utf8, t: Type, v: Value)
    decreases t, 0
  {
    match t
    case Int8 => v.Number? && InRange(v.n, 1)
    case Int16 => v.Number? && InRange(v.n, 2)
    case Int32 => v.Number? && InRange(v.n, 4)
    case UInt32 => v.Number? && 0 <= v.n < Pow256(4)
    case Int64 => v.Number? && InRange(v.n, 8)
    case Boolean => v.Truth?
    case UnsignedVarInt32 => v.Number? && 0 <= v.n < TWO_32
    case String => v.Null? || (v.Text? && InRange(|u.encode(v.s)|, 2))
    case ByteString => v.Null? || (v.Blob? && InRange(|v.data|, 4))
    case Array(of) => v.Null? || (v.Items? && InRange(|v.items|, 4) && HasAll(u, of, v.items))
    case Schema(fields) => v.Items? && HasEach(u, fields, v.items)
    case CompactString => v.Null? || (v.Text? && |u.encode(v.s)| + 1 < TWO_32)
    case CompactBytes => v.Null? || (v.Blob? && |v.data| + 1 < TWO_32)
    case CompactArray(of) => v.Null? || (v.Items? && |v.items| + 1 < TWO_32 && HasAll(u, of, v.items))
  }

  ghost predicate HasAll(u: Utf8, t: Type, vs: seq<Value>)
    decreases t, |vs| + 1
  {
    vs == [] || (Has(u, t, vs[0]) && HasAll(u, t, vs[1..]))
  }

  ghost predicate HasEach(u: Utf8, fs: Fields, vs: seq<Value>)
    decreases fs, 0
  {
    match fs
    case End => vs == []
    case Field(first, rest) => vs != [] && Has(u, first, vs[0]) && HasEach(u, rest, vs[1..])
  }

  // ---------- Encoding ----------

  ghost function Encode(u: Utf8, t: Type, v: Value): bytes
    requires Has(u, t, v)
    decreases t, 0
  {
    match t
    case Int8 => PutS(v.n, 1)
    case Int16 => PutS(v.n, 2)
    case Int32 => PutS(v.n, 4)
    case UInt32 => PutU(v.n, 4)
    case Int64 => PutS(v.n, 8)
    case Boolean => [if v.b then 1 else 0]
    case UnsignedVarInt32 => Unsigned(v.n)
    case String => if v.Null? then PutS(-1, 2) else PutS(|u.encode(v.s)|, 2) + u.encode(v.s)
    case ByteString => if v.Null? then PutS(-1, 4) else PutS(|v.data|, 4) + v.data
    case Array(of) => if v.Null? then PutS(-1, 4) else PutS(|v.items|, 4) + EncodeAll(u, of, v.items)
    case Schema(fields) => EncodeEach(u, fields, v.items)
    case CompactString => if v.Null? then Unsigned(0) else Unsigned(|u.encode(v.s)| + 1) + u.encode(v.s)
    case CompactBytes => if v.Null? then Unsigned(0) else Unsigned(|v.data| + 1) + v.data
    case CompactArray(of) => if v.Null? then Unsigned(0) else Unsigned(|v.items| + 1) + EncodeAll(u, of, v.items)
  }

  ghost function EncodeAll(u: Utf8, t: Type, vs: seq<Value>): bytes
    requires HasAll(u, t, vs)
    decreases t, |vs| + 1
  {
    if vs == [] then [] else Encode(u, t, vs[0]) + EncodeAll(u, t, vs[1..])
  }

  ghost function EncodeEach(u: Utf8, fs: Fields, vs: seq<Value>): bytes
    requires HasEach(u, fs, vs)
    decreases fs, 0
  {
    match fs
    case End => []
    case Field(first, rest) => Encode(u, first, vs[0]) + EncodeEach(u, rest, vs[1..])
  }

  // ---------- Decoding ----------

  /** A signed integer of `k` bytes; fewer bytes are an error. */
  function DecodeSigned(buffer: bytes, pos: nat, k: nat): Result<(int, nat)> {
    if pos + k > |buffer| then Err(OutOfBuffer) else Ok((GetS(buffer[pos..pos + k]), pos + k))
  }

  /** A length as the plain types write it. */
  function PlainLength(buffer: bytes, pos: nat, k: nat): Result<(int, nat)> {
    DecodeSigned(buffer, pos, k)
  }

  /** A length as the compact types write it: one more, so that 0 is left for null. */
  function CompactLength(buffer: bytes, pos: nat): Result<(int, nat)> {
    match Read(buffer, pos, 0, MOST_GROUPS_32)
    case Err(fault) => Err(fault)
    case Ok((n, next)) => Ok((n - 1, next))
  }

  function DecodeBytes(buffer: bytes, length: Result<(int, nat)>): Result<(Option<bytes>, nat)> {
    match length
    case Err(fault) => Err(fault)
    case Ok((n, next)) =>
      if n < 0 then Ok((None, next))
      else if next + n > |buffer| then Err(OutOfBuffer)
      else Ok((Some(buffer[next..next + n]), next + n))
  }

  function AsBlob(r: Result<(Option<bytes>, nat)>): Result<(Value, nat)> {
    match r
    case Err(fault) => Err(fault)
    case Ok((None, next)) => Ok((Null, next))
    case Ok((Some(data), next)) => Ok((Blob(data), next))
  }

  function AsText(u: Utf8, r: Result<(Option<bytes>, nat)>): Result<(Value, nat)> {
    match r
    case Err(fault) => Err(fault)
    case Ok((None, next)) => Ok((Null, next))
    case Ok((Some(data), next)) =>
      match u.decode(data)
      case None => Err(Corrupt)
      case Some(s) => Ok((Text(s), next))
  }

  function AsNumber(r: Result<(int, nat)>): Result<(Value, nat)> {
    match r
    case Err(fault) => Err(fault)
    case Ok((n, next)) => Ok((Number(n), next))
  }

  function Decode(u: Utf8, t: Type, buffer: bytes, pos: nat): Result<(Value, nat)>
    decreases t, 0
  {
    match t
    case Int8 => AsNumber(DecodeSigned(buffer, pos, 1))
    case Int16 => AsNumber(DecodeSigned(buffer, pos, 2))
    case Int32 => AsNumber(DecodeSigned(buffer, pos, 4))
    case UInt32 => if pos + 4 > |buffer| then Err(OutOfBuffer) else Ok((Number(GetU(buffer[pos..pos + 4])), pos + 4))
    case Int64 => AsNumber(DecodeSigned(buffer, pos, 8))
    case Boolean => if pos >= |buffer| then Err(OutOfBuffer) else Ok((Truth(buffer[pos] != 0), pos + 1))
    case UnsignedVarInt32 => AsNumber(Read(buffer, pos, 0, MOST_GROUPS_32))
    case String => AsText(u, DecodeBytes(buffer, PlainLength(buffer, pos, 2)))
    case ByteString => AsBlob(DecodeBytes(buffer, PlainLength(buffer, pos, 4)))
    case Array(of) => DecodeList(u, of, buffer, PlainLength(buffer, pos, 4))
    case Schema(fields) =>
      (match DecodeEach(u, fields, buffer, pos)
       case Err(fault) => Err(fault)
       case Ok((vs, end)) => Ok((Items(vs), end)))
    case CompactString => AsText(u, DecodeBytes(buffer, CompactLength(buffer, pos)))
    case CompactBytes => AsBlob(DecodeBytes(buffer, CompactLength(buffer, pos)))
    case CompactArray(of) => DecodeList(u, of, buffer, CompactLength(buffer, pos))
  }

  /** An array after its length: -1 is null, any other negative length an empty list. */
  function DecodeList(u: Utf8, t: Type, buffer: bytes, length: Result<(int, nat)>): Result<(Value, nat)>
    decreases t, if length.Ok? && length.value.0 > 0 then length.value.0 + 2 else 2
  {
    match length
    case Err(fault) => Err(fault)
    case Ok((n, next)) =>
      if n == -1 then Ok((Null, next))
      else
        match DecodeAll(u, t, buffer, next, if n > 0 then n else 0)
        case Err(fault) => Err(fault)
        case Ok((vs, end)) => Ok((Items(vs), end))
  }

  function DecodeAll(u: Utf8, t: Type, buffer: bytes, pos: nat, count: nat): Result<(seq<Value>, nat)>
    decreases t, count + 1
  {
    if count == 0 then Ok(([], pos))
    else
      match Decode(u, t, buffer, pos)
      case Err(fault) => Err(fault)
      case Ok((v, next)) =>
        match DecodeAll(u, t, buffer, next, count - 1)
        case Err(fault) => Err(fault)
        case Ok((vs, end)) => Ok(([v] + vs, end))
  }

  function DecodeEach(u: Utf8, fs: Fields, buffer: bytes, pos: nat): Result<(seq<Value>, nat)>
    decreases fs, 0
  {
    match fs
    case End => Ok(([], pos))
    case Field(first, rest) =>
      match Decode(u, first, buffer, pos)
      case Err(fault) => Err(fault)
      case Ok((v, next)) =>
        match DecodeEach(u, rest, buffer, next)
        case Err(fault) => Err(fault)
        case Ok((vs, end)) => Ok(([v] + vs, end))
  }

  // ---------- Round trip ----------

  lemma SignedReadBack(buffer: bytes, pos: nat, n: int, k: nat)
    requires InRange(n, k) && At(buffer, pos, PutS(n, k))
    ensures DecodeSigned(buffer, pos, k) == Ok((n, pos + k))
  {
    SignedRoundTrip(n, k);
  }

  lemma LengthReadBack(buffer: bytes, pos: nat, n: int, k: nat, after: bytes)
    requires InRange(n, k) && At(buffer, pos, PutS(n, k) + after)
    ensures PlainLength(buffer, pos, k) == Ok((n, pos + k)) && At(buffer, pos + k, after)
  {
    AtSplit(buffer, pos, PutS(n, k), after);
    SignedReadBack(buffer, pos, n, k);
  }

  lemma CompactReadBack(buffer: bytes, pos: nat, n: nat, after: bytes)
    requires n < TWO_32 && At(buffer, pos, Unsigned(n) + after)
    ensures CompactLength(buffer, pos) == Ok((n - 1, pos + |Unsigned(n)|)) && At(buffer, pos + |Unsigned(n)|, after)
  {
    AtSplit(buffer, pos, Unsigned(n), after);
    UnsignedReadBack(buffer, pos, n);
  }

  lemma BytesReadBack(buffer: bytes, pos: nat, data: bytes)
    requires At(buffer, pos, data)
    ensures DecodeBytes(buffer, Ok((|data|, pos))) == Ok((Some(data), pos + |data|))
  {
  }

  lemma MinusOneFits()
    ensures InRange(-1, 2) && InRange(-1, 4)
  {
    assert Pow256(2) == 0x1_0000;
  }

  /** Every value of every type is read back from wherever it was written, and nothing else is
      touched. */
  lemma {:induction false} RoundTripAt(u: Utf8, t: Type, v: Value, buffer: bytes, pos: nat)
    requires Faithful(u) && Has(u, t, v) && At(buffer, pos, Encode(u, t, v))
    ensures Decode(u, t, buffer, pos) == Ok((v, pos + |Encode(u, t, v)|))
    decreases t, 0
  {
    hide At, PutS, DecodeSigned, Unsigned, Read, InRange, DecodeBytes, PlainLength, CompactLength;
    MinusOneFits();
    ConcatNil(Encode(u, t, v));
    match t
    case Array(of) =>
      if v.Null? {
        LengthReadBack(buffer, pos, -1, 4, []);
      } else {
        LengthReadBack(buffer, pos, |v.items|, 4, EncodeAll(u, of, v.items));
        AllRoundTrip(u, of, v.items, buffer, pos + 4);
      }
    case CompactArray(of) =>
      if v.Null? {
        CompactReadBack(buffer, pos, 0, []);
      } else {
        CompactReadBack(buffer, pos, |v.items| + 1, EncodeAll(u, of, v.items));
        AllRoundTrip(u, of, v.items, buffer, pos + |Unsigned(|v.items| + 1)|);
      }
    case Schema(fields) => EachRoundTrip(u, fields, v.items, buffer, pos);
    case _ => LeafRoundTrip(u, t, v, buffer, pos);
  }

  predicate Leaf(t: Type) {
    !t.Array? && !t.CompactArray? && !t.Schema?
  }

  lemma LeafRoundTrip(u: Utf8, t: Type, v: Value, buffer: bytes, pos: nat)
    requires Leaf(t) && Faithful(u) && Has(u, t, v) && At(buffer, pos, Encode(u, t, v))
    ensures Decode(u, t, buffer, pos) == Ok((v, pos + |Encode(u, t, v)|))
  {
    hide PutS, DecodeSigned, Unsigned, Read, InRange, PutU, GetU, Faithful;
    match t
    case Int8 => SignedReadBack(buffer, pos, v.n, 1);
    case Int16 => SignedReadBack(buffer, pos, v.n, 2);
    case Int32 => SignedReadBack(buffer, pos, v.n, 4);
    case UInt32 => UnsignedRoundTrip(v.n, 4);
    case Int64 => SignedReadBack(buffer, pos, v.n, 8);
    case Boolean => assert buffer[pos..pos + 1][0] == buffer[pos];
    case UnsignedVarInt32 => UnsignedReadBack(buffer, pos, v.n);
    case _ => SizedRoundTrip(u, t, v, buffer, pos);
  }

  predicate Sized(t: Type) {
    t.String? || t.ByteString? || t.CompactString? || t.CompactBytes?
  }

  lemma SizedRoundTrip(u: Utf8, t: Type, v: Value, buffer: bytes, pos: nat)
    requires Sized(t) && Faithful(u) && Has(u, t, v) && At(buffer, pos, Encode(u, t, v))
    ensures Decode(u, t, buffer, pos) == Ok((v, pos + |Encode(u, t, v)|))
  {
    hide At, Encode, Decode, Has, Faithful;
    if t.String? || t.ByteString? {
      PlainRoundTrip(u, t, v, buffer, pos);
    } else {
      CompactRoundTrip(u, t, v, buffer, pos);
    }
  }

  lemma PlainRoundTrip(u: Utf8, t: Type, v: Value, buffer: bytes, pos: nat)
    requires (t.String? || t.ByteString?) && Faithful(u) && Has(u, t, v) && At(buffer, pos, Encode(u, t, v))
    ensures Decode(u, t, buffer, pos) == Ok((v, pos + |Encode(u, t, v)|))
  {
    hide At, PutS, Unsigned, InRange, PlainLength, CompactLength;
    MinusOneFits();
    ConcatNil(Encode(u, t, v));
    match t
    case String =>
      if v.Null? {
        LengthReadBack(buffer, pos, -1, 2, []);
      } else {
        var data := u.encode(v.s);
        LengthReadBack(buffer, pos, |data|, 2, data);
        BytesReadBack(buffer, pos + 2, data);
      }
    case ByteString =>
      if v.Null? {
        LengthReadBack(buffer, pos, -1, 4, []);
      } else {
        LengthReadBack(buffer, pos, |v.data|, 4, v.data);
        BytesReadBack(buffer, pos + 4, v.data);
      }
  }

  lemma CompactRoundTrip(u: Utf8, t: Type, v: Value, buffer: bytes, pos: nat)
    requires (t.CompactString? || t.CompactBytes?) && Faithful(u) && Has(u, t, v) && At(buffer, pos, Encode(u, t, v))
    ensures Decode(u, t, buffer, pos) == Ok((v, pos + |Encode(u, t, v)|))
  {
    hide At, PutS, Unsigned, InRange, PlainLength, CompactLength;
    ConcatNil(Encode(u, t, v));
    match t
    case CompactString =>
      if v.Null? {
        CompactReadBack(buffer, pos, 0, []);
      } else {
        var data := u.encode(v.s);
        CompactReadBack(buffer, pos, |data| + 1, data);
        BytesReadBack(buffer, pos + |Unsigned(|data| + 1)|, data);
      }
    case CompactBytes =>
      if v.Null? {
        CompactReadBack(buffer, pos, 0, []);
      } else {
        CompactReadBack(buffer, pos, |v.data| + 1, v.data);
        BytesReadBack(buffer, pos + |Unsigned(|v.data| + 1)|, v.data);
      }
  }

  lemma {:induction false} AllRoundTrip(u: Utf8, t: Type, vs: seq<Value>, buffer: bytes, pos: nat)
    requires Faithful(u) && HasAll(u, t, vs) && At(buffer, pos, EncodeAll(u, t, vs))
    ensures DecodeAll(u, t, buffer, pos, |vs|) == Ok((vs, pos + |EncodeAll(u, t, vs)|))
    decreases t, |vs| + 1
  {
    hide At, Has, Encode, Decode;
    if vs != [] {
      var first := Encode(u, t, vs[0]);
      AtSplit(buffer, pos, first, EncodeAll(u, t, vs[1..]));
      RoundTripAt(u, t, vs[0], buffer, pos);
      AllRoundTrip(u, t, vs[1..], buffer, pos + |first|);
      assert [vs[0]] + vs[1..] == vs;
    }
  }

  lemma {:induction false} EachRoundTrip(u: Utf8, fs: Fields, vs: seq<Value>, buffer: bytes, pos: nat)
    requires Faithful(u) && HasEach(u, fs, vs) && At(buffer, pos, EncodeEach(u, fs, vs))
    ensures DecodeEach(u, fs, buffer, pos) == Ok((vs, pos + |EncodeEach(u, fs, vs)|))
    decreases fs, 0
  {
    hide At, Has, Encode, Decode;
    match fs
    case End =>
    case Field(first, rest) =>
      var encoded := Encode(u, first, vs[0]);
      AtSplit(buffer, pos, encoded, EncodeEach(u, rest, vs[1..]));
      RoundTripAt(u, first, vs[0], buffer, pos);
      EachRoundTrip(u, rest, vs[1..], buffer, pos + |encoded|);
      assert [vs[0]] + vs[1..] == vs;
  }

  /** Decoding what was encoded gives the value and leaves what follows. */
  lemma RoundTrip(u: Utf8, t: Type, v: Value, before: bytes, after: bytes)
    requires Faithful(u) && Has(u, t, v)
    ensures Decode(u, t, before + Encode(u, t, v) + after, |before|) == Ok((v, |before| + |Encode(u, t, v)|))
  {
    hide Encode, Decode, Has, Faithful, At;
    AtIn(before, Encode(u, t, v), after);
    RoundTripAt(u, t, v, before + Encode(u, t, v) + after, |before|);
  }

  // ---------- Signed varints ----------

  /** The signed varint masks to 32 bits before its zigzag, so the sign is lost. */
  function Zigzagged32(value: int): int {
    var w := value % TWO_32;
    if w < TWO_32 / 2 then 2 * w else 2 * w + 1
  }

  /** A 32-bit signed varint that was written is read back exactly when it is not negative. */
  lemma VarInt32RoundTripIff(buffer: bytes, pos: nat, value: int)
    requires InRange(value, 4) && At(buffer, pos, Unsigned(Zigzagged32(value)))
    ensures var r := Read(buffer, pos, 0, MOST_GROUPS_32);
      && r.Ok? && (UnZigZag(r.value.0) == value <==> value >= 0)
      && (value < 0 ==> UnZigZag(r.value.0) == -value - TWO_32 / 2 - 1)
  {
    hide Read, At, UnZigZag, InRange, Zigzagged32, Sent32;
    FourBytesRange(value);
    SentIsMasked(value);
    SentReads(value);
    UnsignedReadBack(buffer, pos, Sent32(value));
  }

  lemma FourBytesRange(value: int)
    requires InRange(value, 4)
    ensures -TWO_32 / 2 <= value < TWO_32 / 2
  {
    assert Pow256(4) == TWO_32 by {
      assert Pow256(2) == 0x1_0000;
    }
  }

  lemma Wraps(x: int)
    requires 0 <= x < TWO_32
    ensures x % TWO_32 == x && (x - TWO_32) % TWO_32 == x && (x + TWO_32) % TWO_32 == x
  {
  }

  /** The number that a value of 32 bits is sent as. */
  function Sent32(value: int): int {
    if value >= 0 then 2 * value else 2 * value + 1 + TWO_32
  }

  lemma SentIsMasked(value: int)
    requires -TWO_32 / 2 <= value < TWO_32 / 2
    ensures 0 <= Sent32(value) < TWO_32 && Zigzagged32(value) % TWO_32 == Sent32(value) % TWO_32
  {
    if value >= 0 {
      Wraps(value);
    } else {
      Wraps(value + TWO_32);
      Wraps(Sent32(value));
      assert Zigzagged32(value) == Sent32(value) + TWO_32;
    }
  }

  lemma SentReads(value: int)
    requires -TWO_32 / 2 <= value < TWO_32 / 2
    ensures UnZigZag(Sent32(value)) == if value >= 0 then value else -value - TWO_32 / 2 - 1
  {
    hide UnZigZag;
    if value >= 0 {
      Unzigs(value);
    } else {
      Unzigs(value + TWO_32 / 2);
    }
  }

  lemma Unzigs(w: nat)
    ensures UnZigZag(2 * w) == w && UnZigZag(2 * w + 1) == -1 - w
  {
    Halves(w);
  }

  // ---------- Examples ----------

  lemma Two16()
    ensures Pow256(1) == 256 && Pow256(2) == 0x1_0000 && Pow256(3) == 0x100_0000 && Pow256(4) == 0x1_0000_0000
  {
  }

  /** Numbers as they are on the wire. */
  lemma NumbersExample(u: Utf8)
    ensures Has(u, Int16, Number(258)) && Encode(u, Int16, Number(258)) == [1, 2]
    ensures Has(u, Int16, Number(-2)) && Encode(u, Int16, Number(-2)) == [255, 254]
    ensures Has(u, Int32, Number(0x01020304)) && Encode(u, Int32, Number(0x01020304)) == [1, 2, 3, 4]
    ensures Has(u, Boolean, Truth(true)) && Encode(u, Boolean, Truth(true)) == [1]
    ensures Has(u, UnsignedVarInt32, Number(300)) && Encode(u, UnsignedVarInt32, Number(300)) == [172, 2]
  {
    Two16();
    assert PutU(1, 1) == [1] && PutU(258, 2) == [1, 2];
    assert PutU(255, 1) == [255] && PutU(65534, 2) == [255, 254];
    assert PutU(0x0102, 2) == [1, 2] && PutU(0x010203, 3) == [1, 2, 3] && PutU(0x01020304, 4) == [1, 2, 3, 4];
    assert Groups(2) == [2] && Groups(300) == [172] + Groups(2);
  }

  /** Lengths and nulls as they are on the wire. */
  lemma LengthsExample(u: Utf8)
    requires u.encode("ab") == [97, 98]
    ensures Has(u, String, Text("ab")) && Encode(u, String, Text("ab")) == [0, 2, 97, 98]
    ensures Has(u, String, Null) && Encode(u, String, Null) == [255, 255]
    ensures Has(u, ByteString, Blob([7])) && Encode(u, ByteString, Blob([7])) == [0, 0, 0, 1, 7]
  {
    LengthBytes();
    hide PutU, Groups;
  }

  lemma LengthBytes()
    ensures 65535 < Pow256(2) && PutU(2, 2) == [0, 2] && PutU(65535, 2) == [255, 255]
    ensures 1 < Pow256(4) && PutU(1, 4) == [0, 0, 0, 1]
  {
    Two16();
    assert PutU(0, 1) == [0] && PutU(255, 1) == [255];
    assert PutU(0, 2) == [0, 0] && PutU(0, 3) == [0, 0, 0];
  }

  lemma CompactExample(u: Utf8)
    requires u.encode("ab") == [97, 98]
    ensures Has(u, CompactString, Text("ab")) && Encode(u, CompactString, Text("ab")) == [3, 97, 98]
    ensures Has(u, CompactString, Null) && Encode(u, CompactString, Null) == [0]
    ensures Has(u, CompactBytes, Blob([7])) && Encode(u, CompactBytes, Blob([7])) == [2, 7]
  {
    assert Groups(0) == [0] && Groups(2) == [2] && Groups(3) == [3];
  }
}
