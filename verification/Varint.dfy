/** Variable-length integers of the record format (record/util.py): zigzag, then groups of
    seven bits, lowest first. */
module Varint {
  import opened Types
  import opened Bytes

  const TWO_63: int := 0x8000_0000_0000_0000

  /** The values of a signed 64-bit integer. */
  type int64 = x: int | -TWO_63 <= x < TWO_63

  datatype Fault = OutOfBuffer | OutOfRange | Corrupt

  datatype Result<+T> = Ok(value: T) | Err(fault: Fault)

  // ---------- Zigzag ----------

  /** `(value << 1) ^ (value >> 63)` on a 64-bit value: the shift gives 0 or -1. */
  function ZigZag(v: int64): (z: nat)
    ensures z < 2 * TWO_63
  {
    if v >= 0 then 2 * v else -2 * v - 1
  }

  /** `(result >> 1) ^ -(result & 1)`. */
  function UnZigZag(z: nat): int {
    if z % 2 == 0 then z / 2 else -(z / 2) - 1
  }

  lemma Halves(w: nat)
    ensures (2 * w) % 2 == 0 && (2 * w) / 2 == w && (2 * w + 1) % 2 == 1 && (2 * w + 1) / 2 == w
  {
  }

  lemma ZigZagRoundTrip(v: int64)
    ensures UnZigZag(ZigZag(v)) == v
  {
    var w: int := if v >= 0 then v else -1 - v;
    Halves(w);
    assert ZigZag(v) == if v >= 0 then 2 * w else 2 * w + 1;
  }

  /** The sign goes to the lowest bit, the magnitude to the bits above it. */
  lemma ZigZagBits(v: int64)
    ensures ZigZag(v) % 2 == (if v < 0 then 1 else 0) && ZigZag(v) / 2 == (if v < 0 then -1 - v else v)
  {
    var w: int := if v >= 0 then v else -1 - v;
    Halves(w);
    assert ZigZag(v) == if v >= 0 then 2 * w else 2 * w + 1;
  }

  // ---------- Groups of seven bits ----------

  /** The groups of `n`, each but the last with the continuation bit. */
  function Groups(n: nat): (s: seq<byte>)
    ensures s != []
  {
    if n < 128 then [n] else [128 + n % 128] + Groups(n / 128)
  }

  function Pow128(k: nat): (p: nat)
    ensures p > 0
  {
    if k == 0 then 1 else 128 * Pow128(k - 1)
  }

  /** The number of groups: the least `k` with `n < 128^k`. */
  lemma {:induction false} GroupsLength(n: nat, k: nat)
    requires k > 0
    ensures |Groups(n)| <= k <==> n < Pow128(k)
    decreases k
  {
    if n < 128 {
      PowGrows(k);
    } else if k > 1 {
      GroupsLength(n / 128, k - 1);
      DivBelow(n, Pow128(k - 1));
    }
  }

  lemma {:induction false} PowGrows(k: nat)
    requires k > 0
    ensures Pow128(k) >= 128
    decreases k
  {
    if k > 1 {
      PowGrows(k - 1);
    }
  }

  lemma DivBelow(n: nat, p: nat)
    ensures n / 128 < p <==> n < 128 * p
  {
  }

  /** The source's chain of comparisons. */
  function SizeOfVarint(value: int64): (size: nat) {
    var z := ZigZag(value);
    if z <= 0x7F then 1
    else if z <= 0x3FFF then 2
    else if z <= 0x1FFFFF then 3
    else if z <= 0xFFFFFFF then 4
    else if z <= 0x7FFFFFFFF then 5
    else if z <= 0x3FFFFFFFFFF then 6
    else if z <= 0x1FFFFFFFFFFFF then 7
    else if z <= 0xFFFFFFFFFFFFFF then 8
    else if z <= 0x7FFFFFFFFFFFFFFF then 9
    else 10
  }

  function Encoded(value: int64): seq<byte> {
    Groups(ZigZag(value))
  }

  lemma Powers()
    ensures Pow128(1) == 0x80 && Pow128(2) == 0x4000 && Pow128(3) == 0x200000 && Pow128(4) == 0x10000000
    ensures Pow128(5) == 0x800000000 && Pow128(6) == 0x40000000000 && Pow128(7) == 0x2000000000000
    ensures Pow128(8) == 0x100000000000000 && Pow128(9) == 0x8000000000000000 && Pow128(10) == 0x400000000000000000
  {
    assert Pow128(2) == 0x4000;
    assert Pow128(4) == 0x10000000;
    assert Pow128(6) == 0x40000000000;
    assert Pow128(8) == 0x100000000000000;
  }

  /** The size is the number of bytes written. */
  lemma SizeIsLength(value: int64)
    ensures SizeOfVarint(value) == |Encoded(value)| <= 10
  {
    var z := ZigZag(value);
    Powers();
    hide Pow128, Groups;
    GroupsLength(z, 1);
    GroupsLength(z, 2);
    GroupsLength(z, 3);
    GroupsLength(z, 4);
    GroupsLength(z, 5);
    GroupsLength(z, 6);
    GroupsLength(z, 7);
    GroupsLength(z, 8);
    GroupsLength(z, 9);
    GroupsLength(z, 10);
  }

  /** Writes a value byte by byte: unrolled up to five bytes, a loop beyond. The bytes are the
      groups of the zigzag value; the count that is returned is their number except in the
      loop, where it is one less. */
  method EncodeVarint(value: int64) returns (written: seq<byte>, count: nat)
    ensures written == Encoded(value)
    ensures count == |written| <==> ZigZag(value) <= 0x7FFFFFFFF
    ensures ZigZag(value) > 0x7FFFFFFFF ==> count == |written| - 1
  {
    var z := ZigZag(value);
    hide Groups;
    OneGroup(z);
    if z <= 0x7F {
      return [z], 1;
    }
    if z <= 0x3FFF {
      TwoGroups(z);
      return [128 + z % 128, z / 128], 2;
    }
    if z <= 0x1FFFFF {
      ThreeGroups(z);
      return [128 + z % 128, 128 + z / 0x80 % 128, z / 0x4000], 3;
    }
    if z <= 0xFFFFFFF {
      FourGroups(z);
      return [128 + z % 128, 128 + z / 0x80 % 128, 128 + z / 0x4000 % 128, z / 0x200000], 4;
    }
    if z <= 0x7FFFFFFFF {
      FiveGroups(z);
      return [128 + z % 128, 128 + z / 0x80 % 128, 128 + z / 0x4000 % 128, 128 + z / 0x200000 % 128, z / 0x10000000], 5;
    }
    written, count := EncodeLoop(z);
  }

  lemma OneGroup(z: nat)
    ensures z <= 0x7F ==> Groups(z) == [z]
  {
  }

  lemma DivTwice(z: nat)
    ensures z / 0x80 / 0x80 == z / 0x4000
  {
  }

  lemma DivThrice(z: nat)
    ensures z / 0x80 / 0x4000 == z / 0x200000
  {
  }

  lemma DivFourTimes(z: nat)
    ensures z / 0x80 / 0x200000 == z / 0x10000000
  {
  }

  lemma Group(z: nat)
    requires z >= 128
    ensures Groups(z) == [128 + z % 128] + Groups(z / 128)
  {
  }

  lemma TwoGroups(z: nat)
    requires 0x7F < z <= 0x3FFF
    ensures Groups(z) == [128 + z % 128, z / 128]
  {
    assert Groups(z / 128) == [z / 128];
  }

  lemma ThreeGroups(z: nat)
    requires 0x3FFF < z <= 0x1FFFFF
    ensures Groups(z) == [128 + z % 128, 128 + z / 0x80 % 128, z / 0x4000]
  {
    hide Groups;
    Group(z);
    TwoGroups(z / 128);
    DivTwice(z);
  }

  lemma FourGroups(z: nat)
    requires 0x1FFFFF < z <= 0xFFFFFFF
    ensures Groups(z) == [128 + z % 128, 128 + z / 0x80 % 128, 128 + z / 0x4000 % 128, z / 0x200000]
  {
    hide Groups;
    Group(z);
    ThreeGroups(z / 128);
    DivTwice(z);
    DivThrice(z);
  }

  lemma FiveGroups(z: nat)
    requires 0xFFFFFFF < z <= 0x7FFFFFFFF
    ensures Groups(z) ==
      [128 + z % 128, 128 + z / 0x80 % 128, 128 + z / 0x4000 % 128, 128 + z / 0x200000 % 128, z / 0x10000000]
  {
    hide Groups;
    Group(z);
    FourGroups(z / 128);
    DivTwice(z);
    DivThrice(z);
    DivFourTimes(z);
  }

  /** The general algorithm: what is written, and the groups still to come. */
  method EncodeLoop(z: nat) returns (written: seq<byte>, count: nat)
    requires z >= 128
    ensures written == Groups(z) && count == |written| - 1
  {
    var bits, rest := z % 128, z / 128;
    count, written := 0, [];
    while rest != 0
      invariant 0 <= bits < 128 && rest >= 0 && |written| == count
      invariant written + (if rest == 0 then [bits] else [128 + bits] + Groups(rest)) == Groups(z)
      decreases rest
    {
      LoopStep(written, bits, rest);
      written := written + [128 + bits];
      bits, rest, count := rest % 128, rest / 128, count + 1;
    }
    written := written + [bits];
  }

  lemma LoopStep(written: seq<byte>, bits: nat, rest: nat)
    requires bits < 128 && rest > 0
    ensures written + ([128 + bits] + Groups(rest)) ==
            (written + [128 + bits])
            + (if rest / 128 == 0 then [rest % 128] else [128 + rest % 128] + Groups(rest / 128))
  {
    ConcatAssoc(written, [128 + bits], Groups(rest));
  }

  // ---------- Decoding ----------

  /** The groups at `pos`, as a number and the position after them; `k` groups came before. The
      last of `most` groups may not be continued. */
  function Read(buffer: seq<byte>, pos: nat, k: nat, most: nat): (r: Result<(nat, nat)>)
    decreases |buffer| - pos
  {
    if pos >= |buffer| then Err(OutOfBuffer)
    else if buffer[pos] < 128 then Ok((buffer[pos], pos + 1))
    else if k + 1 >= most then Err(OutOfRange)
    else match Read(buffer, pos + 1, k + 1, most)
      case Ok((n, end)) => Ok((buffer[pos] % 128 + 128 * n, end))
      case Err(fault) => Err(fault)
  }

  /** A shift of 64 or more is refused, so ten groups of a varint are read. */
  const MOST_GROUPS: nat := 10

  function Decoded(buffer: seq<byte>, pos: nat): Result<(int, nat)> {
    match Read(buffer, pos, 0, MOST_GROUPS)
    case Ok((n, end)) => Ok((UnZigZag(n), end))
    case Err(fault) => Err(fault)
  }

  /** What the loop has gathered, followed by the rest. */
  function Gathered(acc: nat, k: nat, rest: Result<(nat, nat)>): Result<(nat, nat)> {
    match rest
    case Ok((n, end)) => Ok((acc + Pow128(k) * n, end))
    case Err(fault) => Err(fault)
  }

  lemma GatheredStep(acc: nat, k: nat, low: nat, rest: Result<(nat, nat)>)
    ensures match rest {
      case Ok((n, end)) => Gathered(acc, k, Ok((low + 128 * n, end))) == Gathered(acc + low * Pow128(k), k + 1, rest)
      case Err(_) => Gathered(acc, k, rest) == Gathered(acc + low * Pow128(k), k + 1, rest)
    }
  {
    match rest
    case Ok((n, end)) =>
      assert Pow128(k) * (low + 128 * n) == low * Pow128(k) + 128 * Pow128(k) * n;
    case Err(_) =>
  }

  /** The group of a byte, shifted to its place; the bits below are the ones gathered
      before, so the source's `|=` adds. */
  function Shifted(b: byte, k: nat): nat {
    b % 128 * Pow128(k)
  }

  method DecodeVarint(buffer: seq<byte>, start: nat) returns (r: Result<(int, nat)>)
    ensures r == Decoded(buffer, start)
  {
    hide Pow128, Shifted;
    if start >= |buffer| {
      return Err(OutOfBuffer);
    }
    var first: int := buffer[start];
    if first < 128 && first % 2 == 0 {
      return Ok((first / 2, start + 1));
    }
    if first < 128 {
      return Ok((-(first / 2) - 1, start + 1));
    }
    var acc: nat, pos: nat, k: nat := first % 128, start + 1, 1;
    ghost var whole := Read(buffer, start, 0, MOST_GROUPS);
    FirstGroup(buffer, start, MOST_GROUPS);
    while true
      invariant k <= 9 && pos == start + k && k > 0
      invariant whole == Gathered(acc, k, Read(buffer, pos, k, MOST_GROUPS))
      decreases 10 - k
    {
      if pos >= |buffer| {
        return Err(OutOfBuffer);
      }
      var b := buffer[pos];
      NextGroup(buffer, pos, k, acc, MOST_GROUPS);
      acc, pos := acc + Shifted(b, k), pos + 1;
      if b < 128 {
        return Ok((UnZigZag(acc), pos));
      }
      k := k + 1;
      if 7 * k >= 64 {
        return Err(OutOfRange);
      }
    }
  }

  lemma FirstGroup(buffer: seq<byte>, start: nat, most: nat)
    requires start < |buffer| && buffer[start] >= 128 && most > 1
    ensures Read(buffer, start, 0, most) == Gathered(buffer[start] % 128, 1, Read(buffer, start + 1, 1, most))
  {
    assert Pow128(1) == 128;
  }

  lemma NextGroup(buffer: seq<byte>, pos: nat, k: nat, acc: nat, most: nat)
    requires pos < |buffer|
    ensures var more := acc + Shifted(buffer[pos], k);
      && (buffer[pos] < 128 ==> Gathered(acc, k, Read(buffer, pos, k, most)) == Ok((more, pos + 1)))
      && (buffer[pos] >= 128 && k + 1 >= most ==> Gathered(acc, k, Read(buffer, pos, k, most)) == Err(OutOfRange))
      && (buffer[pos] >= 128 && k + 1 < most ==>
            Gathered(acc, k, Read(buffer, pos, k, most)) == Gathered(more, k + 1, Read(buffer, pos + 1, k + 1, most)))
  {
    if buffer[pos] >= 128 && k + 1 < most {
      GatheredStep(acc, k, buffer[pos] % 128, Read(buffer, pos + 1, k + 1, most));
    }
  }

  /** The value of groups: seven bits each, the lowest first. */
  function Weighed(s: seq<byte>): nat {
    if s == [] then 0 else s[0] % 128 + 128 * Weighed(s[1..])
  }

  /** The groups weigh the number they were made from, and exactly those before the last have
      the continuation bit. */
  lemma {:induction false} GroupsWeigh(n: nat)
    ensures Weighed(Groups(n)) == n
    ensures forall i :: 0 <= i < |Groups(n)| ==> (Groups(n)[i] >= 128 <==> i < |Groups(n)| - 1)
    decreases n
  {
    var s := Groups(n);
    if n >= 128 {
      GroupsWeigh(n / 128);
      assert s[1..] == Groups(n / 128);
      assert (128 + n % 128) % 128 == n % 128;
    } else {
      assert s[1..] == [];
    }
  }

  // ---------- Round trip ----------

  /** Groups placed anywhere are read back, with the position just after them. */
  lemma {:induction false} ReadGroups(before: seq<byte>, n: nat, after: seq<byte>, k: nat, most: nat)
    requires k + |Groups(n)| <= most
    ensures Read(before + Groups(n) + after, |before|, k, most) == Ok((n, |before| + |Groups(n)|))
    decreases n
  {
    var buffer := before + Groups(n) + after;
    assert buffer[|before|] == Groups(n)[0];
    if n >= 128 {
      var first := before + [128 + n % 128];
      assert buffer == first + Groups(n / 128) + after;
      ReadGroups(first, n / 128, after, k + 1, most);
      assert (128 + n % 128) % 128 == n % 128;
    }
  }

  /** Every 64-bit value is read back from wherever it was written, whatever follows. */
  lemma RoundTrip(before: seq<byte>, value: int64, after: seq<byte>)
    ensures Decoded(before + Encoded(value) + after, |before|) == Ok((value, |before| + |Encoded(value)|))
  {
    SizeIsLength(value);
    ReadGroups(before, ZigZag(value), after, 0, MOST_GROUPS);
    ZigZagRoundTrip(value);
  }

  /** The same, for a value that stands somewhere in a buffer. */
  lemma ReadBack(buffer: bytes, pos: nat, value: int64)
    requires At(buffer, pos, Encoded(value))
    ensures Decoded(buffer, pos) == Ok((value, pos + |Encoded(value)|))
  {
    AtParts(buffer, pos, Encoded(value));
    RoundTrip(buffer[..pos], value, buffer[pos + |Encoded(value)|..]);
  }
}
