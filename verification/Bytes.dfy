/** Byte strings and big-endian integers, as `struct.pack` writes them. */
module Bytes {

  type byte = x: int | 0 <= x < 256

  type bytes = seq<byte>

  /** `part` stands in `buffer` at `pos`. */
  ghost predicate At(buffer: bytes, pos: nat, part: bytes) {
    pos + |part| <= |buffer| && buffer[pos..pos + |part|] == part
  }

  lemma AtSplit(buffer: bytes, pos: nat, a: bytes, b: bytes)
    ensures At(buffer, pos, a + b) <==> At(buffer, pos, a) && At(buffer, pos + |a|, b)
  {
    if At(buffer, pos, a + b) {
      var whole := buffer[pos..pos + |a + b|];
      assert a == whole[..|a|] == buffer[pos..pos + |a|];
      assert b == whole[|a|..] == buffer[pos + |a|..pos + |a| + |b|];
    }
    if At(buffer, pos, a) && At(buffer, pos + |a|, b) {
      assert buffer[pos..pos + |a + b|] == buffer[pos..pos + |a|] + buffer[pos + |a|..pos + |a| + |b|];
    }
  }

  lemma AtParts(buffer: bytes, pos: nat, part: bytes)
    requires At(buffer, pos, part)
    ensures buffer == buffer[..pos] + part + buffer[pos + |part|..]
  {
  }

  lemma AtIn(before: bytes, part: bytes, after: bytes)
    ensures At(before + part + after, |before|, part)
  {
  }

  /** Python's slice: what there is of the bytes from `pos` to `end`. */
  function Slice(buffer: bytes, pos: nat, end: nat): bytes {
    var stop := if end <= |buffer| then end else |buffer|;
    if pos <= stop then buffer[pos..stop] else []
  }

  // ---------- Unsigned ----------

  function Pow256(k: nat): (p: nat)
    ensures p > 0
  {
    if k == 0 then 1 else 256 * Pow256(k - 1)
  }

  function PutU(v: nat, k: nat): (s: bytes)
    requires v < Pow256(k)
    ensures |s| == k
  {
    if k == 0 then [] else PutU(v / 256, k - 1) + [v % 256]
  }

  function GetU(s: bytes): (v: nat)
    ensures v < Pow256(|s|)
  {
    if s == [] then 0 else 256 * GetU(s[..|s| - 1]) + s[|s| - 1]
  }

  lemma {:induction false} UnsignedRoundTrip(v: nat, k: nat)
    requires v < Pow256(k)
    ensures GetU(PutU(v, k)) == v
    decreases k
  {
    if k > 0 {
      UnsignedRoundTrip(v / 256, k - 1);
      assert PutU(v, k)[..k - 1] == PutU(v / 256, k - 1);
    }
  }

  /** The bytes are the digits of the value to the base 256, the highest first. */
  lemma {:induction false} BigEndian(v: nat, k: nat, i: nat)
    requires v < Pow256(k) && i < k
    ensures PutU(v, k)[i] == v / Pow256(k - 1 - i) % 256
    decreases k
  {
    if i < k - 1 {
      BigEndian(v / 256, k - 1, i);
      DivTwice(v, Pow256(k - 2 - i));
    }
  }

  lemma DivTwice(v: nat, p: nat)
    requires p > 0
    ensures v / 256 / p == v / (256 * p)
  {
    var m, b := v / 256, v % 256;
    var q, a := m / p, m % p;
    assert v == 256 * m + b && m == p * q + a;
    assert 256 * (p * q) == (256 * p) * q;
    DivUnique(v, 256 * p, q, 256 * a + b);
  }

  lemma MulMonotone(p: nat, a: nat, b: nat)
    ensures a <= b ==> p * a <= p * b
  {
  }

  lemma DivUnique(n: nat, p: nat, q: nat, a: nat)
    requires p > 0 && n == p * q + a && a < p
    ensures n / p == q
  {
    var d := n / p;
    assert n == p * d + n % p;
    MulMonotone(p, d + 1, q);
    MulMonotone(p, q + 1, d);
  }

  // ---------- Two's complement ----------

  predicate InRange(v: int, k: nat) {
    0 <= 2 * v + Pow256(k) && 2 * v < Pow256(k)
  }

  function PutS(v: int, k: nat): (s: bytes)
    requires InRange(v, k)
    ensures |s| == k
  {
    PutU(if v < 0 then v + Pow256(k) else v, k)
  }

  function GetS(s: bytes): (v: int) {
    var u := GetU(s);
    if 2 * u >= Pow256(|s|) then u - Pow256(|s|) else u
  }

  /** Every signed value of `k` bytes is read back. */
  lemma SignedRoundTrip(v: int, k: nat)
    requires InRange(v, k)
    ensures GetS(PutS(v, k)) == v
  {
    UnsignedRoundTrip(if v < 0 then v + Pow256(k) else v, k);
  }
}
