/** CRC-32C, the checksum of a v2 record batch (section B.4 of RFC 3720).

    The reference is the bit-at-a-time shift register.  The byte-at-a-time table
    form of record/_crc32c.py and the slicing-by-8 form of record/_crecords/crc32c.c
    are methods proved equal to it for every buffer, initial value and alignment;
    `BurstChangesCrc` says what the checksum is for.
 */
module Crc32c {
  import opened ShiftRegister

  const POLY: bv32 := 0x82f63b78
  const MASK: bv32 := 0xffffffff
  const BITS: nat := 8
  const EIGHT: bv8 := 8

  // ---------- Word operations ----------

  function Xor(a: bv32, b: bv32): bv32 {
    a ^ b
  }

  function Up(x: bv32): bv32 {
    x << 8
  }

  function Down(x: bv32): bv32 {
    x >> EIGHT
  }

  function Low(c: bv32): bv8 {
    (c & 0xff) as bv8
  }

  function Embed(b: bv8): bv32 {
    b as bv32
  }

  predicate Odd(c: bv32) {
    c & 1 == 1
  }

  function Half(c: bv32): bv32 {
    c >> 1
  }

  // ---------- The reference: one message bit at a time ----------

  /** One step of the reflected shift register. */
  function ShiftBit(c: bv32): bv32 {
    if Odd(c) then Xor(Half(c), POLY) else Half(c)
  }

  /** The register after one byte's worth of steps with no further input. */
  function ShiftByte(c: bv32): bv32 {
    Iterate(ShiftBit, c, BITS)
  }

  /** Feed the `n` low bits of `b`, least significant first, into a register with step `f`. */
  function FeedBits(f: bv32 -> bv32, c: bv32, b: bv8, n: nat): bv32
    decreases n
  {
    if n == 0 then c else FeedBits(f, f(c ^ (b & 1) as bv32), b >> 1, n - 1)
  }

  /** The register after feeding every bit of `data`. */
  function Register(c: bv32, data: seq<bv8>): bv32
    decreases |data|
  {
    if data == [] then c else Register(FeedBits(ShiftBit, c, data[0], BITS), data[1..])
  }

  /** CRC-32C of `data` continued from the finished checksum `crc`. */
  function Update(crc: bv32, data: seq<bv8>): bv32 {
    Xor(Register(Xor(crc, MASK), data), MASK)
  }

  /** The register as a byte-fed register with a linear step. */
  function Word(): Ops<bv32, bv8> {
    Ops(0, Xor, ShiftByte, Up, Embed)
  }

  // ---------- Linearity of one bit ----------

  ghost predicate BitLinearAt(f: bv32 -> bv32, a: bv32, b: bv32) {
    f(Xor(a, b)) == Xor(f(a), f(b))
  }

  ghost predicate BitLinear(f: bv32 -> bv32) {
    forall a, b :: BitLinearAt(f, a, b)
  }

  /** Even words shift without feedback. */
  ghost predicate ShiftsEven(f: bv32 -> bv32) {
    forall a :: !Odd(a) ==> f(a) == Half(a)
  }

  lemma XorAssoc(a: bv32, b: bv32, c: bv32)
    ensures Xor(Xor(a, b), c) == Xor(a, Xor(b, c))
  {
  }

  lemma XorCommutes(a: bv32, b: bv32)
    ensures Xor(a, b) == Xor(b, a)
  {
  }

  lemma XorZero(a: bv32)
    ensures Xor(a, 0) == a
  {
  }

  lemma XorSelf(a: bv32)
    ensures Xor(a, a) == 0
  {
  }

  lemma HalfXor(a: bv32, b: bv32)
    ensures Half(Xor(a, b)) == Xor(Half(a), Half(b))
  {
  }

  lemma OddXor(a: bv32, b: bv32)
    ensures Odd(Xor(a, b)) == (Odd(a) != Odd(b))
  {
  }

  lemma ShiftBitXor(a: bv32, b: bv32)
    ensures ShiftBit(Xor(a, b)) == Xor(ShiftBit(a), ShiftBit(b))
  {
    HalfXor(a, b);
    OddXor(a, b);
    hide Xor, Half, Odd;
    var x, y := Half(a), Half(b);
    // both odd: the two feedback terms cancel; one odd: the term moves out
    XorAssoc(Xor(x, POLY), y, POLY);
    XorAssoc(x, POLY, Xor(y, POLY));
    XorAssoc(POLY, y, POLY);
    XorCommutes(POLY, y);
    XorAssoc(y, POLY, POLY);
    XorAssoc(x, POLY, y);
    XorAssoc(x, y, POLY);
    XorCommutes(POLY, Xor(y, POLY));
    XorSelf(POLY);
    XorZero(y);
  }

  lemma ShiftBitLinear()
    ensures BitLinear(ShiftBit) && ShiftsEven(ShiftBit)
  {
    forall a, b ensures BitLinearAt(ShiftBit, a, b) {
      ShiftBitXor(a, b);
    }
  }

  lemma {:induction false} BitsLinear<T(!new)>(f: T -> T, plus: (T, T) -> T, a: T, b: T, n: nat)
    requires forall x, y :: PlusLinearAt(f, plus, x, y)
    ensures Iterate(f, plus(a, b), n) == plus(Iterate(f, a, n), Iterate(f, b, n))
    decreases n
  {
    if n > 0 {
      assert PlusLinearAt(f, plus, a, b);
      BitsLinear(f, plus, f(a), f(b), n - 1);
    }
  }

  ghost predicate PlusLinearAt<T>(f: T -> T, plus: (T, T) -> T, a: T, b: T) {
    f(plus(a, b)) == plus(f(a), f(b))
  }

  lemma ShiftByteXor(a: bv32, b: bv32)
    ensures ShiftByte(Xor(a, b)) == Xor(ShiftByte(a), ShiftByte(b))
  {
    ShiftBitLinear();
    forall x, y ensures PlusLinearAt(ShiftBit, Xor, x, y) {
      assert BitLinearAt(ShiftBit, x, y);
    }
    BitsLinear(ShiftBit, Xor, a, b, BITS);
  }

  /** A word with a free low byte halves eight times without meeting an odd word. */
  lemma FreeByteHalves(c: bv32)
    requires c & 0xff == 0
    ensures !Odd(c) && !Odd(c >> 1) && !Odd(c >> 2) && !Odd(c >> 3)
    ensures !Odd(c >> 4) && !Odd(c >> 5) && !Odd(c >> 6) && !Odd(c >> 7)
    ensures Half(c) == c >> 1 && Half(c >> 1) == c >> 2 && Half(c >> 2) == c >> 3 && Half(c >> 3) == c >> 4
    ensures Half(c >> 4) == c >> 5 && Half(c >> 5) == c >> 6 && Half(c >> 6) == c >> 7 && Half(c >> 7) == Down(c)
  {
  }

  lemma EightTimes<T>(f: T -> T, x0: T, x1: T, x2: T, x3: T, x4: T, x5: T, x6: T, x7: T, x8: T)
    requires f(x0) == x1 && f(x1) == x2 && f(x2) == x3 && f(x3) == x4
    requires f(x4) == x5 && f(x5) == x6 && f(x6) == x7 && f(x7) == x8
    ensures Iterate(f, x0, BITS) == x8
  {
    assert Iterate(f, x0, 8) == Iterate(f, x4, 4);
  }

  /** A zero low byte shifts out without feedback. */
  lemma ShiftOutZeros(f: bv32 -> bv32, c: bv32)
    requires ShiftsEven(f) && c & 0xff == 0
    ensures Iterate(f, c, BITS) == Down(c)
  {
    FreeByteHalves(c);
    hide Half, Odd, Down;
    EightTimes(f, c, c >> 1, c >> 2, c >> 3, c >> 4, c >> 5, c >> 6, c >> 7, Down(c));
  }

  lemma ShiftByteZeros(c: bv32)
    requires c & 0xff == 0
    ensures ShiftByte(c) == Down(c)
  {
    ShiftBitLinear();
    ShiftOutZeros(ShiftBit, c);
  }

  // ---------- From bits to bytes ----------

  lemma LowByteSplit(c: bv32, b: bv8)
    ensures c ^ b as bv32 == (c ^ (b & 1) as bv32) ^ ((b >> 1) as bv32 << 1)
    ensures ((b >> 1) as bv32 << 1) & 1 == 0
    ensures ((b >> 1) as bv32 << 1) >> 1 == (b >> 1) as bv32
  {
  }

  lemma HalfBound(b: bv8, n: nat)
    requires 1 <= n <= 8
    requires b as bv16 < (1 as bv16) << n
    ensures (b >> 1) as bv16 < (1 as bv16) << (n - 1)
  {
    if n == 1 {} else if n == 2 {} else if n == 3 {} else if n == 4 {}
    else if n == 5 {} else if n == 6 {} else if n == 7 {} else {}
  }

  lemma FeedOne(f: bv32 -> bv32, c: bv32, b: bv8)
    requires BitLinear(f) && ShiftsEven(f)
    ensures f(Xor(c, Embed(b))) == Xor(f(c ^ (b & 1) as bv32), Embed(b >> 1))
  {
    LowByteSplit(c, b);
    assert BitLinearAt(f, c ^ (b & 1) as bv32, (b >> 1) as bv32 << 1);
  }

  /** Feeding bits one at a time is xoring them all in and then shifting. */
  lemma {:induction false} FeedIsXorShift(f: bv32 -> bv32, c: bv32, b: bv8, n: nat)
    requires BitLinear(f) && ShiftsEven(f)
    requires n <= 8 && b as bv16 < (1 as bv16) << n
    ensures FeedBits(f, c, b, n) == Iterate(f, Xor(c, Embed(b)), n)
    decreases n
  {
    if n == 0 {
      assert b == 0;
      assert Xor(c, Embed(b)) == c;
    } else {
      FeedOne(f, c, b);
      HalfBound(b, n);
      FeedIsXorShift(f, f(c ^ (b & 1) as bv32), b >> 1, n - 1);
    }
  }

  lemma ByteFits(b: bv8)
    ensures b as bv16 < (1 as bv16) << 8
  {
  }

  /** The bit-at-a-time register is the byte-fed register. */
  lemma {:induction false} RegisterIsFeed(c: bv32, data: seq<bv8>)
    ensures Register(c, data) == Feed(Word(), c, data)
    decreases |data|
  {
    if data != [] {
      ShiftBitLinear();
      ByteFits(data[0]);
      FeedIsXorShift(ShiftBit, c, data[0], BITS);
      RegisterIsFeed(Absorb(Word(), c, data[0]), data[1..]);
    }
  }

  // ---------- The laws of the word register ----------

  lemma XorCancel(a: bv32, b: bv32, c: bv32)
    requires Xor(a, c) == Xor(b, c) || Xor(c, a) == Xor(c, b)
    ensures a == b
  {
  }

  lemma ShiftInBounds(x: bv32, b: bv8)
    ensures x == 0 ==> Xor(Embed(b), Up(x)) < 0x100
    ensures x < 0x100 ==> Xor(Embed(b), Up(x)) < 0x10000
    ensures x < 0x10000 ==> Xor(Embed(b), Up(x)) < 0x1000000
  {
  }

  /** A bound on words of `n` bytes, for n up to three. */
  function WordBound(n: nat): bv32 {
    if n == 0 then 1 else if n == 1 then 0x100 else if n == 2 then 0x10000 else 0x1000000
  }

  lemma {:induction false} LittleBound(w: seq<bv8>)
    requires |w| <= 3
    ensures Little(Word(), w) < WordBound(|w|) <= 0x1000000
    decreases |w|
  {
    if w != [] {
      var x := Little(Word(), w[1..]);
      LittleBound(w[1..]);
      ShiftInBounds(x, w[0]);
      if |w| == 1 { assert x == 0; } else if |w| == 2 { assert x < 0x100; } else { assert x < 0x10000; }
    }
  }

  lemma LowByteFree(x: bv32)
    requires x < 0x1000000
    ensures Up(x) & 0xff == 0 && Down(Up(x)) == x
  {
  }

  lemma WordLaws()
    ensures Laws(Word())
  {
    forall a, b, c ensures AssocAt(Word(), a, b, c) { XorAssoc(a, b, c); }
    forall a, b ensures LinearAt(Word(), a, b) { ShiftByteXor(a, b); }
    forall a ensures ZeroAt(Word(), a) { XorZero(a); }
    forall w ensures DownAt(Word(), w) {
      if |w| <= 3 {
        LittleBound(w);
        LowByteFree(Little(Word(), w));
        ShiftByteZeros(Up(Little(Word(), w)));
      }
    }
    ShiftByteZeros(0);
    assert Down(0) == 0;
  }

  /** Updating over `a` and then over `b` is updating over `a + b`. */
  lemma UpdateConcat(crc: bv32, a: seq<bv8>, b: seq<bv8>)
    ensures Update(Update(crc, a), b) == Update(crc, a + b)
  {
    var c := Xor(crc, MASK);
    RegisterIsFeed(c, a);
    RegisterIsFeed(c, a + b);
    RegisterIsFeed(Register(c, a), b);
    FeedConcat(Word(), c, a, b);
    DoubleMask(Register(c, a));
  }

  lemma DoubleMask(c: bv32)
    ensures Xor(Xor(c, MASK), MASK) == c
  {
  }

  // ---------- Detection of bursts ----------

  function UnshiftBit(d: bv32): bv32 {
    if d & 0x80000000 == 0 then d << 1 else ((d ^ POLY) << 1) | 1
  }

  lemma UnshiftShift(c: bv32)
    ensures UnshiftBit(ShiftBit(c)) == c
  {
  }

  lemma ShiftByteInjective()
    ensures Injective(ShiftByte)
  {
    forall a, b | ShiftBit(a) == ShiftBit(b) ensures a == b {
      UnshiftShift(a);
      UnshiftShift(b);
    }
    assert Injective(ShiftBit);
    forall a, b | ShiftByte(a) == ShiftByte(b) ensures a == b {
      IterateInjective(ShiftBit, a, b, BITS);
    }
  }

  lemma LittleHead(b: bv8, x: bv32, c: bv8, y: bv32)
    requires x < 0x1000000 && y < 0x1000000
    requires Xor(Embed(b), Up(x)) == Xor(Embed(c), Up(y))
    ensures b == c && x == y
  {
  }

  lemma {:induction false} LittleInjective(w: seq<bv8>, v: seq<bv8>)
    requires |w| == |v| <= 4 && Little(Word(), w) == Little(Word(), v)
    ensures w == v
    decreases |w|
  {
    if w != [] {
      LittleBound(w[1..]);
      LittleBound(v[1..]);
      LittleHead(w[0], Little(Word(), w[1..]), v[0], Little(Word(), v[1..]));
      LittleInjective(w[1..], v[1..]);
      assert w == [w[0]] + w[1..] && v == [v[0]] + v[1..];
    }
  }

  /** Any damage confined to four consecutive bytes changes the checksum. */
  lemma BurstChangesCrc(crc: bv32, before: seq<bv8>, w: seq<bv8>, v: seq<bv8>, after: seq<bv8>)
    requires |w| == |v| <= 4 && w != v
    ensures Update(crc, before + w + after) != Update(crc, before + v + after)
  {
    if Update(crc, before + w + after) == Update(crc, before + v + after) {
      var o, c0 := Word(), Xor(crc, MASK);
      var c := Feed(o, c0, before);
      XorCancel(Register(c0, before + w + after), Register(c0, before + v + after), MASK);
      FeedSplit(c0, before, w, after);
      FeedSplit(c0, before, v, after);
      ShiftByteInjective();
      forall a, b, x | Xor(a, x) == Xor(b, x) ensures a == b { XorCancel(a, b, x); }
      FeedInjective(o, Feed(o, c, w), Feed(o, c, v), after);
      WordLaws();
      FeedWindow(o, c, w);
      FeedWindow(o, c, v);
      IterateInjective(ShiftByte, Xor(c, Little(o, w)), Xor(c, Little(o, v)), |w|);
      XorCancel(Little(o, w), Little(o, v), c);
      LittleInjective(w, v);
    }
  }

  lemma FeedSplit(c: bv32, before: seq<bv8>, w: seq<bv8>, after: seq<bv8>)
    ensures Register(c, before + w + after) == Feed(Word(), Feed(Word(), Feed(Word(), c, before), w), after)
  {
    RegisterIsFeed(c, before + w + after);
    FeedConcat(Word(), c, before + w, after);
    FeedConcat(Word(), c, before, w);
  }

  // ---------- The table step ----------

  lemma ByteSplit(c: bv32)
    ensures c == Xor(Embed(Low(c)), c & 0xffffff00)
    ensures (c & 0xffffff00) & 0xff == 0
    ensures Down(c & 0xffffff00) == Down(c)
  {
  }

  /** Look up the low byte and shift out the rest. */
  lemma TableStep(c: bv32)
    ensures ShiftByte(c) == Xor(Entry(Word(), 0, Low(c)), Down(c))
  {
    ByteSplit(c);
    ShiftByteXor(Embed(Low(c)), c & 0xffffff00);
    ShiftByteZeros(c & 0xffffff00);
    EntryNext(Word(), 0, Low(c));
  }

  lemma HighUnchanged(c: bv32, b: bv8)
    ensures Down(Xor(c, Embed(b))) == Down(c)
  {
  }

  /** One table step of either implementation absorbs one byte. */
  lemma TableAbsorbs(c: bv32, b: bv8)
    ensures Absorb(Word(), c, b) == Xor(Entry(Word(), 0, Low(Xor(c, Embed(b)))), Down(c))
  {
    TableStep(Xor(c, Embed(b)));
    HighUnchanged(c, b);
  }

  // ---------- crc32c.c ----------

  // A 256-entry table is a function of the byte that indexes it.
  type Table = bv8 -> bv32

  function Store(row: Table, m: bv8, e: bv32): Table {
    b => if b == m then e else row(b)
  }

  /** The entries for bytes below `n` are those of table `k`. */
  ghost predicate RowTo(row: Table, k: nat, n: bv16) {
    forall b: bv8 :: b as bv16 < n ==> row(b) == Entry(Word(), k, b)
  }

  ghost predicate Filled(t: seq<Table>) {
    |t| == 8 && forall k :: 0 <= k < 8 ==> RowTo(t[k], k, 256)
  }

  lemma ByteOf(n: bv16)
    requires n < 256
    ensures (n as bv8) as bv32 == n as bv32 && (n as bv8) as bv16 == n
  {
  }

  lemma RowInsert(row: Table, k: nat, n: bv16, m: bv8, e: bv32)
    requires n < 256 && m == n as bv8 && RowTo(row, k, n) && e == Entry(Word(), k, m)
    ensures RowTo(Store(row, m, e), k, n + 1)
  {
    forall b: bv8 | b as bv16 < n + 1
      ensures Store(row, m, e)(b) == Entry(Word(), k, b)
    {
      if b != m {
        BelowNext(b, n);
      }
    }
  }

  lemma BelowNext(b: bv8, n: bv16)
    requires n < 256 && b as bv16 < n + 1 && b != n as bv8
    ensures b as bv16 < n
  {
  }

  /** One entry of the first table: eight shifts of the byte. */
  method FirstEntry(n: bv16) returns (crc: bv32)
    requires n < 256
    ensures crc == Entry(Word(), 0, n as bv8)
  {
    ByteOf(n);
    EntryNext(Word(), 0, n as bv8);
    var c0 := n as bv32;
    assert Entry(Word(), 0, n as bv8) == Iterate(ShiftBit, c0, BITS);
    hide ShiftBit, Entry, Xor, ShiftByte, Embed;
    var c1 := ShiftBit(c0);
    var c2 := ShiftBit(c1);
    var c3 := ShiftBit(c2);
    var c4 := ShiftBit(c3);
    var c5 := ShiftBit(c4);
    var c6 := ShiftBit(c5);
    var c7 := ShiftBit(c6);
    crc := ShiftBit(c7);
    EightTimes(ShiftBit, c0, c1, c2, c3, c4, c5, c6, c7, crc);
  }

  /** The first table, one byte at a time. */
  method FillFirst() returns (row: Table)
    ensures RowTo(row, 0, 256)
  {
    row := b => 0;
    var n: bv16 := 0;
    while n < 256
      invariant n <= 256 && RowTo(row, 0, n)
      decreases 256 - n
    {
      var crc := FirstEntry(n);
      RowInsert(row, 0, n, n as bv8, crc);
      row := Store(row, n as bv8, crc);
      n := n + 1;
    }
  }

  /** Entry `n` of tables 1 to 7, each one more zero byte than the last. */
  method FillColumn(t0: seq<Table>, n: bv16) returns (t: seq<Table>)
    requires |t0| == 8 && n < 256 && RowTo(t0[0], 0, 256)
    requires forall j :: 1 <= j < 8 ==> RowTo(t0[j], j, n)
    ensures |t| == 8 && t[0] == t0[0]
    ensures forall j :: 1 <= j < 8 ==> RowTo(t[j], j, n + 1)
  {
    t := t0;
    var b := n as bv8;
    ByteOf(n);
    var crc := t[0](b);
    for k := 1 to 8
      invariant |t| == 8 && t[0] == t0[0] && crc == Entry(Word(), k - 1, b)
      invariant forall j :: 1 <= j < k ==> RowTo(t[j], j, n + 1)
      invariant forall j :: k <= j < 8 ==> RowTo(t[j], j, n)
    {
      EntryNext(Word(), k - 1, b);
      TableStep(crc);
      AnyByte(Low(crc));
      crc := Xor(t[0](Low(crc)), Down(crc));
      RowInsert(t[k], k, n, b, crc);
      t := t[k := Store(t[k], b, crc)];
    }
  }

  /** Construct the eight lookup tables. */
  method InitTables() returns (t: seq<Table>)
    ensures Filled(t)
  {
    var first := FillFirst();
    var empty: Table := b => 0;
    t := [first, empty, empty, empty, empty, empty, empty, empty];
    var n: bv16 := 0;
    while n < 256
      invariant n <= 256 && |t| == 8 && t[0] == first
      invariant forall j :: 1 <= j < 8 ==> RowTo(t[j], j, n)
      decreases 256 - n
    {
      t := FillColumn(t, n);
      n := n + 1;
    }
  }

  lemma AnyByte(b: bv8)
    ensures b as bv16 < 256
  {
  }

  // The 64-bit register of the C code; its upper half is zero between steps.

  function Wide(c: bv32): bv64 {
    c as bv64
  }

  function Truncated(c: bv64): bv32 {
    (c & 0xffffffff) as bv32
  }

  function Shr8(c: bv64): bv64 {
    c >> EIGHT
  }

  // The bytes of the register, lowest first.
  function Byte0(v: bv64): bv8 { (v & 0xff) as bv8 }
  function Byte1(v: bv64): bv8 { ((v >> 8) & 0xff) as bv8 }
  function Byte2(v: bv64): bv8 { ((v >> 16) & 0xff) as bv8 }
  function Byte3(v: bv64): bv8 { ((v >> 24) & 0xff) as bv8 }
  function Byte4(v: bv64): bv8 { ((v >> 32) & 0xff) as bv8 }
  function Byte5(v: bv64): bv8 { ((v >> 40) & 0xff) as bv8 }
  function Byte6(v: bv64): bv8 { ((v >> 48) & 0xff) as bv8 }
  function Byte7(v: bv64): bv8 { (v >> 56) as bv8 }

  function Xor64(c: bv64, d: bv64): bv64 {
    c ^ d
  }

  /** The little-endian load of eight bytes. */
  function Load64(w: seq<bv8>): bv64
    requires |w| == 8
  {
    (w[0] as bv64) | ((w[1] as bv64) << 8) | ((w[2] as bv64) << 16) | ((w[3] as bv64) << 24)
    | ((w[4] as bv64) << 32) | ((w[5] as bv64) << 40) | ((w[6] as bv64) << 48) | ((w[7] as bv64) << 56)
  }

  lemma WideXor(a: bv32, b: bv32)
    ensures Wide(Xor(a, b)) == Xor64(Wide(a), Wide(b))
  {
  }

  lemma NarrowIndex(c: bv32, b: bv8)
    ensures Byte0(Xor64(Wide(c), b as bv64)) == Low(Xor(c, Embed(b)))
  {
  }

  lemma WideDown(c: bv32)
    ensures Wide(Down(c)) == Shr8(Wide(c))
  {
  }

  lemma TruncateWide(c: bv32)
    ensures Truncated(Wide(c)) == c
  {
  }

  /** The byte step of the C loops. */
  lemma ByteLookup(c: bv32, b: bv8)
    ensures Wide(Absorb(Word(), c, b))
         == Xor64(Wide(Entry(Word(), 0, Byte0(Xor64(Wide(c), b as bv64)))), Shr8(Wide(c)))
  {
    TableAbsorbs(c, b);
    NarrowIndex(c, b);
    WideDown(c);
    WideXor(Entry(Word(), 0, Low(Xor(c, Embed(b)))), Down(c));
  }

  // The bytes of the C register after the eight-byte load.

  lemma LoadLow(c: bv32, w: seq<bv8>)
    requires |w| == 8
    ensures Truncated(Xor64(Wide(c), Load64(w))) == Xor(c, Little(Word(), w[..4]))
  {
    var u := w[..4];
    LittleFour(Word(), u);
    assert u[0] == w[0] && u[1] == w[1] && u[2] == w[2] && u[3] == w[3];
    LoadWord(c, w);
  }

  /** The first four bytes as a word. */
  function Word4(a: bv8, b: bv8, c: bv8, d: bv8): bv32 {
    Xor(Embed(a), Up(Xor(Embed(b), Up(Xor(Embed(c), Up(Xor(Embed(d), Up(0))))))))
  }

  lemma LoadWord(c: bv32, w: seq<bv8>)
    requires |w| == 8
    ensures Truncated(Xor64(Wide(c), Load64(w))) == Xor(c, Word4(w[0], w[1], w[2], w[3]))
  {
  }

  lemma LowHalf(v: bv64)
    ensures Byte0(v) == Low(Truncated(v)) && Byte1(v) == Low(Down(Truncated(v)))
    ensures Byte2(v) == Low(Down(Down(Truncated(v))))
    ensures Byte3(v) == Low(Down(Down(Down(Truncated(v)))))
  {
  }

  lemma LoadRaw(c: bv32, a0: bv8, a1: bv8, a2: bv8, a3: bv8, a4: bv8, a5: bv8, a6: bv8, a7: bv8)
    ensures var v := (c as bv64) ^
        ((a0 as bv64) | ((a1 as bv64) << 8) | ((a2 as bv64) << 16) | ((a3 as bv64) << 24)
        | ((a4 as bv64) << 32) | ((a5 as bv64) << 40) | ((a6 as bv64) << 48) | ((a7 as bv64) << 56));
      && ((v >> 32) & 0xff) as bv8 == a4 && ((v >> 40) & 0xff) as bv8 == a5
      && ((v >> 48) & 0xff) as bv8 == a6 && (v >> 56) as bv8 == a7
  {
  }

  lemma HighHalf(c: bv32, w: seq<bv8>)
    requires |w| == 8
    ensures var v := Xor64(Wide(c), Load64(w));
      && Byte4(v) == w[4] && Byte5(v) == w[5]
      && Byte6(v) == w[6] && Byte7(v) == w[7]
  {
    LoadRaw(c, w[0], w[1], w[2], w[3], w[4], w[5], w[6], w[7]);
  }

  function Bytes4(x: bv32): seq<bv8> {
    [Low(x), Low(Down(x)), Low(Down(Down(x))), Low(Down(Down(Down(x))))]
  }

  lemma Recombine(x: bv32)
    ensures Word4(Low(x), Low(Down(x)), Low(Down(Down(x))), Low(Down(Down(Down(x))))) == x
  {
  }

  lemma LittleBytes4(x: bv32)
    ensures Little(Word(), Bytes4(x)) == x
  {
    LittleFour(Word(), Bytes4(x));
    Recombine(x);
  }

  /** The quadword step of the C loop: eight lookups, one per byte of the loaded register. */
  function Slice(t: seq<Table>, v: bv64): (r: bv64)
    requires |t| == 8
  {
    Xor64(Xor64(Xor64(Xor64(Xor64(Xor64(Xor64(
      Wide(t[7](Byte0(v))), Wide(t[6](Byte1(v)))), Wide(t[5](Byte2(v)))),
      Wide(t[4](Byte3(v)))), Wide(t[3](Byte4(v)))), Wide(t[2](Byte5(v)))),
      Wide(t[1](Byte6(v)))), Wide(t[0](Byte7(v))))
  }

  lemma FilledAll(t: seq<Table>)
    requires Filled(t)
    ensures forall k, b: bv8 :: 0 <= k < 8 ==> t[k](b) == Entry(Word(), k, b)
  {
    forall k, b: bv8 | 0 <= k < 8 ensures t[k](b) == Entry(Word(), k, b) {
      AnyByte(b);
      assert RowTo(t[k], k, 256);
    }
  }

  lemma SliceAbsorbs(t: seq<Table>, c: bv32, w: seq<bv8>)
    requires Filled(t) && |w| == 8
    requires forall k, b: bv8 :: 0 <= k < 8 ==> t[k](b) == Entry(Word(), k, b)
    ensures Slice(t, Xor64(Wide(c), Load64(w))) == Wide(Feed(Word(), c, w))
  {
    var v := Xor64(Wide(c), Load64(w));
    var x := Truncated(v);
    var u := Bytes4(x);
    LoadLow(c, w);
    LittleBytes4(x);
    WordLaws();
    EightLookups(Word(), c, w, u);
    LowHalf(v);
    HighHalf(c, w);
    WideAll(Entry(Word(), 7, u[0]), Entry(Word(), 6, u[1]), Entry(Word(), 5, u[2]), Entry(Word(), 4, u[3]),
      Entry(Word(), 3, w[4]), Entry(Word(), 2, w[5]), Entry(Word(), 1, w[6]), Entry(Word(), 0, w[7]));
  }

  lemma WideAll(a: bv32, b: bv32, c: bv32, d: bv32, e: bv32, f: bv32, g: bv32, h: bv32)
    ensures Wide(Xor(Xor(Xor(Xor(Xor(Xor(Xor(a, b), c), d), e), f), g), h))
         == Xor64(Xor64(Xor64(Xor64(Xor64(Xor64(Xor64(Wide(a), Wide(b)), Wide(c)), Wide(d)), Wide(e)), Wide(f)),
             Wide(g)), Wide(h))
  {
    var p := Xor(Xor(Xor(a, b), c), d);
    WideFour(a, b, c, d);
    WideXor(p, e);
    WideXor(Xor(p, e), f);
    WideXor(Xor(Xor(p, e), f), g);
    WideXor(Xor(Xor(Xor(p, e), f), g), h);
  }

  lemma WideFour(a: bv32, b: bv32, c: bv32, d: bv32)
    ensures Wide(Xor(Xor(Xor(a, b), c), d)) == Xor64(Xor64(Xor64(Wide(a), Wide(b)), Wide(c)), Wide(d))
  {
    WideXor(a, b);
    WideXor(Xor(a, b), c);
    WideXor(Xor(Xor(a, b), c), d);
  }

  /** The byte step of the C loops. */
  function ByteStep(row: Table, crc: bv64, b: bv8): bv64 {
    Xor64(Wide(row(Byte0(Xor64(crc, b as bv64)))), Shr8(crc))
  }

  /** The C register after the first `i` bytes of `data`. */
  ghost function After(crci: bv32, data: seq<bv8>, i: nat): bv64
    requires i <= |data|
  {
    Wide(Feed(Word(), Xor(crci, MASK), data[..i]))
  }

  lemma AfterByte(t: seq<Table>, crci: bv32, data: seq<bv8>, i: nat)
    requires Filled(t) && i < |data|
    ensures ByteStep(t[0], After(crci, data, i), data[i]) == After(crci, data, i + 1)
  {
    var c := Feed(Word(), Xor(crci, MASK), data[..i]);
    FeedByte(Word(), Xor(crci, MASK), data, i);
    FilledAll(t);
    ByteLookup(c, data[i]);
  }

  lemma AfterSlice(t: seq<Table>, crci: bv32, data: seq<bv8>, i: nat)
    requires Filled(t) && i + 8 <= |data|
    ensures Slice(t, Xor64(After(crci, data, i), Load64(data[i..i + 8]))) == After(crci, data, i + 8)
  {
    var c := Feed(Word(), Xor(crci, MASK), data[..i]);
    FeedSlice(Word(), Xor(crci, MASK), data, i, 8);
    FilledAll(t);
    SliceAbsorbs(t, c, data[i..i + 8]);
  }

  lemma AfterAll(crci: bv32, data: seq<bv8>)
    ensures Xor(Truncated(After(crci, data, |data|)), MASK) == Update(crci, data)
  {
    assert data[..|data|] == data;
    RegisterIsFeed(Xor(crci, MASK), data);
    TruncateWide(Feed(Word(), Xor(crci, MASK), data));
  }

  lemma AfterNone(crci: bv32, data: seq<bv8>)
    ensures After(crci, data, 0) == Wide(Xor(crci, MASK))
  {
    assert data[..0] == [];
  }

  /** The bytes before the first aligned one. */
  method AlignLoop(t: seq<Table>, ghost crci: bv32, buf: array<bv8>, address: nat, crc0: bv64)
    returns (crc: bv64, next: nat)
    requires Filled(t) && crc0 == After(crci, buf[..], 0)
    ensures next <= buf.Length && crc == After(crci, buf[..], next)
  {
    crc, next := crc0, 0;
    while next < buf.Length && (address + next) % 8 != 0
      invariant next <= buf.Length && crc == After(crci, buf[..], next)
    {
      AfterByte(t, crci, buf[..], next);
      crc := ByteStep(t[0], crc, buf[next]);
      next := next + 1;
    }
  }

  method SliceOne(t: seq<Table>, ghost crci: bv32, ghost data: seq<bv8>, ghost i: nat, w: seq<bv8>, crc0: bv64)
    returns (crc: bv64)
    requires Filled(t) && i + 8 <= |data| && w == data[i..i + 8]
    requires crc0 == After(crci, data, i)
    ensures crc == After(crci, data, i + 8)
  {
    AfterSlice(t, crci, data, i);
    crc := Slice(t, Xor64(crc0, Load64(w)));
  }

  /** The quadwords. */
  method SliceLoop(t: seq<Table>, ghost crci: bv32, buf: array<bv8>, crc0: bv64, next0: nat)
    returns (crc: bv64, next: nat)
    requires Filled(t) && next0 <= buf.Length && crc0 == After(crci, buf[..], next0)
    ensures next <= buf.Length < next + 8 && crc == After(crci, buf[..], next)
  {
    crc, next := crc0, next0;
    while buf.Length - next >= 8
      invariant next <= buf.Length && crc == After(crci, buf[..], next)
    {
      assert buf[next..next + 8] == buf[..][next..next + 8];
      crc := SliceOne(t, crci, buf[..], next, buf[next..next + 8], crc);
      next := next + 8;
    }
  }

  /** The last bytes. */
  method TailLoop(t: seq<Table>, ghost crci: bv32, buf: array<bv8>, crc0: bv64, next0: nat)
    returns (crc: bv64)
    requires Filled(t) && next0 <= buf.Length && crc0 == After(crci, buf[..], next0)
    ensures crc == After(crci, buf[..], buf.Length)
  {
    crc := crc0;
    var next := next0;
    while next < buf.Length
      invariant next <= buf.Length && crc == After(crci, buf[..], next)
    {
      AfterByte(t, crci, buf[..], next);
      crc := ByteStep(t[0], crc, buf[next]);
      next := next + 1;
    }
  }

  /** Slicing-by-8 CRC-32C of a buffer whose first byte sits at `address`. */
  method Crc32cSw(t: seq<Table>, crci: bv32, buf: array<bv8>, address: nat) returns (r: bv32)
    requires Filled(t)
    ensures r == Update(crci, buf[..])
  {
    AfterNone(crci, buf[..]);
    var crc, next := AlignLoop(t, crci, buf, address, Wide(Xor(crci, MASK)));
    crc, next := SliceLoop(t, crci, buf, crc, next);
    crc := TailLoop(t, crci, buf, crc, next);
    AfterAll(crci, buf[..]);
    r := Xor(Truncated(crc), MASK);
  }
}
