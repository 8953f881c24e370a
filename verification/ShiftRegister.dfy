/** A byte-fed shift register over an arbitrary commutative word group.

    Everything that makes table-driven and slicing-by-8 checksums work is a fact
    about a linear step, so it is proved here once without looking at any bits.
 */
module ShiftRegister {

  /** The words of a register, its step over one zero byte, the shift that puts a
      word above one free byte, and the word of a single byte. */
  datatype Ops<!T, !B> = Ops(zero: T, plus: (T, T) -> T, step: T -> T, up: T -> T, emb: B -> T)

  function Iterate<T>(f: T -> T, x: T, n: nat): T
    decreases n
  {
    if n == 0 then x else Iterate(f, f(x), n - 1)
  }

  function Absorb<T, B>(o: Ops<T, B>, c: T, b: B): T {
    o.step(o.plus(c, o.emb(b)))
  }

  /** The register after absorbing every byte of `data`. */
  function Feed<T, B>(o: Ops<T, B>, c: T, data: seq<B>): T
    decreases |data|
  {
    if data == [] then c else Feed(o, Absorb(o, c, data[0]), data[1..])
  }

  /** The little-endian word of a byte string. */
  function Little<T, B>(o: Ops<T, B>, w: seq<B>): T
    decreases |w|
  {
    if w == [] then o.zero else o.plus(o.emb(w[0]), o.up(Little(o, w[1..])))
  }

  // ---------- Laws ----------

  ghost predicate AssocAt<T, B>(o: Ops<T, B>, a: T, b: T, c: T) {
    o.plus(o.plus(a, b), c) == o.plus(a, o.plus(b, c))
  }

  ghost predicate LinearAt<T, B>(o: Ops<T, B>, a: T, b: T) {
    o.step(o.plus(a, b)) == o.plus(o.step(a), o.step(b))
  }

  ghost predicate ZeroAt<T, B>(o: Ops<T, B>, a: T) {
    o.plus(a, o.zero) == a
  }

  /** A window of up to three bytes, moved up, steps back down unchanged. */
  ghost predicate DownAt<T, B>(o: Ops<T, B>, w: seq<B>) {
    |w| <= 3 ==> o.step(o.up(Little(o, w))) == Little(o, w)
  }

  ghost predicate Laws<T(!new), B(!new)>(o: Ops<T, B>) {
    && (forall a, b, c :: AssocAt(o, a, b, c))
    && (forall a, b :: LinearAt(o, a, b))
    && (forall a :: ZeroAt(o, a))
    && (forall w :: DownAt(o, w))
    && o.step(o.zero) == o.zero
  }

  // ---------- Iteration ----------

  lemma {:induction false} IterateAdd<T>(f: T -> T, x: T, m: nat, n: nat)
    ensures Iterate(f, x, m + n) == Iterate(f, Iterate(f, x, m), n)
    decreases m
  {
    if m > 0 {
      IterateAdd(f, f(x), m - 1, n);
    }
  }

  lemma {:induction false} IterateLinear<T(!new), B(!new)>(o: Ops<T, B>, a: T, b: T, n: nat)
    requires Laws(o)
    ensures Iterate(o.step, o.plus(a, b), n) == o.plus(Iterate(o.step, a, n), Iterate(o.step, b, n))
    decreases n
  {
    if n > 0 {
      assert LinearAt(o, a, b);
      IterateLinear(o, o.step(a), o.step(b), n - 1);
    }
  }

  ghost predicate Injective<T(!new)>(f: T -> T) {
    forall a, b :: f(a) == f(b) ==> a == b
  }

  lemma {:induction false} IterateInjective<T(!new)>(f: T -> T, a: T, b: T, n: nat)
    requires Injective(f) && Iterate(f, a, n) == Iterate(f, b, n)
    ensures a == b
    decreases n
  {
    if n > 0 {
      IterateInjective(f, f(a), f(b), n - 1);
    }
  }

  // ---------- Feeding ----------

  lemma {:induction false} FeedConcat<T, B>(o: Ops<T, B>, c: T, a: seq<B>, b: seq<B>)
    ensures Feed(o, c, a + b) == Feed(o, Feed(o, c, a), b)
    decreases |a|
  {
    if a == [] {
      assert a + b == b;
    } else {
      assert (a + b)[1..] == a[1..] + b;
      FeedConcat(o, Absorb(o, c, a[0]), a[1..], b);
    }
  }

  lemma FeedSlice<T, B>(o: Ops<T, B>, c: T, data: seq<B>, i: nat, n: nat)
    requires i + n <= |data|
    ensures Feed(o, c, data[..i + n]) == Feed(o, Feed(o, c, data[..i]), data[i..i + n])
  {
    assert data[..i + n] == data[..i] + data[i..i + n];
    FeedConcat(o, c, data[..i], data[i..i + n]);
  }

  lemma FeedByte<T, B>(o: Ops<T, B>, c: T, data: seq<B>, i: nat)
    requires i < |data|
    ensures Feed(o, c, data[..i + 1]) == Absorb(o, Feed(o, c, data[..i]), data[i])
  {
    FeedSlice(o, c, data, i, 1);
    var w := data[i..i + 1];
    assert w == [data[i]] && w[1..] == [];
    var d := Feed(o, c, data[..i]);
    assert Feed(o, d, w) == Feed(o, Absorb(o, d, w[0]), w[1..]);
  }

  /** Absorbing a window byte by byte is adding its word and stepping. */
  lemma {:induction false} FeedWindow<T(!new), B(!new)>(o: Ops<T, B>, c: T, w: seq<B>)
    requires Laws(o) && |w| <= 4
    ensures Feed(o, c, w) == Iterate(o.step, o.plus(c, Little(o, w)), |w|)
    decreases |w|
  {
    if w == [] {
      assert ZeroAt(o, c);
    } else {
      var x := Little(o, w[1..]);
      assert DownAt(o, w[1..]);
      assert LinearAt(o, o.plus(c, o.emb(w[0])), o.up(x));
      assert AssocAt(o, c, o.emb(w[0]), o.up(x));
      FeedWindow(o, Absorb(o, c, w[0]), w[1..]);
    }
  }

  lemma {:induction false} FeedInjective<T(!new), B(!new)>(o: Ops<T, B>, c: T, d: T, data: seq<B>)
    requires Injective(o.step) && (forall a, b, x :: o.plus(a, x) == o.plus(b, x) ==> a == b)
    requires Feed(o, c, data) == Feed(o, d, data)
    ensures c == d
    decreases |data|
  {
    if data != [] {
      FeedInjective(o, Absorb(o, c, data[0]), Absorb(o, d, data[0]), data[1..]);
    }
  }

  // ---------- Tables ----------

  /** Entry `b` of table `k`: the register after byte `b` and `k` zero bytes. */
  function Entry<T, B>(o: Ops<T, B>, k: nat, b: B): T {
    Iterate(o.step, o.emb(b), k + 1)
  }

  lemma EntryNext<T, B>(o: Ops<T, B>, k: nat, b: B)
    ensures Entry(o, k + 1, b) == o.step(Entry(o, k, b))
    ensures Entry(o, 0, b) == o.step(o.emb(b))
  {
    var e := Entry(o, k, b);
    IterateAdd(o.step, o.emb(b), k + 1, 1);
    assert Iterate(o.step, o.step(e), 0) == o.step(e);
    assert Iterate(o.step, o.step(o.emb(b)), 0) == o.step(o.emb(b));
  }

  /** `acc` plus one lookup per byte of `u`, the first in table `k - 1` and downwards. */
  function Lookups<T, B>(o: Ops<T, B>, acc: T, k: nat, u: seq<B>): T
    requires |u| <= k
    decreases |u|
  {
    if u == [] then acc else Lookups(o, o.plus(acc, Entry(o, k - 1, u[0])), k - 1, u[1..])
  }

  lemma {:induction false} IterateZero<T(!new), B(!new)>(o: Ops<T, B>, n: nat)
    requires Laws(o)
    ensures Iterate(o.step, o.zero, n) == o.zero
    decreases n
  {
    if n > 0 {
      IterateZero(o, n - 1);
    }
  }

  lemma {:induction false} LookupsSplit<T(!new), B(!new)>(o: Ops<T, B>, acc: T, k: nat, u: seq<B>)
    requires Laws(o) && |u| <= 4 && |u| <= k
    ensures Lookups(o, acc, k, u) == o.plus(acc, Iterate(o.step, Little(o, u), k))
    decreases |u|
  {
    if u == [] {
      IterateZero(o, k);
      assert ZeroAt(o, acc);
    } else {
      var x := Little(o, u[1..]);
      assert DownAt(o, u[1..]);
      IterateLinear(o, o.emb(u[0]), o.up(x), k);
      assert AssocAt(o, acc, Entry(o, k - 1, u[0]), Iterate(o.step, x, k - 1));
      LookupsSplit(o, o.plus(acc, Entry(o, k - 1, u[0])), k - 1, u[1..]);
    }
  }

  /** Eight bytes at once: four lookups on the bytes of the register plus the first
      word, four on the bytes of the second word. */
  lemma EightBytes<T(!new), B(!new)>(o: Ops<T, B>, c: T, w: seq<B>, u: seq<B>)
    requires Laws(o) && |w| == 8 && |u| == 4
    requires Little(o, u) == o.plus(c, Little(o, w[..4]))
    ensures Feed(o, c, w) == Lookups(o, Lookups(o, Entry(o, 7, u[0]), 7, u[1..]), 4, w[4..])
  {
    var x, y := Little(o, u), Little(o, w[4..]);
    assert w == w[..4] + w[4..];
    FeedConcat(o, c, w[..4], w[4..]);
    FeedWindow(o, c, w[..4]);
    var z := Iterate(o.step, x, 4);
    FeedWindow(o, z, w[4..]);
    IterateLinear(o, z, y, 4);
    IterateAdd(o.step, x, 4, 4);
    assert Feed(o, c, w) == o.plus(Iterate(o.step, x, 8), Iterate(o.step, y, 4));
    IterateLinear(o, o.emb(u[0]), o.up(Little(o, u[1..])), 8);
    assert DownAt(o, u[1..]);
    LookupsSplit(o, Entry(o, 7, u[0]), 7, u[1..]);
    LookupsSplit(o, Iterate(o.step, x, 8), 4, w[4..]);
  }

  lemma LookupsThree<T, B>(o: Ops<T, B>, acc: T, k: nat, u: seq<B>)
    requires |u| == 3 <= k
    ensures Lookups(o, acc, k, u)
         == o.plus(o.plus(o.plus(acc, Entry(o, k - 1, u[0])), Entry(o, k - 2, u[1])), Entry(o, k - 3, u[2]))
  {
    var a := o.plus(acc, Entry(o, k - 1, u[0]));
    var b := o.plus(a, Entry(o, k - 2, u[1]));
    assert u[1..][1..] == [u[2]] && [u[2]][1..] == [];
    assert Lookups(o, a, k - 1, u[1..]) == Lookups(o, b, k - 2, [u[2]]);
    assert Lookups(o, b, k - 2, [u[2]]) == o.plus(b, Entry(o, k - 3, u[2]));
  }

  /** Eight bytes at once, in the order in which the C loop adds its lookups. */
  lemma EightLookups<T(!new), B(!new)>(o: Ops<T, B>, c: T, w: seq<B>, u: seq<B>)
    requires Laws(o) && |w| == 8 && |u| == 4
    requires Little(o, u) == o.plus(c, Little(o, w[..4]))
    ensures Feed(o, c, w)
         == o.plus(o.plus(o.plus(o.plus(o.plus(o.plus(o.plus(Entry(o, 7, u[0]), Entry(o, 6, u[1])),
              Entry(o, 5, u[2])), Entry(o, 4, u[3])), Entry(o, 3, w[4])), Entry(o, 2, w[5])),
              Entry(o, 1, w[6])), Entry(o, 0, w[7]))
  {
    EightBytes(o, c, w, u);
    LookupsThree(o, Entry(o, 7, u[0]), 7, u[1..]);
    var e := Lookups(o, Entry(o, 7, u[0]), 7, u[1..]);
    var f := o.plus(e, Entry(o, 3, w[4]));
    assert w[4..][1..] == w[5..];
    assert Lookups(o, e, 4, w[4..]) == Lookups(o, f, 3, w[5..]);
    LookupsThree(o, f, 3, w[5..]);
  }

  lemma LittleFour<T, B>(o: Ops<T, B>, w: seq<B>)
    requires |w| == 4
    ensures Little(o, w)
         == o.plus(o.emb(w[0]),
             o.up(o.plus(o.emb(w[1]), o.up(o.plus(o.emb(w[2]), o.up(o.plus(o.emb(w[3]), o.up(o.zero))))))))
  {
    assert w[1..][1..] == w[2..] && w[2..][1..] == w[3..] && w[3..][1..] == [];
    assert Little(o, w[3..]) == o.plus(o.emb(w[3]), o.up(o.zero));
    assert Little(o, w[2..]) == o.plus(o.emb(w[2]), o.up(Little(o, w[3..])));
    assert Little(o, w[1..]) == o.plus(o.emb(w[1]), o.up(Little(o, w[2..])));
  }
}
