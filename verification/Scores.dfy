/** The balance score of the sticky assignor (sticky_assignor.py, _get_balance_score) and
    what one moved partition does to it, for any number of consumers. */
module Scores {

  function Abs(x: int): nat {
    if x < 0 then -x else x
  }

  /** The differences between `x` and every size in `sizes`. */
  function Spread(x: int, sizes: seq<int>): nat {
    if sizes == [] then 0 else Abs(x - sizes[0]) + Spread(x, sizes[1..])
  }

  /** The sum of the differences of all pairs. */
  function Score(sizes: seq<int>): nat {
    if sizes == [] then 0 else Spread(sizes[0], sizes[1..]) + Score(sizes[1..])
  }

  /** The loop of the source: each consumer against those not explored before it. */
  method BalanceScore(sizes: seq<int>) returns (score: nat)
    ensures score == Score(sizes)
  {
    score := 0;
    for i := 0 to |sizes|
      invariant score + Score(sizes[i..]) == Score(sizes)
    {
      ghost var before := score;
      for j := i + 1 to |sizes|
        invariant score + Spread(sizes[i], sizes[j..]) == before + Spread(sizes[i], sizes[i + 1..])
      {
        score := score + Abs(sizes[i] - sizes[j]);
        assert sizes[j..][1..] == sizes[j + 1..];
      }
      assert sizes[i..][1..] == sizes[i + 1..];
    }
  }

  /** Sizes after one unit moved from place `i` to place `j`. */
  function Moved(sizes: seq<int>, i: nat, j: nat): seq<int>
    requires i < |sizes| && j < |sizes| && i != j
  {
    sizes[i := sizes[i] - 1][j := sizes[j] + 1]
  }

  // ---------- Taking two places out of the sum ----------

  function Without(sizes: seq<int>, i: nat): (r: seq<int>)
    requires i < |sizes|
    ensures |r| == |sizes| - 1
  {
    sizes[..i] + sizes[i + 1..]
  }

  lemma WithoutTail(sizes: seq<int>, i: nat)
    requires 0 < i < |sizes|
    ensures Without(sizes, i)[0] == sizes[0] && Without(sizes, i)[1..] == Without(sizes[1..], i - 1)
  {
  }

  lemma {:induction false} SpreadWithout(x: int, sizes: seq<int>, i: nat)
    requires i < |sizes|
    ensures Spread(x, sizes) == Spread(x, Without(sizes, i)) + Abs(x - sizes[i])
    decreases |sizes|
  {
    if i == 0 {
      assert Without(sizes, 0) == sizes[1..];
    } else {
      WithoutTail(sizes, i);
      SpreadWithout(x, sizes[1..], i - 1);
    }
  }

  lemma {:induction false} ScoreWithout(sizes: seq<int>, i: nat)
    requires i < |sizes|
    ensures Score(sizes) == Score(Without(sizes, i)) + Spread(sizes[i], Without(sizes, i))
    decreases |sizes|
  {
    if i == 0 {
      assert Without(sizes, 0) == sizes[1..];
    } else {
      WithoutTail(sizes, i);
      ScoreWithout(sizes[1..], i - 1);
      SpreadWithout(sizes[0], sizes[1..], i - 1);
    }
  }

  /** The score as the pairs that involve places `i` and `j`, and the others. */
  lemma ScoreOfTwo(sizes: seq<int>, i: nat, j: nat)
    requires i < j < |sizes|
    ensures var rest := Without(Without(sizes, j), i);
      Score(sizes) == Score(rest) + Spread(sizes[i], rest) + Spread(sizes[j], rest) + Abs(sizes[i] - sizes[j])
  {
    var most := Without(sizes, j);
    ScoreWithout(sizes, j);
    ScoreWithout(most, i);
    assert most[i] == sizes[i];
    SpreadWithout(sizes[j], most, i);
  }

  // ---------- A bound ----------

  ghost predicate UpTo(sizes: seq<int>, bound: nat) {
    forall i :: 0 <= i < |sizes| ==> 0 <= sizes[i] <= bound
  }

  lemma {:induction false} SpreadBound(x: int, sizes: seq<int>, bound: nat)
    requires 0 <= x <= bound && UpTo(sizes, bound)
    ensures Spread(x, sizes) <= |sizes| * bound
    decreases |sizes|
  {
    if sizes != [] {
      SpreadBound(x, sizes[1..], bound);
      OneMore(|sizes| - 1, bound);
      assert Abs(x - sizes[0]) <= bound;
    }
  }

  lemma OneMore(n: nat, bound: nat)
    ensures (n + 1) * bound == n * bound + bound
  {
  }

  /** The score is at most the square of the number of consumers times the largest size. */
  lemma {:induction false} ScoreBound(sizes: seq<int>, bound: nat)
    requires UpTo(sizes, bound)
    ensures Score(sizes) <= |sizes| * |sizes| * bound
    decreases |sizes|
  {
    if sizes != [] {
      var n := |sizes| - 1;
      SpreadBound(sizes[0], sizes[1..], bound);
      ScoreBound(sizes[1..], bound);
      Squares(n, bound);
    }
  }

  lemma Squares(n: nat, bound: nat)
    ensures n * bound + n * n * bound <= (n + 1) * (n + 1) * bound
  {
    assert (n + 1) * (n + 1) * bound == n * n * bound + n * bound + n * bound + bound by {
      assert (n + 1) * (n + 1) == n * n + n + n + 1;
    }
  }

  // ---------- One move ----------

  /** Bringing two sizes one step closer brings them no further from anyone. */
  lemma {:induction false} SpreadCloser(x: int, y: int, rest: seq<int>)
    requires x > y
    ensures Spread(x - 1, rest) + Spread(y + 1, rest) <= Spread(x, rest) + Spread(y, rest)
    ensures x == y + 1 ==> Spread(x - 1, rest) + Spread(y + 1, rest) == Spread(x, rest) + Spread(y, rest)
    decreases |rest|
  {
    if rest != [] {
      SpreadCloser(x, y, rest[1..]);
    }
  }

  lemma RestUnmoved(sizes: seq<int>, i: nat, j: nat, a: int, b: int)
    requires i < j < |sizes|
    ensures Without(Without(sizes[i := a][j := b], j), i) == Without(Without(sizes, j), i)
  {
  }

  /** The score with places `i < j` holding `x` and `y`, whatever they held before. */
  lemma ScoreWith(sizes: seq<int>, i: nat, j: nat, x: int, y: int)
    requires i < j < |sizes|
    ensures var rest := Without(Without(sizes, j), i);
      Score(sizes[i := x][j := y]) == Score(rest) + Spread(x, rest) + Spread(y, rest) + Abs(x - y)
  {
    hide Score, Spread, Without;
    RestUnmoved(sizes, i, j, x, y);
    ScoreOfTwo(sizes[i := x][j := y], i, j);
  }

  lemma MoveAt(sizes: seq<int>, i: nat, j: nat, x: int, y: int)
    requires i < j < |sizes| && x == sizes[i] && y == sizes[j]
    ensures var up, down := sizes[i := x + 1][j := y - 1], sizes[i := x - 1][j := y + 1];
      (Score(down) < Score(sizes) <==> x >= y + 2) && (Score(down) == Score(sizes) <==> x == y + 1)
      && (Score(up) < Score(sizes) <==> y >= x + 2) && (Score(up) == Score(sizes) <==> y == x + 1)
  {
    hide Score, Spread, Without;
    var rest := Without(Without(sizes, j), i);
    assert sizes == sizes[i := x][j := y];
    ScoreWith(sizes, i, j, x, y);
    ScoreWith(sizes, i, j, x + 1, y - 1);
    ScoreWith(sizes, i, j, x - 1, y + 1);
    if x > y {
      SpreadCloser(x, y, rest);
      SpreadCloser(x + 1, y - 1, rest);
    } else if y > x {
      SpreadCloser(y, x, rest);
      SpreadCloser(y + 1, x - 1, rest);
    } else {
      SpreadCloser(x + 1, y - 1, rest);
    }
  }

  /** A moved partition lowers the score exactly when the donor holds at least two more
      than the receiver, and leaves it equal exactly when it holds one more. */
  lemma MoveLowersScore(sizes: seq<int>, i: nat, j: nat)
    requires i < |sizes| && j < |sizes| && i != j
    ensures Score(Moved(sizes, i, j)) < Score(sizes) <==> sizes[i] >= sizes[j] + 2
    ensures Score(Moved(sizes, i, j)) == Score(sizes) <==> sizes[i] == sizes[j] + 1
  {
    hide Score;
    if i < j {
      MoveAt(sizes, i, j, sizes[i], sizes[j]);
    } else {
      MoveAt(sizes, j, i, sizes[j], sizes[i]);
      assert Moved(sizes, i, j) == sizes[j := sizes[j] + 1][i := sizes[i] - 1];
    }
  }

  // ---------- The order of the consumers does not matter ----------

  lemma CancelOne(m: multiset<int>, n: multiset<int>, x: int)
    requires m + multiset{x} == n + multiset{x}
    ensures m == n
  {
    assert m == m + multiset{x} - multiset{x};
    assert n == n + multiset{x} - multiset{x};
  }

  lemma MultisetWithout(b: seq<int>, i: nat)
    requires i < |b|
    ensures multiset(b) == multiset(Without(b, i)) + multiset{b[i]}
  {
    assert b == b[..i] + [b[i]] + b[i + 1..];
  }

  lemma WithoutIsRest(a: seq<int>, b: seq<int>, i: nat)
    requires a != [] && i < |b| && b[i] == a[0] && multiset(a) == multiset(b)
    ensures multiset(Without(b, i)) == multiset(a[1..])
  {
    hide Without;
    assert a == [a[0]] + a[1..];
    MultisetWithout(b, i);
    CancelOne(multiset(Without(b, i)), multiset(a[1..]), a[0]);
  }

  lemma {:induction false} SpreadOrderless(x: int, a: seq<int>, b: seq<int>)
    requires multiset(a) == multiset(b)
    ensures Spread(x, a) == Spread(x, b)
    decreases |a|
  {
    if a == [] {
      assert multiset(b) == multiset{};
      assert b == [];
    } else {
      assert a[0] in multiset(b);
      var i :| 0 <= i < |b| && b[i] == a[0];
      WithoutIsRest(a, b, i);
      SpreadWithout(x, b, i);
      SpreadOrderless(x, a[1..], Without(b, i));
    }
  }

  /** The score depends on the sizes, not on the order in which consumers are visited. */
  lemma {:induction false} ScoreOrderless(a: seq<int>, b: seq<int>)
    requires multiset(a) == multiset(b)
    ensures Score(a) == Score(b)
    decreases |a|
  {
    if a == [] {
      assert multiset(b) == multiset{};
      assert b == [];
    } else {
      assert a[0] in multiset(b);
      var i :| 0 <= i < |b| && b[i] == a[0];
      WithoutIsRest(a, b, i);
      ScoreWithout(b, i);
      SpreadOrderless(a[0], a[1..], Without(b, i));
      ScoreOrderless(a[1..], Without(b, i));
    }
  }
}
