/** Who keeps what when all subscribe alike (sticky_assignor.py): partitions are taken up from
    the consumers that hold the most, so a consumer that holds no more than its share is never
    the one to give. */
module Keeping {
  import opened Types
  import opened Movements
  import opened SortedSets
  import opened Assignment
  import opened Sticky
  import opened PartitionOrder

  // ---------- The order ----------

  /** When a partition is taken up, nobody has more partitions left in the list than its owner
      has in all. */
  ghost predicate MostFirst(list: seq<TopicPartition>, owner: Owners) {
    forall j, d :: 0 <= j < |list| && list[j] in owner ==>
      |HeldBy(owner, d) - Elements(list[..j])| <= |HeldBy(owner, owner[list[j]])|
  }

  /** What each consumer has left when `gone` was dealt. */
  ghost predicate LeftIs(left: Held, owner: Owners, gone: set<TopicPartition>) {
    && (forall c :: c in left ==> Distinct(left[c]) && Elements(left[c]) == HeldBy(owner, c) - gone)
    && (forall p :: p in owner ==> owner[p] in left)
  }

  lemma LeftSize(left: Held, owner: Owners, gone: set<TopicPartition>, c: Consumer)
    requires LeftIs(left, owner, gone)
    ensures c in left ==> |left[c]| == |HeldBy(owner, c) - gone|
    ensures c !in left ==> HeldBy(owner, c) == {}
  {
    if c in left {
      DistinctSize(left[c]);
    }
  }

  lemma LeftNext(left: Held, owner: Owners, gone: set<TopicPartition>, c: Consumer, p: TopicPartition)
    requires LeftIs(left, owner, gone) && c in left && p in left[c]
    ensures p in owner && owner[p] == c
    ensures LeftIs(left[c := Drop(left[c], p)], owner, gone + {p})
  {
    hide Drop, Distinct;
    assert p in Elements(left[c]);
    var after := left[c := Drop(left[c], p)];
    forall d | d in after ensures Distinct(after[d]) && Elements(after[d]) == HeldBy(owner, d) - (gone + {p}) {
      if d == c {
        DropTakes(left[c], p);
        forall q ensures q in Elements(after[c]) <==> q in HeldBy(owner, c) - (gone + {p}) {
          assert q in Elements(left[c]) <==> q in HeldBy(owner, c) - gone;
        }
      } else {
        assert p !in HeldBy(owner, d);
        assert HeldBy(owner, d) - (gone + {p}) == HeldBy(owner, d) - gone;
      }
    }
  }

  /** Dealing takes up first what those hold that hold the most. */
  lemma {:induction false} DealtMostFirst(left: Held, previous: Owners, list: seq<TopicPartition>, owner: Owners,
                                          gone: set<TopicPartition>, j: nat, d: Consumer)
    requires LeftIs(left, owner, gone) && DealtOut(left, previous, list) && j < |list|
    ensures list[j] in owner
    ensures |HeldBy(owner, d) - (gone + Elements(list[..j]))| <= |HeldBy(owner, owner[list[j]])|
    decreases j
  {
    hide Drop, LeftIs, HeldBy, Elements;
    var c :| Dealt(left, previous, c, list[0]) && DealtOut(left[c := Drop(left[c], list[0])], previous, list[1..]);
    DealtFrom(left, previous, c, list[0]);
    LeftNext(left, owner, gone, c, list[0]);
    if j == 0 {
      LargestLeft(left, previous, owner, gone, c, list[0], d);
      NothingGone(list, gone);
    } else {
      hide DealtOut;
      DealtMostFirst(left[c := Drop(left[c], list[0])], previous, list[1..], owner, gone + {list[0]}, j - 1, d);
      OneMoreGone(list, gone, j);
    }
  }

  lemma DealtFrom(left: Held, previous: Owners, c: Consumer, p: TopicPartition)
    requires Dealt(left, previous, c, p)
    ensures c in left && p in left[c]
  {
  }

  lemma LargestLeft(left: Held, previous: Owners, owner: Owners, gone: set<TopicPartition>, c: Consumer,
                    p: TopicPartition, d: Consumer)
    requires LeftIs(left, owner, gone) && Dealt(left, previous, c, p)
    ensures |HeldBy(owner, d) - gone| <= |HeldBy(owner, c)|
  {
    LeftSize(left, owner, gone, c);
    LeftSize(left, owner, gone, d);
    hide LeftIs, HeldBy;
    SmallerSet(HeldBy(owner, c) - gone, HeldBy(owner, c));
    NothingHeld(owner, d, gone);
  }

  lemma NothingGone(list: seq<TopicPartition>, gone: set<TopicPartition>)
    ensures gone + Elements(list[..0]) == gone
  {
  }

  lemma OneMoreGone(list: seq<TopicPartition>, gone: set<TopicPartition>, j: nat)
    requires 0 < j <= |list|
    ensures gone + Elements(list[..j]) == (gone + {list[0]}) + Elements(list[1..][..j - 1])
  {
    assert list[..j] == [list[0]] + list[1..][..j - 1];
  }

  lemma NothingHeld(owner: Owners, d: Consumer, gone: set<TopicPartition>)
    ensures HeldBy(owner, d) == {} ==> HeldBy(owner, d) - gone == {}
  {
  }

  lemma SmallerSet<T>(a: set<T>, b: set<T>)
    requires a <= b
    ensures |a| <= |b|
  {
    assert b == a + (b - a);
  }

  /** Everything somebody has left is dealt. */
  lemma {:induction false} DealtAll(left: Held, previous: Owners, list: seq<TopicPartition>, c: Consumer,
                                    p: TopicPartition)
    requires DealtOut(left, previous, list) && DistinctAll(left) && c in left && p in left[c]
    ensures p in list
    decreases |list|
  {
    hide Drop, Distinct;
    if list != [] {
      var d :| Dealt(left, previous, d, list[0]) && DealtOut(left[d := Drop(left[d], list[0])], previous, list[1..]);
      assert list == [list[0]] + list[1..];
      if p != list[0] {
        var after := left[d := Drop(left[d], list[0])];
        DropTakes(left[d], list[0]);
        assert c in after && p in after[c] by {
          if c == d {
            assert p in Drop(left[d], list[0]);
          }
        }
        DealtAll(after, previous, list[1..], c, p);
      }
    }
  }

  lemma {:induction false} NothingLacks(list: seq<TopicPartition>, rest: seq<TopicPartition>)
    requires forall p :: p in rest ==> p in list
    ensures Lacking(list, rest) == []
    decreases |rest|
  {
    if rest != [] {
      assert rest == rest[..|rest| - 1] + [rest[|rest| - 1]];
      NothingLacks(list, rest[..|rest| - 1]);
    }
  }

  // ---------- Calm consumers ----------

  /** A consumer that holds at most one more than anybody: it never gives again. */
  ghost predicate Calm(held: Held, c: Consumer) {
    c in held && forall x :: x in held ==> |held[c]| <= |held[x]| + 1
  }

  /** A move from one that holds two more to one that holds the least leaves the calm calm. */
  lemma CalmStays(held: Held, p: TopicPartition, a: Consumer, b: Consumer, c: Consumer)
    requires a in held && b in held && p in held[a] && |held[a]| > |held[b]| + 1
    requires (forall x :: x in held ==> |held[b]| <= |held[x]|) && Calm(held, c)
    ensures Calm(Shift(held, p, a, b), c)
  {
    hide Drop;
    var after := Shift(held, p, a, b);
    assert |after[a]| == |held[a]| - 1 && |after[b]| == |held[b]| + 1;
    assert |held[c]| <= |held[b]| + 1;
  }

  lemma {:induction false} SomeLeast(held: Held, g: Group, p: TopicPartition, among: set<Consumer>)
    returns (least: Consumer)
    requires among != {} && forall c :: c in among ==> c in held && MayHold(g, c, p)
    ensures least in among && forall d :: d in among ==> !Less(Key(|held[d]|, d), Key(|held[least]|, least))
    decreases |among|
  {
    var c :| c in among;
    if among == {c} {
      least := c;
    } else {
      var other := SomeLeast(held, g, p, among - {c});
      least := if Less(Key(|held[c]|, c), Key(|held[other]|, other)) then c else other;
    }
  }

  /** If somebody lighter may hold `p`, there is somebody to send it to. */
  lemma SomeTarget(g: Group, s: State, p: TopicPartition, d: Consumer) returns (to: Consumer)
    requires g.previous == map[] && MayHold(g, d, p) && Lighter(s, p, d)
    ensures Target(g, s, p, to)
  {
    var among := set c | c in s.held && MayHold(g, c, p);
    assert d in among;
    to := SomeLeast(s.held, g, p, among);
    assert Least(s.held, g, p, to);
  }

  // ---------- The loop ----------

  /** Where the loop stands: what moved came from its first owner and the rest is where it was;
      what was taken up has moved or is with a calm consumer; `m` has lost nothing. */
  ghost predicate Keeps(g: Group, s0: State, s: State, list: seq<TopicPartition>, done: set<TopicPartition>,
                        m: Consumer) {
    && Kept(g, s, list) && Alike(s.held.Keys, g) && Settling(s)
    && s.held.Keys == s0.held.Keys && s.owner.Keys == s0.owner.Keys
    && (forall p :: p in s.owner ==> p in list && s.owner[p] in s.held && Start(s, p) == s0.owner[p])
    && (forall p :: p in done && p in s.owner ==> p in s.moves || Calm(s.held, s0.owner[p]))
    && (forall p :: p in s.owner && s0.owner[p] == m ==> s.owner[p] == m)
  }

  /** Where a partition was when the loop began. */
  ghost function Start(s: State, p: TopicPartition): Consumer
    requires p in s.owner
  {
    if p in s.moves then s.moves[p].src else s.owner[p]
  }

  /** Everyone's share of `held` is at most `r`, as far as it was not taken up. */
  ghost predicate Shares(owner: Owners, done: set<TopicPartition>, r: nat) {
    forall d :: |HeldBy(owner, d) - done| <= r
  }

  lemma SizeIs(s: State, c: Consumer, g: Group)
    requires Consistent(s.held, s.owner, g) && c in s.held
    ensures |s.held[c]| == |HeldBy(s.owner, c)|
  {
    DistinctSize(s.held[c]);
    assert Elements(s.held[c]) == HeldBy(s.owner, c);
  }

  /** A consumer that received something, and has not settled, does not exist. */
  lemma ReceiverIsCalm(s: State, p: TopicPartition)
    requires Settling(s) && p in s.moves && p in s.owner && s.owner[p] in s.held
    ensures Calm(s.held, s.owner[p])
  {
  }

  /** Somebody who is not calm holds only what it held from the start and was not taken up. */
  lemma RestlessHolds(g: Group, s0: State, s: State, list: seq<TopicPartition>, done: set<TopicPartition>, m: Consumer,
                      d: Consumer)
    requires Keeps(g, s0, s, list, done, m) && d in s.held && !Calm(s.held, d)
    ensures HeldBy(s.owner, d) <= HeldBy(s0.owner, d) - done
  {
    hide Kept, Alike, Settling, Calm;
    forall p | p in HeldBy(s.owner, d) ensures p in HeldBy(s0.owner, d) - done {
      if p in s.moves {
        ReceiverIsCalm(s, p);
      }
      assert p in s.owner.Keys && p in s0.owner.Keys;
    }
  }

  /** What these consumers hold together. */
  ghost function HeldAmong(owner: Owners, cs: set<Consumer>): set<TopicPartition> {
    set p | p in owner && owner[p] in cs
  }

  lemma HeldBesides(owner: Owners, cs: set<Consumer>, c: Consumer)
    requires c in cs
    ensures |HeldAmong(owner, cs)| == |HeldAmong(owner, cs - {c})| + |HeldBy(owner, c)|
  {
    assert HeldAmong(owner, cs) == HeldAmong(owner, cs - {c}) + HeldBy(owner, c);
    assert HeldAmong(owner, cs - {c}) !! HeldBy(owner, c);
  }

  lemma Times(r: nat, n: nat)
    requires n > 0
    ensures r * n == r * (n - 1) + r
  {
  }

  lemma {:induction false} CountHeld(owner: Owners, cs: set<Consumer>, r: nat)
    requires forall c :: c in cs ==> |HeldBy(owner, c)| <= r
    ensures |HeldAmong(owner, cs)| <= r * |cs|
    decreases |cs|
  {
    hide HeldBy;
    if cs == {} {
      assert HeldAmong(owner, cs) == {};
    } else {
      hide HeldAmong;
      var c :| c in cs;
      CountHeld(owner, cs - {c}, r);
      HeldBesides(owner, cs, c);
      Times(r, |cs|);
    }
  }

  /** If somebody holds two less than `r` and nobody more, there are too few partitions for
      everybody to have `r`. */
  lemma TooFew(owner: Owners, cs: set<Consumer>, r: nat, least: Consumer)
    requires (forall c :: c in cs ==> |HeldBy(owner, c)| <= r) && least in cs && |HeldBy(owner, least)| + 2 <= r
    requires forall p :: p in owner ==> owner[p] in cs
    ensures |owner| < r * |cs|
  {
    assert owner.Keys == HeldAmong(owner, cs);
    hide HeldBy, HeldAmong;
    CountHeld(owner, cs - {least}, r);
    HeldBesides(owner, cs, least);
    Times(r, |cs|);
  }

  /** A consumer with no more than its share does not have to give. */
  lemma ShareIsSafe(g: Group, s0: State, s: State, list: seq<TopicPartition>, done: set<TopicPartition>, m: Consumer,
                    to: Consumer)
    requires Keeps(g, s0, s, list, done, m) && m in s.held && to in s.held
    requires Shares(s0.owner, done, |HeldBy(s0.owner, m)|)
    requires |HeldBy(s0.owner, m)| * |s.held.Keys| <= |s0.owner|
    ensures |s.held[m]| <= |s.held[to]| + 1
  {
    hide Alike, Settling, HeldBy;
    var r := |HeldBy(s0.owner, m)|;
    assert |s.owner| == |s.owner.Keys| && |s0.owner| == |s0.owner.Keys|;
    if |s.held[m]| > |s.held[to]| + 1 {
      assert !Calm(s.held, m);
      RestlessHolds(g, s0, s, list, done, m, m);
      SizeIs(s, m, g);
      SmallerSet(HeldBy(s.owner, m), HeldBy(s0.owner, m));
      forall d | d in s.held.Keys ensures |HeldBy(s.owner, d)| <= r {
        SizeIs(s, d, g);
        if !Calm(s.held, d) {
          RestlessHolds(g, s0, s, list, done, m, d);
          SmallerSet(HeldBy(s.owner, d), HeldBy(s0.owner, d) - done);
        }
      }
      SizeIs(s, to, g);
      TooFew(s.owner, s.held.Keys, r, to);
    }
  }

  /** A turn that finds nobody to give to leaves a calm owner. */
  lemma NoTurnIsCalm(g: Group, s: State, p: TopicPartition)
    requires Alike(s.held.Keys, g) && Movable(s.owner, g, p) && s.owner[p] in s.held
    requires forall to :: !Target(g, s, p, to)
    ensures Calm(s.held, s.owner[p])
  {
    hide Target;
    forall x | x in s.held ensures |s.held[s.owner[p]]| <= |s.held[x]| + 1 {
      assert x in s.held.Keys;
      if Lighter(s, p, x) {
        var to := SomeTarget(g, s, p, x);
      }
    }
  }

  /** Where a turn that moves sends its partition when all subscribe alike. */
  lemma TargetIsLeast(g: Group, s: State, p: TopicPartition, to: Consumer)
    requires Alike(s.held.Keys, g) && Movable(s.owner, g, p) && Target(g, s, p, to)
    ensures s.owner[p] in s.held && to in s.held && |s.held[s.owner[p]]| > |s.held[to]| + 1
    ensures forall x :: x in s.held ==> |s.held[to]| <= |s.held[x]|
  {
    var d :| MayHold(g, d, p) && Lighter(s, p, d);
    forall x | x in s.held ensures |s.held[to]| <= |s.held[x]| {
      assert x in s.held.Keys;
      assert MayHold(g, x, p);
    }
  }

  /** What a move changes of the account. */
  lemma MoveKeeps(g: Group, s0: State, s: State, list: seq<TopicPartition>, done: set<TopicPartition>, m: Consumer,
                  p: TopicPartition, to: Consumer, t: State)
    requires Keeps(g, s0, s, list, done, m) && p in s.owner && p !in s.moves && Moves(s, p, to, t)
    requires |s.held[s.owner[p]]| > |s.held[to]| + 1 && forall x :: x in s.held ==> |s.held[to]| <= |s.held[x]|
    requires s.owner[p] != m
    requires Kept(g, t, list) && Settling(t)
    ensures Keeps(g, s0, t, list, done + {p}, m)
  {
    hide Kept, Alike, Settling, Drop, Calm;
    assert p in s.held[s.owner[p]] by {
      KeptHolds(g, s, list, p);
    }
    assert t.held.Keys == s.held.Keys && t.owner.Keys == s.owner.Keys;
    assert t.moves == s.moves[p := Pair(s.owner[p], to)];
    forall q | q in done + {p} && q in t.owner ensures q in t.moves || Calm(t.held, s0.owner[q]) {
      if q != p {
        assert q in s.owner.Keys;
        if q !in s.moves {
          CalmStays(s.held, p, s.owner[p], to, s0.owner[q]);
        }
      }
    }
    forall q | q in t.owner ensures q in list && t.owner[q] in t.held && Start(t, q) == s0.owner[q] {
      assert q in s.owner.Keys;
      assert Start(s, q) == s0.owner[q];
    }
    forall q | q in t.owner && s0.owner[q] == m ensures t.owner[q] == m {
      assert q in s.owner.Keys;
      assert Start(s, q) == s0.owner[q];
    }
  }

  lemma KeptHolds(g: Group, s: State, list: seq<TopicPartition>, p: TopicPartition)
    requires Kept(g, s, list) && p in s.owner && s.owner[p] in s.held
    ensures p in s.held[s.owner[p]]
  {
  }

  lemma KeptMovable(g: Group, s: State, list: seq<TopicPartition>, p: TopicPartition)
    requires Kept(g, s, list) && p in list
    ensures Movable(s.owner, g, p) && Consistent(s.held, s.owner, g) && Movements.Current(s.moves, s.owner)
  {
  }

  /** Where the loop stands when all subscribe alike. */
  ghost predicate Steady(g: Group, s: State, list: seq<TopicPartition>) {
    Kept(g, s, list) && Alike(s.held.Keys, g) && Settling(s)
  }

  /** A turn that moves takes its partition, which has not moved before, to the least of all. */
  lemma MovedTurn(g: Group, s: State, list: seq<TopicPartition>, p: TopicPartition, t: State, order: seq<Consumer>)
    returns (to: Consumer)
    requires Steady(g, s, list) && p in list && Turn(g, s, p, t, true) && Lists(order, s.held)
    ensures p in s.owner && s.owner[p] in s.held && p !in s.moves && to in s.held && Moves(s, p, to, t)
    ensures |s.held[s.owner[p]]| > |s.held[to]| + 1 && forall x :: x in s.held ==> |s.held[to]| <= |s.held[x]|
    ensures Steady(g, t, list) && t.held.Keys == s.held.Keys && t.moves == s.moves[p := Pair(s.owner[p], to)]
  {
    hide Kept, Alike, Settling, Target, MayMove, Movable, Lists, Drop;
    KeptMovable(g, s, list, p);
    MovableOwned(s.owner, g, p);
    var x;
    to, x :| Target(g, s, p, to) && MayMove(s.moves, p, Holder(s, p), to, x) && Moves(s, x, to, t);
    TargetIsLeast(g, s, p, to);
    AlikeTurn(g, s, p, to, x, t);
    TurnLowers(g, s, list, p, t, true, order);
    NotMoved(s, p, to);
    assert t.held.Keys == s.held.Keys;
  }

  lemma KeepsStart(g: Group, s0: State, s: State, list: seq<TopicPartition>, done: set<TopicPartition>, m: Consumer,
                   p: TopicPartition)
    requires Keeps(g, s0, s, list, done, m)
    ensures Steady(g, s, list)
    ensures p in s.owner ==> p in s0.owner && s.owner[p] in s.held && Start(s, p) == s0.owner[p]
  {
    assert p in s.owner ==> p in s0.owner.Keys;
  }

  /** A partition that was taken up and found nobody to go to. */
  lemma CalmKeeps(g: Group, s0: State, s: State, list: seq<TopicPartition>, done: set<TopicPartition>, m: Consumer,
                  p: TopicPartition)
    requires Keeps(g, s0, s, list, done, m)
    requires p in s.owner && p in s0.owner && (p in s.moves || Calm(s.held, s0.owner[p]))
    ensures Keeps(g, s0, s, list, done + {p}, m)
  {
    hide Kept, Alike, Settling, Calm;
  }

  /** One turn: the partition taken up has moved or its owner is calm, and `m` gave nothing. */
  lemma TurnKeeps(g: Group, s0: State, s: State, list: seq<TopicPartition>, done: set<TopicPartition>, m: Consumer,
                  p: TopicPartition, t: State, moved: bool, order: seq<Consumer>)
    requires Keeps(g, s0, s, list, done, m) && p in list && Turn(g, s, p, t, moved) && Lists(order, s.held)
    requires m in s.held && |HeldBy(s0.owner, m)| * |s.held.Keys| <= |s0.owner|
    requires p in s0.owner && s0.owner[p] == m ==> Shares(s0.owner, done, |HeldBy(s0.owner, m)|)
    ensures Keeps(g, s0, t, list, done + {p}, m) && t.held.Keys == s.held.Keys
  {
    hide Keeps, Kept, Alike, Settling, Target, MayMove, Movable, HeldBy, Shares, Calm, Lists, Moves;
    KeepsStart(g, s0, s, list, done, m, p);
    if !moved {
      KeptMovable(g, s, list, p);
      MovableOwned(s.owner, g, p);
      NoTurnIsCalm(g, s, p);
      CalmKeeps(g, s0, s, list, done, m, p);
    } else {
      var to := MovedTurn(g, s, list, p, t, order);
      if s.owner[p] == m {
        ShareIsSafe(g, s0, s, list, done, m, to);
      }
      MoveKeeps(g, s0, s, list, done, m, p, to, t);
    }
  }

  lemma NotMoved(s: State, p: TopicPartition, to: Consumer)
    requires Settling(s) && p in s.owner && s.owner[p] in s.held && to in s.held
    requires |s.held[s.owner[p]]| > |s.held[to]| + 1
    ensures p !in s.moves
  {
  }

  lemma FewerDone(g: Group, s0: State, s: State, list: seq<TopicPartition>, done: set<TopicPartition>,
                  less: set<TopicPartition>, m: Consumer)
    requires Keeps(g, s0, s, list, done, m) && less <= done
    ensures Keeps(g, s0, s, list, less, m)
  {
    hide Kept, Alike, Settling, Calm;
  }

  lemma SharesFrom(list: seq<TopicPartition>, owner: Owners, j: nat, m: Consumer)
    requires MostFirst(list, owner) && j < |list| && list[j] in owner && owner[list[j]] == m
    ensures Shares(owner, Elements(list[..j]), |HeldBy(owner, m)|)
  {
  }

  /** One pass, from place `j` of the list on. */
  lemma {:induction false} PassKeeps(g: Group, s0: State, s: State, list: seq<TopicPartition>, j: nat,
                                     m: Consumer, t: State, modified: bool, order: seq<Consumer>)
    requires j <= |list| && Keeps(g, s0, s, list, Elements(list[..j]), m) && Lists(order, s0.held)
    requires MostFirst(list, s0.owner) && m in s0.held && |HeldBy(s0.owner, m)| * |s0.held.Keys| <= |s0.owner|
    requires PassOf(g, s, list[j..], t, modified)
    ensures Keeps(g, s0, t, list, {}, m)
    decreases |list| - j
  {
    hide Turn, Balanced, MostFirst, HeldBy, Lists, Kept, Alike, Settling, Shares, Calm;
    FewerDone(g, s0, s, list, Elements(list[..j]), {}, m);
    if j < |list| && !Balanced(s.held, s.owner, g) {
      var u, moved, later :|
        Turn(g, s, list[j..][0], u, moved) && PassOf(g, u, list[j..][1..], t, later) && modified == (moved || later);
      assert list[j..][0] == list[j] && list[j..][1..] == list[j + 1..];
      SameLists(order, s0.held, s.held);
      if list[j] in s0.owner && s0.owner[list[j]] == m {
        SharesFrom(list, s0.owner, j, m);
      }
      TurnKeeps(g, s0, s, list, Elements(list[..j]), m, list[j], u, moved, order);
      assert Elements(list[..j + 1]) == Elements(list[..j]) + {list[j]} by {
        assert list[..j + 1] == list[..j] + [list[j]];
      }
      PassKeeps(g, s0, u, list, j + 1, m, t, later, order);
    }
  }

  lemma SameLists(order: seq<Consumer>, held: Held, other: Held)
    requires Lists(order, held) && held.Keys == other.Keys
    ensures Lists(order, other)
  {
    assert forall c :: c in held.Keys <==> c in other.Keys;
  }

  lemma {:induction false} EndKeeps(g: Group, s0: State, s: State, list: seq<TopicPartition>, m: Consumer, n: nat,
                                    t: State, order: seq<Consumer>)
    requires Keeps(g, s0, s, list, {}, m) && Lists(order, s0.held) && EndsWithin(g, s, list, n, t)
    requires MostFirst(list, s0.owner) && m in s0.held && |HeldBy(s0.owner, m)| * |s0.held.Keys| <= |s0.owner|
    ensures Keeps(g, s0, t, list, {}, m)
    decreases n
  {
    hide PassOf, MostFirst, HeldBy, Lists, Keeps;
    var u, modified :|
      PassOf(g, s, list, u, modified) && (if modified then EndsWithin(g, u, list, n - 1, t) else u == t);
    assert list[0..] == list && Elements(list[..0]) == {};
    PassKeeps(g, s0, s, list, 0, m, u, modified, order);
    if modified {
      EndKeeps(g, s0, u, list, m, n - 1, t, order);
    }
  }

  /** When all subscribe alike and partitions are taken up from those who hold the most, a
      consumer that holds no more than its share keeps all it held. */
  lemma SmallKeeps(g: Group, s: State, list: seq<TopicPartition>, m: Consumer, n: nat, t: State, order: seq<Consumer>)
    requires Kept(g, s, list) && s.moves == map[] && Alike(s.held.Keys, g) && Lists(order, s.held)
    requires forall p :: p in s.owner ==> p in list && s.owner[p] in s.held
    requires MostFirst(list, s.owner) && EndsWithin(g, s, list, n, t)
    requires |HeldBy(s.owner, m)| * |s.held.Keys| <= |s.owner| && m in s.held
    ensures forall p :: p in s.owner && s.owner[p] == m ==> p in t.owner && t.owner[p] == m
  {
    hide Kept, Alike, Lists, MostFirst, EndsWithin, HeldBy;
    assert Keeps(g, s, s, list, {}, m);
    EndKeeps(g, s, s, list, m, n, t, order);
    assert forall p :: p in s.owner ==> p in t.owner.Keys;
  }

  // ---------- What moved stays where it went ----------

  lemma TurnSteady(g: Group, s: State, list: seq<TopicPartition>, p: TopicPartition, t: State, moved: bool,
                   order: seq<Consumer>, q: TopicPartition)
    requires Steady(g, s, list) && p in list && Turn(g, s, p, t, moved) && Lists(order, s.held)
    ensures Steady(g, t, list) && Lists(order, t.held)
    ensures q in s.moves ==> q in t.moves && t.moves[q] == s.moves[q]
    ensures moved ==> p in t.moves && p in s.owner && t.moves[p].src == s.owner[p]
  {
    hide Steady, Lists, Turn, Moves;
    if moved {
      var to := MovedTurn(g, s, list, p, t, order);
      SameLists(order, s.held, t.held);
    } else {
      NotMovedIsSame(g, s, p, t);
    }
  }

  lemma NotMovedIsSame(g: Group, s: State, p: TopicPartition, t: State)
    requires Turn(g, s, p, t, false)
    ensures t == s
  {
  }

  lemma {:induction false} PassSteady(g: Group, s: State, list: seq<TopicPartition>, rest: seq<TopicPartition>,
                                      t: State, modified: bool, order: seq<Consumer>, q: TopicPartition)
    requires Steady(g, s, list) && Lists(order, s.held) && PassOf(g, s, rest, t, modified)
    requires forall p :: p in rest ==> p in list
    ensures Steady(g, t, list) && Lists(order, t.held)
    ensures q in s.moves ==> q in t.moves && t.moves[q] == s.moves[q]
    decreases |rest|
  {
    hide Turn, Balanced, Lists, Steady;
    if rest != [] && !Balanced(s.held, s.owner, g) {
      var u, moved, later := NextTurn(g, s, rest, t, modified);
      TurnSteady(g, s, list, rest[0], u, moved, order, q);
      PassSteady(g, u, list, rest[1..], t, later, order, q);
    }
  }

  lemma {:induction false} EndSteady(g: Group, s: State, list: seq<TopicPartition>, n: nat, t: State,
                                     order: seq<Consumer>, q: TopicPartition)
    requires Steady(g, s, list) && Lists(order, s.held) && EndsWithin(g, s, list, n, t)
    ensures Steady(g, t, list)
    ensures q in s.moves ==> q in t.moves && t.moves[q] == s.moves[q]
    decreases n
  {
    hide PassOf, Lists, Steady;
    var u, modified :|
      PassOf(g, s, list, u, modified) && (if modified then EndsWithin(g, u, list, n - 1, t) else u == t);
    PassSteady(g, s, list, list, u, modified, order, q);
    if modified {
      EndSteady(g, u, list, n - 1, t, order, q);
    }
  }

  /** The first partition of the list is given away for good if somebody is lighter. */
  lemma FirstIsGiven(g: Group, s: State, list: seq<TopicPartition>, n: nat, t: State, order: seq<Consumer>, d: Consumer)
    requires Steady(g, s, list) && s.moves == map[] && Lists(order, s.held) && list != []
    requires !Balanced(s.held, s.owner, g)
    requires MayHold(g, d, list[0]) && Lighter(s, list[0], d) && EndsWithin(g, s, list, n, t)
    ensures list[0] in s.owner && list[0] in t.owner && t.owner[list[0]] != s.owner[list[0]]
  {
    hide Turn, Balanced, Lists, MayHold, Target;
    var p := list[0];
    var to := SomeTarget(g, s, p, d);
    var u, modified :|
      PassOf(g, s, list, u, modified) && (if modified then EndsWithin(g, u, list, n - 1, t) else u == t);
    var v, moved, later := NextTurn(g, s, list, u, modified);
    FirstMoves(g, s, p, to, v, moved);
    TurnSteady(g, s, list, p, v, moved, order, p);
    PassSteady(g, v, list, list[1..], u, later, order, p);
    EndSteady(g, u, list, n - 1, t, order, p);
  }

  lemma FirstMoves(g: Group, s: State, p: TopicPartition, to: Consumer, v: State, moved: bool)
    requires Target(g, s, p, to) && Turn(g, s, p, v, moved)
    ensures moved
  {
    hide Target, MayMove, Moves;
  }
}
