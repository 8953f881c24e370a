/** A cluster and members for which the reassignment loop of the sticky assignor never ends.
    A new member joins three others; six moves later the loop moves one partition to and fro
    for ever, because the stickiness substitution takes it from a consumer that does not hold
    too many. */
module Cycle {
  import opened Types
  import opened Movements
  import opened SortedSets
  import opened Scores
  import opened Assignment
  import opened Sticky
  import Setup
  import PartitionOrder

  function A(i: int): TopicPartition { TopicPartition("a", i) }
  function B(i: int): TopicPartition { TopicPartition("b", i) }
  function C(i: int): TopicPartition { TopicPartition("c", i) }
  function D(i: int): TopicPartition { TopicPartition("d", i) }

  const FEW: seq<Consumer> := [1, 2, 3]
  const MANY: seq<Consumer> := [0, 1, 2]

  /** Consumers 1 to 3 subscribe to topic a, 0 to 2 to topics b and d, and 3 to topic c. What
      the loop makes of a group depends on who may hold what, not on the converse lists. */
  function TheGroup(): Group {
    Group(
    map[A(0) := FEW, A(1) := FEW,
        B(0) := MANY, B(1) := MANY, B(2) := MANY, B(3) := MANY,
        C(0) := [3],
        D(0) := MANY, D(1) := MANY, D(2) := MANY, D(3) := MANY, D(4) := MANY],
    map[],
    map[])
  }

  /** Consumer 1 is new and holds nothing. */
  function Held0(): Held {
    map[
    0 := [B(0), B(1), B(2), B(3), D(0), D(1), D(2), D(3), D(4)], 1 := [], 2 := [A(0)], 3 := [A(1), C(0)]]
  }

  function Owner0(): Owners {
    map[
    A(0) := 2, A(1) := 3, B(0) := 0, B(1) := 0, B(2) := 0, B(3) := 0, C(0) := 3,
    D(0) := 0, D(1) := 0, D(2) := 0, D(3) := 0, D(4) := 0]
  }

  /** The partitions that can move, by number of possible consumers, topic and number. */
  function List(): seq<TopicPartition> {
    [A(0), A(1), B(0), B(1), B(2), B(3), D(0), D(1), D(2), D(3), D(4)]
  }

  // ---------- States by sizes, owners and movements ----------

  /** The consumers that may hold a listed partition. */
  function Among(p: TopicPartition): seq<Consumer> {
    if p.topic == "a" then FEW else MANY
  }

  ghost predicate Known(p: TopicPartition) {
    p in List()
  }

  lemma KnownMayHold(p: TopicPartition, c: Consumer)
    requires Known(p)
    ensures MayHold(TheGroup(), c, p) <==> c in Among(p)
  {
  }

  /** `s` has these sizes, owners and movements. */
  ghost predicate Is(s: State, sizes: seq<nat>, owner: Owners, moves: Records) {
    && |sizes| == 4 && Consistent(s.held, s.owner, TheGroup()) && s.owner == owner && s.moves == moves
    && (forall c: Consumer :: c in s.held <==> c < 4)
    && forall c: Consumer :: c < 4 ==> |s.held[c]| == sizes[c]
  }

  /** `to` is the least of those that may hold `p`, and the owner holds two more. */
  ghost predicate GoesTo(sizes: seq<nat>, owner: Owners, p: TopicPartition, to: Consumer) {
    && |sizes| == 4 && Known(p) && p in owner && owner[p] < 4 && to in Among(p)
    && sizes[owner[p]] > sizes[to] + 1
    && forall d :: d in Among(p) ==> sizes[to] < sizes[d] || (sizes[to] == sizes[d] && to <= d)
  }

  ghost predicate StaysAt(sizes: seq<nat>, owner: Owners, p: TopicPartition) {
    && |sizes| == 4 && Known(p) && p in owner && owner[p] < 4
    && forall d :: d in Among(p) ==> sizes[owner[p]] <= sizes[d] + 1
  }

  lemma TargetIs(s: State, sizes: seq<nat>, owner: Owners, moves: Records, p: TopicPartition, to: Consumer, x: Consumer)
    requires Is(s, sizes, owner, moves) && GoesTo(sizes, owner, p, to)
    ensures Target(TheGroup(), s, p, x) <==> x == to
  {
    hide Consistent;
    KnownMayHold(p, to);
    KnownMayHold(p, x);
    assert Lighter(s, p, to);
    forall d | d in s.held && MayHold(TheGroup(), d, p) ensures !Less(Key(|s.held[d]|, d), Key(|s.held[to]|, to)) {
      KnownMayHold(p, d);
    }
    assert Least(s.held, TheGroup(), p, to);
  }

  /** A turn that moves sends the partition, or its substitute, to the least consumer. */
  lemma TurnGoes(s: State, sizes: seq<nat>, owner: Owners, moves: Records, p: TopicPartition, to: Consumer,
                 t: State, moved: bool)
    requires Is(s, sizes, owner, moves) && GoesTo(sizes, owner, p, to) && Turn(TheGroup(), s, p, t, moved)
    ensures moved && exists q :: MayMove(moves, p, owner[p], to, q) && Moves(s, q, to, t)
  {
    hide Consistent, Target, MayMove, Moves;
    forall x ensures Target(TheGroup(), s, p, x) <==> x == to {
      TargetIs(s, sizes, owner, moves, p, to, x);
    }
    assert Target(TheGroup(), s, p, to);
  }

  lemma TurnStaysPut(s: State, sizes: seq<nat>, owner: Owners, moves: Records, p: TopicPartition, t: State, moved: bool)
    requires Is(s, sizes, owner, moves) && StaysAt(sizes, owner, p) && Turn(TheGroup(), s, p, t, moved)
    ensures !moved && t == s
  {
    hide Consistent, MayMove, Moves, Least;
    forall x ensures !Target(TheGroup(), s, p, x) {
      forall d | MayHold(TheGroup(), d, p) ensures !Lighter(s, p, d) {
        KnownMayHold(p, d);
      }
    }
  }

  /** Sizes after a move from `a` to `b`. */
  function Bumped(sizes: seq<nat>, a: Consumer, b: Consumer): (r: seq<nat>)
    requires a < |sizes| && b < |sizes| && a != b && sizes[a] > 0
    ensures |r| == |sizes|
  {
    sizes[a := sizes[a] - 1][b := sizes[b] + 1]
  }

  lemma Small(p: TopicPartition, c: Consumer)
    requires c in Among(p)
    ensures c < 4
  {
  }

  lemma HeldByOwner(held: Held, owner: Owners, q: TopicPartition)
    requires Mirror(held, owner) && q in owner && owner[q] in held
    ensures q in held[owner[q]]
  {
  }

  lemma MovesTo(s: State, sizes: seq<nat>, owner: Owners, moves: Records, q: TopicPartition, to: Consumer, t: State)
    requires Is(s, sizes, owner, moves) && Moves(s, q, to, t) && Known(q) && to in Among(q) && owner[q] < 4
    ensures q in owner && owner[q] != to && to < 4 && sizes[owner[q]] > 0
    ensures Is(t, Bumped(sizes, owner[q], to), owner[q := to], Recorded(moves, q, owner[q], to))
  {
    hide Drop, Recorded, TheGroup, List, Among, MayHold, Mirror, DistinctAll;
    KnownMayHold(q, to);
    Small(q, to);
    ShiftKeepsMirror(s.held, s.owner, q, to);
    HeldByOwner(s.held, s.owner, q);
  }

  lemma Unbalanced(s: State, sizes: seq<nat>, owner: Owners, moves: Records, p: TopicPartition, d: Consumer)
    requires Is(s, sizes, owner, moves) && Known(p) && p in owner && owner[p] < 4 && d in Among(p)
    requires sizes[owner[p]] > sizes[d] + 1
    ensures !Balanced(s.held, s.owner, TheGroup())
  {
    KnownMayHold(p, d);
    assert p !in s.held[d];
    assert !ExhaustedAt(s.held, s.owner, TheGroup(), d);
    assert !Level(s.held);
  }

  /** A rest of the list whose partitions are all settled changes nothing. */
  lemma {:induction false} RestStays(s: State, sizes: seq<nat>, owner: Owners, moves: Records,
                                     list: seq<TopicPartition>, t: State, modified: bool)
    requires Is(s, sizes, owner, moves) && (forall p :: p in list ==> StaysAt(sizes, owner, p))
    requires PassOf(TheGroup(), s, list, t, modified)
    ensures !modified && t == s
    decreases |list|
  {
    hide Is, StaysAt, Turn, Balanced;
    if list != [] && !Balanced(s.held, s.owner, TheGroup()) {
      var m, moved, later := NextTurn(TheGroup(), s, list, t, modified);
      TurnStaysPut(s, sizes, owner, moves, list[0], m, moved);
      RestStays(m, sizes, owner, moves, list[1..], t, later);
    }
  }

  /** A turn at a partition whose topic shows no movement back moves that partition itself. */
  lemma PlainTurn(s: State, sizes: seq<nat>, owner: Owners, moves: Records, p: TopicPartition, to: Consumer,
                  t: State, moved: bool)
    requires Is(s, sizes, owner, moves) && GoesTo(sizes, owner, p, to) && Turn(TheGroup(), s, p, t, moved)
    requires p !in moves && !Shows(moves, p.topic, Pair(to, owner[p]))
    ensures moved && owner[p] != to && to < 4 && sizes[owner[p]] > 0
    ensures Is(t, Bumped(sizes, owner[p], to), owner[p := to], moves[p := Pair(owner[p], to)])
  {
    hide Is, GoesTo, Turn, Moves;
    GoesToAmong(sizes, owner, p, to);
    TurnGoes(s, sizes, owner, moves, p, to, t, moved);
    var q :| MayMove(moves, p, owner[p], to, q) && Moves(s, q, to, t);
    MovesTo(s, sizes, owner, moves, p, to, t);
  }

  lemma GoesToAmong(sizes: seq<nat>, owner: Owners, p: TopicPartition, to: Consumer)
    requires GoesTo(sizes, owner, p, to)
    ensures Known(p) && to in Among(p) && p in owner && owner[p] < 4
  {
  }

  // ---------- The first pass ----------

  function Moves1(): Records { map[A(1) := Pair(3, 1)] }
  function Moves2(): Records { Moves1()[B(0) := Pair(0, 1)] }
  function Moves3(): Records { Moves2()[B(1) := Pair(0, 2)] }
  function Moves4(): Records { Moves3()[B(2) := Pair(0, 1)] }
  function Moves5(): Records { Moves4()[B(3) := Pair(0, 2)] }
  function Moves6(): Records { Moves5()[D(0) := Pair(0, 1)] }

  function Owner1(): Owners { Owner0()[A(1) := 1] }
  function Owner2(): Owners { Owner1()[B(0) := 1] }
  function Owner3(): Owners { Owner2()[B(1) := 2] }
  function Owner4(): Owners { Owner3()[B(2) := 1] }
  function Owner5(): Owners { Owner4()[B(3) := 2] }
  function Owner6(): Owners { Owner5()[D(0) := 1] }

  lemma ListsNameOwners(c: Consumer, p: TopicPartition)
    requires c in Held0() && p in Held0()[c]
    ensures p in Owner0() && Owner0()[p] == c
  {
  }

  lemma OwnersAreListed(p: TopicPartition)
    requires p in Owner0()
    ensures Owner0()[p] in Held0() && p in Held0()[Owner0()[p]]
  {
  }

  lemma StartMirrors()
    ensures Mirror(Held0(), Owner0())
  {
    hide Held0, Owner0;
    forall c, p | c in Held0() && p in Held0()[c] ensures p in Owner0() && Owner0()[p] == c {
      ListsNameOwners(c, p);
    }
    forall p | p in Owner0() ensures Owner0()[p] in Held0() && p in Held0()[Owner0()[p]] {
      OwnersAreListed(p);
    }
  }

  lemma StartIsDistinct()
    ensures DistinctAll(Held0())
  {
  }

  lemma Four(c: Consumer)
    ensures c < 4 <==> c == 0 || c == 1 || c == 2 || c == 3
  {
  }

  lemma StartSizes()
    ensures forall c: Consumer :: c in Held0() <==> c < 4
    ensures |Held0()[0]| == 9 && |Held0()[1]| == 0 && |Held0()[2]| == 1 && |Held0()[3]| == 2
  {
    forall c: Consumer ensures c in Held0() <==> c < 4 {
      Four(c);
    }
  }

  lemma StartIsSubscribed()
    ensures Subscribed(Owner0(), TheGroup())
  {
  }

  ghost predicate Starting(s: State) {
    Is(s, [9, 0, 1, 2], Owner0(), map[])
  }

  /** A turn in a pass at place `k` of the list, without substitution. */
  lemma PassTurn(s: State, sizes: seq<nat>, owner: Owners, moves: Records, k: nat, to: Consumer, t: State,
                 modified: bool)
    returns (m: State, later: bool)
    requires k < |List()| && Is(s, sizes, owner, moves) && PassOf(TheGroup(), s, List()[k..], t, modified)
    requires GoesTo(sizes, owner, List()[k], to) && List()[k] !in moves
    requires !Shows(moves, List()[k].topic, Pair(to, owner[List()[k]]))
    ensures owner[List()[k]] != to && to < 4 && sizes[owner[List()[k]]] > 0
    ensures Is(m, Bumped(sizes, owner[List()[k]], to), owner[List()[k] := to],
      moves[List()[k] := Pair(owner[List()[k]], to)])
    ensures PassOf(TheGroup(), m, List()[k + 1..], t, later) && modified
  {
    var p, list := List()[k], List()[k..];
    Tail(k);
    hide Is, PassOf, Turn, Balanced, Shows;
    Unbalanced(s, sizes, owner, moves, p, to);
    var moved;
    m, moved, later := NextTurn(TheGroup(), s, list, t, modified);
    PlainTurn(s, sizes, owner, moves, p, to, m, moved);
  }

  lemma Tail(k: nat)
    requires k < |List()|
    ensures List()[k..] != [] && List()[k..][0] == List()[k] && List()[k..][1..] == List()[k + 1..]
  {
  }

  lemma A0Stays()
    ensures StaysAt([9, 0, 1, 2], Owner0(), A(0))
  {
  }

  lemma A1Goes()
    ensures GoesTo([9, 0, 1, 2], Owner0(), A(1), 1) && Owner0()[A(1)] == 3
  {
  }

  lemma ListFacts()
    ensures |List()| == 11 && List()[0..] == List() && List()[0] == A(0) && List()[1] == A(1)
    ensures List() != [] && List()[1..] == List()[0..][1..]
  {
  }

  lemma FirstMoveFacts()
    ensures Owner1() == Owner0()[A(1) := 1]
    ensures var none: Records := map[];
      Moves1() == none[A(1) := Pair(3, 1)] && A(1) !in none && !Shows(none, A(1).topic, Pair(1, 3))
  {
  }

  lemma TurnsA(s: State, t: State, modified: bool) returns (m: State, later: bool)
    requires Starting(s) && PassOf(TheGroup(), s, List(), t, modified)
    ensures Is(m, [9, 1, 1, 1], Owner1(), Moves1()) && PassOf(TheGroup(), m, List()[2..], t, later) && modified
  {
    hide Is, PassOf, Turn, Balanced, StaysAt, GoesTo, Shows, List, Owner0, Owner1, Moves1, TheGroup, A;
    A0Stays();
    A1Goes();
    ListFacts();
    Tail(0);
    StartUnbalanced(s);
    FirstMoveFacts();
    var m0, moved, later0 := NextTurn(TheGroup(), s, List(), t, modified);
    TurnStaysPut(s, [9, 0, 1, 2], Owner0(), map[], A(0), m0, moved);
    m, later := PassTurn(m0, [9, 0, 1, 2], Owner0(), map[], 1, 1, t, later0);
    assert Bumped([9, 0, 1, 2], 3, 1) == [9, 1, 1, 1];
  }

  lemma StartUnbalanced(s: State)
    requires Starting(s)
    ensures !Balanced(s.held, s.owner, TheGroup())
  {
    A1Goes();
    hide Is;
    Unbalanced(s, [9, 0, 1, 2], Owner0(), map[], A(1), 1);
  }

  lemma B0Goes()
    ensures List()[2] == B(0) && GoesTo([9, 1, 1, 1], Owner1(), B(0), 1) && Owner1()[B(0)] == 0
    ensures B(0) !in Moves1() && !Shows(Moves1(), B(0).topic, Pair(1, 0))
  {
  }

  lemma TurnB0(s: State, t: State, modified: bool) returns (m: State, later: bool)
    requires Is(s, [9, 1, 1, 1], Owner1(), Moves1()) && PassOf(TheGroup(), s, List()[2..], t, modified)
    ensures Is(m, [8, 2, 1, 1], Owner2(), Moves2()) && PassOf(TheGroup(), m, List()[3..], t, later) && modified
  {
    B0Goes();
    hide Is, PassOf, GoesTo, Shows;
    m, later := PassTurn(s, [9, 1, 1, 1], Owner1(), Moves1(), 2, 1, t, modified);
    assert Bumped([9, 1, 1, 1], 0, 1) == [8, 2, 1, 1];
  }

  lemma B1Goes()
    ensures List()[3] == B(1) && GoesTo([8, 2, 1, 1], Owner2(), B(1), 2) && Owner2()[B(1)] == 0
    ensures B(1) !in Moves2() && !Shows(Moves2(), B(1).topic, Pair(2, 0))
  {
  }

  lemma TurnB1(s: State, t: State, modified: bool) returns (m: State, later: bool)
    requires Is(s, [8, 2, 1, 1], Owner2(), Moves2()) && PassOf(TheGroup(), s, List()[3..], t, modified)
    ensures Is(m, [7, 2, 2, 1], Owner3(), Moves3()) && PassOf(TheGroup(), m, List()[4..], t, later) && modified
  {
    B1Goes();
    hide Is, PassOf, GoesTo, Shows;
    m, later := PassTurn(s, [8, 2, 1, 1], Owner2(), Moves2(), 3, 2, t, modified);
    assert Bumped([8, 2, 1, 1], 0, 2) == [7, 2, 2, 1];
  }

  lemma B2Goes()
    ensures List()[4] == B(2) && GoesTo([7, 2, 2, 1], Owner3(), B(2), 1) && Owner3()[B(2)] == 0
    ensures B(2) !in Moves3() && !Shows(Moves3(), B(2).topic, Pair(1, 0))
  {
  }

  lemma TurnB2(s: State, t: State, modified: bool) returns (m: State, later: bool)
    requires Is(s, [7, 2, 2, 1], Owner3(), Moves3()) && PassOf(TheGroup(), s, List()[4..], t, modified)
    ensures Is(m, [6, 3, 2, 1], Owner4(), Moves4()) && PassOf(TheGroup(), m, List()[5..], t, later) && modified
  {
    B2Goes();
    hide Is, PassOf, GoesTo, Shows;
    m, later := PassTurn(s, [7, 2, 2, 1], Owner3(), Moves3(), 4, 1, t, modified);
    assert Bumped([7, 2, 2, 1], 0, 1) == [6, 3, 2, 1];
  }

  lemma B3Goes()
    ensures List()[5] == B(3) && GoesTo([6, 3, 2, 1], Owner4(), B(3), 2) && Owner4()[B(3)] == 0
    ensures B(3) !in Moves4() && !Shows(Moves4(), B(3).topic, Pair(2, 0))
  {
  }

  lemma TurnB3(s: State, t: State, modified: bool) returns (m: State, later: bool)
    requires Is(s, [6, 3, 2, 1], Owner4(), Moves4()) && PassOf(TheGroup(), s, List()[5..], t, modified)
    ensures Is(m, [5, 3, 3, 1], Owner5(), Moves5()) && PassOf(TheGroup(), m, List()[6..], t, later) && modified
  {
    B3Goes();
    hide Is, PassOf, GoesTo, Shows, Owner4, Moves4;
    m, later := PassTurn(s, [6, 3, 2, 1], Owner4(), Moves4(), 5, 2, t, modified);
    assert Bumped([6, 3, 2, 1], 0, 2) == [5, 3, 3, 1];
  }

  lemma D0Goes()
    ensures List()[6] == D(0) && GoesTo([5, 3, 3, 1], Owner5(), D(0), 1) && Owner5()[D(0)] == 0
    ensures D(0) !in Moves5() && !Shows(Moves5(), D(0).topic, Pair(1, 0))
  {
  }

  lemma TurnD0(s: State, t: State, modified: bool) returns (m: State, later: bool)
    requires Is(s, [5, 3, 3, 1], Owner5(), Moves5()) && PassOf(TheGroup(), s, List()[6..], t, modified)
    ensures Is(m, [4, 4, 3, 1], Owner6(), Moves6()) && PassOf(TheGroup(), m, List()[7..], t, later) && modified
  {
    D0Goes();
    hide Is, PassOf, GoesTo, Shows;
    m, later := PassTurn(s, [5, 3, 3, 1], Owner5(), Moves5(), 6, 1, t, modified);
    assert Bumped([5, 3, 3, 1], 0, 1) == [4, 4, 3, 1];
  }

  // ---------- Every later pass ----------

  ghost predicate Stuck(s: State) {
    Is(s, [4, 4, 3, 1], Owner6(), Moves6())
  }

  /** Listed partitions have owners. */
  lemma HasOwner(p: TopicPartition)
    requires p in List()
    ensures p in Owner6() && Owner6()[p] < 4
  {
    assert p in Owner0() && Owner0()[p] < 4;
  }

  lemma NotTopicA(p: TopicPartition)
    requires p in List()[2..]
    ensures p in List() && Among(p) == MANY
  {
  }

  /** The partitions of topics b and d are settled. */
  lemma OthersStay(p: TopicPartition)
    requires p in List()[2..]
    ensures StaysAt([4, 4, 3, 1], Owner6(), p)
  {
    hide List, Owner6, Among;
    NotTopicA(p);
    HasOwner(p);
  }

  lemma FirstPass(s: State, t: State, modified: bool)
    requires Starting(s) && PassOf(TheGroup(), s, List(), t, modified)
    ensures modified && Stuck(t)
  {
    hide Is, PassOf;
    var s1, later1 := TurnsA(s, t, modified);
    var s2, later2 := TurnB0(s1, t, later1);
    var s3, later3 := TurnB1(s2, t, later2);
    var s4, later4 := TurnB2(s3, t, later3);
    var s5, later5 := TurnB3(s4, t, later4);
    var s6, later6 := TurnD0(s5, t, later5);
    RestOfList(7, s6, t, later6);
  }

  lemma RestOfList(k: nat, s: State, t: State, modified: bool)
    requires 2 <= k <= |List()| && Stuck(s) && PassOf(TheGroup(), s, List()[k..], t, modified)
    ensures t == s
  {
    hide Is, PassOf, StaysAt;
    forall p | p in List()[k..] ensures StaysAt([4, 4, 3, 1], Owner6(), p) {
      assert p in List()[2..];
      OthersStay(p);
    }
    RestStays(s, [4, 4, 3, 1], Owner6(), Moves6(), List()[k..], t, modified);
  }

  function Owner7(): Owners { Owner6()[A(0) := 3] }
  function Moves7(): Records { Moves6()[A(0) := Pair(2, 3)] }

  lemma A0Goes()
    ensures GoesTo([4, 4, 3, 1], Owner6(), A(0), 3) && Owner6()[A(0)] == 2
    ensures A(0) !in Moves6() && !Shows(Moves6(), A(0).topic, Pair(3, 2))
  {
  }

  lemma A1GoesBack()
    ensures GoesTo([4, 4, 2, 2], Owner7(), A(1), 2) && Owner7()[A(1)] == 1 && Owner7()[A(0)] == 3
  {
  }

  /** The substitute is `A(0)`, which went from the receiver to the origin of `A(1)`. */
  lemma SubstituteIsA0(q: TopicPartition)
    requires MayMove(Moves7(), A(1), 1, 2, q)
    ensures q == A(0)
  {
    assert A(0) in Moves7() && Moves7()[A(0)] == Pair(2, 3);
    assert Shows(Moves7(), A(1).topic, Pair(2, 3));
  }

  lemma BackAgain()
    ensures Recorded(Moves7(), A(0), 3, 2) == Moves6() && Owner7()[A(0) := 2] == Owner6()
  {
    A0Goes();
    assert Moves7() - {A(0)} == Moves6();
  }

  /** Asked for `A(1)`, the loop takes `A(0)` back from the consumer that just got it. */
  lemma TurnBack(s: State, t: State, moved: bool)
    requires Is(s, [4, 4, 2, 2], Owner7(), Moves7()) && Turn(TheGroup(), s, A(1), t, moved)
    ensures moved && Stuck(t)
  {
    A1GoesBack();
    BackAgain();
    hide Is, Turn, GoesTo, Moves, MayMove, Recorded;
    TurnGoes(s, [4, 4, 2, 2], Owner7(), Moves7(), A(1), 2, t, moved);
    var q :| MayMove(Moves7(), A(1), 1, 2, q) && Moves(s, q, 2, t);
    SubstituteIsA0(q);
    MovesTo(s, [4, 4, 2, 2], Owner7(), Moves7(), A(0), 2, t);
    assert Bumped([4, 4, 2, 2], 3, 2) == [4, 4, 3, 1];
  }

  lemma LaterFacts()
    ensures Owner7() == Owner6()[A(0) := 3] && Moves7() == Moves6()[A(0) := Pair(2, 3)]
  {
  }

  /** Every pass from there moves, and ends where it began. */
  lemma LaterPass(s: State, t: State, modified: bool)
    requires Stuck(s) && PassOf(TheGroup(), s, List(), t, modified)
    ensures modified && Stuck(t)
  {
    hide Is, PassOf, Turn, Balanced, StaysAt, GoesTo, Shows, List, Owner6, Owner7, Moves6, Moves7, TheGroup, A;
    A0Goes();
    A1GoesBack();
    ListFacts();
    Tail(1);
    LaterFacts();
    var s7, later := PassTurn(s, [4, 4, 3, 1], Owner6(), Moves6(), 0, 3, t, modified);
    assert Bumped([4, 4, 3, 1], 2, 3) == [4, 4, 2, 2];
    GoesToAmong([4, 4, 2, 2], Owner7(), A(1), 2);
    Unbalanced(s7, [4, 4, 2, 2], Owner7(), Moves7(), A(1), 2);
    var s8, moved, rest := NextTurn(TheGroup(), s7, List()[1..], t, later);
    TurnBack(s7, s8, moved);
    RestOfList(2, s8, t, rest);
  }

  lemma {:induction false} StuckForever(s: State, n: nat, t: State)
    requires Stuck(s)
    ensures !EndsWithin(TheGroup(), s, List(), n, t)
    decreases n
  {
    hide Stuck, PassOf;
    if n > 0 {
      forall m, modified | PassOf(TheGroup(), s, List(), m, modified)
        ensures modified && !EndsWithin(TheGroup(), m, List(), n - 1, t)
      {
        LaterPass(s, m, modified);
        StuckForever(m, n - 1, t);
      }
    }
  }

  /** From an empty movement log the loop does not end, however many passes it makes. */
  lemma NeverEnds(s: State, n: nat, t: State)
    requires Starting(s)
    ensures !EndsWithin(TheGroup(), s, List(), n, t)
  {
    hide Starting, Stuck, PassOf;
    if n > 0 {
      forall m, modified | PassOf(TheGroup(), s, List(), m, modified)
        ensures modified && !EndsWithin(TheGroup(), m, List(), n - 1, t)
      {
        FirstPass(s, m, modified);
        StuckForever(m, n - 1, t);
      }
    }
  }

  // ---------- The rebalance that gets there ----------

  function TheCluster(): Setup.Cluster {
    map["a" := {0, 1}, "b" := {0, 1, 2, 3}, "c" := {0}, "d" := {0, 1, 2, 3, 4}]
  }

  /** Three members report what they hold since one rebalance; member 1 is new. */
  function TheMembers(): seq<Setup.Member> {
    [Setup.Member(0, ["b", "d"], Held0()[0], 1), Setup.Member(1, ["a", "b", "d"], [], -1),
     Setup.Member(2, ["a", "b", "d"], Held0()[2], 1), Setup.Member(3, ["a", "c"], Held0()[3], 1)]
  }

  /** All partitions as the source sorts them. */
  function TheOrder(): seq<TopicPartition> {
    [C(0)] + List()
  }

  lemma ListIsSorted(i: nat, j: nat)
    requires i < j < |List()|
    ensures var p, q := List()[i], List()[j];
      && |p.topic| == |q.topic| == 1
      && (p.topic[0] < q.topic[0] || (p.topic == q.topic && p.partition < q.partition))
  {
  }

  lemma OrderIsKnown(p: TopicPartition)
    ensures p in TheOrder() <==> p in TheGroup().potentials
    ensures p in TheOrder() <==> p in Owner0()
  {
  }

  lemma OrderExists(p: TopicPartition)
    ensures p in TheOrder() <==> Setup.Exists(TheCluster(), p)
  {
  }

  lemma Letters(s: string, t: string)
    requires |s| == 1 && |t| == 1 && s[0] < t[0]
    ensures PartitionOrder.TextLess(s, t)
  {
  }

  lemma InOrder(i: nat, j: nat)
    requires i < j < |TheOrder()|
    ensures TheOrder()[i] in TheGroup().potentials && TheOrder()[j] in TheGroup().potentials
    ensures PartitionOrder.Precedes(TheGroup().potentials, TheOrder()[i], TheOrder()[j])
  {
    hide TheGroup, List, PartitionOrder.TextLess;
    OneOrThree();
    ThreeMayHold(TheOrder()[j]);
    if i > 0 {
      ThreeMayHold(TheOrder()[i]);
      ListIsSorted(i - 1, j - 1);
      var p, q := TheOrder()[i], TheOrder()[j];
      if p.topic[0] < q.topic[0] {
        Letters(p.topic, q.topic);
      }
    }
  }

  /** The subscriptions differ, so the source sorts; and this is the order it sorts into. */
  lemma OrderIsSorted(list: seq<TopicPartition>)
    requires PartitionOrder.Known(list, TheGroup().potentials)
    requires PartitionOrder.Ascending(list, TheGroup().potentials)
    requires forall p :: p in list <==> p in TheGroup().potentials
    ensures list == TheOrder()
  {
    hide TheGroup, TheOrder, PartitionOrder.Precedes;
    forall p ensures p in TheOrder() <==> p in list {
      OrderIsKnown(p);
    }
    forall i, j | 0 <= i < j < |TheOrder()|
      ensures PartitionOrder.Precedes(TheGroup().potentials, TheOrder()[i], TheOrder()[j])
    {
      InOrder(i, j);
    }
    PartitionOrder.AscendingUnique(list, TheOrder(), TheGroup().potentials);
  }

  lemma NotAlike()
    ensures !PartitionOrder.AllEqual(TheGroup().potentials)
  {
    OneOrThree();
  }

  lemma OneOrThree()
    ensures C(0) in TheGroup().potentials && |TheGroup().potentials[C(0)]| == 1
    ensures A(0) in TheGroup().potentials && B(0) in TheGroup().potentials
    ensures TheGroup().potentials[A(0)] != TheGroup().potentials[B(0)]
  {
    assert FEW[0] == 1 && MANY[0] == 0;
  }

  lemma ThreeMayHold(p: TopicPartition)
    requires p in List()
    ensures p in TheGroup().potentials && |TheGroup().potentials[p]| == 3
  {
  }

  // What the reports say.

  lemma ReportsOnce(m: Setup.Member, p: TopicPartition)
    requires m in TheMembers() && p in m.partitions
    ensures m.generation == 1 && m.id in Held0() && p in Held0()[m.id]
  {
  }

  lemma OwnerReports(c: Consumer, p: TopicPartition)
    requires c in Held0() && p in Held0()[c]
    ensures Setup.Reported(TheMembers(), p)
  {
    var m := TheMembers()[c];
    assert m in TheMembers() && m.partitions == Held0()[c];
  }

  lemma MembersAreFour(c: Consumer)
    ensures Setup.IsMember(TheMembers(), c) <==> c < 4
  {
    assert TheMembers()[0].id == 0 && TheMembers()[1].id == 1 && TheMembers()[2].id == 2 && TheMembers()[3].id == 3;
    if c < 4 {
      assert TheMembers()[c] in TheMembers();
    }
  }

  lemma OneRebalance()
    ensures Setup.DistinctIds(TheMembers()) && Setup.OneGeneration(TheMembers())
    ensures Setup.EarlierHoldersSubscribe(TheCluster(), TheMembers())
  {
    forall m, n, p | m in TheMembers() && n in TheMembers() && p in m.partitions && p in n.partitions
      ensures m.generation == n.generation
    {
      ReportsOnce(m, p);
      ReportsOnce(n, p);
    }
    Setup.OneGenerationSubscribes(TheCluster(), TheMembers());
  }

  /** The reports name the owners of the start. */
  lemma ReportedIsOwner(reported: Owners)
    requires forall p :: p in reported <==> Setup.Reported(TheMembers(), p)
    requires forall p :: p in reported ==> Setup.ReportedBy(TheMembers(), p, reported[p])
    ensures reported == Owner0()
  {
    hide Owner0, Held0, TheMembers;
    forall p | p in reported ensures p in Owner0() && Owner0()[p] == reported[p] {
      var m :| m in TheMembers() && p in m.partitions && m.id == reported[p];
      ReportsOnce(m, p);
      ListsNameOwners(m.id, p);
    }
    forall p | p in Owner0() ensures p in reported {
      OwnersAreListed(p);
      OwnerReports(Owner0()[p], p);
    }
  }

  // Who may hold what.

  function Named(m: Setup.Member, topic: string): seq<Consumer> {
    if topic in m.subscription then [m.id] else []
  }

  lemma FourSubscribers(m: seq<Setup.Member>, topic: string)
    requires |m| == 4 && forall i :: 0 <= i < 4 ==> Distinct(m[i].subscription)
    ensures Setup.Subscribers(m, topic) ==
      Named(m[0], topic) + Named(m[1], topic) + Named(m[2], topic) + Named(m[3], topic)
  {
    assert Setup.Subscribers(m[..0], topic) == [] && m[..4] == m;
    hide Setup.Subscribers;
    forall i | 0 <= i < 4
      ensures Setup.Subscribers(m[..i + 1], topic) == Setup.Subscribers(m[..i], topic) + Named(m[i], topic)
    {
      Setup.SubscribersNext(m, i, topic);
      Setup.TimesOnce(m[i].id, m[i].subscription, topic);
    }
    assert Setup.Subscribers(m[..1], topic) == Named(m[0], topic);
    assert Setup.Subscribers(m[..2], topic) == Named(m[0], topic) + Named(m[1], topic);
    assert Setup.Subscribers(m[..3], topic) == Named(m[0], topic) + Named(m[1], topic) + Named(m[2], topic);
  }

  lemma SubscribersOfA()
    ensures Setup.Subscribers(TheMembers(), "a") == FEW
  {
    hide Setup.Subscribers;
    FourSubscribers(TheMembers(), "a");
  }

  lemma SubscribersOfC()
    ensures Setup.Subscribers(TheMembers(), "c") == [3]
  {
    hide Setup.Subscribers;
    FourSubscribers(TheMembers(), "c");
  }

  lemma SubscribersOfBD(topic: string)
    requires topic == "b" || topic == "d"
    ensures Setup.Subscribers(TheMembers(), topic) == MANY
  {
    hide Setup.Subscribers;
    FourSubscribers(TheMembers(), topic);
  }

  lemma ByTopic(p: TopicPartition)
    requires p in TheGroup().potentials
    ensures p.topic == "a" || p.topic == "b" || p.topic == "c" || p.topic == "d"
    ensures TheGroup().potentials[p] == if p.topic == "a" then FEW else if p.topic == "c" then [3] else MANY
  {
  }

  lemma PotentialOf(p: TopicPartition)
    requires p in TheGroup().potentials
    ensures TheGroup().potentials[p] == Setup.Subscribers(TheMembers(), p.topic)
  {
    hide Setup.Subscribers, TheMembers, TheGroup;
    ByTopic(p);
    if p.topic == "a" {
      SubscribersOfA();
    } else if p.topic == "c" {
      SubscribersOfC();
    } else {
      SubscribersOfBD(p.topic);
    }
  }

  lemma PotentialsAre(g: Group)
    requires forall p :: p in g.potentials <==> Setup.Exists(TheCluster(), p)
    requires forall p :: p in g.potentials ==> g.potentials[p] == Setup.Subscribers(TheMembers(), p.topic)
    ensures g.potentials == TheGroup().potentials
  {
    hide TheGroup, Setup.Exists, Setup.Subscribers, TheOrder, TheCluster;
    forall p ensures p in g.potentials <==> p in TheGroup().potentials {
      OrderIsKnown(p);
      OrderExists(p);
    }
    forall p | p in g.potentials ensures g.potentials[p] == TheGroup().potentials[p] {
      PotentialOf(p);
    }
  }

  lemma NarrowedIsList(g: Group)
    requires g.potentials == TheGroup().potentials
    ensures Excluding(TheOrder(), Uncontested(g)) == List()
  {
    hide List, TheGroup;
    OneOrThree();
    forall p | p in List() ensures p !in Uncontested(g) {
      ThreeMayHold(p);
    }
    ExcludingNothing(List(), Uncontested(g));
    assert TheOrder()[1..] == List();
  }

  // The loop looks at who may hold what, and at previous owners.

  lemma {:induction false} SamePass(g: Group, h: Group, s: State, list: seq<TopicPartition>, t: State, modified: bool)
    requires g.potentials == h.potentials && g.previous == h.previous && PassOf(g, s, list, t, modified)
    ensures PassOf(h, s, list, t, modified)
    decreases |list|
  {
    SameTest(g, h, s);
    hide Balanced, Turn;
    if list != [] && !Balanced(s.held, s.owner, g) {
      var m, moved, later :|
          Turn(g, s, list[0], m, moved) && PassOf(g, m, list[1..], t, later) && modified == (moved || later);
      SameTurn(g, h, s, list[0], m, moved);
      SamePass(g, h, m, list[1..], t, later);
    }
  }

  lemma SameTest(g: Group, h: Group, s: State)
    requires g.potentials == h.potentials
    ensures Balanced(s.held, s.owner, g) <==> Balanced(s.held, s.owner, h)
  {
    assert forall c, p :: MayHold(g, c, p) <==> MayHold(h, c, p);
    hide MayHold, Level;
    assert forall d :: d in s.held ==> (ExhaustedAt(s.held, s.owner, g, d) <==> ExhaustedAt(s.held, s.owner, h, d));
  }

  lemma SameTarget(g: Group, h: Group, s: State, p: TopicPartition, to: Consumer)
    requires g.potentials == h.potentials && g.previous == h.previous
    ensures Target(g, s, p, to) <==> Target(h, s, p, to)
  {
    assert forall c, q :: MayHold(g, c, q) <==> MayHold(h, c, q);
    hide MayHold;
  }

  lemma SameTurn(g: Group, h: Group, s: State, p: TopicPartition, t: State, moved: bool)
    requires g.potentials == h.potentials && g.previous == h.previous && Turn(g, s, p, t, moved)
    ensures Turn(h, s, p, t, moved)
  {
    hide Target, MayMove, Moves;
    forall to ensures Target(g, s, p, to) <==> Target(h, s, p, to) {
      SameTarget(g, h, s, p, to);
    }
  }

  lemma {:induction false} SameEnd(g: Group, h: Group, s: State, list: seq<TopicPartition>, n: nat, t: State)
    requires g.potentials == h.potentials && g.previous == h.previous && EndsWithin(g, s, list, n, t)
    ensures EndsWithin(h, s, list, n, t)
    decreases n
  {
    hide PassOf;
    var m, modified :|
        PassOf(g, s, list, m, modified) && (if modified then EndsWithin(g, m, list, n - 1, t) else m == t);
    SamePass(g, h, s, list, m, modified);
    if modified {
      SameEnd(g, h, m, list, n - 1, t);
    }
  }

  // From the reports to the loop.

  lemma SameSize(held: Held, other: Held, owner: Owners, c: Consumer)
    requires Mirror(held, owner) && DistinctAll(held) && Mirror(other, owner) && DistinctAll(other)
    requires c in held && c in other
    ensures |held[c]| == |other[c]|
  {
    DistinctSize(held[c]);
    DistinctSize(other[c]);
    forall p ensures p in held[c] <==> p in other[c] {
      assert p in held[c] <==> p in owner && owner[p] == c;
    }
    assert Elements(held[c]) == Elements(other[c]);
  }

  lemma RivalsAre(c: Consumer)
    requires c < 4
    ensures exists p :: MayHold(TheGroup(), c, p) && |TheGroup().potentials[p]| >= 2
  {
    var p := if c == 3 then A(0) else B(0);
    assert p in List() && c in Among(p);
    KnownMayHold(p, c);
    ThreeMayHold(p);
  }

  /** Whatever lists the executor builds, the loop starts from these sizes. */
  lemma StartsHere(g: Group, held: Held)
    requires g.potentials == TheGroup().potentials && Roomy(held, g) && Consistent(held, Owner0(), g)
    requires forall c :: c in held ==> c < 4
    ensures Starting(State(held, Owner0(), map[]))
  {
    hide TheGroup, Owner0, Held0, Mirror, DistinctAll;
    forall c: Consumer | c < 4 ensures c in held {
      RivalsAre(c);
      var p :| MayHold(TheGroup(), c, p) && |TheGroup().potentials[p]| >= 2;
      assert MayHold(g, c, p);
    }
    StartMirrors();
    StartIsDistinct();
    StartSizes();
    forall c: Consumer | c < 4 ensures |held[c]| == [9, 0, 1, 2][c] {
      Four(c);
      SameSize(held, Held0(), Owner0(), c);
    }
    forall p | p in Owner0() ensures MayHold(TheGroup(), Owner0()[p], p) {
      assert MayHold(g, Owner0()[p], p);
    }
  }

  /** All that is reported may be kept, and nothing is left to hand out. */
  lemma AllIsKept(g: Group, owner: Owners, unassigned: seq<TopicPartition>)
    requires g.potentials == TheGroup().potentials
    requires forall p :: p in owner <==> p in Owner0() && MayHold(g, Owner0()[p], p)
    requires forall p :: p in owner ==> owner[p] == Owner0()[p]
    requires Waiting(unassigned, owner, g)
    ensures owner == Owner0() && unassigned == [] && Covered(owner, g)
  {
    StartIsSubscribed();
    hide Owner0, TheGroup, TheOrder;
    forall p | p in Owner0() ensures p in owner {
      assert MayHold(TheGroup(), Owner0()[p], p);
    }
    assert owner == Owner0();
    forall p | p in g.potentials ensures p in owner {
      OrderIsKnown(p);
    }
    SomeListed(unassigned);
  }

  lemma NoEnd(g: Group, held: Held, n: nat)
    requires g.potentials == TheGroup().potentials && g.previous == map[] && Starting(State(held, Owner0(), map[]))
    ensures !Ends(g, State(held, Owner0(), map[]), List(), n)
  {
    hide Starting, EndsWithin, Owner0, List;
    NoPrevious();
    forall t ensures !EndsWithin(g, State(held, Owner0(), map[]), List(), n, t) {
      if EndsWithin(g, State(held, Owner0(), map[]), List(), n, t) {
        SameEnd(g, TheGroup(), State(held, Owner0(), map[]), List(), n, t);
        NeverEnds(State(held, Owner0(), map[]), n, t);
      }
    }
  }

  lemma NoPrevious()
    ensures TheGroup().previous == map[]
  {
  }

  /** The assignor on this cluster and these members: what `Setup.Assign` does is not finished
      after any number of passes. */
  method RebalanceOnThisGroup(passes: nat) returns (finished: bool)
    ensures !finished
  {
    hide TheGroup, TheCluster, TheMembers, TheOrder, List, Owner0, Held0, WellFormed, Consistent, Covered,
         Roomy, Waiting, Listing, MayHold, Setup.Subscribes, Setup.Subscribers, Setup.IsMember, Setup.Exists,
         Setup.Reported, Setup.ReportedBy, Setup.OneGeneration, Setup.DistinctIds,
         Setup.EarlierHoldersSubscribe, Excluding, Uncontested, Ends, Starting, Distinct, Alike, FewRivals,
         Settled, Grown, Lists, Entries, NoExchange, Current, PartitionMovements.Valid, Setup.OnRecord,
         Setup.Winner, Setup.RunnerUp, PartitionOrder.Known, PartitionOrder.Ascending, PartitionOrder.AllEqual,
         Setup.Ordered, Mirror, DistinctAll, Setup.Owned, TwoLoops, EndsWithin, HandsOut, TakingPart,
         NotBetter, Whole;
    OneRebalance();
    FourMembers();
    var executor;
    ghost var reported, claims, deal, onDonor, trace;
    executor, reported, claims, deal := Setup.Begin(TheCluster(), TheMembers());
    ghost var g := executor.group;
    PotentialsAre(g);
    NotAlike();
    Setup.SortedIs(TheMembers(), g, executor.sortedPartitions, deal);
    ListingHolds(executor.sortedPartitions, g);
    OrderIsSorted(executor.sortedPartitions);
    ReportedIsOwner(reported);
    AllIsKept(g, executor.owner, executor.unassigned);
    NarrowedIsList(g);
    var reverted;
    ghost var revoked := executor.revocationRequired;
    ExcludingNothing([], Uncontested(g));
    finished, reverted, onDonor, trace := executor.Balance(passes);
    ghost var s := trace.begun;
    forall c | c in s.held ensures c < 4 {
      assert c in s.held.Keys;
      MembersAreFour(c);
    }
    StartsHere(g, s.held);
    NoEnd(g, s.held, passes);
    if finished {
      OneLoop(g, revoked, s, trace.middle, List(), passes, trace.reached);
      EndsSomewhere(g, s, List(), passes, trace.reached);
    }
  }

  lemma EndsSomewhere(g: Group, s: State, list: seq<TopicPartition>, n: nat, t: State)
    requires EndsWithin(g, s, list, n, t)
    ensures Ends(g, s, list, n)
  {
  }

  lemma ListingHolds(list: seq<TopicPartition>, g: Group)
    requires Listing(list, g)
    ensures forall p :: p in list <==> p in g.potentials
  {
  }

  lemma FourMembers()
    ensures TheMembers() != []
  {
  }

  /** The move back takes from a consumer that holds no more than the receiver, and makes the
      balance worse. */
  lemma MoveBackWorsens()
    ensures Score([4, 4, 3, 1]) > Score([4, 4, 2, 2])
  {
    MoveLowersScore([4, 4, 2, 2], 3, 2);
    assert Scores.Moved([4, 4, 2, 2], 3, 2) == [4, 4, 3, 1];
  }
}
