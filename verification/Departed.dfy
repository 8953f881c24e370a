/** Reports of two generations for which the sticky assignor gives a partition to a member that
    no longer subscribes to its topic: the member held it a generation ago and is moved back
    to without being asked. */
module Departed {
  import opened Types
  import opened Movements
  import opened Assignment
  import opened Sticky
  import opened SortedSets
  import Setup
  import PartitionOrder

  const A0 := TopicPartition("a", 0)
  const A1 := TopicPartition("a", 1)
  const A2 := TopicPartition("a", 2)
  const B0 := TopicPartition("b", 0)

  function TheCluster(): Setup.Cluster {
    map["a" := {0, 1, 2}, "b" := {0}]
  }

  /** Member 1 reports, from the generation before, a partition of the topic it left. */
  function TheMembers(): seq<Setup.Member> {
    [Setup.Member(0, ["a"], [A0, A1, A2], 2), Setup.Member(1, ["b"], [A0, B0], 1), Setup.Member(2, ["a", "b"], [], -1)]
  }

  function ThePotentials(): map<TopicPartition, seq<Consumer>> {
    map[A0 := [0, 2], A1 := [0, 2], A2 := [0, 2], B0 := [1, 2]]
  }

  function TheOrder(): seq<TopicPartition> {
    [A0, A1, A2, B0]
  }

  function Owner0(): Owners { map[A0 := 0, A1 := 0, A2 := 0, B0 := 1] }
  function Owner1(): Owners { Owner0()[A0 := 1] }
  function Owner2(): Owners { Owner1()[A1 := 2] }

  function Moves1(): Records { map[A0 := Pair(0, 1)] }
  function Moves2(): Records { Moves1()[A1 := Pair(0, 2)] }

  ghost predicate Ours(g: Group) {
    g.potentials == ThePotentials() && g.previous == map[A0 := 1]
  }

  // ---------- States by owners and movements ----------

  ghost predicate Is(s: State, owner: Owners, moves: Records) {
    && s.owner == owner && s.moves == moves && Mirror(s.held, owner) && DistinctAll(s.held)
    && forall c: Consumer :: c in s.held <==> c == 0 || c == 1 || c == 2
  }

  lemma SizeIs(s: State, owner: Owners, moves: Records, c: Consumer)
    requires Is(s, owner, moves) && c in s.held
    ensures |s.held[c]| == |HeldBy(owner, c)|
  {
    DistinctSize(s.held[c]);
    assert Elements(s.held[c]) == HeldBy(owner, c);
  }

  lemma Sizes(s: State, owner: Owners, moves: Records, a: set<TopicPartition>, b: set<TopicPartition>,
              c: set<TopicPartition>)
    requires Is(s, owner, moves) && HeldBy(owner, 0) == a && HeldBy(owner, 1) == b && HeldBy(owner, 2) == c
    ensures 0 in s.held && 1 in s.held && 2 in s.held
    ensures |s.held[0]| == |a| && |s.held[1]| == |b| && |s.held[2]| == |c|
  {
    SizeIs(s, owner, moves, 0);
    SizeIs(s, owner, moves, 1);
    SizeIs(s, owner, moves, 2);
  }

  lemma Sizes0(s: State)
    requires Is(s, Owner0(), map[])
    ensures 0 in s.held && 1 in s.held && 2 in s.held
    ensures |s.held[0]| == 3 && |s.held[1]| == 1 && |s.held[2]| == 0
  {
    assert HeldBy(Owner0(), 0) == {A0, A1, A2} && HeldBy(Owner0(), 1) == {B0} && HeldBy(Owner0(), 2) == {};
    Sizes(s, Owner0(), map[], {A0, A1, A2}, {B0}, {});
  }

  lemma Sizes1(s: State)
    requires Is(s, Owner1(), Moves1())
    ensures 0 in s.held && 1 in s.held && 2 in s.held
    ensures |s.held[0]| == 2 && |s.held[1]| == 2 && |s.held[2]| == 0
  {
    assert HeldBy(Owner1(), 0) == {A1, A2} && HeldBy(Owner1(), 1) == {A0, B0} && HeldBy(Owner1(), 2) == {};
    Sizes(s, Owner1(), Moves1(), {A1, A2}, {A0, B0}, {});
  }

  lemma Sizes2(s: State)
    requires Is(s, Owner2(), Moves2())
    ensures 0 in s.held && 1 in s.held && 2 in s.held
    ensures |s.held[0]| == 1 && |s.held[1]| == 2 && |s.held[2]| == 1
  {
    assert HeldBy(Owner2(), 0) == {A2} && HeldBy(Owner2(), 1) == {A0, B0} && HeldBy(Owner2(), 2) == {A1};
    Sizes(s, Owner2(), Moves2(), {A2}, {A0, B0}, {A1});
  }

  lemma MovesTo(s: State, owner: Owners, moves: Records, q: TopicPartition, to: Consumer, t: State)
    requires Is(s, owner, moves) && q in owner && Moves(s, q, to, t)
    ensures Is(t, owner[q := to], Recorded(moves, q, owner[q], to))
  {
    hide Drop, Mirror, DistinctAll;
    ShiftKeepsMirror(s.held, s.owner, q, to);
  }

  /** Member 2 could gain: the balance test fails while member 0 has two more. */
  lemma NotYet(g: Group, s: State, owner: Owners, moves: Records)
    requires Ours(g) && Is(s, owner, moves) && A1 in owner && owner[A1] == 0
    requires |s.held[0]| >= |s.held[2]| + 2
    ensures !Balanced(s.held, s.owner, g)
  {
    assert MayHold(g, 2, A1) && A1 !in s.held[2];
    assert !ExhaustedAt(s.held, s.owner, g, 2);
    assert !Level(s.held);
  }

  // ---------- The first pass ----------

  /** The turn at `A0` sends it to member 1, which does not subscribe to its topic. */
  lemma FirstTurn(g: Group, s: State, t: State, moved: bool)
    requires Ours(g) && Is(s, Owner0(), map[]) && Turn(g, s, A0, t, moved)
    ensures moved && Is(t, Owner1(), Moves1())
  {
    Sizes0(s);
    assert Lighter(s, A0, 1) && Target(g, s, A0, 1);
    var to, q :| Target(g, s, A0, to) && MayMove(s.moves, A0, Holder(s, A0), to, q) && Moves(s, q, to, t);
    assert q == A0 && to == 1;
    MovesTo(s, Owner0(), map[], A0, 1, t);
  }

  lemma SecondTarget(g: Group, s: State, to: Consumer)
    requires Ours(g) && Is(s, Owner1(), Moves1())
    ensures Target(g, s, A1, to) <==> to == 2
  {
    Sizes1(s);
    assert forall d :: MayHold(g, d, A1) <==> d == 0 || d == 2;
    assert Lighter(s, A1, 2);
  }

  lemma SecondMove(q: TopicPartition)
    ensures MayMove(Moves1(), A1, 0, 2, q) <==> q == A1
  {
    assert !Shows(Moves1(), "a", Pair(2, 0));
  }

  lemma SecondTurn(g: Group, s: State, t: State, moved: bool)
    requires Ours(g) && Is(s, Owner1(), Moves1()) && Turn(g, s, A1, t, moved)
    ensures moved && Is(t, Owner2(), Moves2())
  {
    hide Is, Target, MayMove, Moves;
    SecondTarget(g, s, 2);
    assert s.owner == Owner1() && s.moves == Moves1() by {
      IsParts(s, Owner1(), Moves1());
    }
    var to, q :| Target(g, s, A1, to) && MayMove(s.moves, A1, Holder(s, A1), to, q) && Moves(s, q, to, t);
    SecondTarget(g, s, to);
    SecondMove(q);
    MovesTo(s, Owner1(), Moves1(), A1, 2, t);
  }

  lemma IsParts(s: State, owner: Owners, moves: Records)
    requires Is(s, owner, moves)
    ensures s.owner == owner && s.moves == moves
  {
  }

  lemma Level2(g: Group, s: State)
    requires Is(s, Owner2(), Moves2())
    ensures Balanced(s.held, s.owner, g)
  {
    Sizes2(s);
    assert Level(s.held);
  }

  /** Every execution of the first pass gives `A0` to member 1 and leaves the sizes level. */
  lemma FirstPass(g: Group, s: State, t: State, modified: bool)
    requires Ours(g) && Is(s, Owner0(), map[]) && PassOf(g, s, TheOrder(), t, modified)
    ensures modified && Is(t, Owner2(), Moves2())
  {
    hide PassOf, Turn, Balanced, Owner0, Owner1, Owner2, Moves1, Moves2;
    Sizes0(s);
    OwnersOfA1();
    NotYet(g, s, Owner0(), map[]);
    var m, moved, later := NextTurn(g, s, TheOrder(), t, modified);
    FirstTurn(g, s, m, moved);
    Sizes1(m);
    NotYet(g, m, Owner1(), Moves1());
    assert TheOrder()[1..][0] == A1;
    var n, again, rest := NextTurn(g, m, TheOrder()[1..], t, later);
    SecondTurn(g, m, n, again);
    Level2(g, n);
    LevelEnds(g, n, TheOrder()[1..][1..], t, rest);
  }

  lemma OwnersOfA1()
    ensures A1 in Owner0() && Owner0()[A1] == 0 && A1 in Owner1() && Owner1()[A1] == 0
  {
  }

  lemma LevelEnds(g: Group, s: State, list: seq<TopicPartition>, t: State, modified: bool)
    requires Balanced(s.held, s.owner, g)
    ensures PassOf(g, s, list, t, modified) <==> t == s && !modified
  {
  }

  /** However it ends, member 1 has `A0`. */
  lemma EndsWrong(g: Group, s: State, n: nat, t: State)
    requires Ours(g) && Is(s, Owner0(), map[]) && EndsWithin(g, s, TheOrder(), n, t)
    ensures Is(t, Owner2(), Moves2())
  {
    hide PassOf, Is, Balanced;
    var m, modified :| PassOf(g, s, TheOrder(), m, modified)
      && (if modified then EndsWithin(g, m, TheOrder(), n - 1, t) else m == t);
    FirstPass(g, s, m, modified);
    var m2, again :| PassOf(g, m, TheOrder(), m2, again)
      && (if again then EndsWithin(g, m2, TheOrder(), n - 2, t) else m2 == t);
    Level2(g, m);
    LevelEnds(g, m, TheOrder(), m2, again);
  }

  // ---------- And it does end ----------

  lemma Step0(g: Group, s: State) returns (t: State)
    requires Ours(g) && Is(s, Owner0(), map[])
    ensures Turn(g, s, A0, t, true)
  {
    hide Drop;
    Sizes0(s);
    t := State(Shift(s.held, A0, 0, 1), Owner1(), Recorded(s.moves, A0, 0, 1));
    assert Target(g, s, A0, 1) && MayMove(s.moves, A0, 0, 1, A0) && Moves(s, A0, 1, t);
  }

  lemma Step1(g: Group, s: State) returns (t: State)
    requires Ours(g) && Is(s, Owner1(), Moves1())
    ensures Turn(g, s, A1, t, true)
  {
    hide Drop, Target;
    Sizes1(s);
    SecondTarget(g, s, 2);
    SecondMove(A1);
    t := State(Shift(s.held, A1, 0, 2), Owner2(), Recorded(s.moves, A1, 0, 2));
    assert Target(g, s, A1, 2) && MayMove(s.moves, A1, 0, 2, A1) && Moves(s, A1, 2, t);
  }

  lemma ItEnds(g: Group, s: State)
    requires Ours(g) && Is(s, Owner0(), map[])
    ensures Ends(g, s, TheOrder(), 2)
  {
    hide Turn, Balanced, Is, Owner0, Owner1, Owner2, Moves1, Moves2;
    var t := Step0(g, s);
    FirstTurn(g, s, t, true);
    var u := Step1(g, t);
    SecondTurn(g, t, u, true);
    Level2(g, u);
    OwnersOfA1();
    Sizes0(s);
    NotYet(g, s, Owner0(), map[]);
    Sizes1(t);
    NotYet(g, t, Owner1(), Moves1());
    var list := TheOrder();
    assert list[0] == A0 && list[1..][0] == A1;
    assert PassOf(g, u, list[1..][1..], u, false);
    assert PassOf(g, t, list[1..], u, true);
    assert PassOf(g, s, list, u, true);
    assert PassOf(g, u, list, u, false);
    hide PassOf;
    assert EndsWithin(g, u, list, 1, u);
    assert EndsWithin(g, s, list, 2, u);
  }

  // ---------- The reports that lead there ----------

  lemma KnownIs(p: TopicPartition)
    ensures Setup.Exists(TheCluster(), p) <==> p in ThePotentials()
    ensures p in ThePotentials() <==> p in Owner0()
    ensures p in TheOrder() <==> p in ThePotentials()
  {
  }

  function Named(m: Setup.Member, topic: string): seq<Consumer> {
    if topic in m.subscription then [m.id] else []
  }

  lemma ThreeSubscribers(m: seq<Setup.Member>, topic: string)
    requires |m| == 3 && forall i :: 0 <= i < 3 ==> Distinct(m[i].subscription)
    ensures Setup.Subscribers(m, topic) == Named(m[0], topic) + Named(m[1], topic) + Named(m[2], topic)
  {
    assert Setup.Subscribers(m[..0], topic) == [] && m[..3] == m;
    hide Setup.Subscribers;
    forall i | 0 <= i < 3
      ensures Setup.Subscribers(m[..i + 1], topic) == Setup.Subscribers(m[..i], topic) + Named(m[i], topic)
    {
      Setup.SubscribersNext(m, i, topic);
      Setup.TimesOnce(m[i].id, m[i].subscription, topic);
    }
    assert Setup.Subscribers(m[..1], topic) == Named(m[0], topic);
    assert Setup.Subscribers(m[..2], topic) == Named(m[0], topic) + Named(m[1], topic);
  }

  lemma PotentialOf(p: TopicPartition)
    requires p in ThePotentials()
    ensures ThePotentials()[p] == Setup.Subscribers(TheMembers(), p.topic)
  {
    hide Setup.Subscribers;
    ThreeSubscribers(TheMembers(), "a");
    ThreeSubscribers(TheMembers(), "b");
  }

  lemma PotentialsAre(g: Group)
    requires forall p :: p in g.potentials <==> Setup.Exists(TheCluster(), p)
    requires forall p :: p in g.potentials ==> g.potentials[p] == Setup.Subscribers(TheMembers(), p.topic)
    ensures g.potentials == ThePotentials()
  {
    hide ThePotentials, Setup.Exists, Setup.Subscribers, TheOrder, TheCluster, Owner0;
    forall p ensures p in g.potentials <==> p in ThePotentials() {
      KnownIs(p);
    }
    forall p | p in g.potentials ensures g.potentials[p] == ThePotentials()[p] {
      PotentialOf(p);
    }
  }

  /** The claims of these reports. */
  function Claimed(p: TopicPartition, generation: int): Option<Consumer> {
    if generation == 2 && p in [A0, A1, A2] then Some(0)
    else if generation == 1 && p in [A0, B0] then Some(1)
    else None
  }

  lemma ClaimantIs(p: TopicPartition, generation: int)
    ensures Setup.Claimant(TheMembers(), p, generation) == Claimed(p, generation)
  {
    var m := TheMembers();
    Setup.ClaimantLast([], m[0], p, generation);
    Setup.ClaimantLast([m[0]], m[1], p, generation);
    Setup.ClaimantLast([m[0], m[1]], m[2], p, generation);
    assert [] + [m[0]] == [m[0]] && [m[0]] + [m[1]] == [m[0], m[1]] && [m[0], m[1]] + [m[2]] == m;
  }

  lemma ClaimsAre(claims: Setup.Claims, p: TopicPartition, generation: int)
    requires Setup.OnRecord(claims, TheMembers())
    ensures p in claims && generation in claims[p] <==> Claimed(p, generation).Some?
    ensures p in claims && generation in claims[p] ==> claims[p][generation] == Claimed(p, generation).value
  {
    ClaimantIs(p, generation);
    assert Setup.On(claims, p, generation) == Setup.Claimant(TheMembers(), p, generation);
  }

  lemma GenerationsAre(claims: Setup.Claims, p: TopicPartition)
    requires Setup.OnRecord(claims, TheMembers()) && p in claims
    ensures p in Owner0()
    ensures claims[p].Keys == (if p == A0 then {1, 2} else if p == B0 then {1} else {2})
  {
    forall g ensures g in claims[p] <==> Claimed(p, g).Some? {
      ClaimsAre(claims, p, g);
    }
    SomeKey(claims[p]);
    var g :| g in claims[p];
    assert Claimed(p, g).Some?;
    assert Claimed(p, 1).Some? <==> p == A0 || p == B0;
    assert Claimed(p, 2).Some? <==> p == A0 || p == A1 || p == A2;
    forall h ensures h in claims[p].Keys <==> (h == 1 && (p == A0 || p == B0)) || (h == 2 && p != B0) {
      assert h in claims[p] <==> Claimed(p, h).Some?;
    }
  }

  lemma SomeKey(m: map<int, Consumer>)
    ensures m != map[] ==> exists g :: g in m
  {
    var none: map<int, Consumer> := map[];
    if forall g :: g !in m {
      assert m == none;
    }
  }

  lemma WinnerIs(claims: Setup.Claims, p: TopicPartition, c: Consumer)
    requires Setup.OnRecord(claims, TheMembers()) && p in claims && Setup.Winner(claims[p], c)
    ensures p in Owner0() && Owner0()[p] == c
  {
    hide Setup.OnRecord;
    GenerationsAre(claims, p);
    var g :| Setup.Highest(claims[p].Keys, g) && claims[p][g] == c;
    assert g in claims[p].Keys;
    ClaimsAre(claims, p, g);
    assert p == A0 ==> 2 in claims[p].Keys;
  }

  lemma RunnerUpIs(claims: Setup.Claims, c: Consumer)
    requires Setup.OnRecord(claims, TheMembers()) && A0 in claims && Setup.RunnerUp(claims[A0], c)
    ensures c == 1
  {
    hide Setup.OnRecord;
    GenerationsAre(claims, A0);
    var g, h :| Setup.Highest(claims[A0].Keys, g) && Setup.Highest(claims[A0].Keys - {g}, h) && claims[A0][h] == c;
    assert 2 in claims[A0].Keys && g in claims[A0].Keys && h in claims[A0].Keys;
    ClaimsAre(claims, A0, h);
  }

  lemma ReportedIsOwner(claims: Setup.Claims, reported: Owners)
    requires Setup.OnRecord(claims, TheMembers()) && reported.Keys == claims.Keys
    requires forall p :: p in reported ==> Setup.Winner(claims[p], reported[p])
    ensures reported == Owner0()
  {
    hide Setup.OnRecord, Setup.Winner, Owner0;
    forall p | p in reported ensures p in Owner0() && Owner0()[p] == reported[p] {
      assert p in claims.Keys;
      WinnerIs(claims, p, reported[p]);
    }
    forall p | p in Owner0() ensures p in reported {
      SomeClaim(p);
      var g :| Claimed(p, g).Some?;
      ClaimsAre(claims, p, g);
      assert p in claims.Keys;
    }
  }

  lemma SomeClaim(p: TopicPartition)
    requires p in Owner0()
    ensures exists g :: Claimed(p, g).Some?
  {
    assert Claimed(p, 2).Some? || Claimed(p, 1).Some?;
  }

  lemma PreviousIs(claims: Setup.Claims, previous: Owners)
    requires Setup.OnRecord(claims, TheMembers())
    requires forall p :: p in previous ==> p in claims && Setup.RunnerUp(claims[p], previous[p])
    requires forall p :: p in claims ==> (p in previous <==> |claims[p]| > 1)
    ensures previous == map[A0 := 1]
  {
    hide Setup.OnRecord, Setup.RunnerUp;
    ClaimsAre(claims, A0, 2);
    forall p | p in claims ensures |claims[p]| > 1 <==> p == A0 {
      GenerationsAre(claims, p);
      assert |claims[p].Keys| == |claims[p]|;
    }
    RunnerUpIs(claims, previous[A0]);
  }

  lemma MembersAre(c: Consumer)
    ensures Setup.IsMember(TheMembers(), c) <==> c == 0 || c == 1 || c == 2
  {
    assert TheMembers()[0].id == 0 && TheMembers()[1].id == 1 && TheMembers()[2].id == 2;
    if c < 3 {
      assert TheMembers()[c] in TheMembers();
    }
  }

  /** Member 1 left the topic, so the assumption of `Setup.Assign` does not hold. */
  lemma HasLeft()
    ensures Setup.DistinctIds(TheMembers()) && TheMembers() != []
    ensures !Setup.Subscribes(TheMembers(), 1, "a") && !Setup.EarlierHoldersSubscribe(TheCluster(), TheMembers())
  {
    ClaimantIs(A0, 2);
    ClaimantIs(A0, 1);
    assert Setup.Exists(TheCluster(), A0);
  }

  lemma IsAscending()
    ensures PartitionOrder.Known(TheOrder(), ThePotentials()) && PartitionOrder.Ascending(TheOrder(), ThePotentials())
  {
    assert PartitionOrder.TextLess("a", "b");
    hide PartitionOrder.TextLess;
  }

  lemma OrderIs(list: seq<TopicPartition>)
    requires PartitionOrder.Known(list, ThePotentials()) && PartitionOrder.Ascending(list, ThePotentials())
    requires forall p :: p in list <==> p in ThePotentials()
    ensures list == TheOrder()
  {
    hide Owner0, TheOrder, ThePotentials, PartitionOrder.Precedes;
    forall p ensures p in TheOrder() <==> p in list {
      KnownIs(p);
    }
    IsAscending();
    hide PartitionOrder.Precedes, PartitionOrder.Ascending;
    PartitionOrder.AscendingUnique(list, TheOrder(), ThePotentials());
  }

  lemma NotAlike()
    ensures !PartitionOrder.AllEqual(ThePotentials())
  {
    assert ThePotentials()[A0][0] == 0 && ThePotentials()[B0][0] == 1;
  }

  /** All that is reported may be kept, and nothing is left to hand out. */
  lemma AllIsKept(g: Group, owner: Owners, unassigned: seq<TopicPartition>)
    requires g.potentials == ThePotentials()
    requires forall p :: p in owner <==> p in Owner0() && MayHold(g, Owner0()[p], p)
    requires forall p :: p in owner ==> owner[p] == Owner0()[p]
    requires Waiting(unassigned, owner, g)
    ensures owner == Owner0() && unassigned == [] && Uncontested(g) == {}
  {
    forall p | p in g.potentials ensures p in owner {
      KnownIs(p);
      assert MayHold(g, Owner0()[p], p);
    }
    SomeListed(unassigned);
  }

  /** Nobody is set aside. */
  lemma AllTakePart(g: Group, s: State)
    requires Ours(g) && Is(s, Owner0(), map[])
    requires forall p, c :: MayHold(g, c, p) ==> c in g.available && p in g.available[c]
    ensures forall c :: c in s.held ==> c in g.available && Participates(s.held[c], g, c)
  {
    Sizes0(s);
    assert MayHold(g, 0, A0) && MayHold(g, 1, B0) && MayHold(g, 2, B0);
    assert A0 in s.owner && B0 in s.owner && s.owner[A0] in s.held && s.owner[B0] in s.held;
    assert |g.potentials[A0]| == 2 && |g.potentials[B0]| == 2;
  }

  /** The executor set up from these reports takes up `A0` first, has nothing to hand out,
      nothing to narrow and nobody to set aside; its loop ends, and however it ends member 1
      holds a partition of the topic it left. */
  method DepartedGetsIt() returns (executor: Executor)
    ensures !Setup.Subscribes(TheMembers(), 1, "a") && !Setup.EarlierHoldersSubscribe(TheCluster(), TheMembers())
    ensures executor.unassigned == [] && executor.sortedPartitions == TheOrder() && Uncontested(executor.group) == {}
    ensures forall c :: c in executor.current ==>
      c in executor.group.available && Participates(executor.current[c], executor.group, c)
    ensures Ends(executor.group, executor.Snapshot(), TheOrder(), 2)
    ensures forall n, t :: EndsWithin(executor.group, executor.Snapshot(), TheOrder(), n, t) ==>
      A0 in t.owner && t.owner[A0] == 1
  {
    hide ThePotentials, TheCluster, TheMembers, TheOrder, Owner0, Owner2, WellFormed, Waiting, Listing,
         MayHold, Setup.Subscribes, Setup.Subscribers, Setup.IsMember, Setup.Exists, Setup.Reported,
         Setup.ReportedBy, Setup.OneGeneration, Setup.DistinctIds, Setup.EarlierHoldersSubscribe, Uncontested,
         Ends, EndsWithin, Distinct, Setup.OnRecord, Setup.Winner, Setup.RunnerUp, PartitionOrder.Known,
         PartitionOrder.Ascending, PartitionOrder.AllEqual, Participates, Mirror, DistinctAll, Subscribed,
         Setup.Ordered, Setup.Owned, Excluding;
    HasLeft();
    ghost var reported, claims, deal;
    executor, reported, claims, deal := Setup.Begin(TheCluster(), TheMembers());
    ghost var g, s := executor.group, executor.Snapshot();
    PotentialsAre(g);
    ReportedIsOwner(claims, reported);
    PreviousIs(claims, g.previous);
    AllIsKept(g, executor.owner, executor.unassigned);
    NotAlike();
    Setup.SortedIs(TheMembers(), g, executor.sortedPartitions, deal);
    ListingHolds(executor.sortedPartitions, g);
    OrderIs(executor.sortedPartitions);
    forall c ensures c in executor.current <==> c == 0 || c == 1 || c == 2 {
      assert c in executor.current.Keys <==> c in g.available.Keys;
      MembersAre(c);
    }
    AllTakePart(g, s);
    ItEnds(g, s);
    forall n, t | EndsWithin(g, s, TheOrder(), n, t) ensures A0 in t.owner && t.owner[A0] == 1 {
      EndsWrong(g, s, n, t);
      OwnerOfA0();
    }
  }

  lemma OwnerOfA0()
    ensures A0 in Owner2() && Owner2()[A0] == 1
  {
  }

  lemma ListingHolds(list: seq<TopicPartition>, g: Group)
    requires Listing(list, g)
    ensures forall p :: p in list <==> p in g.potentials
  {
  }
}
