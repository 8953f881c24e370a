/** Reports for which a member with no more than its share loses a partition. All subscribe to
    the same topics, but one member names them in another order: then the sticky assignor does
    not deal partitions from those who report the most, and sorts them instead. */
module Reordered {
  import opened Types
  import opened Movements
  import opened Assignment
  import opened Sticky
  import opened SortedSets
  import Keeping
  import Setup
  import PartitionOrder

  const A0 := TopicPartition("a", 0)
  const A1 := TopicPartition("a", 1)
  const A2 := TopicPartition("a", 2)
  const A3 := TopicPartition("a", 3)
  const A4 := TopicPartition("a", 4)
  const B0 := TopicPartition("b", 0)

  function TheCluster(): Setup.Cluster {
    map["a" := {0, 1, 2, 3, 4}, "b" := {0}]
  }

  /** Member 0 has four of the six partitions, member 1 its share of two, member 2 is new. */
  function TheMembers(): seq<Setup.Member> {
    [Heavy(), Fair(), New()]
  }

  function Heavy(): Setup.Member { Setup.Member(0, ["a", "b"], [A2, A3, A4, B0], 1) }
  function Fair(): Setup.Member { Setup.Member(1, ["b", "a"], [A0, A1], 1) }
  function New(): Setup.Member { Setup.Member(2, ["a", "b"], [], -1) }

  lemma ExistsIff(p: TopicPartition)
    ensures Setup.Exists(TheCluster(), p) <==> p in {A0, A1, A2, A3, A4, B0}
  {
  }

  lemma MembersAre(m: Setup.Member)
    ensures m in TheMembers() <==> m == Heavy() || m == Fair() || m == New()
  {
  }

  // ---------- What the reports are like ----------

  lemma AllNameAll()
    ensures Setup.SameSubscriptions(TheMembers()) && Setup.AllTopics(TheCluster(), TheMembers())
  {
    hide TheMembers, Setup.Exists;
    forall m | m in TheMembers() ensures Distinct(m.subscription)
      ensures forall topic :: topic in m.subscription <==> topic == "a" || topic == "b"
    {
      MembersAre(m);
    }
    forall p | Setup.Exists(TheCluster(), p) ensures p.topic == "a" || p.topic == "b" {
      ExistsIff(p);
    }
  }

  lemma ReportedOnce()
    ensures Setup.OneGeneration(TheMembers()) && Setup.EachReportedOnce(TheCluster(), TheMembers())
    ensures Setup.DistinctIds(TheMembers())
  {
    forall p | Setup.Exists(TheCluster(), p) ensures Setup.Reported(TheMembers(), p) {
      ExistsIff(p);
      assert p in TheMembers()[0].partitions || p in TheMembers()[1].partitions;
    }
    forall m, n, p | m in TheMembers() && n in TheMembers() && p in m.partitions && p in n.partitions ensures m == n {
      MembersAre(m);
      MembersAre(n);
    }
  }

  lemma FairHasItsShare()
    ensures Setup.KnownOf(TheCluster(), Fair()) == {A0, A1} && Setup.KnownOf(TheCluster(), New()) == {}
    ensures |Setup.KnownOf(TheCluster(), Fair())| * |TheMembers()| <= |Setup.AllPartitions(TheCluster())|
  {
    hide Setup.Exists;
    ExistsIff(A0);
    ExistsIff(A1);
    assert Setup.KnownOf(TheCluster(), Fair()) == {A0, A1};
    forall p ensures p in Setup.AllPartitions(TheCluster()) <==> p in {A0, A1, A2, A3, A4, B0} {
      ExistsIff(p);
      InAll(p);
    }
    assert Setup.AllPartitions(TheCluster()) == {A0, A1, A2, A3, A4, B0};
  }

  lemma InAll(p: TopicPartition)
    ensures p in Setup.AllPartitions(TheCluster()) <==> Setup.Exists(TheCluster(), p)
  {
  }

  lemma HoldersSubscribe()
    ensures Setup.EarlierHoldersSubscribe(TheCluster(), TheMembers())
  {
    hide Setup.Claimant;
    AllNameAll();
    forall p, g | Setup.Exists(TheCluster(), p) && Setup.Claimant(TheMembers(), p, g).Some?
      ensures Setup.Subscribes(TheMembers(), Setup.Claimant(TheMembers(), p, g).value, p.topic)
    {
      Setup.ClaimantClaims(TheMembers(), p, g);
    }
  }

  // ---------- The list is sorted ----------

  /** What may be held is offered in different orders. */
  lemma NotAlike(g: Group)
    requires Setup.OfferedInOrder(g.available, TheCluster(), TheMembers())
    ensures !PartitionOrder.AllEqual(g.available)
  {
    MembersAre(Heavy());
    MembersAre(Fair());
    hide TheMembers;
    var lists :| Setup.ListsOf(lists, TheCluster()) && Setup.OfferedFrom(g.available, lists, TheMembers());
    OfferedTwo(lists, "a", "b");
    OfferedTwo(lists, "b", "a");
    ExistsIff(A0);
    ExistsIff(B0);
    assert A0 in lists["a"] && B0 in lists["b"];
    assert lists["a"][0] in lists["a"] && lists["b"][0] in lists["b"];
    assert g.available[0][0].topic == "a" && g.available[1][0].topic == "b";
  }

  lemma OfferedTwo(lists: Setup.ByTopic, x: string, y: string)
    requires x in lists && y in lists
    ensures Setup.Offered(lists, [x, y]) == lists[x] + lists[y]
  {
    assert [x, y][..1] == [x] && [x][..0] == [];
    assert Setup.Offered(lists, [x]) == [] + lists[x];
  }

  /** Then the first partition of the first topic comes first. */
  lemma FirstIs(list: seq<TopicPartition>, g: Group)
    requires PartitionOrder.Known(list, g.potentials) && PartitionOrder.Ascending(list, g.potentials)
    requires forall p :: p in list <==> Setup.Exists(TheCluster(), p)
    requires forall p :: p in g.potentials ==> g.potentials[p] == Setup.IdsOf(TheMembers())
    ensures list != [] && list[0] == A0
  {
    hide Setup.Exists, TheMembers;
    ExistsIff(A0);
    var i :| 0 <= i < |list| && list[i] == A0;
    ExistsIff(list[0]);
    if i > 0 {
      assert PartitionOrder.Precedes(g.potentials, list[0], list[i]);
    }
  }

  // ---------- The loop ----------

  /** Member 2 could gain from member 1, so the loop does not stop before its first turn. */
  lemma NotYet(g: Group, s: State, p: TopicPartition, d: Consumer)
    requires MayHold(g, d, p) && Lighter(s, p, d) && p !in s.held[d]
    ensures !Balanced(s.held, s.owner, g)
  {
    assert !ExhaustedAt(s.held, s.owner, g, d);
    assert !Level(s.held);
  }

  lemma LosesFirst(g: Group, s: State, list: seq<TopicPartition>, n: nat, t: State, order: seq<Consumer>)
    requires Keeping.Steady(g, s, list) && s.moves == map[] && Lists(order, s.held) && list != [] && list[0] == A0
    requires MayHold(g, 2, A0) && 1 in s.held && 2 in s.held && A0 in s.owner && s.owner[A0] == 1
    requires HeldBy(s.owner, 1) == {A0, A1} && HeldBy(s.owner, 2) == {}
    requires EndsWithin(g, s, list, n, t)
    ensures A0 in t.owner && t.owner[A0] != 1
  {
    hide EndsWithin, Lists, MayHold, HeldBy;
    Keeping.SizeIs(s, 1, g);
    Keeping.SizeIs(s, 2, g);
    NotYet(g, s, A0, 2);
    Keeping.FirstIsGiven(g, s, list, n, t, order, 2);
  }

  /** What `Begin` says of these reports. */
  lemma Starts(g: Group, reported: Owners, owner: Owners, list: seq<TopicPartition>, deal: Setup.Deal)
    requires forall p :: p in g.potentials <==> Setup.Exists(TheCluster(), p)
    requires forall p :: p in g.potentials ==> g.potentials[p] == Setup.Subscribers(TheMembers(), p.topic)
    requires forall p, c :: MayHold(g, c, p) <==>
      Setup.Exists(TheCluster(), p) && Setup.Subscribes(TheMembers(), c, p.topic)
    requires Setup.OfferedInOrder(g.available, TheCluster(), TheMembers())
    requires Listing(list, g) && Setup.Ordered(TheMembers(), g, list, deal)
    requires forall p :: p in reported <==> Setup.Reported(TheMembers(), p)
    requires forall p :: p in reported ==> Setup.ReportedBy(TheMembers(), p, reported[p])
    requires forall p :: p in owner <==> p in reported && MayHold(g, reported[p], p)
    requires forall p :: p in owner ==> owner[p] == reported[p]
    ensures list != [] && list[0] == A0 && Uncontested(g) == {} && MayHold(g, 1, A0) && MayHold(g, 2, A0)
    ensures HeldBy(owner, 1) == {A0, A1} && HeldBy(owner, 2) == {}
    ensures forall p :: p in owner <==> p in g.potentials
    ensures forall p :: p in list <==> p in g.potentials
    ensures Excluding(list, owner.Keys) == [] && Excluding(Excluding(list, owner.Keys), Uncontested(g)) == []
    ensures Covered(owner, g) && A0 in g.potentials && |g.potentials[A0]| == 3
  {
    hide TheMembers, TheCluster, MayHold, Setup.Exists, Setup.Subscribers, Setup.Subscribes, Setup.Reported,
         Setup.ReportedBy, Setup.Ordered, Setup.OfferedInOrder, Setup.AllTopics, Setup.EachReportedOnce,
         Setup.DistinctIds, Setup.SameSubscriptions, Setup.OneGeneration, Uncontested, Excluding,
         PartitionOrder.AllEqual, PartitionOrder.Known, PartitionOrder.Ascending, HeldBy, Setup.KnownOf,
         Setup.AllPartitions, Covered;
    AllNameAll();
    ReportedOnce();
    FairHasItsShare();
    Three();
    NotAlike(g);
    Setup.SortedIs(TheMembers(), g, list, deal);
    Setup.PotentialsAlike(TheCluster(), TheMembers(), g);
    Setup.OwnersReport(TheCluster(), TheMembers(), g, reported, owner);
    Setup.ListingIs(list, g);
    FirstIs(list, g);
    Setup.NothingUnowned(list, g, owner);
    ExistsIff(A0);
    SubscribesToA(1);
    SubscribesToA(2);
  }

  lemma Three()
    ensures |TheMembers()| == 3 && Fair() in TheMembers() && New() in TheMembers() && Fair().id == 1 && New().id == 2
  {
  }

  lemma SubscribesToA(c: Consumer)
    requires c == 1 || c == 2
    ensures Setup.Subscribes(TheMembers(), c, "a")
  {
    assert Fair() in TheMembers() && New() in TheMembers();
    assert Fair().subscription[1] == "a" && New().subscription[0] == "a";
  }

  /** Where the loops end, member 1 does not own `A0`. */
  lemma Ends(g: Group, owner: Owners, list: seq<TopicPartition>, revoked: bool, passes: nat, trace: Trace)
    requires WellFormed(g) && Alike(g.available.Keys, g)
    requires list != [] && list[0] == A0 && Uncontested(g) == {} && MayHold(g, 1, A0) && MayHold(g, 2, A0)
    requires HeldBy(owner, 1) == {A0, A1} && HeldBy(owner, 2) == {}
    requires forall p :: p in owner <==> p in g.potentials
    requires forall p :: p in list <==> p in g.potentials
    requires Covered(owner, g) && A0 in g.potentials && |g.potentials[A0]| == 3
    requires trace.begun.owner == owner && Consistent(trace.begun.held, owner, g)
    requires Roomy(trace.begun.held, g) && trace.begun.held.Keys <= g.available.Keys && trace.begun.moves == map[]
    requires Lists(trace.order, trace.begun.held)
    requires TwoLoops(g, revoked, trace.begun, [], trace.middle, Excluding(list, Uncontested(g)), passes, trace.reached)
    ensures A0 in trace.reached.owner && trace.reached.owner[A0] != 1
  {
    hide WellFormed, Alike, MayHold, HeldBy, Covered, Consistent, Lists, TwoLoops, Excluding, Uncontested,
         EndsWithin, Kept, Settling;
    var s := trace.begun;
    ExcludingNothing(list, Uncontested(g));
    OneLoop(g, revoked, s, trace.middle, list, passes, trace.reached);
    Setup.AllContested(g, s, list);
    AlikeStart(g, s.held, trace.all, s.owner);
    assert s == State(s.held, s.owner, map[]);
    assert A0 in HeldBy(owner, 1);
    OwnedBy(owner, A0, 1);
    LosesFirst(g, s, list, passes, trace.reached, trace.order);
  }

  lemma OwnedBy(owner: Owners, p: TopicPartition, c: Consumer)
    ensures p in HeldBy(owner, c) <==> p in owner && owner[p] == c
  {
  }

  lemma NotHeld(held: Held, owner: Owners, g: Group)
    requires Consistent(held, owner, g) && A0 in owner && owner[A0] != 1
    ensures !Setup.KeepsShare(TheCluster(), TheMembers(), held)
  {
    FairHasItsShare();
    hide Setup.KnownOf, Setup.AllPartitions;
    assert Fair() in TheMembers() && A0 in Setup.KnownOf(TheCluster(), Fair());
  }

  /** The assignor on these reports: it comes to an end, and member 1 has lost a partition. */
  method ShareIsLost(passes: nat) returns (finished: bool, reverted: bool, assignment: Held)
    ensures Setup.SameSubscriptions(TheMembers()) && Setup.OneGeneration(TheMembers())
    ensures Setup.EachReportedOnce(TheCluster(), TheMembers()) && Setup.AllTopics(TheCluster(), TheMembers())
    ensures finished ==> !Setup.KeepsShare(TheCluster(), TheMembers(), assignment)
    ensures passes > 54 ==> finished
  {
    hide Setup.SharesReported, Setup.KeepsShare, Setup.KnownOf, WellFormed, Consistent, Covered, Setup.Covers,
         Waiting, MayHold, Listing, Setup.Subscribes, Setup.IsMember, Setup.Exists, Settled, Setup.Reported,
         Setup.ReportedBy, Setup.SameSubscriptions, Setup.OneGeneration, Setup.AllTopics,
         Setup.EachReportedOnce, Setup.AllPartitions, Alike, Assignment.Sizes, Distinct, Setup.DistinctIds,
         Setup.EarlierHoldersSubscribe, Setup.Subscribers, FewRivals, Excluding, Uncontested, TwoLoops,
         HandsOut, TakingPart, Whole, NotBetter, Setup.Ordered, Setup.OfferedInOrder, Setup.OnRecord,
         Setup.Winner, Setup.RunnerUp, Mirror, DistinctAll, Setup.Owned, TheMembers, TheCluster, HeldBy, Roomy,
         Lists;
    AllNameAll();
    ReportedOnce();
    HoldersSubscribe();
    Three();
    var executor;
    ghost var reported, claims, deal, onDonor, trace;
    executor, reported, claims, deal := Setup.Begin(TheCluster(), TheMembers());
    ghost var g, owner, list, revoked :=
      executor.group, executor.owner, executor.sortedPartitions, executor.revocationRequired;
    Starts(g, reported, owner, list, deal);
    Setup.MembersAlike(TheCluster(), TheMembers(), g);
    finished, reverted, onDonor, trace := executor.Balance(passes);
    assignment := executor.current;
    if finished {
      Ends(g, owner, list, revoked, passes, trace);
      NotHeld(executor.current, executor.owner, g);
    }
    Bound(g);
  }

  lemma Bound(g: Group)
    requires forall p :: p in g.potentials <==> Setup.Exists(TheCluster(), p)
    requires forall c :: c in g.available <==> Setup.IsMember(TheMembers(), c)
    ensures |g.available| == 3 && |g.potentials| == 6
  {
    hide TheMembers, TheCluster, Setup.Exists, Setup.IsMember;
    forall c ensures c in g.available.Keys <==> c in {0, 1, 2} {
      IdsAre(c);
    }
    assert g.available.Keys == {0, 1, 2} && |g.available.Keys| == |g.available|;
    forall p ensures p in g.potentials.Keys <==> p in {A0, A1, A2, A3, A4, B0} {
      ExistsIff(p);
    }
    assert g.potentials.Keys == {A0, A1, A2, A3, A4, B0} && |g.potentials.Keys| == |g.potentials|;
  }

  lemma IdsAre(c: Consumer)
    ensures Setup.IsMember(TheMembers(), c) <==> c in {0, 1, 2}
  {
    assert Heavy() in TheMembers() && Fair() in TheMembers() && New() in TheMembers();
  }
}
