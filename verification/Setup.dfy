/** How the executor starts (sticky_assignor.py): who may hold what, from the cluster and the
    subscriptions; who held what, from the members' reports of their generations; and what is
    left to hand out. */
module Setup {
  import opened Types
  import opened Movements
  import opened Assignment
  import opened Sticky
  import PartitionOrder
  import Keeping

  datatype Member = Member(id: Consumer, subscription: seq<string>, partitions: seq<TopicPartition>, generation: int)

  /** The partitions of each topic that the metadata knows. */
  type Cluster = map<string, set<int>>

  ghost predicate Exists(cluster: Cluster, p: TopicPartition) {
    p.topic in cluster && p.partition in cluster[p.topic]
  }

  /** Members are the entries of a dictionary. */
  ghost predicate DistinctIds(members: seq<Member>) {
    forall i, j :: 0 <= i < j < |members| ==> members[i].id != members[j].id
  }

  // ---------- Who may hold what ----------

  /** `id` once for every time the subscription names the topic. */
  function Times(id: Consumer, subscription: seq<string>, topic: string): seq<Consumer> {
    if subscription == [] then [] else
      var n := |subscription| - 1;
      Times(id, subscription[..n], topic) + (if subscription[n] == topic then [id] else [])
  }

  function Subscribers(members: seq<Member>, topic: string): seq<Consumer> {
    if members == [] then [] else
      var n := |members| - 1;
      Subscribers(members[..n], topic) + Times(members[n].id, members[n].subscription, topic)
  }

  lemma {:induction false} TimesSays(id: Consumer, subscription: seq<string>, topic: string, c: Consumer)
    ensures c in Times(id, subscription, topic) <==> c == id && topic in subscription
    decreases |subscription|
  {
    if subscription != [] {
      var n := |subscription| - 1;
      assert subscription == subscription[..n] + [subscription[n]];
      TimesSays(id, subscription[..n], topic, c);
    }
  }

  /** A consumer is among the subscribers exactly when it subscribes. */
  lemma {:induction false} SubscribersSay(members: seq<Member>, topic: string, c: Consumer)
    ensures c in Subscribers(members, topic) <==> exists m :: m in members && m.id == c && topic in m.subscription
    decreases |members|
  {
    if members != [] {
      var n := |members| - 1;
      assert members == members[..n] + [members[n]];
      SubscribersSay(members[..n], topic, c);
      TimesSays(members[n].id, members[n].subscription, topic, c);
    }
  }

  /** A subscription without repetitions names a topic at most once. */
  lemma {:induction false} TimesOnce(id: Consumer, subscription: seq<string>, topic: string)
    requires Distinct(subscription)
    ensures Times(id, subscription, topic) == if topic in subscription then [id] else []
    decreases |subscription|
  {
    if subscription != [] {
      var n := |subscription| - 1;
      assert subscription == subscription[..n] + [subscription[n]];
      TimesOnce(id, subscription[..n], topic);
    }
  }

  lemma SubscribersNext(members: seq<Member>, i: nat, topic: string)
    requires i < |members|
    ensures Subscribers(members[..i + 1], topic) ==
            Subscribers(members[..i], topic) + Times(members[i].id, members[i].subscription, topic)
  {
    assert members[..i + 1][..i] == members[..i];
  }

  method PartitionsOf(topic: string, numbers: set<int>) returns (list: seq<TopicPartition>)
    ensures forall p :: p in list <==> p.topic == topic && p.partition in numbers
  {
    var order := Enumerate(numbers);
    list := seq(|order|, i requires 0 <= i < |order| => TopicPartition(topic, order[i]));
    forall n | n in numbers ensures TopicPartition(topic, n) in list {
      var i :| 0 <= i < |order| && order[i] == n;
      assert list[i] == TopicPartition(topic, n);
    }
  }

  /** The partitions of each topic, in the order the metadata gives them. */
  type ByTopic = map<string, seq<TopicPartition>>

  ghost predicate ListsOf(lists: ByTopic, cluster: Cluster) {
    && lists.Keys == cluster.Keys
    && forall topic, p :: topic in lists ==> (p in lists[topic] <==> p.topic == topic && p.partition in cluster[topic])
  }

  method TopicLists(cluster: Cluster) returns (lists: ByTopic)
    ensures ListsOf(lists, cluster)
  {
    lists := map[];
    var todo := cluster.Keys;
    while todo != {}
      invariant todo <= cluster.Keys && lists.Keys == cluster.Keys - todo
      invariant forall topic, p :: topic in lists ==>
        (p in lists[topic] <==> p.topic == topic && p.partition in cluster[topic])
      decreases |todo|
    {
      var topic :| topic in todo;
      var list := PartitionsOf(topic, cluster[topic]);
      lists := lists[topic := list];
      todo := todo - {topic};
    }
  }

  /** The partitions of the topics of a subscription, one topic after the other. */
  function Offered(lists: ByTopic, subscription: seq<string>): seq<TopicPartition> {
    if subscription == [] then [] else
      var n := |subscription| - 1;
      Offered(lists, subscription[..n]) + (if subscription[n] in lists then lists[subscription[n]] else [])
  }

  lemma {:induction false} OfferedHolds(lists: ByTopic, cluster: Cluster, subscription: seq<string>)
    requires ListsOf(lists, cluster)
    ensures forall p :: p in Offered(lists, subscription) <==> Exists(cluster, p) && p.topic in subscription
    decreases |subscription|
  {
    if subscription != [] {
      var n := |subscription| - 1;
      OfferedHolds(lists, cluster, subscription[..n]);
      assert subscription == subscription[..n] + [subscription[n]];
    }
  }

  /** What a member may hold: the known partitions of its topics. */
  method AvailableTo(lists: ByTopic, subscription: seq<string>) returns (list: seq<TopicPartition>)
    ensures list == Offered(lists, subscription)
  {
    list := [];
    for j := 0 to |subscription|
      invariant list == Offered(lists, subscription[..j])
    {
      assert subscription[..j + 1][..j] == subscription[..j];
      if subscription[j] in lists {
        list := list + lists[subscription[j]];
      } else {
        ConcatNil(list);
      }
    }
    assert subscription[..|subscription|] == subscription;
  }

  method KnownPartitions(cluster: Cluster, lists: ByTopic) returns (potentials: map<TopicPartition, seq<Consumer>>)
    requires ListsOf(lists, cluster)
    ensures forall p :: p in potentials <==> Exists(cluster, p)
    ensures forall p :: p in potentials ==> potentials[p] == []
  {
    potentials := map[];
    var todo := lists.Keys;
    while todo != {}
      invariant todo <= lists.Keys
      invariant forall p :: p in potentials <==> Exists(cluster, p) && p.topic !in todo
      invariant forall p :: p in potentials ==> potentials[p] == []
      decreases |todo|
    {
      var topic :| topic in todo;
      potentials := potentials + map p | p in lists[topic] :: [];
      todo := todo - {topic};
    }
  }

  /** Appends a member to the partitions of each topic it names. */
  method AddMember(before: map<TopicPartition, seq<Consumer>>, m: Member)
    returns (potentials: map<TopicPartition, seq<Consumer>>)
    ensures potentials.Keys == before.Keys
    ensures forall p :: p in before ==> potentials[p] == before[p] + Times(m.id, m.subscription, p.topic)
  {
    hide Times, Appended;
    potentials := before;
    NothingAppended(before, m.id);
    for j := 0 to |m.subscription|
      invariant Appended(before, potentials, m.id, m.subscription[..j])
    {
      AppendedNext(before, potentials, m.id, m.subscription, j);
      potentials := map p | p in potentials ::
        if p.topic == m.subscription[j] then potentials[p] + [m.id] else potentials[p];
    }
    AppendedAll(before, potentials, m);
  }

  /** `id` was appended for each of these topics. */
  ghost predicate Appended(before: map<TopicPartition, seq<Consumer>>, after: map<TopicPartition, seq<Consumer>>,
                           id: Consumer,
                           topics: seq<string>) {
    after.Keys == before.Keys && forall p :: p in before ==> after[p] == before[p] + Times(id, topics, p.topic)
  }

  lemma NothingAppended(before: map<TopicPartition, seq<Consumer>>, id: Consumer)
    ensures Appended(before, before, id, [])
  {
  }

  lemma TimesNext(id: Consumer, subscription: seq<string>, j: nat, topic: string)
    requires j < |subscription|
    ensures Times(id, subscription[..j + 1], topic) ==
            Times(id, subscription[..j], topic) + (if topic == subscription[j] then [id] else [])
  {
    assert subscription[..j + 1][..j] == subscription[..j];
  }

  lemma AppendedNext(before: map<TopicPartition, seq<Consumer>>, after: map<TopicPartition, seq<Consumer>>,
                     id: Consumer,
                     subscription: seq<string>, j: nat)
    requires j < |subscription| && Appended(before, after, id, subscription[..j])
    ensures var next := map p | p in after :: if p.topic == subscription[j] then after[p] + [id] else after[p];
      Appended(before, next, id, subscription[..j + 1])
  {
    hide Times;
    forall p | p in before
      ensures (if p.topic == subscription[j] then after[p] + [id] else after[p]) ==
              before[p] + Times(id, subscription[..j + 1], p.topic)
    {
      TimesNext(id, subscription, j, p.topic);
      ConcatAssoc(before[p], Times(id, subscription[..j], p.topic), [id]);
      ConcatNil(Times(id, subscription[..j], p.topic));
    }
  }

  lemma AppendedAll(before: map<TopicPartition, seq<Consumer>>, after: map<TopicPartition, seq<Consumer>>, m: Member)
    requires Appended(before, after, m.id, m.subscription[..|m.subscription|])
    ensures Appended(before, after, m.id, m.subscription)
    ensures after.Keys == before.Keys
    ensures forall p :: p in before ==> after[p] == before[p] + Times(m.id, m.subscription, p.topic)
  {
    assert m.subscription[..|m.subscription|] == m.subscription;
  }

  method Potentials(cluster: Cluster, lists: ByTopic, members: seq<Member>)
    returns (potentials: map<TopicPartition, seq<Consumer>>)
    requires ListsOf(lists, cluster)
    ensures forall p :: p in potentials <==> Exists(cluster, p)
    ensures forall p :: p in potentials ==> potentials[p] == Subscribers(members, p.topic)
  {
    potentials := KnownPartitions(cluster, lists);
    for i := 0 to |members|
      invariant forall p :: p in potentials <==> Exists(cluster, p)
      invariant forall p :: p in potentials ==> potentials[p] == Subscribers(members[..i], p.topic)
    {
      ghost var known := potentials.Keys;
      potentials := AddMember(potentials, members[i]);
      assert members[..i + 1][..i] == members[..i];
      assert forall p :: p in potentials <==> p in known;
    }
    assert members[..|members|] == members;
  }

  /** A member may hold exactly the known partitions of its topics. */
  ghost predicate Offers(available: Held, cluster: Cluster, m: Member) {
    m.id in available && forall p :: p in available[m.id] <==> Exists(cluster, p) && p.topic in m.subscription
  }

  /** Both dictionaries, which say the same of every member and partition. */
  method Initialize(cluster: Cluster, members: seq<Member>)
    returns (potentials: map<TopicPartition, seq<Consumer>>, available: Held)
    requires DistinctIds(members)
    ensures forall p :: p in potentials <==> Exists(cluster, p)
    ensures forall p :: p in potentials ==> potentials[p] == Subscribers(members, p.topic)
    ensures forall c :: c in available <==> IsMember(members, c)
    ensures forall m :: m in members ==> Offers(available, cluster, m)
    ensures OfferedInOrder(available, cluster, members)
  {
    hide Ids, Exists, Subscribers, Offered, ListsOf;
    var lists := TopicLists(cluster);
    potentials := Potentials(cluster, lists, members);
    available := map[];
    ghost var ids: set<Consumer> := {};
    NoMembers();
    for i := 0 to |members|
      invariant Ids(ids, members[..i]) && available.Keys == ids
      invariant forall k :: 0 <= k < i ==> Offers(available, cluster, members[k])
      invariant forall k :: 0 <= k < i ==> available[members[k].id] == Offered(lists, members[k].subscription)
    {
      var list := AvailableTo(lists, members[i].subscription);
      OfferedHolds(lists, cluster, members[i].subscription);
      OneMember(ids, members, i);
      ids := ids + {members[i].id};
      available := available[members[i].id := list];
    }
    AllMembers(ids, members);
    assert forall c :: c in available <==> c in ids;
    assert OfferedFrom(available, lists, members);
  }

  /** What each member may hold is listed topic by topic, in the order of its subscription. */
  ghost predicate OfferedInOrder(available: Held, cluster: Cluster, members: seq<Member>) {
    exists lists :: ListsOf(lists, cluster) && OfferedFrom(available, lists, members)
  }

  ghost predicate OfferedFrom(available: Held, lists: ByTopic, members: seq<Member>) {
    forall m :: m in members ==> m.id in available && available[m.id] == Offered(lists, m.subscription)
  }

  /** These are the ids of the members. */
  ghost predicate Ids(keys: set<Consumer>, members: seq<Member>) {
    forall c :: c in keys <==> IsMember(members, c)
  }

  lemma NoMembers()
    ensures Ids({}, [])
  {
  }

  lemma OneMember(keys: set<Consumer>, members: seq<Member>, i: nat)
    requires i < |members| && Ids(keys, members[..i])
    ensures Ids(keys + {members[i].id}, members[..i + 1])
  {
    assert members[..i + 1] == members[..i] + [members[i]];
    forall c ensures c in keys + {members[i].id} <==> IsMember(members[..i + 1], c) {
      assert c == members[i].id ==> members[i] in members[..i + 1];
    }
  }

  lemma AllMembers(keys: set<Consumer>, members: seq<Member>)
    requires Ids(keys, members[..|members|])
    ensures forall c :: c in keys <==> IsMember(members, c)
  {
    assert members[..|members|] == members;
  }

  // ---------- Who held what ----------

  type Claims = map<TopicPartition, map<int, Consumer>>

  ghost predicate ClaimsAt(m: Member, p: TopicPartition, generation: int) {
    p in m.partitions && m.generation == generation
  }

  /** The member on record as the holder of `p` in a generation: the first to say so, except
      that in generation 0 a later one replaces it. */
  function Claimant(members: seq<Member>, p: TopicPartition, generation: int): Option<Consumer> {
    if members == [] then None else
      var n := |members| - 1;
      var earlier := Claimant(members[..n], p, generation);
      if p in members[n].partitions && members[n].generation == generation && (generation == 0 || earlier.None?)
      then Some(members[n].id) else earlier
  }

  /** The record names a member that made the claim, and there is one whenever some did. */
  lemma {:induction false} ClaimantClaims(members: seq<Member>, p: TopicPartition, generation: int)
    ensures var found := Claimant(members, p, generation);
      && (found.Some? ==> exists m :: m in members && ClaimsAt(m, p, generation) && m.id == found.value)
      && (found.None? ==> forall m :: m in members ==> !ClaimsAt(m, p, generation))
    decreases |members|
  {
    if members != [] {
      var n := |members| - 1;
      assert members == members[..n] + [members[n]];
      ClaimantClaims(members[..n], p, generation);
      assert ClaimsAt(members[n], p, generation) <==> p in members[n].partitions && members[n].generation == generation;
    }
  }

  /** Outside generation 0 the first claim stands, whatever comes after it. */
  lemma {:induction false} FirstClaimStands(members: seq<Member>, p: TopicPartition, generation: int, i: nat)
    requires generation != 0 && i < |members| && ClaimsAt(members[i], p, generation)
    requires forall k :: 0 <= k < i ==> !ClaimsAt(members[k], p, generation)
    ensures Claimant(members, p, generation) == Some(members[i].id)
    decreases |members|
  {
    var n := |members| - 1;
    if i < n {
      FirstClaimStands(members[..n], p, generation, i);
    } else {
      ClaimantClaims(members[..n], p, generation);
    }
  }

  function On(claims: Claims, p: TopicPartition, generation: int): Option<Consumer> {
    if p in claims && generation in claims[p] then Some(claims[p][generation]) else None
  }

  ghost predicate OnRecord(claims: Claims, members: seq<Member>) {
    && (forall p, g :: On(claims, p, g) == Claimant(members, p, g))
    && (forall p :: p in claims ==> claims[p] != map[])
  }

  function Noted(claims: Claims, p: TopicPartition, generation: int, id: Consumer): Claims {
    if p in claims && generation != 0 && generation in claims[p] then claims else
      var earlier: map<int, Consumer> := if p in claims then claims[p] else map[];
      var now: map<int, Consumer> := earlier[generation := id];
      claims[p := now]
  }

  lemma NotedSays(claims: Claims, q: TopicPartition, generation: int, id: Consumer, p: TopicPartition, g: int)
    ensures On(Noted(claims, q, generation, id), p, g) ==
            (if p == q && g == generation && (g == 0 || On(claims, p, g).None?) then Some(id) else On(claims, p, g))
  {
  }

  lemma ClaimantLast(members: seq<Member>, m: Member, p: TopicPartition, g: int)
    ensures Claimant(members + [m], p, g) ==
            (if p in m.partitions && m.generation == g && (g == 0 || Claimant(members, p, g).None?) then Some(m.id)
             else Claimant(members, p, g))
  {
    assert (members + [m])[..|members|] == members;
  }

  /** A member of whose report the first `j` partitions were read. */
  function Read(m: Member, j: nat): Member
    requires j <= |m.partitions|
  {
    m.(partitions := m.partitions[..j])
  }

  lemma NotedKeeps(claims: Claims, members: seq<Member>, m: Member, j: nat)
    requires j < |m.partitions| && OnRecord(claims, members + [Read(m, j)])
    ensures OnRecord(Noted(claims, m.partitions[j], m.generation, m.id), members + [Read(m, j + 1)])
  {
    var after := Noted(claims, m.partitions[j], m.generation, m.id);
    forall p, g ensures On(after, p, g) == Claimant(members + [Read(m, j + 1)], p, g) {
      NotedSays(claims, m.partitions[j], m.generation, m.id, p, g);
      ClaimantLast(members, Read(m, j), p, g);
      ClaimantLast(members, Read(m, j + 1), p, g);
      assert m.partitions[..j + 1] == m.partitions[..j] + [m.partitions[j]];
      assert On(claims, p, g) == Claimant(members + [Read(m, j)], p, g);
    }
    assert m.generation in Noted(claims, m.partitions[j], m.generation, m.id)[m.partitions[j]];
  }

  lemma NothingRead(claims: Claims, members: seq<Member>, m: Member)
    requires OnRecord(claims, members)
    ensures OnRecord(claims, members + [Read(m, 0)])
  {
    forall p, g ensures On(claims, p, g) == Claimant(members + [Read(m, 0)], p, g) {
      ClaimantLast(members, Read(m, 0), p, g);
    }
  }

  /** The members' reports, by partition and generation. */
  method CollectClaims(members: seq<Member>) returns (claims: Claims)
    ensures OnRecord(claims, members)
  {
    hide On, Noted, OnRecord;
    claims := map[];
    NothingOnRecord();
    for i := 0 to |members|
      invariant OnRecord(claims, members[..i])
    {
      var m := members[i];
      NothingRead(claims, members[..i], m);
      for j := 0 to |m.partitions|
        invariant OnRecord(claims, members[..i] + [Read(m, j)])
      {
        NotedKeeps(claims, members[..i], m, j);
        claims := Noted(claims, m.partitions[j], m.generation, m.id);
      }
      assert Read(m, |m.partitions|) == m && members[..i] + [m] == members[..i + 1];
    }
    assert members[..|members|] == members;
  }

  lemma NothingOnRecord()
    ensures OnRecord(map[], [])
  {
  }

  ghost predicate Highest(generations: set<int>, g: int) {
    g in generations && forall h :: h in generations ==> h <= g
  }

  method Latest(generations: set<int>) returns (g: int)
    requires generations != {}
    ensures Highest(generations, g)
  {
    var order := Enumerate(generations);
    g := order[0];
    for i := 0 to |order|
      invariant g in generations && forall k :: 0 <= k < i ==> order[k] <= g
    {
      if order[i] > g {
        g := order[i];
      }
    }
  }

  /** `c` is the claimant of `p` in the latest of these generations. */
  ghost predicate Winner(said: map<int, Consumer>, c: Consumer) {
    exists g :: Highest(said.Keys, g) && said[g] == c
  }

  ghost predicate RunnerUp(said: map<int, Consumer>, c: Consumer) {
    exists g, h :: Highest(said.Keys, g) && Highest(said.Keys - {g}, h) && said[h] == c
  }

  /** The holders of the last two generations. */
  method LastTwo(said: map<int, Consumer>) returns (now: Consumer, before: Option<Consumer>)
    requires said != map[]
    ensures Winner(said, now)
    ensures before.Some? <==> |said| > 1
    ensures before.Some? ==> RunnerUp(said, before.value)
  {
    var latest := Latest(said.Keys);
    now, before := said[latest], None;
    var others := said.Keys - {latest};
    assert |said.Keys| == |said|;
    if others != {} {
      var second := Latest(others);
      before := Some(said[second]);
      assert |others| > 0;
    } else {
      assert said.Keys == {latest};
    }
  }

  /** The current holder of a partition is the claimant of its latest generation, and the
      previous holder that of the generation before, if there is one. */
  method Resolve(claims: Claims) returns (current: Held, owner: Owners, previous: Owners)
    requires forall p :: p in claims ==> claims[p] != map[]
    ensures Mirror(current, owner) && DistinctAll(current) && Owned(current, owner) && NoneIdle(current)
    ensures owner.Keys == claims.Keys && forall p :: p in owner ==> Winner(claims[p], owner[p])
    ensures forall p :: p in previous ==> p in claims && RunnerUp(claims[p], previous[p])
    ensures forall p :: p in claims ==> (p in previous <==> |claims[p]| > 1)
  {
    hide Mirror, DistinctAll, Owned, NoneIdle, Placed, Preceded;
    current, previous := map[], map[];
    ghost var owners: Owners := map[];
    NobodyYet(claims);
    var todo := claims.Keys;
    while todo != {}
      invariant todo <= claims.Keys
      invariant Mirror(current, owners) && DistinctAll(current) && Owned(current, owners) && NoneIdle(current)
      invariant Placed(claims, todo, owners) && Preceded(claims, todo, previous)
      decreases |todo|
    {
      var p :| p in todo;
      var c, before := LastTwo(claims[p]);
      var list := if c in current then current[c] else [];
      PlacedNext(claims, todo, owners, p, c);
      PrecededNext(claims, todo, previous, p, before);
      AppendKeeps(current, owners, p, c);
      current := current[c := list + [p]];
      owners := owners[p := c];
      if before.Some? {
        previous := previous[p := before.value];
      }
      todo := todo - {p};
    }
    PlacedAll(claims, owners, previous);
    owner := OwnersOf(current, owners);
    SameOwners(current, owners, owner);
  }

  /** Outside `todo`, everything claimed is owned by its latest claimant. */
  ghost predicate Placed(claims: Claims, todo: set<TopicPartition>, owner: Owners) {
    && (forall p :: p in owner <==> p in claims && p !in todo)
    && (forall p :: p in owner ==> Winner(claims[p], owner[p]))
  }

  ghost predicate Preceded(claims: Claims, todo: set<TopicPartition>, previous: Owners) {
    && (forall p :: p in previous <==> p in claims && p !in todo && |claims[p]| > 1)
    && (forall p :: p in previous ==> RunnerUp(claims[p], previous[p]))
  }

  lemma PlacedNext(claims: Claims, todo: set<TopicPartition>, owner: Owners, p: TopicPartition, c: Consumer)
    requires Placed(claims, todo, owner) && p in todo && p in claims && Winner(claims[p], c)
    ensures p !in owner && Placed(claims, todo - {p}, owner[p := c])
  {
    hide Winner;
  }

  lemma PrecededNext(claims: Claims, todo: set<TopicPartition>, previous: Owners, p: TopicPartition,
                     before: Option<Consumer>)
    requires Preceded(claims, todo, previous) && p in todo && p in claims && (before.Some? <==> |claims[p]| > 1)
    requires before.Some? ==> RunnerUp(claims[p], before.value)
    ensures Preceded(claims, todo - {p}, if before.Some? then previous[p := before.value] else previous)
  {
    hide RunnerUp;
  }

  lemma PlacedAll(claims: Claims, owner: Owners, previous: Owners)
    requires Placed(claims, {}, owner) && Preceded(claims, {}, previous)
    ensures owner.Keys == claims.Keys && forall p :: p in owner ==> Winner(claims[p], owner[p])
    ensures forall p :: p in previous ==> p in claims && RunnerUp(claims[p], previous[p])
    ensures forall p :: p in claims ==> (p in previous <==> |claims[p]| > 1)
  {
  }

  /** Every owner has a list. */
  ghost predicate Owned(held: Held, owner: Owners) {
    forall p :: p in owner ==> owner[p] in held
  }

  ghost predicate NoneIdle(held: Held) {
    forall c :: c in held ==> held[c] != []
  }

  lemma NobodyYet(claims: Claims)
    ensures Mirror(map[], map[]) && DistinctAll(map[]) && Owned(map[], map[]) && NoneIdle(map[])
    ensures Placed(claims, claims.Keys, map[]) && Preceded(claims, claims.Keys, map[])
  {
  }

  lemma SameOwners(held: Held, owner: Owners, holders: Owners)
    requires Owned(held, owner)
    requires forall p :: p in holders <==> p in owner && owner[p] in held
    requires forall p :: p in holders ==> holders[p] == owner[p]
    ensures holders == owner
  {
  }

  lemma AppendKeeps(held: Held, owner: Owners, p: TopicPartition, c: Consumer)
    requires Mirror(held, owner) && DistinctAll(held) && p !in owner
    requires Owned(held, owner) && NoneIdle(held)
    ensures var list := if c in held then held[c] else [];
      var after := held[c := list + [p]];
      Mirror(after, owner[p := c]) && DistinctAll(after) && Owned(after, owner[p := c]) && NoneIdle(after)
  {
    var list := if c in held then held[c] else [];
    assert p !in list;
    assert Distinct(list + [p]);
  }

  // ---------- What is left to hand out ----------

  /** Whether a consumer with this subscription keeps `p`. */
  predicate Keeps(p: TopicPartition, subscription: seq<string>, known: set<TopicPartition>) {
    p in known && p.topic in subscription
  }

  /** Goes through one consumer's list: what it does not keep, and what is left to hand out
      without what it keeps. */
  method Sift(list: seq<TopicPartition>, subscription: seq<string>, known: set<TopicPartition>,
              waiting: seq<TopicPartition>)
    returns (gone: seq<TopicPartition>, rest: seq<TopicPartition>, revoked: bool, ghost out: set<TopicPartition>)
    requires Distinct(list) && Distinct(waiting)
    ensures forall p :: p in gone <==> p in list && !Keeps(p, subscription, known)
    ensures forall p :: p in out <==> p in list && Keeps(p, subscription, known)
    ensures rest == Excluding(waiting, out)
    ensures revoked <==> exists p :: p in list && p in known && p.topic !in subscription
  {
    hide Excluding, Drop, Distinct;
    gone, rest, revoked, out := [], waiting, false, {};
    ExcludingNothing(waiting, out);
    for i := 0 to |list|
      invariant forall p :: p in gone <==> p in list[..i] && !Keeps(p, subscription, known)
      invariant forall p :: p in out <==> p in list[..i] && Keeps(p, subscription, known)
      invariant rest == Excluding(waiting, out)
      invariant revoked <==> exists p :: p in list[..i] && p in known && p.topic !in subscription
    {
      var p := list[i];
      assert list[..i + 1] == list[..i] + [p];
      if p !in known {
        gone := gone + [p];
      } else if p.topic !in subscription {
        gone, revoked := gone + [p], true;
      } else {
        ExcludingMore(waiting, out, p);
        rest, out := Drop(rest, p), out + {p};
      }
    }
    assert list[..|list|] == list;
  }

  /** One consumer's list: what no longer exists and what it no longer subscribes to goes,
      the rest is kept and need not be handed out. */
  method Review(list: seq<TopicPartition>, subscription: seq<string>, known: set<TopicPartition>,
                waiting: seq<TopicPartition>)
    returns (kept: seq<TopicPartition>, rest: seq<TopicPartition>, revoked: bool)
    requires Distinct(list) && Distinct(waiting) && forall p :: p in list && p in known ==> p in waiting
    ensures Distinct(kept) && forall p :: p in kept <==> p in list && p in known && p.topic in subscription
    ensures Distinct(rest) && forall p :: p in rest <==> p in waiting && p !in kept
    ensures rest == Excluding(waiting, Elements(kept))
    ensures revoked <==> exists p :: p in list && p in known && p.topic !in subscription
  {
    hide Excluding, Drop, Distinct;
    var gone;
    ghost var out;
    gone, rest, revoked, out := Sift(list, subscription, known, waiting);
    ExcludingHolds(waiting, out);
    kept := list;
    for i := 0 to |gone|
      invariant Distinct(kept) && forall p :: p in kept <==> p in list && p !in gone[..i]
    {
      DropTakes(kept, gone[i]);
      kept := Drop(kept, gone[i]);
    }
    assert gone[..|gone|] == gone;
    assert Elements(kept) == out;
  }

  /** Reviews every consumer's list. What remains is an assignment the group allows, and the
      partitions nobody keeps are exactly those left to hand out. */
  method Populate(g: Group, subscriptions: map<Consumer, seq<string>>, current: Held, owner: Owners,
                  sortedPartitions: seq<TopicPartition>)
    returns (held: Held, owners: Owners, unassigned: seq<TopicPartition>, revoked: bool)
    requires Mirror(current, owner) && DistinctAll(current) && Owned(current, owner)
    requires Listing(sortedPartitions, g) && current.Keys <= subscriptions.Keys
    requires forall p, c :: p in g.potentials && c in subscriptions ==>
      (c in g.potentials[p] <==> p.topic in subscriptions[c])
    ensures Consistent(held, owners, g) && held.Keys == current.Keys
    ensures Waiting(unassigned, owners, g)
    ensures forall p :: p in owners <==> p in owner && MayHold(g, owner[p], p)
    ensures forall p :: p in owners ==> owners[p] == owner[p]
    ensures revoked <==> Revoked({}, owner, g)
    ensures unassigned == Excluding(sortedPartitions, owners.Keys)
  {
    hide Excluding, Elements, Mirror, DistinctAll, Reviewed, Left, Revoked, Remaining, Consistent, Waiting, Distinct;
    held, owners, unassigned, revoked := current, owner, sortedPartitions, false;
    var todo := current.Keys;
    NothingReviewed(g, current, owner, sortedPartitions);
    ghost var out: set<TopicPartition> := {};
    ExcludingNothing(sortedPartitions, out);
    while todo != {}
      invariant todo <= current.Keys == held.Keys
      invariant Mirror(held, owners) && DistinctAll(held) && Reviewed(todo, owner, owners, g)
      invariant Left(unassigned, todo, owners, g)
      invariant revoked <==> Revoked(todo, owner, g)
      invariant unassigned == Excluding(sortedPartitions, out)
      decreases |todo|
    {
      var c :| c in todo;
      var list := held[c];
      BeforeReview(held, owners, unassigned, todo, g, c);
      var kept, rest, some := Review(list, subscriptions[c], g.potentials.Keys, unassigned);
      assert forall p :: MayHold(g, c, p) <==> p in g.potentials && p.topic in subscriptions[c];
      assert KeepsAllowed(list, kept, g, c);
      KeptMirror(held, owners, c, kept);
      KeptReviewed(held, owner, owners, todo, g, c, kept);
      KeptLeft(held, owners, unassigned, todo, g, c, kept, rest);
      SomeRevoked(held, owner, owners, todo, g, c, some);
      owners := Remaining(owners, c, kept);
      held := held[c := kept];
      ExcludingTwice(sortedPartitions, out, Elements(kept));
      out := out + Elements(kept);
      unassigned, revoked := rest, revoked || some;
      todo := todo - {c};
    }
    AllReviewed(g, owner, held, owners, unassigned);
    ExcludedAre(g, sortedPartitions, out, owners);
  }

  lemma ExcludedAre(g: Group, list: seq<TopicPartition>, out: set<TopicPartition>, owners: Owners)
    requires Listing(list, g) && Left(Excluding(list, out), {}, owners, g)
    ensures Excluding(list, out) == Excluding(list, owners.Keys)
  {
    ExcludingHolds(list, out);
    ExcludingSame(list, out, owners.Keys);
  }

  /** The owners once `c` is left with `kept`. */
  function Remaining(owners: Owners, c: Consumer, kept: seq<TopicPartition>): Owners {
    map p | p in owners && (owners[p] == c ==> p in kept) :: owners[p]
  }

  /** Outside `todo`, owners are those the group allows; inside, they are as before. */
  ghost predicate Reviewed(todo: set<Consumer>, owner: Owners, owners: Owners, g: Group) {
    && (forall p :: p in owners ==> p in owner && owners[p] == owner[p])
    && (forall p :: p in owner ==> (p in owners <==> owner[p] in todo || MayHold(g, owner[p], p)))
  }

  ghost predicate Left(waiting: seq<TopicPartition>, todo: set<Consumer>, owners: Owners, g: Group) {
    && Distinct(waiting)
    && (forall p :: p in waiting <==> p in g.potentials && (p !in owners || owners[p] in todo))
  }

  ghost predicate Revoked(todo: set<Consumer>, owner: Owners, g: Group) {
    exists p :: p in owner && owner[p] !in todo && p in g.potentials && owner[p] !in g.potentials[p]
  }

  lemma NothingReviewed(g: Group, held: Held, owner: Owners, list: seq<TopicPartition>)
    requires Owned(held, owner) && Listing(list, g)
    ensures Reviewed(held.Keys, owner, owner, g) && Left(list, held.Keys, owner, g) && !Revoked(held.Keys, owner, g)
  {
  }

  lemma BeforeReview(held: Held, owners: Owners, waiting: seq<TopicPartition>, todo: set<Consumer>, g: Group,
                     c: Consumer)
    requires Mirror(held, owners) && DistinctAll(held) && Left(waiting, todo, owners, g) && c in todo && c in held
    ensures Distinct(held[c]) && Distinct(waiting)
    ensures forall p :: p in held[c] && p in g.potentials.Keys ==> p in waiting
  {
  }

  lemma KeptMirror(held: Held, owners: Owners, c: Consumer, kept: seq<TopicPartition>)
    requires Mirror(held, owners) && DistinctAll(held) && c in held && Distinct(kept)
    requires forall p :: p in kept ==> p in held[c]
    ensures Mirror(held[c := kept], Remaining(owners, c, kept)) && DistinctAll(held[c := kept])
  {
  }

  /** What a review keeps is what the group allows. */
  ghost predicate KeepsAllowed(list: seq<TopicPartition>, kept: seq<TopicPartition>, g: Group, c: Consumer) {
    forall p :: p in kept <==> p in list && MayHold(g, c, p)
  }

  lemma KeptReviewed(held: Held, owner: Owners, owners: Owners, todo: set<Consumer>, g: Group, c: Consumer,
                     kept: seq<TopicPartition>)
    requires Mirror(held, owners) && Reviewed(todo, owner, owners, g) && c in todo && c in held
    requires KeepsAllowed(held[c], kept, g, c)
    ensures Reviewed(todo - {c}, owner, Remaining(owners, c, kept), g)
  {
  }

  lemma KeptLeft(held: Held, owners: Owners, waiting: seq<TopicPartition>, todo: set<Consumer>, g: Group, c: Consumer,
                 kept: seq<TopicPartition>, rest: seq<TopicPartition>)
    requires Mirror(held, owners) && Left(waiting, todo, owners, g) && c in todo && c in held
    requires KeepsAllowed(held[c], kept, g, c) && Distinct(rest)
    requires forall p :: p in rest <==> p in waiting && p !in kept
    ensures Left(rest, todo - {c}, Remaining(owners, c, kept), g)
  {
  }

  lemma SomeRevoked(held: Held, owner: Owners, owners: Owners, todo: set<Consumer>, g: Group, c: Consumer, some: bool)
    requires Mirror(held, owners) && Reviewed(todo, owner, owners, g) && c in todo && c in held
    requires some <==> exists p :: p in held[c] && p in g.potentials && c !in g.potentials[p]
    ensures Revoked(todo - {c}, owner, g) <==> Revoked(todo, owner, g) || some
  {
    if some {
      var p :| p in held[c] && p in g.potentials && c !in g.potentials[p];
      assert owner[p] == c;
    }
    if Revoked(todo - {c}, owner, g) && !Revoked(todo, owner, g) {
      var p :| p in owner && owner[p] !in todo - {c} && p in g.potentials && owner[p] !in g.potentials[p];
      assert p in owners && p in held[c];
    }
  }

  lemma AllReviewed(g: Group, owner: Owners, held: Held, owners: Owners, waiting: seq<TopicPartition>)
    requires Mirror(held, owners) && DistinctAll(held) && Reviewed({}, owner, owners, g) && Left(waiting, {}, owners, g)
    ensures Consistent(held, owners, g) && Waiting(waiting, owners, g)
    ensures forall p :: p in owners <==> p in owner && MayHold(g, owner[p], p)
    ensures forall p :: p in owners ==> owners[p] == owner[p]
  {
  }

  // ---------- The assignor ----------

  ghost predicate Subscribes(members: seq<Member>, c: Consumer, topic: string) {
    exists m :: m in members && m.id == c && topic in m.subscription
  }

  /** A member that reports a partition in a generation that is no longer the latest still
      subscribes to it. The source moves partitions back to such a member unasked. */
  ghost predicate EarlierHoldersSubscribe(cluster: Cluster, members: seq<Member>) {
    forall p, g, h :: Exists(cluster, p) && g > h && Claimant(members, p, g).Some? && Claimant(members, p, h).Some? ==>
      Subscribes(members, Claimant(members, p, h).value, p.topic)
  }

  /** Every known partition with a subscriber is held by exactly one member, once; members
      hold only known partitions of topics they subscribe to. */
  ghost predicate Covers(cluster: Cluster, members: seq<Member>, assignment: Held) {
    && (forall c :: c in assignment <==> IsMember(members, c))
    && (forall p, c :: Exists(cluster, p) && Subscribes(members, c, p.topic) ==>
          exists d :: d in assignment && p in assignment[d])
    && (forall c, d, p :: c in assignment && d in assignment && p in assignment[c] && p in assignment[d] ==> c == d)
    && (forall c, p :: c in assignment && p in assignment[c] ==> Exists(cluster, p) && Subscribes(members, c, p.topic))
    && (forall c :: c in assignment ==> Distinct(assignment[c]))
  }

  ghost predicate IsMember(members: seq<Member>, c: Consumer) {
    exists m :: m in members && m.id == c
  }

  method SubscriptionsOf(members: seq<Member>) returns (subscriptions: map<Consumer, seq<string>>)
    requires DistinctIds(members)
    ensures forall c :: c in subscriptions <==> IsMember(members, c)
    ensures forall c, topic :: c in subscriptions ==> (topic in subscriptions[c] <==> Subscribes(members, c, topic))
  {
    hide Ids, Subscribes;
    subscriptions := map[];
    ghost var ids: set<Consumer> := {};
    NoMembers();
    for i := 0 to |members|
      invariant Ids(ids, members[..i]) && subscriptions.Keys == ids
      invariant forall k :: 0 <= k < i ==>
        members[k].id in subscriptions && subscriptions[members[k].id] == members[k].subscription
    {
      OneMember(ids, members, i);
      ids := ids + {members[i].id};
      subscriptions := subscriptions[members[i].id := members[i].subscription];
    }
    AllMembers(ids, members);
    assert forall c :: c in subscriptions <==> c in ids;
    forall c, topic | c in subscriptions ensures topic in subscriptions[c] <==> Subscribes(members, c, topic) {
      SubscriptionIs(members, subscriptions, c, topic);
    }
  }

  lemma SubscriptionIs(members: seq<Member>, subscriptions: map<Consumer, seq<string>>, c: Consumer, topic: string)
    requires IsMember(members, c) && DistinctIds(members) && c in subscriptions
    requires forall k :: 0 <= k < |members| ==>
      members[k].id in subscriptions && subscriptions[members[k].id] == members[k].subscription
    ensures topic in subscriptions[c] <==> Subscribes(members, c, topic)
  {
    var m :| m in members && m.id == c;
    if n :| n in members && n.id == c && topic in n.subscription {
      SameId(members, m, n);
    }
  }

  /** A list for every member, empty for those that report nothing. */
  method EveryMember(held: Held, ghost owner: Owners, members: seq<Member>) returns (current: Held)
    requires Mirror(held, owner) && DistinctAll(held) && Owned(held, owner)
    requires forall c :: c in held ==> IsMember(members, c)
    ensures Mirror(current, owner) && DistinctAll(current) && Owned(current, owner)
    ensures forall c :: c in current <==> IsMember(members, c)
  {
    hide Ids;
    current := held;
    NoMembers();
    ghost var ids: set<Consumer> := {};
    for i := 0 to |members|
      invariant Ids(ids, members[..i]) && current.Keys == held.Keys + ids && Padded(held, current)
    {
      OneMember(ids, members, i);
      if members[i].id !in current {
        current := current[members[i].id := []];
      }
      ids := ids + {members[i].id};
    }
    AllMembers(ids, members);
    assert forall c :: c in current <==> c in held.Keys || c in ids;
    PaddedKeeps(held, current, owner);
  }

  /** `after` has the lists of `held`, and empty ones. */
  ghost predicate Padded(held: Held, after: Held) {
    && held.Keys <= after.Keys
    && forall c :: c in after ==> after[c] == if c in held then held[c] else []
  }

  lemma PaddedKeeps(held: Held, after: Held, owner: Owners)
    requires Mirror(held, owner) && DistinctAll(held) && Owned(held, owner) && Padded(held, after)
    ensures Mirror(after, owner) && DistinctAll(after) && Owned(after, owner)
  {
    forall c, p | c in after && p in after[c] ensures p in owner && owner[p] == c {
      assert c in held;
    }
    forall p | p in owner ensures owner[p] in after && p in after[owner[p]] {
      assert owner[p] in held && owner[p] in held.Keys;
    }
  }

  /** Owners on record are members. */
  lemma OwnersAreMembers(members: seq<Member>, claims: Claims, held: Held, owner: Owners)
    requires OnRecord(claims, members) && Mirror(held, owner) && NoneIdle(held)
    requires owner.Keys == claims.Keys && forall p :: p in owner ==> Winner(claims[p], owner[p])
    ensures forall c :: c in held ==> IsMember(members, c)
  {
    forall c | c in held ensures IsMember(members, c) {
      var p := held[c][0];
      assert p in held[c] && p in owner.Keys;
      var g :| Highest(claims[p].Keys, g) && claims[p][g] == c;
      assert On(claims, p, g) == Some(c);
      ClaimantClaims(members, p, g);
    }
  }

  /** The previous owner on record is a subscriber. */
  lemma PreviousSubscribes(cluster: Cluster, members: seq<Member>, claims: Claims, p: TopicPartition, c: Consumer)
    requires OnRecord(claims, members) && EarlierHoldersSubscribe(cluster, members)
    requires Exists(cluster, p) && p in claims && RunnerUp(claims[p], c)
    ensures c in Subscribers(members, p.topic)
  {
    var g, h :| Highest(claims[p].Keys, g) && Highest(claims[p].Keys - {g}, h) && claims[p][h] == c;
    assert On(claims, p, g).Some? && On(claims, p, h) == Some(c);
    assert Claimant(members, p, g).Some? && Claimant(members, p, h).Some?;
    assert Subscribes(members, Claimant(members, p, h).value, p.topic);
    SubscribersSay(members, p.topic, c);
  }

  /** What was built from the cluster and the members is well formed, if earlier holders still
      subscribe. */
  lemma GroupIsWellFormed(cluster: Cluster, members: seq<Member>, claims: Claims, g: Group)
    requires OnRecord(claims, members)
    requires forall p :: p in g.potentials <==> Exists(cluster, p)
    requires forall p :: p in g.potentials ==> g.potentials[p] == Subscribers(members, p.topic)
    requires forall c :: c in g.available <==> IsMember(members, c)
    requires forall m :: m in members ==> Offers(g.available, cluster, m)
    requires forall p :: p in g.previous ==> p in claims && RunnerUp(claims[p], g.previous[p])
    ensures EarlierHoldersSubscribe(cluster, members) ==> WellFormed(g)
    ensures forall p, c :: MayHold(g, c, p) ==> c in g.available && p in g.available[c]
    ensures forall p, c :: MayHold(g, c, p) <==> Exists(cluster, p) && Subscribes(members, c, p.topic)
  {
    forall p, c ensures MayHold(g, c, p) <==> Exists(cluster, p) && Subscribes(members, c, p.topic) {
      SubscribersSay(members, p.topic, c);
    }
    forall p | p in g.previous && p in g.potentials && EarlierHoldersSubscribe(cluster, members)
      ensures g.previous[p] in g.potentials[p]
    {
      PreviousSubscribes(cluster, members, claims, p, g.previous[p]);
    }
    forall p, c | MayHold(g, c, p) ensures c in g.available && p in g.available[c] {
      var m :| m in members && m.id == c && p.topic in m.subscription;
      assert Offers(g.available, cluster, m);
    }
    forall c, p | c in g.available && p in g.available[c] ensures MayHold(g, c, p) {
      var m :| m in members && m.id == c;
      assert Offers(g.available, cluster, m);
      assert Subscribes(members, c, p.topic);
    }
  }

  lemma CoveredIsCovers(cluster: Cluster, members: seq<Member>, g: Group, held: Held, owner: Owners)
    requires Consistent(held, owner, g) && Covered(owner, g) && held.Keys == g.available.Keys && WellFormed(g)
    requires forall c :: c in g.available <==> IsMember(members, c)
    requires forall p, c :: MayHold(g, c, p) <==> Exists(cluster, p) && Subscribes(members, c, p.topic)
    ensures Covers(cluster, members, held)
  {
    forall c ensures c in held <==> IsMember(members, c) {
      assert c in held.Keys <==> c in g.available.Keys;
    }
    forall c, d, p | c in held && d in held && p in held[c] && p in held[d] ensures c == d {
      assert p in owner && owner[p] == c;
      assert owner[p] == d;
    }
    forall p, c | Exists(cluster, p) && Subscribes(members, c, p.topic) ensures exists d :: d in held && p in held[d] {
      assert MayHold(g, c, p);
      assert MayHold(g, owner[p], p);
      assert owner[p] in held.Keys;
    }
    forall c, p | c in held && p in held[c] ensures Exists(cluster, p) && Subscribes(members, c, p.topic) {
      assert p in owner && owner[p] == c;
      assert MayHold(g, owner[p], p);
    }
  }

  /** Nobody who subscribes to a partition holds two partitions fewer than its holder. */
  ghost predicate Fair(members: seq<Member>, assignment: Held) {
    forall c, d, p :: c in assignment && d in assignment && p in assignment[c] && Subscribes(members, d, p.topic) ==>
      |assignment[c]| <= |assignment[d]| + 1
  }

  lemma SettledIsFair(cluster: Cluster, members: seq<Member>, g: Group, held: Held, owner: Owners)
    requires Consistent(held, owner, g) && Settled(held, owner, g)
    requires forall p, c :: MayHold(g, c, p) <==> Exists(cluster, p) && Subscribes(members, c, p.topic)
    ensures Fair(members, held)
  {
    forall c, d, p | c in held && d in held && p in held[c] && Subscribes(members, d, p.topic)
      ensures |held[c]| <= |held[d]| + 1
    {
      assert p in owner && owner[p] == c;
      assert MayHold(g, owner[p], p);
      assert MayHold(g, d, p);
      assert SettledAt(held, owner, g, p);
    }
  }

  /** The members' reports are a complete, allowed, conflict-free and fair assignment. */
  ghost predicate ReportsSettled(cluster: Cluster, members: seq<Member>) {
    && (forall m, n, p :: m in members && n in members && p in m.partitions && p in n.partitions ==> m == n)
    && (forall m, p :: m in members && p in m.partitions ==> Exists(cluster, p) && p.topic in m.subscription)
    && (forall p, c :: Exists(cluster, p) && Subscribes(members, c, p.topic) ==> Reported(members, p))
    && (forall m, n, p :: m in members && n in members && p in m.partitions && p.topic in n.subscription ==>
          |Elements(m.partitions)| <= |Elements(n.partitions)| + 1)
  }

  ghost predicate Reported(members: seq<Member>, p: TopicPartition) {
    exists m :: m in members && p in m.partitions
  }

  /** Every member holds what it reported. */
  ghost predicate AsReported(members: seq<Member>, held: Held) {
    forall m :: m in members ==> m.id in held && forall p :: p in held[m.id] <==> p in m.partitions
  }

  /** A partition has an owner when somebody reports it, and the owner reports it. */
  lemma OwnerReports(members: seq<Member>, claims: Claims, owner: Owners, p: TopicPartition)
    requires OnRecord(claims, members)
    requires owner.Keys == claims.Keys && forall q :: q in owner ==> Winner(claims[q], owner[q])
    ensures p in owner <==> Reported(members, p)
    ensures p in owner ==> ReportedBy(members, p, owner[p])
  {
    if p in owner.Keys {
      var g :| Highest(claims[p].Keys, g) && claims[p][g] == owner[p];
      assert On(claims, p, g) == Some(owner[p]);
      ClaimantClaims(members, p, g);
    }
    if m :| m in members && p in m.partitions {
      ClaimantClaims(members, p, m.generation);
      assert ClaimsAt(m, p, m.generation);
      assert On(claims, p, m.generation).Some?;
    }
  }

  /** `p` is reported by the member with this id. */
  ghost predicate ReportedBy(members: seq<Member>, p: TopicPartition, c: Consumer) {
    exists m :: m in members && p in m.partitions && m.id == c
  }

  /** What is reported may be kept. */
  lemma ReportedMayHold(cluster: Cluster, members: seq<Member>, g: Group, p: TopicPartition, c: Consumer)
    requires ReportsSettled(cluster, members) && ReportedBy(members, p, c)
    requires forall q, d :: MayHold(g, d, q) <==> Exists(cluster, q) && Subscribes(members, d, q.topic)
    ensures MayHold(g, c, p)
  {
    var m :| m in members && p in m.partitions && m.id == c;
    assert Subscribes(members, m.id, p.topic);
  }

  lemma ListAsReported(cluster: Cluster, members: seq<Member>, owner: Owners, held: Held, m: Member, p: TopicPartition)
    requires ReportsSettled(cluster, members) && Mirror(held, owner) && DistinctIds(members)
    requires m in members && m.id in held
    requires p in owner <==> Reported(members, p)
    requires p in owner ==> ReportedBy(members, p, owner[p])
    ensures p in held[m.id] <==> p in m.partitions
  {
    if p in owner {
      var n :| n in members && p in n.partitions && n.id == owner[p];
      if n.id == m.id {
        SameId(members, m, n);
      }
    }
  }

  lemma KeptAsReported(cluster: Cluster, members: seq<Member>, g: Group, owner: Owners, held: Held, owners: Owners)
    requires ReportsSettled(cluster, members) && Mirror(held, owners) && DistinctIds(members)
    requires forall c :: c in held <==> IsMember(members, c)
    requires forall p :: p in owner ==> ReportedBy(members, p, owner[p])
    requires forall p :: p in owner <==> Reported(members, p)
    requires forall p :: p in owners <==> p in owner && MayHold(g, owner[p], p)
    requires forall p :: p in owners ==> owners[p] == owner[p]
    requires forall p, c :: MayHold(g, c, p) <==> Exists(cluster, p) && Subscribes(members, c, p.topic)
    ensures AsReported(members, held) && owners == owner
  {
    hide ReportsSettled, Mirror, DistinctIds, MayHold, Exists, Subscribes, ReportedBy, Reported;
    forall p | p in owner ensures MayHold(g, owner[p], p) {
      ReportedMayHold(cluster, members, g, p, owner[p]);
    }
    assert owners == owner;
    forall m | m in members ensures m.id in held && forall p :: p in held[m.id] <==> p in m.partitions {
      assert IsMember(members, m.id);
      forall p ensures p in held[m.id] <==> p in m.partitions {
        ListAsReported(cluster, members, owners, held, m, p);
      }
    }
  }

  lemma SameId(members: seq<Member>, m: Member, n: Member)
    requires DistinctIds(members) && m in members && n in members && m.id == n.id
    ensures m == n
  {
    var i :| 0 <= i < |members| && members[i] == m;
    var j :| 0 <= j < |members| && members[j] == n;
  }

  lemma ReportedSizes(members: seq<Member>, held: Held, m: Member)
    requires AsReported(members, held) && DistinctAll(held) && m in members
    ensures m.id in held && |held[m.id]| == |Elements(m.partitions)|
  {
    DistinctSize(held[m.id]);
    assert Elements(held[m.id]) == Elements(m.partitions);
  }

  /** Reports that are settled leave nothing to hand out and nothing to move. */
  lemma ReportsAreSettled(cluster: Cluster, members: seq<Member>, g: Group, held: Held, owner: Owners)
    requires ReportsSettled(cluster, members) && Consistent(held, owner, g) && AsReported(members, held)
    requires forall p :: Reported(members, p) ==> p in owner
    requires forall p, c :: MayHold(g, c, p) <==> Exists(cluster, p) && Subscribes(members, c, p.topic)
    requires forall c :: c in held <==> IsMember(members, c)
    ensures Covered(owner, g) && Settled(held, owner, g)
  {
    forall p | p in g.potentials && g.potentials[p] != [] ensures p in owner {
      assert MayHold(g, g.potentials[p][0], p);
    }
    forall p | p in owner ensures SettledAt(held, owner, g, p) {
      if owner[p] in held {
        var m :| m in members && m.id == owner[p];
        assert p in held[m.id];
        ReportedSizes(members, held, m);
        forall d | d in g.potentials[p] && d in held ensures |held[owner[p]]| <= |held[d]| + 1 {
          assert MayHold(g, d, p);
          var n :| n in members && n.id == d && p.topic in n.subscription;
          ReportedSizes(members, held, n);
        }
      }
    }
  }

  // ---------- Members that subscribe alike ----------

  ghost predicate SameSubscriptions(members: seq<Member>) {
    forall m, n, topic :: m in members && n in members && topic in m.subscription ==> topic in n.subscription
  }

  /** No partition is reported in two generations. */
  ghost predicate OneGeneration(members: seq<Member>) {
    forall m, n, p :: m in members && n in members && p in m.partitions && p in n.partitions ==>
      m.generation == n.generation
  }

  ghost function AllPartitions(cluster: Cluster): set<TopicPartition> {
    set topic, n | topic in cluster && n in cluster[topic] :: TopicPartition(topic, n)
  }

  lemma OneClaim(members: seq<Member>, claims: Claims, p: TopicPartition)
    requires OnRecord(claims, members) && OneGeneration(members) && p in claims
    ensures |claims[p]| <= 1
  {
    forall g, h | g in claims[p] && h in claims[p] ensures g == h {
      assert On(claims, p, g).Some? && On(claims, p, h).Some?;
      ClaimantClaims(members, p, g);
      ClaimantClaims(members, p, h);
    }
    if g :| g in claims[p] {
      assert claims[p].Keys == {g};
      assert |claims[p].Keys| == 1;
    } else {
      assert claims[p].Keys == {};
    }
  }

  lemma OneGenerationSubscribes(cluster: Cluster, members: seq<Member>)
    requires OneGeneration(members)
    ensures EarlierHoldersSubscribe(cluster, members)
  {
    forall p, g, h | g > h && Claimant(members, p, g).Some? && Claimant(members, p, h).Some? ensures false {
      ClaimantClaims(members, p, g);
      ClaimantClaims(members, p, h);
    }
  }

  lemma MembersAlike(cluster: Cluster, members: seq<Member>, g: Group)
    requires SameSubscriptions(members) && g.previous == map[]
    requires forall p, c :: MayHold(g, c, p) <==> Exists(cluster, p) && Subscribes(members, c, p.topic)
    requires forall c :: c in g.available <==> IsMember(members, c)
    ensures Alike(g.available.Keys, g)
  {
    forall p, c | p in g.potentials && |g.potentials[p]| >= 2 && c in g.available.Keys ensures MayHold(g, c, p) {
      assert MayHold(g, g.potentials[p][0], p);
      assert IsMember(members, c);
      assert Subscribes(members, c, p.topic);
    }
  }

  lemma {:induction false} AtMostMembers(members: seq<Member>, ids: set<Consumer>)
    requires forall c :: c in ids ==> IsMember(members, c)
    ensures |ids| <= |members|
    decreases |members|
  {
    if members == [] {
      assert ids == {};
    } else {
      var n := |members| - 1;
      assert members == members[..n] + [members[n]];
      AtMostMembers(members[..n], ids - {members[n].id});
      assert ids <= (ids - {members[n].id}) + {members[n].id};
      SubsetBelow(ids, (ids - {members[n].id}) + {members[n].id});
    }
  }

  lemma BoundsAgree(cluster: Cluster, members: seq<Member>, g: Group)
    requires forall p :: p in g.potentials <==> Exists(cluster, p)
    requires forall c :: c in g.available <==> IsMember(members, c)
    ensures |g.available| * |g.available| * |g.potentials| <= |members| * |members| * |AllPartitions(cluster)|
  {
    AtMostMembers(members, g.available.Keys);
    assert g.potentials.Keys == AllPartitions(cluster);
    assert |g.potentials| == |g.potentials.Keys| && |g.available| == |g.available.Keys|;
    SquareGrows(|g.available|, |members|, |g.potentials|);
  }

  /** Every topic has at most one partition or at most two subscribers. */
  ghost predicate FewSubscribers(cluster: Cluster, members: seq<Member>) {
    forall topic, c, d, e ::
      Subscribes(members, c, topic) && Subscribes(members, d, topic) && Subscribes(members, e, topic) ==>
      c == d || d == e || c == e || OnePartition(cluster, topic)
  }

  ghost predicate OnePartition(cluster: Cluster, topic: string) {
    forall p, q :: Exists(cluster, p) && Exists(cluster, q) && p.topic == topic && q.topic == topic ==> p == q
  }

  lemma FewAreRivals(cluster: Cluster, members: seq<Member>, g: Group)
    requires FewSubscribers(cluster, members)
    requires forall p :: p in g.potentials <==> Exists(cluster, p)
    requires forall p, c :: MayHold(g, c, p) <==> Exists(cluster, p) && Subscribes(members, c, p.topic)
    ensures FewRivals(g)
  {
    hide Exists, Subscribes, MayHold;
  }

  /** The executor before it balances: who may hold what, of the reports what may be kept and
      who is on record as an earlier holder, and all partitions in the order of the source. */
  method Begin(cluster: Cluster, members: seq<Member>)
    returns (executor: Executor, ghost reported: Owners, ghost claims: Claims, ghost deal: Deal)
    requires members != [] && DistinctIds(members)
    ensures fresh(executor) && fresh(executor.movements)
    ensures Ordered(members, executor.group, executor.sortedPartitions, deal) && Mirror(deal.held, reported)
    ensures DistinctAll(deal.held) && Owned(deal.held, reported)
    ensures executor.unassigned == Excluding(executor.sortedPartitions, executor.owner.Keys)
    ensures executor.revocationRequired <==>
      exists p :: p in reported && p in executor.group.potentials && !MayHold(executor.group, reported[p], p)
    ensures OfferedInOrder(executor.group.available, cluster, members)
    ensures forall p :: p in executor.group.potentials <==> Exists(cluster, p)
    ensures forall p :: p in executor.group.potentials ==> executor.group.potentials[p] == Subscribers(members, p.topic)
    ensures forall p, c :: MayHold(executor.group, c, p) <==> Exists(cluster, p) && Subscribes(members, c, p.topic)
    ensures forall c :: c in executor.group.available <==> IsMember(members, c)
    ensures OneGeneration(members) ==> executor.group.previous == map[]
    ensures EarlierHoldersSubscribe(cluster, members) ==> WellFormed(executor.group)
    ensures forall p, c :: MayHold(executor.group, c, p) ==>
      c in executor.group.available && p in executor.group.available[c]
    ensures Consistent(executor.current, executor.owner, executor.group)
    ensures executor.current.Keys == executor.group.available.Keys && executor.current != map[]
    ensures Waiting(executor.unassigned, executor.owner, executor.group)
    ensures Listing(executor.sortedPartitions, executor.group)
    ensures OnRecord(claims, members) && reported.Keys == claims.Keys
    ensures forall p :: p in claims ==> claims[p] != map[]
    ensures forall p :: p in reported ==> Winner(claims[p], reported[p])
    ensures forall p :: p in executor.group.previous ==> p in claims && RunnerUp(claims[p], executor.group.previous[p])
    ensures forall p :: p in claims ==> (p in executor.group.previous <==> |claims[p]| > 1)
    ensures executor.movements.Valid() && executor.movements.moves == map[]
    ensures forall p :: p in reported <==> Reported(members, p)
    ensures forall p :: p in reported ==> ReportedBy(members, p, reported[p])
    ensures forall p :: p in executor.owner <==> p in reported && MayHold(executor.group, reported[p], p)
    ensures forall p :: p in executor.owner ==> executor.owner[p] == reported[p]
  {
    hide OnRecord, Mirror, DistinctAll, Owned, NoneIdle, Winner, RunnerUp, EarlierHoldersSubscribe, WellFormed,
         Consistent, Waiting, MayHold, Listing, Subscribes, IsMember, Exists, Offers, Reported, ReportedBy,
         OneGeneration, Distinct, Ordered, Revoked, Excluding, OfferedInOrder;
    var potentials, available := Initialize(cluster, members);
    var collected := CollectClaims(members);
    claims := collected;
    ClaimsNonempty(claims, members);
    var current, owner, previous := Resolve(collected);
    var isFresh := current == map[];
    FreshIs(members, claims, current, owner);
    OwnersAreMembers(members, claims, current, owner);
    current := EveryMember(current, owner, members);
    var subscriptions := SubscriptionsOf(members);
    var g := Group(potentials, available, previous);
    GroupIsWellFormed(cluster, members, claims, g);
    var order;
    ghost var dealt, sorted;
    order, dealt, sorted := PartitionOrder.PopulateSorted(potentials, available, current, owner, previous, isFresh);
    deal := Deal(current, dealt, sorted);
    OrderedIs(members, g, order, deal, isFresh);
    Ready(cluster, members, g, current, subscriptions, order);
    var held, owners, unassigned, revoked := Populate(g, subscriptions, current, owner, order);
    if OneGeneration(members) {
      NoneBefore(members, claims, previous);
    }
    forall p ensures p in owner <==> Reported(members, p)
      ensures p in owner ==> ReportedBy(members, p, owner[p])
    {
      OwnerReports(members, claims, owner, p);
    }
    executor := new Executor(g, held, owners, order, unassigned, revoked);
    reported := owner;
    RevokedIs(g, owner);
  }

  lemma MemberIs(members: seq<Member>, m: Member)
    requires m in members
    ensures IsMember(members, m.id)
  {
  }

  lemma RevokedIs(g: Group, owner: Owners)
    ensures Revoked({}, owner, g) <==> exists p :: p in owner && p in g.potentials && !MayHold(g, owner[p], p)
  {
  }

  /** The lists that were dealt from, what was dealt, and all partitions sorted. */
  datatype Deal = Deal(held: Held, dealt: seq<TopicPartition>, sorted: seq<TopicPartition>)

  /** The order of the source. When somebody reports something and the dictionaries say the same
      of all partitions and of all members, partitions are dealt from those who report the
      most, and the rest follows sorted; otherwise all are sorted. */
  ghost predicate Ordered(members: seq<Member>, g: Group, list: seq<TopicPartition>, deal: Deal) {
    && PartitionOrder.Known(deal.sorted, g.potentials) && PartitionOrder.Ascending(deal.sorted, g.potentials)
    && list == deal.dealt + PartitionOrder.Lacking(deal.dealt, deal.sorted)
    && (if && (exists p :: Reported(members, p))
           && PartitionOrder.AllEqual(g.potentials) && PartitionOrder.AllEqual(g.available)
        then PartitionOrder.DealtOut(PartitionOrder.AllFiltered(deal.held, g.potentials.Keys), g.previous, deal.dealt)
        else deal.dealt == [] && list == deal.sorted)
  }

  /** Where something differs the list is sorted. */
  lemma SortedIs(members: seq<Member>, g: Group, list: seq<TopicPartition>, deal: Deal)
    requires Ordered(members, g, list, deal)
    requires !PartitionOrder.AllEqual(g.potentials) || !PartitionOrder.AllEqual(g.available)
    ensures PartitionOrder.Known(list, g.potentials) && PartitionOrder.Ascending(list, g.potentials)
  {
  }

  lemma OrderedIs(members: seq<Member>, g: Group, list: seq<TopicPartition>, deal: Deal, isFresh: bool)
    requires isFresh <==> !exists p :: Reported(members, p)
    requires PartitionOrder.Known(deal.sorted, g.potentials) && PartitionOrder.Ascending(deal.sorted, g.potentials)
    requires list == deal.dealt + PartitionOrder.Lacking(deal.dealt, deal.sorted)
    requires if isFresh || !PartitionOrder.AllEqual(g.potentials) || !PartitionOrder.AllEqual(g.available)
             then deal.dealt == []
             else PartitionOrder.DealtOut(PartitionOrder.AllFiltered(deal.held, g.potentials.Keys), g.previous,
                                          deal.dealt)
    ensures Ordered(members, g, list, deal)
  {
    hide PartitionOrder.DealtOut, PartitionOrder.Lacking, PartitionOrder.AllFiltered, PartitionOrder.Ascending,
         PartitionOrder.AllEqual, Reported;
    PartitionOrder.AllLacking(deal.sorted);
  }

  /** Nobody has a list exactly when nobody reports anything. */
  lemma FreshIs(members: seq<Member>, claims: Claims, current: Held, owner: Owners)
    requires OnRecord(claims, members) && Mirror(current, owner) && Owned(current, owner) && NoneIdle(current)
    requires owner.Keys == claims.Keys && forall p :: p in owner ==> Winner(claims[p], owner[p])
    ensures current == map[] <==> !exists p :: Reported(members, p)
  {
    hide OnRecord, Winner, Reported;
    forall p ensures p in owner <==> Reported(members, p) {
      OwnerReports(members, claims, owner, p);
    }
    if p :| p in owner {
      assert owner[p] in current;
    } else {
      assert forall c :: c in current ==> current[c][0] in owner;
      assert current == map[];
    }
  }

  lemma NoneBefore(members: seq<Member>, claims: Claims, previous: Owners)
    requires OnRecord(claims, members) && OneGeneration(members)
    requires forall p :: p in previous ==> p in claims
    requires forall p :: p in claims ==> (p in previous <==> |claims[p]| > 1)
    ensures previous == map[]
  {
    hide OnRecord, OneGeneration;
    forall p | p in claims ensures |claims[p]| <= 1 {
      OneClaim(members, claims, p);
    }
  }

  // ---------- Members with no more than their share ----------

  /** All members name every topic of the cluster, and no topic twice. */
  ghost predicate AllTopics(cluster: Cluster, members: seq<Member>) {
    && (forall m :: m in members ==> Distinct(m.subscription))
    && (forall m, p :: m in members && Exists(cluster, p) ==> p.topic in m.subscription)
  }

  /** All members name them in the same order. */
  ghost predicate AllSubscribe(cluster: Cluster, members: seq<Member>) {
    AllTopics(cluster, members) && forall m, n :: m in members && n in members ==> m.subscription == n.subscription
  }

  ghost predicate EachReportedOnce(cluster: Cluster, members: seq<Member>) {
    && (forall p :: Exists(cluster, p) ==> Reported(members, p))
    && (forall m, n, p ::
          m in members && n in members && Exists(cluster, p) && p in m.partitions && p in n.partitions ==> m == n)
  }

  /** What a member reports of what there is. */
  ghost function KnownOf(cluster: Cluster, m: Member): set<TopicPartition> {
    set p | p in m.partitions && Exists(cluster, p)
  }

  function IdsOf(members: seq<Member>): (r: seq<Consumer>)
    ensures |r| == |members|
  {
    seq(|members|, i requires 0 <= i < |members| => members[i].id)
  }

  lemma {:induction false} SubscribersAre(members: seq<Member>, topic: string)
    requires forall m :: m in members ==> Distinct(m.subscription) && topic in m.subscription
    ensures Subscribers(members, topic) == IdsOf(members)
    decreases |members|
  {
    if members != [] {
      var n := |members| - 1;
      SubscribersAre(members[..n], topic);
      TimesOnce(members[n].id, members[n].subscription, topic);
      assert IdsOf(members) == IdsOf(members[..n]) + [members[n].id];
    }
  }

  lemma PotentialsAlike(cluster: Cluster, members: seq<Member>, g: Group)
    requires AllTopics(cluster, members)
    requires forall p :: p in g.potentials <==> Exists(cluster, p)
    requires forall p :: p in g.potentials ==> g.potentials[p] == Subscribers(members, p.topic)
    ensures forall p :: p in g.potentials ==> g.potentials[p] == IdsOf(members)
    ensures PartitionOrder.AllEqual(g.potentials)
    ensures |members| >= 2 ==> Uncontested(g) == {}
    ensures |members| < 2 ==> Uncontested(g) == g.potentials.Keys
  {
    hide Subscribers, IdsOf, Distinct;
    forall p | p in g.potentials ensures g.potentials[p] == IdsOf(members) {
      SubscribersAre(members, p.topic);
    }
  }

  lemma AvailableAlike(cluster: Cluster, members: seq<Member>, g: Group)
    requires AllSubscribe(cluster, members)
    requires forall c :: c in g.available <==> IsMember(members, c)
    requires OfferedInOrder(g.available, cluster, members)
    ensures PartitionOrder.AllEqual(g.available)
  {
    hide Exists, Distinct, ListsOf, Offered;
    forall c, d | c in g.available && d in g.available ensures g.available[c] == g.available[d] {
      var m :| m in members && m.id == c;
      var n :| n in members && n.id == d;
    }
  }

  /** Every partition is kept by the member that reports it. */
  lemma OwnersReport(cluster: Cluster, members: seq<Member>, g: Group, reported: Owners, owner: Owners)
    requires AllTopics(cluster, members) && EachReportedOnce(cluster, members) && DistinctIds(members)
    requires forall p, c :: MayHold(g, c, p) <==> Exists(cluster, p) && Subscribes(members, c, p.topic)
    requires forall p :: p in reported <==> Reported(members, p)
    requires forall p :: p in reported ==> ReportedBy(members, p, reported[p])
    requires forall p :: p in owner <==> p in reported && MayHold(g, reported[p], p)
    requires forall p :: p in owner ==> owner[p] == reported[p]
    ensures forall p :: p in owner <==> Exists(cluster, p)
    ensures forall m :: m in members ==> HeldBy(owner, m.id) == KnownOf(cluster, m)
  {
    hide MayHold, Exists, Reported, Distinct;
    forall p | Exists(cluster, p) ensures p in owner {
      var m :| m in members && p in m.partitions && m.id == reported[p];
      assert Subscribes(members, reported[p], p.topic);
    }
    forall m | m in members ensures HeldBy(owner, m.id) == KnownOf(cluster, m) {
      forall p ensures p in HeldBy(owner, m.id) <==> p in KnownOf(cluster, m) {
        if p in owner {
          var n :| n in members && p in n.partitions && n.id == owner[p];
          if n.id == m.id {
            SameId(members, m, n);
          }
        }
      }
    }
  }

  lemma LeftIsHeld(cluster: Cluster, g: Group, reported: Owners, owner: Owners, deal: Deal)
    requires Mirror(deal.held, reported) && DistinctAll(deal.held) && Owned(deal.held, reported)
    requires forall p :: p in g.potentials <==> Exists(cluster, p)
    requires forall p :: p in owner <==> Exists(cluster, p)
    requires forall p :: p in owner ==> p in reported && owner[p] == reported[p]
    ensures Keeping.LeftIs(PartitionOrder.AllFiltered(deal.held, g.potentials.Keys), owner, {})
  {
    hide Exists, Distinct;
    var left := PartitionOrder.AllFiltered(deal.held, g.potentials.Keys);
    forall c | c in left ensures Distinct(left[c]) && Elements(left[c]) == HeldBy(owner, c) - {} {
      PartitionOrder.FilteredHolds(deal.held[c], g.potentials.Keys);
      forall p ensures p in Elements(left[c]) <==> p in HeldBy(owner, c) {
        assert p in left[c] <==> p in deal.held[c] && p in g.potentials.Keys;
        if p in owner {
          assert reported[p] in deal.held;
        }
      }
    }
  }

  lemma DealtIsMostFirst(members: seq<Member>, g: Group, list: seq<TopicPartition>, deal: Deal, owner: Owners)
    requires Ordered(members, g, list, deal) && PartitionOrder.AllEqual(g.potentials)
    requires PartitionOrder.AllEqual(g.available)
    requires exists p :: Reported(members, p)
    requires Keeping.LeftIs(PartitionOrder.AllFiltered(deal.held, g.potentials.Keys), owner, {})
    requires forall p :: p in owner <==> p in g.potentials
    ensures Keeping.MostFirst(list, owner)
  {
    hide PartitionOrder.DealtOut, PartitionOrder.AllFiltered, PartitionOrder.AllEqual,
         PartitionOrder.Ascending, Reported, PartitionOrder.Lacking, HeldBy, Distinct, Elements;
    var left := PartitionOrder.AllFiltered(deal.held, g.potentials.Keys);
    forall p | p in deal.sorted ensures p in deal.dealt {
      assert p in owner;
      LeftHolds(left, owner, p);
      Keeping.DealtAll(left, g.previous, deal.dealt, owner[p], p);
    }
    Keeping.NothingLacks(deal.dealt, deal.sorted);
    ConcatNil(deal.dealt);
    forall j, d | 0 <= j < |list| && list[j] in owner
      ensures |HeldBy(owner, d) - Elements(list[..j])| <= |HeldBy(owner, owner[list[j]])|
    {
      Keeping.DealtMostFirst(left, g.previous, list, owner, {}, j, d);
      assert {} + Elements(list[..j]) == Elements(list[..j]);
    }
  }

  lemma LeftHolds(left: Held, owner: Owners, p: TopicPartition)
    requires Keeping.LeftIs(left, owner, {}) && p in owner
    ensures DistinctAll(left) && owner[p] in left && p in left[owner[p]]
  {
    assert p in Elements(left[owner[p]]);
  }

  /** From where the loops begin to where they end, a member with no more than its share loses
      nothing. */
  lemma ShareStays(g: Group, revoked: bool, list: seq<TopicPartition>, passes: nat, trace: Trace, c: Consumer, n: nat)
    requires WellFormed(g) && Consistent(trace.begun.held, trace.begun.owner, g) && Covered(trace.begun.owner, g)
    requires Roomy(trace.begun.held, g) && trace.begun.moves == map[] && Lists(trace.order, trace.begun.held)
    requires Alike(trace.begun.held.Keys, g) && Keeping.MostFirst(list, trace.begun.owner) && Distinct(list)
    requires forall p :: p in list <==> p in g.potentials
    requires forall p :: p in trace.begun.owner <==> p in g.potentials
    requires Uncontested(g) == {} || Uncontested(g) == g.potentials.Keys
    requires TwoLoops(g, revoked, trace.begun, [], trace.middle, Excluding(list, Uncontested(g)), passes, trace.reached)
    requires |trace.begun.held.Keys| <= n && |HeldBy(trace.begun.owner, c)| * n <= |trace.begun.owner|
    ensures forall p :: p in trace.begun.owner && trace.begun.owner[p] == c ==>
      p in trace.reached.owner && trace.reached.owner[p] == c
  {
    hide WellFormed, Consistent, Covered, Roomy, Lists, Alike, Keeping.MostFirst, TwoLoops, Excluding,
         Uncontested, HeldBy, EndsWithin, Distinct;
    var s := trace.begun;
    OneLoop(g, revoked, s, trace.middle, Excluding(list, Uncontested(g)), passes, trace.reached);
    if Uncontested(g) == {} {
      ExcludingNothing(list, Uncontested(g));
      AllContested(g, s, list);
      if p :| p in s.owner && s.owner[p] == c {
        Fewer(|HeldBy(s.owner, c)|, |s.held.Keys|, n);
        Keeping.SmallKeeps(g, s, list, c, passes, trace.reached, trace.order);
      }
    } else {
      ExcludingHolds(list, Uncontested(g));
      SomeListed(Excluding(list, Uncontested(g)));
      NothingToPass(g, s, passes, trace.reached);
    }
  }

  lemma Fewer(r: nat, m: nat, n: nat)
    requires m <= n
    ensures r * m <= r * n
  {
  }

  lemma AllContested(g: Group, s: State, list: seq<TopicPartition>)
    requires WellFormed(g) && Consistent(s.held, s.owner, g) && Covered(s.owner, g) && Roomy(s.held, g)
    requires s.moves == map[]
    requires (forall p :: p in list <==> p in g.potentials) && (forall p :: p in s.owner <==> p in g.potentials)
    requires Uncontested(g) == {}
    ensures Kept(g, s, list) && forall p :: p in s.owner ==> p in list && s.owner[p] in s.held
  {
    hide WellFormed, Consistent, Covered, Roomy;
    NoMovements(s.owner);
    forall p | p in list ensures Movable(s.owner, g, p) {
      assert p !in Uncontested(g);
    }
    forall p | p in s.owner ensures s.owner[p] in s.held {
      MovableParticipates(s.held, s.owner, g, p);
    }
  }

  /** A member that reports no more than its share of the partitions still has all of it. */
  ghost predicate KeepsShare(cluster: Cluster, members: seq<Member>, assignment: Held) {
    forall m, p ::
      m in members && p in KnownOf(cluster, m) && |KnownOf(cluster, m)| * |members| <= |AllPartitions(cluster)| ==>
      m.id in assignment && p in assignment[m.id]
  }

  /** Reports under which that is so. */
  ghost predicate SharesReported(cluster: Cluster, members: seq<Member>) {
    AllSubscribe(cluster, members) && OneGeneration(members) && EachReportedOnce(cluster, members)
  }

  lemma SharesAlike(cluster: Cluster, members: seq<Member>)
    requires AllSubscribe(cluster, members)
    ensures SameSubscriptions(members) && AllTopics(cluster, members)
  {
  }

  /** What `Begin` and `Balance` say of such reports. */
  lemma ShareKept(cluster: Cluster, members: seq<Member>, g: Group, reported: Owners, owner: Owners,
                  list: seq<TopicPartition>, deal: Deal, revoked: bool, passes: nat, trace: Trace, m: Member)
    requires SharesReported(cluster, members) && DistinctIds(members) && m in members && KnownOf(cluster, m) != {}
    requires forall p :: p in g.potentials <==> Exists(cluster, p)
    requires forall p :: p in g.potentials ==> g.potentials[p] == Subscribers(members, p.topic)
    requires forall p, c :: MayHold(g, c, p) <==> Exists(cluster, p) && Subscribes(members, c, p.topic)
    requires forall c :: c in g.available <==> IsMember(members, c)
    requires OfferedInOrder(g.available, cluster, members)
    requires g.previous == map[] && WellFormed(g) && Listing(list, g) && Ordered(members, g, list, deal)
    requires Mirror(deal.held, reported) && DistinctAll(deal.held) && Owned(deal.held, reported)
    requires forall p :: p in reported <==> Reported(members, p)
    requires forall p :: p in reported ==> ReportedBy(members, p, reported[p])
    requires forall p :: p in owner <==> p in reported && MayHold(g, reported[p], p)
    requires forall p :: p in owner ==> owner[p] == reported[p]
    requires Covered(owner, g) ==> trace.begun.owner == owner && Consistent(trace.begun.held, owner, g)
    requires Roomy(trace.begun.held, g) && trace.begun.held.Keys <= g.available.Keys && trace.begun.moves == map[]
    requires Lists(trace.order, trace.begun.held)
    requires TwoLoops(g, revoked, trace.begun, Excluding(Excluding(list, owner.Keys), Uncontested(g)), trace.middle,
                      Excluding(list, Uncontested(g)), passes, trace.reached)
    requires |KnownOf(cluster, m)| * |members| <= |AllPartitions(cluster)|
    ensures forall p :: p in KnownOf(cluster, m) ==> p in trace.reached.owner && trace.reached.owner[p] == m.id
  {
    hide Exists, MayHold, Subscribers, Subscribes, IsMember, Reported, ReportedBy, WellFormed, Consistent,
         Roomy, Lists, TwoLoops, Excluding, Uncontested, Mirror, DistinctAll, Owned, Ordered, OfferedInOrder,
         EachReportedOnce, AllSubscribe, AllTopics, OneGeneration, DistinctIds, AllPartitions, Alike,
         SameSubscriptions, Distinct, Keeping.LeftIs, Keeping.MostFirst, PartitionOrder.AllEqual,
         PartitionOrder.AllFiltered, IdsOf;
    SharesAlike(cluster, members);
    PotentialsAlike(cluster, members, g);
    AvailableAlike(cluster, members, g);
    OwnersReport(cluster, members, g, reported, owner);
    LeftIsHeld(cluster, g, reported, owner, deal);
    var q :| q in KnownOf(cluster, m);
    assert q in owner && q in reported;
    DealtIsMostFirst(members, g, list, deal, owner);
    NothingUnowned(list, g, owner);
    MembersAlike(cluster, members, g);
    AlikeStart(g, trace.begun.held, trace.all, owner);
    AtMostMembers(members, trace.begun.held.Keys);
    CountAll(cluster, owner);
    ListingIs(list, g);
    assert HeldBy(owner, m.id) == KnownOf(cluster, m);
    ShareStays(g, revoked, list, passes, trace, m.id, |members|);
    forall p | p in KnownOf(cluster, m) ensures p in owner && owner[p] == m.id {
      assert p in HeldBy(owner, m.id);
    }
  }

  lemma SharesKept(cluster: Cluster, members: seq<Member>, g: Group, reported: Owners, owner: Owners,
                   list: seq<TopicPartition>, deal: Deal, revoked: bool, passes: nat, trace: Trace, held: Held,
                   owners: Owners)
    requires SharesReported(cluster, members) && DistinctIds(members)
    requires forall p :: p in g.potentials <==> Exists(cluster, p)
    requires forall p :: p in g.potentials ==> g.potentials[p] == Subscribers(members, p.topic)
    requires forall p, c :: MayHold(g, c, p) <==> Exists(cluster, p) && Subscribes(members, c, p.topic)
    requires forall c :: c in g.available <==> IsMember(members, c)
    requires OfferedInOrder(g.available, cluster, members)
    requires g.previous == map[] && WellFormed(g) && Listing(list, g) && Ordered(members, g, list, deal)
    requires Mirror(deal.held, reported) && DistinctAll(deal.held) && Owned(deal.held, reported)
    requires forall p :: p in reported <==> Reported(members, p)
    requires forall p :: p in reported ==> ReportedBy(members, p, reported[p])
    requires forall p :: p in owner <==> p in reported && MayHold(g, reported[p], p)
    requires forall p :: p in owner ==> owner[p] == reported[p]
    requires Covered(owner, g) ==> trace.begun.owner == owner && Consistent(trace.begun.held, owner, g)
    requires Roomy(trace.begun.held, g) && trace.begun.held.Keys <= g.available.Keys && trace.begun.moves == map[]
    requires Lists(trace.order, trace.begun.held)
    requires TwoLoops(g, revoked, trace.begun, Excluding(Excluding(list, owner.Keys), Uncontested(g)), trace.middle,
                      Excluding(list, Uncontested(g)), passes, trace.reached)
    requires Consistent(held, owners, g) && held.Keys == g.available.Keys && owners == trace.reached.owner
    ensures KeepsShare(cluster, members, held)
  {
    hide Exists, MayHold, Subscribers, Subscribes, IsMember, Reported, ReportedBy, WellFormed, Consistent,
         Roomy, Lists, TwoLoops, Excluding, Uncontested, Mirror, DistinctAll, Owned, Ordered, OfferedInOrder,
         AllPartitions, SharesReported, KnownOf, Covered, Listing, DistinctIds;
    forall m, p | m in members && p in KnownOf(cluster, m)
      && |KnownOf(cluster, m)| * |members| <= |AllPartitions(cluster)|
      ensures m.id in held && p in held[m.id]
    {
      ShareKept(cluster, members, g, reported, owner, list, deal, revoked, passes, trace, m);
      MemberIs(members, m);
      OwnedIsHeld(held, owners, g, m.id, p);
    }
  }

  lemma ListingIs(list: seq<TopicPartition>, g: Group)
    requires Listing(list, g)
    ensures Distinct(list) && forall p :: p in list <==> p in g.potentials
  {
  }

  lemma NothingUnowned(list: seq<TopicPartition>, g: Group, owner: Owners)
    requires Listing(list, g) && forall p :: p in g.potentials ==> p in owner
    ensures Excluding(list, owner.Keys) == [] && Excluding(Excluding(list, owner.Keys), Uncontested(g)) == []
    ensures Covered(owner, g)
  {
    hide Excluding;
    ExcludingHolds(list, owner.Keys);
    SomeListed(Excluding(list, owner.Keys));
    ExcludingNothing([], Uncontested(g));
  }

  lemma CountAll(cluster: Cluster, owner: Owners)
    requires forall p :: p in owner <==> Exists(cluster, p)
    ensures |owner| == |AllPartitions(cluster)|
  {
    assert owner.Keys == AllPartitions(cluster);
    assert |owner| == |owner.Keys|;
  }

  /** The whole assignor, for any cluster and any members. Whenever it comes to an end it
      covers; unless its moves were taken back it is fair; reports that are settled already
      come back as they are; and when the members subscribe alike, or every topic has one
      partition or two subscribers, there is always an end, which is not taken back. When all
      list the same topics and every partition is reported once, a member that reports no
      more than its share keeps all of it. */
  method Assign(cluster: Cluster, members: seq<Member>, passes: nat)
    returns (finished: bool, reverted: bool, assignment: Held)
    requires members != [] && DistinctIds(members) && EarlierHoldersSubscribe(cluster, members)
    ensures finished ==> Covers(cluster, members, assignment)
    ensures finished && !reverted ==> Fair(members, assignment)
    ensures ReportsSettled(cluster, members) && passes > 0 ==> finished && AsReported(members, assignment)
    ensures (SameSubscriptions(members) && OneGeneration(members)) || FewSubscribers(cluster, members) ==>
      (passes > |members| * |members| * |AllPartitions(cluster)| ==> finished && !reverted)
    ensures SharesReported(cluster, members) && finished ==> KeepsShare(cluster, members, assignment)
  {
    hide SharesReported, KeepsShare, KnownOf, WellFormed, Consistent, Covered, Covers, Waiting, MayHold,
         Listing, Subscribes, IsMember, Exists, Fair, Settled, ReportsSettled, AsReported, Reported,
         ReportedBy, SameSubscriptions, OneGeneration, AllPartitions, Alike, Sizes, Distinct, DistinctIds,
         EarlierHoldersSubscribe, Subscribers, FewRivals, FewSubscribers, Excluding, Uncontested, TwoLoops,
         HandsOut, TakingPart, Whole, NotBetter, Ordered, OfferedInOrder, OnePartition, OnRecord, Winner,
         RunnerUp, Mirror, DistinctAll, Owned;
    var executor;
    ghost var reported, claims, deal, onDonor, trace;
    executor, reported, claims, deal := Begin(cluster, members);
    ghost var g := executor.group;
    BoundsAgree(cluster, members, g);
    if SharesReported(cluster, members) {
      SharesParts(cluster, members);
    }
    if SameSubscriptions(members) && OneGeneration(members) {
      MembersAlike(cluster, members, g);
    }
    if FewSubscribers(cluster, members) {
      FewAreRivals(cluster, members, g);
    }
    if ReportsSettled(cluster, members) {
      KeptSettled(cluster, members, g, reported, executor.current, executor.owner);
    }
    ghost var owner, list, revoked := executor.owner, executor.sortedPartitions, executor.revocationRequired;
    finished, reverted, onDonor, trace := executor.Balance(passes);
    assignment := executor.current;
    if SharesReported(cluster, members) && finished {
      SharesKept(cluster, members, g, reported, owner, list, deal, revoked, passes, trace, executor.current,
                 executor.owner);
    }
    if finished {
      CoveredIsCovers(cluster, members, g, executor.current, executor.owner);
      if !reverted {
        SettledIsFair(cluster, members, g, executor.current, executor.owner);
      }
    }
  }

  lemma SharesParts(cluster: Cluster, members: seq<Member>)
    requires SharesReported(cluster, members)
    ensures SameSubscriptions(members) && OneGeneration(members)
  {
    SharesAlike(cluster, members);
  }

  lemma OwnedIsHeld(held: Held, owner: Owners, g: Group, c: Consumer, p: TopicPartition)
    requires Consistent(held, owner, g) && p in owner && owner[p] == c && c in held.Keys
    ensures c in held && p in held[c]
  {
  }

  lemma KeptSettled(cluster: Cluster, members: seq<Member>, g: Group, owner: Owners, held: Held, owners: Owners)
    requires ReportsSettled(cluster, members) && Consistent(held, owners, g) && DistinctIds(members)
    requires held.Keys == g.available.Keys && forall c :: c in g.available <==> IsMember(members, c)
    requires forall p :: p in owner ==> ReportedBy(members, p, owner[p])
    requires forall p :: p in owner <==> Reported(members, p)
    requires forall p :: p in owners <==> p in owner && MayHold(g, owner[p], p)
    requires forall p :: p in owners ==> owners[p] == owner[p]
    requires forall p, c :: MayHold(g, c, p) <==> Exists(cluster, p) && Subscribes(members, c, p.topic)
    ensures Covered(owners, g) && Settled(held, owners, g) && AsReported(members, held)
  {
    hide MayHold, Exists, Subscribes, ReportsSettled, IsMember, AsReported, Settled, Covered, DistinctIds,
         Reported, ReportedBy;
    assert forall c :: c in held.Keys <==> c in g.available.Keys;
    ConsistentMirror(held, owners, g);
    KeptAsReported(cluster, members, g, owner, held, owners);
    ReportsAreSettled(cluster, members, g, held, owners);
  }

  lemma ClaimsNonempty(claims: Claims, members: seq<Member>)
    requires OnRecord(claims, members)
    ensures forall p :: p in claims ==> claims[p] != map[]
  {
  }

  lemma Ready(cluster: Cluster, members: seq<Member>, g: Group, current: Held, subscriptions: map<Consumer,
              seq<string>>,
              list: seq<TopicPartition>)
    requires members != [] && Distinct(list) && forall p :: p in list <==> p in g.potentials
    requires forall c :: c in current <==> IsMember(members, c)
    requires forall c :: c in g.available <==> IsMember(members, c)
    requires forall c :: c in subscriptions <==> IsMember(members, c)
    requires forall c, topic :: c in subscriptions ==> (topic in subscriptions[c] <==> Subscribes(members, c, topic))
    requires forall p, c :: MayHold(g, c, p) <==> Exists(cluster, p) && Subscribes(members, c, p.topic)
    requires forall p :: p in g.potentials <==> Exists(cluster, p)
    ensures Listing(list, g) && current.Keys == g.available.Keys == subscriptions.Keys && current != map[]
    ensures forall p, c :: p in g.potentials && c in subscriptions ==>
      (c in g.potentials[p] <==> p.topic in subscriptions[c])
  {
    assert IsMember(members, members[0].id);
    forall p, c | p in g.potentials && c in subscriptions
      ensures c in g.potentials[p] <==> p.topic in subscriptions[c]
    {
      assert MayHold(g, c, p) <==> c in g.potentials[p];
    }
  }

  // ---------- Running the assignor on its own result ----------

  /** The members as they report the assignment in the next rebalance. */
  function Reporting(members: seq<Member>, assignment: Held, generation: int): (r: seq<Member>)
    requires forall m :: m in members ==> m.id in assignment
    ensures |r| == |members|
  {
    seq(|members|, i requires 0 <= i < |members| =>
      members[i].(partitions := assignment[members[i].id], generation := generation))
  }

  lemma ReportingSubscribes(members: seq<Member>, assignment: Held, generation: int, c: Consumer, topic: string)
    requires forall m :: m in members ==> m.id in assignment
    ensures Subscribes(Reporting(members, assignment, generation), c, topic) <==> Subscribes(members, c, topic)
  {
    var after := Reporting(members, assignment, generation);
    if m :| m in members && m.id == c && topic in m.subscription {
      var i :| 0 <= i < |members| && members[i] == m;
      assert after[i] in after;
    }
    if m :| m in after && m.id == c && topic in m.subscription {
      var i :| 0 <= i < |after| && after[i] == m;
      assert members[i] in members;
    }
  }

  /** A member that reports, and the member it was. */
  lemma ReportingMember(members: seq<Member>, assignment: Held, generation: int, m: Member)
    requires forall n :: n in members ==> n.id in assignment
    requires m in Reporting(members, assignment, generation)
    ensures m.id in assignment && m.partitions == assignment[m.id] && m.generation == generation
    ensures exists n :: n in members && n.id == m.id && n.subscription == m.subscription
  {
    var after := Reporting(members, assignment, generation);
    var i :| 0 <= i < |after| && after[i] == m;
    assert members[i] in members;
  }

  lemma MembersAssigned(cluster: Cluster, members: seq<Member>, assignment: Held)
    requires Covers(cluster, members, assignment)
    ensures forall m :: m in members ==> m.id in assignment
  {
    forall m | m in members ensures m.id in assignment {
      assert IsMember(members, m.id);
    }
  }

  lemma ReportingOnce(cluster: Cluster, members: seq<Member>, assignment: Held, generation: int)
    requires DistinctIds(members) && (forall m :: m in members ==> m.id in assignment)
    ensures var after := Reporting(members, assignment, generation);
      DistinctIds(after) && EarlierHoldersSubscribe(cluster, after)
  {
    var after := Reporting(members, assignment, generation);
    forall p, g ensures Claimant(after, p, g).Some? ==> g == generation {
      ClaimantClaims(after, p, g);
      if Claimant(after, p, g).Some? {
        var m :| m in after && ClaimsAt(m, p, g);
        ReportingMember(members, assignment, generation, m);
      }
    }
  }

  lemma ReportingAllowed(cluster: Cluster, members: seq<Member>, assignment: Held, generation: int, m: Member,
                         p: TopicPartition)
    requires Covers(cluster, members, assignment) && (forall k :: k in members ==> k.id in assignment)
    requires DistinctIds(Reporting(members, assignment, generation))
    requires m in Reporting(members, assignment, generation) && p in m.partitions
    ensures Exists(cluster, p) && p.topic in m.subscription
  {
    hide Reporting, Exists;
    var after := Reporting(members, assignment, generation);
    ReportingMember(members, assignment, generation, m);
    ReportingSubscribes(members, assignment, generation, m.id, p.topic);
    var n :| n in after && n.id == m.id && p.topic in n.subscription;
    SameId(after, m, n);
  }

  lemma ReportingComplete(cluster: Cluster, members: seq<Member>, assignment: Held, generation: int,
                          p: TopicPartition, c: Consumer)
    requires Covers(cluster, members, assignment) && (forall m :: m in members ==> m.id in assignment)
    requires Exists(cluster, p) && Subscribes(Reporting(members, assignment, generation), c, p.topic)
    ensures Reported(Reporting(members, assignment, generation), p)
  {
    hide Reporting, Exists;
    ReportingSubscribes(members, assignment, generation, c, p.topic);
    var d :| d in assignment && p in assignment[d];
    ReportingReports(members, assignment, generation, d);
  }

  lemma ReportingFair(cluster: Cluster, members: seq<Member>, assignment: Held, generation: int, m: Member,
                      n: Member, p: TopicPartition)
    requires Covers(cluster, members, assignment) && Fair(members, assignment)
    requires forall k :: k in members ==> k.id in assignment
    requires m in Reporting(members, assignment, generation) && n in Reporting(members, assignment, generation)
    requires p in m.partitions && p.topic in n.subscription
    ensures |Elements(m.partitions)| <= |Elements(n.partitions)| + 1
  {
    hide Reporting, Exists;
    ReportingMember(members, assignment, generation, m);
    ReportingMember(members, assignment, generation, n);
    assert Subscribes(Reporting(members, assignment, generation), n.id, p.topic);
    ReportingSubscribes(members, assignment, generation, n.id, p.topic);
    DistinctSize(m.partitions);
    DistinctSize(n.partitions);
  }

  /** The result of a run that covers and is fair, reported back by the same members, is settled:
      by `Assign` it comes back as it is, so assigning twice is assigning once. */
  lemma OutputIsSettled(cluster: Cluster, members: seq<Member>, assignment: Held, generation: int)
    requires DistinctIds(members) && Covers(cluster, members, assignment) && Fair(members, assignment)
    ensures forall m :: m in members ==> m.id in assignment
    ensures var after := Reporting(members, assignment, generation);
      ReportsSettled(cluster, after) && DistinctIds(after) && EarlierHoldersSubscribe(cluster, after)
  {
    hide Reporting, EarlierHoldersSubscribe, Exists, Fair, Reported, DistinctIds;
    MembersAssigned(cluster, members, assignment);
    ReportingOnce(cluster, members, assignment, generation);
    var after := Reporting(members, assignment, generation);
    forall m, n, p | m in after && n in after && p in m.partitions && p in n.partitions ensures m == n {
      ReportingMember(members, assignment, generation, m);
      ReportingMember(members, assignment, generation, n);
      SameId(after, m, n);
    }
    forall m, p | m in after && p in m.partitions ensures Exists(cluster, p) && p.topic in m.subscription {
      ReportingAllowed(cluster, members, assignment, generation, m, p);
    }
    forall p, c | Exists(cluster, p) && Subscribes(after, c, p.topic) ensures Reported(after, p) {
      ReportingComplete(cluster, members, assignment, generation, p, c);
    }
    forall m, n, p | m in after && n in after && p in m.partitions && p.topic in n.subscription
      ensures |Elements(m.partitions)| <= |Elements(n.partitions)| + 1
    {
      ReportingFair(cluster, members, assignment, generation, m, n, p);
    }
  }

  lemma ReportingReports(members: seq<Member>, assignment: Held, generation: int, c: Consumer)
    requires IsMember(members, c) && forall m :: m in members ==> m.id in assignment
    ensures exists m :: m in Reporting(members, assignment, generation) && m.id == c && m.partitions == assignment[c]
  {
    var n :| n in members && n.id == c;
    var i :| 0 <= i < |members| && members[i] == n;
    assert Reporting(members, assignment, generation)[i] in Reporting(members, assignment, generation);
  }
}
