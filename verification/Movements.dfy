/** The record of partitions moved during one rebalance, and the choice of the partition
    to move so that no two consumers exchange partitions of one topic
    (partition_movements.py). */
module Movements {
  import opened Types

  /** A consumer id, by its rank among the ids in string order. */
  type Consumer = nat

  datatype Pair = Pair(src: Consumer, dst: Consumer)

  type Records = map<TopicPartition, Pair>

  type Owners = map<TopicPartition, Consumer>

  // ---------- What the record means ----------

  /** Some partition of `topic` is recorded as moved by `pair`. */
  ghost predicate Shows(moves: Records, topic: string, pair: Pair) {
    exists p :: p in moves && p.topic == topic && moves[p] == pair
  }

  /** `a` and `b` show that two consumers gave each other partitions of one topic. */
  ghost predicate Exchange(moves: Records, a: TopicPartition, b: TopicPartition) {
    a in moves && b in moves && a.topic == b.topic
    && moves[a].src != moves[a].dst && moves[b] == Pair(moves[a].dst, moves[a].src)
  }

  /** A record names the consumer that holds the partition now, and another one. */
  ghost predicate Current(moves: Records, owner: Owners) {
    forall p :: p in moves ==> p in owner && moves[p].dst == owner[p] && moves[p].src != owner[p]
  }

  ghost predicate NoExchange(moves: Records) {
    forall a, b :: !Exchange(moves, a, b)
  }

  /** The consumer that held `p` when the rebalance began. */
  ghost function Origin(moves: Records, p: TopicPartition, holder: Consumer): Consumer {
    if p in moves then moves[p].src else holder
  }

  /** `q` may be moved to `to` when `p` is asked for: `p` itself, unless a partition of its
      topic was moved from `to` to the origin of `p`; then one of those. */
  ghost predicate MayMove(moves: Records, p: TopicPartition, holder: Consumer, to: Consumer, q: TopicPartition) {
    var back := Pair(to, Origin(moves, p, holder));
    if Shows(moves, p.topic, back) then q in moves && q.topic == p.topic && moves[q] == back else q == p
  }

  /** The record once `q` went from `holder` to `to`: a partition that is back at its origin
      has no record, any other is recorded from its origin. */
  function Recorded(moves: Records, q: TopicPartition, holder: Consumer, to: Consumer): Records {
    if q !in moves then moves[q := Pair(holder, to)]
    else if moves[q].src == to then moves - {q}
    else moves[q := Pair(moves[q].src, to)]
  }

  /** Every allowed move keeps the record current and free of exchanges. */
  lemma MoveKeepsSticky(moves: Records, owner: Owners, p: TopicPartition, to: Consumer, q: TopicPartition)
    requires Current(moves, owner) && NoExchange(moves)
    requires p in owner && to != owner[p] && MayMove(moves, p, owner[p], to, q)
    ensures q in owner && owner[q] != to && q.topic == p.topic
    ensures q in moves ==> moves[q].dst == owner[q]
    ensures var after := Recorded(moves, q, owner[q], to);
      Current(after, owner[q := to]) && NoExchange(after)
  {
    var after := Recorded(moves, q, owner[q], to);
    forall a, b ensures !Exchange(after, a, b) {
      assert !Exchange(moves, a, b);
    }
  }

  /** The partition moved sits on the same donor as the one asked for exactly when that one
      had not moved before, or nothing of its topic went from `to` to its origin. */
  lemma SubstituteOnDonor(moves: Records, owner: Owners, p: TopicPartition, to: Consumer, q: TopicPartition)
    requires Current(moves, owner) && p in owner && MayMove(moves, p, owner[p], to, q)
    ensures q in owner
    ensures owner[q] == owner[p] <==> p !in moves || !Shows(moves, p.topic, Pair(to, moves[p].src))
  {
    if Shows(moves, p.topic, Pair(to, Origin(moves, p, owner[p]))) {
      assert moves[q].dst == owner[q];
    }
  }

  // ---------- The two dictionaries ----------

  type Index = map<string, map<Pair, set<TopicPartition>>>

  predicate Listed(byTopic: Index, topic: string, pair: Pair) {
    topic in byTopic && pair in byTopic[topic]
  }

  function Under(byTopic: Index, topic: string, pair: Pair): set<TopicPartition> {
    if Listed(byTopic, topic, pair) then byTopic[topic][pair] else {}
  }

  ghost predicate Tidy(byTopic: Index) {
    && (forall topic :: topic in byTopic ==> byTopic[topic] != map[])
    && (forall topic, pair :: Listed(byTopic, topic, pair) ==> Under(byTopic, topic, pair) != {})
  }

  /** The index by topic is the exact grouping of the records. */
  ghost predicate Grouped(byTopic: Index, moves: Records) {
    && (forall topic, pair, p {:trigger p in Under(byTopic, topic, pair)} :: p in Under(byTopic, topic, pair) ==>
          p in moves && p.topic == topic && moves[p] == pair)
    && (forall p :: p in moves ==> p in Under(byTopic, p.topic, moves[p]))
  }

  /** A pair is listed for a topic exactly when some partition of it is so recorded. */
  lemma ListedIffShown(byTopic: Index, moves: Records, topic: string, pair: Pair)
    requires Grouped(byTopic, moves) && Tidy(byTopic)
    ensures Listed(byTopic, topic, pair) <==> Shows(moves, topic, pair)
  {
    if Listed(byTopic, topic, pair) {
      var p :| p in Under(byTopic, topic, pair);
      assert Shows(moves, topic, pair);
    }
  }

  /** The index without `p`, and without the groups that this empties. */
  function Without(byTopic: Index, p: TopicPartition, pair: Pair): Index
    requires Listed(byTopic, p.topic, pair)
  {
    var left := byTopic[p.topic][pair] - {p};
    var group := if left == {} then byTopic[p.topic] - {pair} else byTopic[p.topic][pair := left];
    if group == map[] then byTopic - {p.topic} else byTopic[p.topic := group]
  }

  function With(byTopic: Index, p: TopicPartition, pair: Pair): Index {
    var group: map<Pair, set<TopicPartition>> := if p.topic in byTopic then byTopic[p.topic] else map[];
    var members := if pair in group then group[pair] else {};
    byTopic[p.topic := group[pair := members + {p}]]
  }

  lemma WithoutTakes(byTopic: Index, p: TopicPartition, pair: Pair, t: string, other: Pair)
    requires Listed(byTopic, p.topic, pair) && Tidy(byTopic)
    ensures Under(Without(byTopic, p, pair), t, other) ==
            Under(byTopic, t, other) - (if t == p.topic && other == pair then {p} else {})
    ensures Listed(Without(byTopic, p, pair), t, other) ==> Under(Without(byTopic, p, pair), t, other) != {}
  {
    var left := byTopic[p.topic][pair] - {p};
    var group := if left == {} then byTopic[p.topic] - {pair} else byTopic[p.topic][pair := left];
    assert other in group <==> other in byTopic[p.topic] && (other != pair || left != {});
    assert group == map[] ==> other !in group;
  }

  lemma WithPuts(byTopic: Index, p: TopicPartition, pair: Pair, t: string, other: Pair)
    requires Tidy(byTopic)
    ensures Under(With(byTopic, p, pair), t, other) ==
            Under(byTopic, t, other) + (if t == p.topic && other == pair then {p} else {})
    ensures Listed(With(byTopic, p, pair), t, other) ==> Under(With(byTopic, p, pair), t, other) != {}
  {
    assert t == p.topic && other == pair ==> p in Under(With(byTopic, p, pair), t, other);
  }

  lemma WithoutKeeps(byTopic: Index, moves: Records, p: TopicPartition)
    requires Grouped(byTopic, moves) && Tidy(byTopic) && p in moves
    ensures Listed(byTopic, p.topic, moves[p])
    ensures var after := Without(byTopic, p, moves[p]); Grouped(after, moves - {p}) && Tidy(after)
  {
    WithoutListed(byTopic, moves, p);
    WithoutNoEmptyTopic(byTopic, p, moves[p]);
    hide Without, Listed, Under;
    var after := Without(byTopic, p, moves[p]);
    forall t, other
      ensures Under(after, t, other) ==
        Under(byTopic, t, other) - (if t == p.topic && other == moves[p] then {p} else {})
      ensures Listed(after, t, other) ==> Under(after, t, other) != {}
    {
      WithoutTakes(byTopic, p, moves[p], t, other);
    }
    FewerGrouped(byTopic, after, moves, p);
  }

  lemma WithoutListed(byTopic: Index, moves: Records, p: TopicPartition)
    requires Grouped(byTopic, moves) && p in moves
    ensures Listed(byTopic, p.topic, moves[p])
  {
    assert p in Under(byTopic, p.topic, moves[p]);
  }

  lemma WithoutNoEmptyTopic(byTopic: Index, p: TopicPartition, pair: Pair)
    requires Listed(byTopic, p.topic, pair) && Tidy(byTopic)
    ensures forall topic :: topic in Without(byTopic, p, pair) ==> Without(byTopic, p, pair)[topic] != map[]
  {
  }

  lemma FewerGrouped(byTopic: Index, after: Index, moves: Records, p: TopicPartition)
    requires Grouped(byTopic, moves) && p in moves
    requires forall t, other ::
      Under(after, t, other) == Under(byTopic, t, other) - (if t == p.topic && other == moves[p] then {p} else {})
    ensures Grouped(after, moves - {p})
  {
    hide Under;
  }

  lemma MoreGrouped(byTopic: Index, after: Index, moves: Records, p: TopicPartition, pair: Pair)
    requires Grouped(byTopic, moves) && p !in moves
    requires forall t, other ::
      Under(after, t, other) == Under(byTopic, t, other) + (if t == p.topic && other == pair then {p} else {})
    ensures Grouped(after, moves[p := pair])
  {
    hide Under;
  }

  lemma WithNoEmptyTopic(byTopic: Index, p: TopicPartition, pair: Pair)
    requires Tidy(byTopic)
    ensures forall topic :: topic in With(byTopic, p, pair) ==> With(byTopic, p, pair)[topic] != map[]
  {
    assert pair in With(byTopic, p, pair)[p.topic];
  }

  lemma WithKeeps(byTopic: Index, moves: Records, p: TopicPartition, pair: Pair)
    requires Grouped(byTopic, moves) && Tidy(byTopic) && p !in moves
    ensures var after := With(byTopic, p, pair); Grouped(after, moves[p := pair]) && Tidy(after)
  {
    var after := With(byTopic, p, pair);
    WithNoEmptyTopic(byTopic, p, pair);
    hide With, Listed, Under;
    forall t, other
      ensures Under(after, t, other) == Under(byTopic, t, other) + (if t == p.topic && other == pair then {p} else {})
      ensures Listed(after, t, other) ==> Under(after, t, other) != {}
    {
      WithPuts(byTopic, p, pair, t, other);
    }
    MoreGrouped(byTopic, after, moves, p, pair);
  }

  // ---------- The search for cycles ----------

  ghost predicate OccursAt(source: seq<Consumer>, target: seq<Consumer>, i: int) {
    0 <= i <= |source| - |target| && source[i..i + |target|] == target
  }

  /** Whether `target` occurs in `source` as a stretch of consecutive elements. */
  method IsSublist(source: seq<Consumer>, target: seq<Consumer>) returns (found: bool)
    requires target != []
    ensures found <==> exists i :: OccursAt(source, target, i)
  {
    for index := 0 to |source|
      invariant forall i :: 0 <= i < index ==> !OccursAt(source, target, i)
    {
      var stop := if index + |target| <= |source| then index + |target| else |source|;
      if source[index] == target[0] && source[index..stop] == target {
        assert OccursAt(source, target, index);
        return true;
      }
    }
    return false;
  }

  /** Whether a cycle found before is this one, entered at another consumer. */
  method IsSubcycle(cycle: seq<Consumer>, cycles: set<seq<Consumer>>) returns (found: bool)
    requires cycle != []
    ensures found ==> exists known :: known in cycles && |known| == |cycle|
  {
    var superCycle := cycle[..|cycle| - 1] + cycle;
    var todo := cycles;
    while todo != {}
      invariant todo <= cycles
      decreases |todo|
    {
      var known :| known in todo;
      todo := todo - {known};
      if |known| == |cycle| {
        var inside := IsSublist(superCycle, known);
        if inside {
          return true;
        }
      }
    }
    return false;
  }

  /** Follows recorded pairs from `src` towards `dst`, one pair a consumer. The path grows
      by exactly two when `dst` is one step away, and by more on any longer way. */
  method IsLinked(src: Consumer, dst: Consumer, pairs: set<Pair>, before: seq<Consumer>)
    returns (linked: bool, path: seq<Consumer>)
    ensures linked && Pair(src, dst) in pairs ==> path == before + [src, dst]
    ensures linked && Pair(src, dst) !in pairs ==> |path| > |before| + 2
    ensures src != dst && Pair(src, dst) in pairs ==> linked
    ensures src == dst ==> !linked
    decreases pairs
  {
    path := before;
    if src == dst || pairs == {} {
      return false, path;
    }
    if Pair(src, dst) in pairs {
      return true, path + [src, dst];
    }
    var from := set pair | pair in pairs && pair.src == src;
    if from != {} {
      var pair :| pair in from;
      linked, path := IsLinked(pair.dst, dst, pairs - {pair}, path + [pair.src]);
      return;
    }
    return false, path;
  }

  /** The search reports a cycle exactly when two consumers gave to each other: longer
      cycles are found and ignored. */
  method HasCycles(pairs: set<Pair>) returns (found: bool)
    ensures found <==> exists pair :: pair in pairs && pair.src != pair.dst && Pair(pair.dst, pair.src) in pairs
  {
    var cycles: set<seq<Consumer>> := {};
    var todo := pairs;
    while todo != {}
      invariant todo <= pairs
      invariant (exists cycle :: cycle in cycles && |cycle| == 3) <==>
                (exists pair :: pair in pairs - todo && pair.src != pair.dst && Pair(pair.dst, pair.src) in pairs)
      decreases |todo|
    {
      var pair :| pair in todo;
      ghost var done := pairs - todo;
      todo := todo - {pair};
      assert pairs - todo == done + {pair};
      var linked, path := IsLinked(pair.dst, pair.src, pairs - {pair}, [pair.src]);
      if linked {
        assert |path| == 3 <==> Pair(pair.dst, pair.src) in pairs;
        var known := IsSubcycle(path, cycles);
        if !known {
          ghost var was := cycles;
          cycles := cycles + {path};
          assert path in cycles;
          assert forall c :: c in cycles <==> c in was || c == path;
        }
      }
    }
    found := exists cycle :: cycle in cycles && |cycle| == 3;
  }

  class PartitionMovements {
    var byTopic: Index
    var moves: Records

    ghost predicate Valid()
      reads this
    {
      Grouped(byTopic, moves) && Tidy(byTopic)
    }

    constructor ()
      ensures Valid() && moves == map[]
    {
      byTopic, moves := map[], map[];
    }

    method Erase(p: TopicPartition) returns (pair: Pair)
      requires Valid() && p in moves
      modifies this
      ensures Valid() && moves == old(moves) - {p} && pair == old(moves)[p]
    {
      WithoutKeeps(byTopic, moves, p);
      pair := moves[p];
      moves, byTopic := moves - {p}, Without(byTopic, p, pair);
    }

    method Record(p: TopicPartition, pair: Pair)
      requires Valid() && p !in moves
      modifies this
      ensures Valid() && moves == old(moves)[p := pair]
    {
      WithKeeps(byTopic, moves, p, pair);
      moves, byTopic := moves[p := pair], With(byTopic, p, pair);
    }

    /** Records the move of `p`. The holder named is the one on record, as the source asserts. */
    method MovePartition(p: TopicPartition, holder: Consumer, to: Consumer)
      requires Valid() && (p in moves ==> moves[p].dst == holder)
      modifies this
      ensures Valid() && moves == Recorded(old(moves), p, holder, to)
    {
      hide Grouped, Tidy;
      if p in moves {
        var existing := Erase(p);
        assert existing.dst == holder;
        if existing.src != to {
          Record(p, Pair(existing.src, to));
        }
      } else {
        Record(p, Pair(holder, to));
      }
    }

    method PartitionToBeMoved(p: TopicPartition, holder: Consumer, to: Consumer) returns (q: TopicPartition)
      requires Valid() && (p in moves ==> moves[p].dst == holder)
      ensures MayMove(moves, p, holder, to, q)
    {
      if p.topic !in byTopic {
        ListedIffShown(byTopic, moves, p.topic, Pair(to, Origin(moves, p, holder)));
        return p;
      }
      var origin := holder;
      if p in moves {
        assert moves[p].dst == holder;
        origin := moves[p].src;
      }
      var back := Pair(to, origin);
      ListedIffShown(byTopic, moves, p.topic, back);
      if back !in byTopic[p.topic] {
        return p;
      }
      assert Under(byTopic, p.topic, back) != {};
      q :| q in byTopic[p.topic][back];
      assert q in Under(byTopic, p.topic, back);
    }

    /** Reports stickiness exactly when no two consumers exchanged partitions of a topic. */
    method AreSticky() returns (sticky: bool)
      requires Valid()
      ensures sticky <==> NoExchange(moves)
    {
      var todo := byTopic.Keys;
      while todo != {}
        invariant todo <= byTopic.Keys
        invariant forall a, b :: Exchange(moves, a, b) ==> a.topic in todo
        decreases |todo|
      {
        var topic :| topic in todo;
        todo := todo - {topic};
        var cyclic := HasCycles(byTopic[topic].Keys);
        TopicCycles(byTopic, moves, topic);
        if cyclic {
          return false;
        }
      }
      return true;
    }
  }

  /** A topic's listed pairs hold a pair and its reverse exactly when the records do. */
  lemma TopicCycles(byTopic: Index, moves: Records, topic: string)
    requires Grouped(byTopic, moves) && Tidy(byTopic) && topic in byTopic
    ensures var pairs := byTopic[topic].Keys;
      (exists pair :: pair in pairs && pair.src != pair.dst && Pair(pair.dst, pair.src) in pairs) <==>
      (exists a, b :: Exchange(moves, a, b) && a.topic == topic)
  {
    var pairs := byTopic[topic].Keys;
    forall pair ensures pair in pairs <==> Shows(moves, topic, pair) {
      ListedIffShown(byTopic, moves, topic, pair);
    }
    if pair :| pair in pairs && pair.src != pair.dst && Pair(pair.dst, pair.src) in pairs {
      var a :| a in moves && a.topic == topic && moves[a] == pair;
      var b :| b in moves && b.topic == topic && moves[b] == Pair(pair.dst, pair.src);
      assert Exchange(moves, a, b);
    }
    if a, b :| Exchange(moves, a, b) && a.topic == topic {
      assert Shows(moves, topic, moves[a]) && Shows(moves, topic, moves[b]);
    }
  }
}
