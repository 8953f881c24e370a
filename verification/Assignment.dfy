/** Assignments of partitions to consumers, as the sticky assignor sees them: who may hold
    what, what it means that the two dictionaries agree, and what one move does. */
module Assignment {
  import opened Types
  import opened Movements
  import opened SortedSets
  import opened Scores

  type Held = map<Consumer, seq<TopicPartition>>

  /** What is fixed during a rebalance: the consumers that may hold a partition, the
      partitions a consumer may hold, and the owner of a partition two generations ago. */
  datatype Group = Group(
    potentials: map<TopicPartition, seq<Consumer>>,
    available: Held,
    previous: map<TopicPartition, Consumer>
  )

  ghost predicate Distinct<T(!new)>(s: seq<T>) {
    forall i, j :: 0 <= i < j < |s| ==> s[i] != s[j]
  }

  ghost predicate MayHold(g: Group, c: Consumer, p: TopicPartition) {
    p in g.potentials && c in g.potentials[p]
  }

  /** The two dictionaries say the same, a topic's partitions share their consumers, and a
      recorded previous owner still subscribes. */
  ghost predicate WellFormed(g: Group) {
    && (forall p, c :: MayHold(g, c, p) ==> c in g.available && p in g.available[c])
    && (forall c, p :: c in g.available && p in g.available[c] ==> MayHold(g, c, p))
    && (forall p, q :: p in g.potentials && q in g.potentials && p.topic == q.topic ==>
          g.potentials[p] == g.potentials[q])
    && (forall p :: p in g.previous && p in g.potentials ==> g.previous[p] in g.potentials[p])
  }

  // ---------- The two dictionaries of an assignment ----------

  /** For the consumers of `held`, the lists and the owners say the same. */
  ghost predicate Mirror(held: Held, owner: Owners) {
    && (forall c, p :: c in held && p in held[c] ==> p in owner && owner[p] == c)
    && (forall p :: p in owner && owner[p] in held ==> p in held[owner[p]])
  }

  ghost predicate DistinctAll(held: Held) {
    forall c :: c in held ==> Distinct(held[c])
  }

  ghost predicate Subscribed(owner: Owners, g: Group) {
    forall p :: p in owner ==> MayHold(g, owner[p], p)
  }

  ghost predicate Consistent(held: Held, owner: Owners, g: Group) {
    Mirror(held, owner) && DistinctAll(held) && Subscribed(owner, g)
  }

  /** Everything that somebody may hold is held. */
  ghost predicate Covered(owner: Owners, g: Group) {
    forall p :: p in g.potentials && g.potentials[p] != [] ==> p in owner
  }

  /** Nobody who may hold `p` holds two partitions fewer than its owner: the balance
      criterion of KIP-54. */
  ghost predicate SettledAt(held: Held, owner: Owners, g: Group, p: TopicPartition) {
    p in owner && p in g.potentials && owner[p] in held ==>
      forall d :: d in g.potentials[p] && d in held ==> |held[owner[p]]| <= |held[d]| + 1
  }

  ghost predicate Settled(held: Held, owner: Owners, g: Group) {
    forall p :: p in owner ==> SettledAt(held, owner, g, p)
  }

  /** What the owners say a consumer holds. */
  function HeldBy(owner: Owners, c: Consumer): set<TopicPartition> {
    set p | p in owner && owner[p] == c
  }

  // ---------- Lists ----------

  /** The list without the first occurrence of `x`. */
  function Drop<T(==)>(s: seq<T>, x: T): (r: seq<T>)
    ensures |r| == if x in s then |s| - 1 else |s|
  {
    if s == [] then [] else if s[0] == x then s[1..] else [s[0]] + Drop(s[1..], x)
  }

  lemma ConsDistinct<T(!new)>(x: T, s: seq<T>)
    requires Distinct(s) && x !in s
    ensures Distinct([x] + s)
  {
  }

  lemma {:induction false} DropTakes<T(!new)>(s: seq<T>, x: T)
    requires Distinct(s)
    ensures Distinct(Drop(s, x))
    ensures forall y :: y in Drop(s, x) <==> y in s && y != x
    decreases |s|
  {
    if s != [] {
      assert s == [s[0]] + s[1..];
      DropTakes(s[1..], x);
      assert s[0] !in Drop(s[1..], x);
      ConsDistinct(s[0], Drop(s[1..], x));
    }
  }

  function Elements<T>(s: seq<T>): set<T> {
    set x | x in s
  }

  lemma {:induction false} DistinctSize<T(!new)>(s: seq<T>)
    ensures |Elements(s)| <= |s|
    ensures Distinct(s) ==> |Elements(s)| == |s|
    decreases |s|
  {
    if s == [] {
      assert Elements(s) == {};
    } else {
      DistinctSize(s[1..]);
      assert Elements(s) == {s[0]} + Elements(s[1..]);
      assert Distinct(s) ==> s[0] !in Elements(s[1..]);
    }
  }

  lemma SomeListed<T(!new)>(s: seq<T>)
    ensures s != [] ==> exists x :: x in s
  {
    if s != [] {
      assert s[0] in s;
    }
  }

  lemma SubsetSize<T>(a: set<T>, b: set<T>)
    requires a <= b && |a| >= |b|
    ensures a == b
  {
    assert b == a + (b - a);
  }

  /** A list without repetitions, no shorter than a list that holds all its elements, holds
      all the elements of that list. */
  lemma FullList<T(!new)>(s: seq<T>, t: seq<T>)
    requires Distinct(s) && |s| >= |t| && forall x :: x in s ==> x in t
    ensures forall x :: x in t ==> x in s
  {
    DistinctSize(s);
    DistinctSize(t);
    assert Elements(s) <= Elements(t);
    SubsetSize(Elements(s), Elements(t));
    forall x | x in t ensures x in s {
      assert x in Elements(s);
    }
  }

  /** The elements of a set in some order. */
  method Enumerate<T(==,!new)>(s: set<T>) returns (order: seq<T>)
    ensures Distinct(order) && (forall x :: x in order <==> x in s) && |order| == |s|
  {
    order := [];
    var todo := s;
    while todo != {}
      invariant todo <= s && Distinct(order) && |order| + |todo| == |s|
      invariant forall x :: x in order <==> x in s && x !in todo
      decreases |todo|
    {
      var x :| x in todo;
      order, todo := order + [x], todo - {x};
    }
  }

  /** The owners that the lists name, one pass over all of them. */
  method OwnersOf(held: Held, ghost owner: Owners) returns (holders: Owners)
    requires Mirror(held, owner)
    ensures forall p :: p in holders <==> p in owner && owner[p] in held
    ensures forall p :: p in holders ==> holders[p] == owner[p]
  {
    holders := map[];
    var todo := held.Keys;
    while todo != {}
      invariant todo <= held.Keys
      invariant forall p :: p in holders <==> p in owner && owner[p] in held && owner[p] !in todo
      invariant forall p :: p in holders ==> holders[p] == owner[p]
      decreases |todo|
    {
      var c :| c in todo;
      var list := held[c];
      for i := 0 to |list|
        invariant forall p :: p in holders <==> p in list[..i] || (p in owner && owner[p] in held && owner[p] !in todo)
        invariant forall p :: p in holders ==> p in owner && holders[p] == owner[p]
      {
        holders := holders[list[i] := c];
      }
      todo := todo - {c};
    }
  }

  // ---------- One move ----------

  /** The lists once `q` went from `a` to the end of the list of `b`. */
  function Shift(held: Held, q: TopicPartition, a: Consumer, b: Consumer): Held
    requires a in held && b in held && a != b
  {
    held[a := Drop(held[a], q)][b := held[b] + [q]]
  }

  lemma ShiftKeepsMirror(held: Held, owner: Owners, q: TopicPartition, b: Consumer)
    requires Mirror(held, owner) && DistinctAll(held)
    requires q in owner && owner[q] in held && b in held && b != owner[q]
    ensures Mirror(Shift(held, q, owner[q], b), owner[q := b])
    ensures DistinctAll(Shift(held, q, owner[q], b))
  {
    hide Drop;
    DropTakes(held[owner[q]], q);
    assert q !in held[b];
    assert Distinct(held[b] + [q]);
  }

  // ---------- The ordered index ----------

  datatype Entry = Entry(consumer: Consumer, held: seq<TopicPartition>)

  function EntryKey(e: Entry): Key {
    Key(|e.held|, e.consumer)
  }

  function Entries(held: Held): (r: set<Entry>)
    ensures forall e :: e in r <==> e.consumer in held && e.held == held[e.consumer]
  {
    set c | c in held :: Entry(c, held[c])
  }

  lemma EntriesWithout(held: Held, c: Consumer)
    requires c in held
    ensures Entries(held - {c}) == Entries(held) - {Entry(c, held[c])}
  {
  }

  lemma EntriesWith(held: Held, c: Consumer, s: seq<TopicPartition>)
    requires c !in held
    ensures Entries(held[c := s]) == Entries(held) + {Entry(c, s)}
  {
  }

  lemma EntriesReplaced(held: Held, c: Consumer, s: seq<TopicPartition>)
    requires c in held
    ensures Entries(held[c := s]) == Entries(held) - {Entry(c, held[c])} + {Entry(c, s)}
  {
    hide Entries;
    EntriesWithout(held, c);
    EntriesWith(held - {c}, c, s);
    assert (held - {c})[c := s] == held[c := s];
  }

  /** Taking two consumers out of the index and putting them back with their new lists
      gives the index of the moved assignment. */
  lemma ShiftedEntries(held: Held, q: TopicPartition, a: Consumer, b: Consumer)
    requires a in held && b in held && a != b
    ensures var after := Shift(held, q, a, b);
      Entries(after) ==
          Entries(held) - {Entry(a, held[a])} - {Entry(b, held[b])} + {Entry(b, after[b])} + {Entry(a, after[a])}
  {
    hide Entries, Drop;
    var after := Shift(held, q, a, b);
    var middle := held[a := after[a]];
    EntriesReplaced(held, a, after[a]);
    EntriesReplaced(middle, b, after[b]);
    assert Entry(a, after[a]) != Entry(b, held[b]) && Entry(a, held[a]) != Entry(b, after[b]);
  }

  // ---------- The score ----------

  /** The consumers of an assignment in some order. */
  ghost predicate Lists(order: seq<Consumer>, held: Held) {
    Distinct(order) && forall c :: c in order <==> c in held
  }

  function Sizes(order: seq<Consumer>, held: Held): (r: seq<int>)
    requires forall c :: c in order ==> c in held
    ensures |r| == |order|
  {
    seq(|order|, i requires 0 <= i < |order| => |held[order[i]]|)
  }

  /** A move from a consumer that holds at least two more lowers the score. */
  lemma ShiftLowersScore(order: seq<Consumer>, held: Held, q: TopicPartition, a: Consumer, b: Consumer)
    requires Lists(order, held) && a in held && b in held && q in held[a]
    requires |held[a]| >= |held[b]| + 2
    ensures Lists(order, Shift(held, q, a, b))
    ensures Score(Sizes(order, Shift(held, q, a, b))) < Score(Sizes(order, held))
  {
    hide Score, Drop;
    var i :| 0 <= i < |order| && order[i] == a;
    var j :| 0 <= j < |order| && order[j] == b;
    assert Sizes(order, Shift(held, q, a, b)) == Moved(Sizes(order, held), i, j);
    MoveLowersScore(Sizes(order, held), i, j);
  }
}
