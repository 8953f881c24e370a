/** The order in which the sticky assignor takes up partitions (sticky_assignor.py,
    _populate_sorted_partitions): sorted by the number of possible consumers, or, when all
    subscribe alike, dealt from the consumers that hold the most. */
module PartitionOrder {
  import opened Types
  import opened Movements
  import opened SortedSets
  import opened Assignment

  type Potentials = map<TopicPartition, seq<Consumer>>

  // ---------- The comparison ----------

  predicate TextLess(s: string, t: string)
    decreases |s|
  {
    if s == [] || t == [] then s == [] && t != []
    else s[0] < t[0] || (s[0] == t[0] && TextLess(s[1..], t[1..]))
  }

  lemma {:induction false} TextOrder(s: string, t: string, u: string)
    ensures TextLess(s, t) && TextLess(t, u) ==> TextLess(s, u)
    ensures !(TextLess(s, t) && TextLess(t, s)) && (TextLess(s, t) || TextLess(t, s) || s == t)
    decreases |s|
  {
    if s != [] && t != [] {
      assert s == [s[0]] + s[1..] && t == [t[0]] + t[1..];
      TextOrder(s[1..], t[1..], if u == [] then [] else u[1..]);
    }
  }

  /** partitions_comparator_key: number of possible consumers, topic, number. */
  predicate Precedes(potentials: Potentials, p: TopicPartition, q: TopicPartition)
    requires p in potentials && q in potentials
  {
    var m, n := |potentials[p]|, |potentials[q]|;
    m < n || (m == n && (TextLess(p.topic, q.topic) || (p.topic == q.topic && p.partition < q.partition)))
  }

  lemma PrecedesOrder(potentials: Potentials, p: TopicPartition, q: TopicPartition, r: TopicPartition)
    requires p in potentials && q in potentials && r in potentials
    ensures Precedes(potentials, p, q) && Precedes(potentials, q, r) ==> Precedes(potentials, p, r)
    ensures !(Precedes(potentials, p, q) && Precedes(potentials, q, p))
    ensures Precedes(potentials, p, q) || Precedes(potentials, q, p) || p == q
  {
    hide TextLess;
    TextOrder(p.topic, q.topic, r.topic);
    TextOrder(p.topic, p.topic, p.topic);
  }

  ghost predicate Known(list: seq<TopicPartition>, potentials: Potentials) {
    forall p :: p in list ==> p in potentials
  }

  ghost predicate Ascending(list: seq<TopicPartition>, potentials: Potentials)
    requires Known(list, potentials)
  {
    forall i, j :: 0 <= i < j < |list| ==> Precedes(potentials, list[i], list[j])
  }

  /** Precedes all of these. */
  ghost predicate LeastOf(potentials: Potentials, rest: set<TopicPartition>, p: TopicPartition)
    requires p in potentials && rest <= potentials.Keys
  {
    forall q :: q in rest && q != p ==> Precedes(potentials, p, q)
  }

  method Smallest(potentials: Potentials, rest: set<TopicPartition>) returns (least: TopicPartition)
    requires rest != {} && rest <= potentials.Keys
    ensures least in rest && LeastOf(potentials, rest, least)
  {
    hide Precedes;
    least :| least in rest;
    var todo := rest - {least};
    while todo != {}
      invariant todo <= rest && least in rest && least !in todo
      invariant LeastOf(potentials, rest - todo, least)
      decreases |todo|
    {
      var q :| q in todo;
      SmallestNext(potentials, rest - todo, least, q);
      assert rest - (todo - {q}) == rest - todo + {q};
      if Precedes(potentials, q, least) {
        least := q;
      }
      todo := todo - {q};
    }
    assert rest - {} == rest;
  }

  lemma SmallestNext(potentials: Potentials, seen: set<TopicPartition>, least: TopicPartition, q: TopicPartition)
    requires seen <= potentials.Keys && least in seen && q in potentials && LeastOf(potentials, seen, least)
    requires q !in seen
    ensures LeastOf(potentials, seen + {q}, if Precedes(potentials, q, least) then q else least)
  {
    hide Precedes;
    forall r | r in seen ensures Precedes(potentials, q, least) && q != r ==> Precedes(potentials, q, r) {
      PrecedesOrder(potentials, q, least, r);
    }
    PrecedesOrder(potentials, least, q, q);
  }

  /** All partitions, sorted. */
  method SortAll(potentials: Potentials) returns (list: seq<TopicPartition>)
    ensures Known(list, potentials) && Ascending(list, potentials)
    ensures forall p :: p in potentials ==> p in list
  {
    hide Precedes, LeastOf;
    list := [];
    var todo := potentials.Keys;
    while todo != {}
      invariant todo <= potentials.Keys && forall p :: p in list <==> p in potentials && p !in todo
      invariant Ascending(list, potentials) && Below(potentials, list, todo)
      decreases |todo|
    {
      var p := Smallest(potentials, todo);
      AppendAscending(potentials, list, todo, p);
      list, todo := list + [p], todo - {p};
    }
  }

  ghost predicate Below(potentials: Potentials, list: seq<TopicPartition>, rest: set<TopicPartition>)
    requires Known(list, potentials) && rest <= potentials.Keys
  {
    forall p, q :: p in list && q in rest ==> Precedes(potentials, p, q)
  }

  lemma AppendAscending(potentials: Potentials, list: seq<TopicPartition>, rest: set<TopicPartition>, p: TopicPartition)
    requires Known(list, potentials) && rest <= potentials.Keys && p in rest && LeastOf(potentials, rest, p)
    requires Ascending(list, potentials) && Below(potentials, list, rest)
    ensures Known(list + [p], potentials) && Ascending(list + [p], potentials)
    ensures Below(potentials, list + [p], rest - {p})
  {
    hide Precedes;
  }

  lemma AscendingDistinct(list: seq<TopicPartition>, potentials: Potentials)
    requires Known(list, potentials) && Ascending(list, potentials)
    ensures Distinct(list)
  {
    hide Precedes;
    forall i, j | 0 <= i < j < |list| ensures list[i] != list[j] {
      PrecedesOrder(potentials, list[i], list[j], list[i]);
    }
  }

  /** The sorted order is the only one. */
  lemma {:induction false} AscendingUnique(a: seq<TopicPartition>, b: seq<TopicPartition>, potentials: Potentials)
    requires Known(a, potentials) && Known(b, potentials) && Ascending(a, potentials) && Ascending(b, potentials)
    requires forall p :: p in a <==> p in b
    ensures a == b
    decreases |a|
  {
    hide Precedes;
    SomeListed(a);
    SomeListed(b);
    if a != [] && b != [] {
      SameHead(a, b, potentials);
      AscendingDistinct(a, potentials);
      AscendingDistinct(b, potentials);
      assert a == [a[0]] + a[1..] && b == [b[0]] + b[1..];
      forall p ensures p in a[1..] <==> p in b[1..] {
        assert p in a[1..] <==> p in a && p != a[0];
        assert p in b[1..] <==> p in b && p != b[0];
      }
      AscendingUnique(a[1..], b[1..], potentials);
    }
  }

  lemma SameHead(a: seq<TopicPartition>, b: seq<TopicPartition>, potentials: Potentials)
    requires Known(a, potentials) && Known(b, potentials) && Ascending(a, potentials) && Ascending(b, potentials)
    requires a != [] && b != [] && a[0] in b && b[0] in a
    ensures a[0] == b[0]
  {
    hide Precedes;
    var i :| 0 <= i < |a| && a[i] == b[0];
    var j :| 0 <= j < |b| && b[j] == a[0];
    PrecedesOrder(potentials, a[0], b[0], a[0]);
  }

  // ---------- Whether all subscribe alike ----------

  ghost predicate AllEqual<K(!new), V(!new)>(m: map<K, V>) {
    forall x, y :: x in m && y in m ==> m[x] == m[y]
  }

  /** has_identical_list_elements: neighbours are compared. */
  method Identical<K(==,!new), V(==,!new)>(m: map<K, V>) returns (identical: bool)
    ensures identical <==> AllEqual(m)
  {
    var order := Enumerate(m.Keys);
    if order == [] {
      return true;
    }
    for i := 1 to |order|
      invariant forall k :: 0 <= k < i ==> m[order[k]] == m[order[0]]
    {
      if m[order[i]] != m[order[i - 1]] {
        return false;
      }
    }
    return true;
  }

  // ---------- Dealing ----------

  /** The lists of `held` cut down to what is known. */
  function Filtered(list: seq<TopicPartition>, known: set<TopicPartition>): seq<TopicPartition> {
    if list == [] then [] else (if list[0] in known then [list[0]] else []) + Filtered(list[1..], known)
  }

  lemma {:induction false} FilteredHolds(list: seq<TopicPartition>, known: set<TopicPartition>)
    ensures forall p :: p in Filtered(list, known) <==> p in list && p in known
    ensures Distinct(list) ==> Distinct(Filtered(list, known))
    decreases |list|
  {
    if list != [] {
      assert list == [list[0]] + list[1..];
      FilteredHolds(list[1..], known);
    }
  }

  /** What is left to deal: known partitions, each with one consumer and once, none dealt yet. */
  ghost predicate Undealt(left: Held, known: set<TopicPartition>, dealt: seq<TopicPartition>) {
    && DistinctAll(left)
    && (forall c, p :: c in left && p in left[c] ==> p in known && p !in dealt)
    && (forall c, d, p :: c in left && d in left && p in left[c] && p in left[d] ==> c == d)
  }

  function AllFiltered(held: Held, known: set<TopicPartition>): Held {
    map c | c in held :: Filtered(held[c], known)
  }

  lemma StartUndealt(held: Held, owner: Owners, known: set<TopicPartition>)
    requires Mirror(held, owner) && DistinctAll(held)
    ensures Undealt(AllFiltered(held, known), known, [])
  {
    var left := AllFiltered(held, known);
    forall c | c in left ensures Distinct(left[c]) && forall p :: p in left[c] <==> p in held[c] && p in known {
      FilteredHolds(held[c], known);
    }
    forall c, d, p | c in left && d in left && p in left[c] && p in left[d] ensures c == d {
      assert p in held[c] && p in held[d];
      assert owner[p] == c && owner[p] == d;
    }
  }

  lemma DealOne(left: Held, known: set<TopicPartition>, dealt: seq<TopicPartition>, c: Consumer, p: TopicPartition)
    requires Undealt(left, known, dealt) && c in left && p in left[c] && Distinct(dealt)
    requires forall q :: q in dealt ==> q in known
    ensures Undealt(left[c := Drop(left[c], p)], known, dealt + [p])
    ensures Distinct(dealt + [p]) && forall q :: q in dealt + [p] ==> q in known
    ensures |known - Elements(dealt + [p])| < |known - Elements(dealt)|
  {
    hide Drop;
    DropTakes(left[c], p);
    assert known - Elements(dealt + [p]) == known - Elements(dealt) - {p};
    assert p in known - Elements(dealt);
  }

  /** The consumers still in the game, with what they have left; the others have nothing. */
  ghost predicate Current(elements: set<Entry>, left: Held) {
    && (forall e :: e in elements ==> e.consumer in left && e.held == left[e.consumer])
    && forall c :: c in left ==> Entry(c, left[c]) in elements || left[c] == []
  }

  lemma StillCurrent(elements: set<Entry>, left: Held, e: Entry, s: seq<TopicPartition>)
    requires Current(elements, left) && e in elements
    ensures left[e.consumer] == [] ==> Current(elements - {e}, left)
    ensures Current(elements - {e} + {Entry(e.consumer, s)}, left[e.consumer := s])
  {
    var after, now := left[e.consumer := s], elements - {e} + {Entry(e.consumer, s)};
    forall c | c in after ensures Entry(c, after[c]) in now || after[c] == [] {
      if c != e.consumer {
        assert Entry(c, left[c]) in elements || left[c] == [];
      }
    }
  }

  /** `p` is dealt from the consumer with the most left, by size and then by name: one that
      had another owner before if there is such a one, else the last of its list. */
  ghost predicate Dealt(left: Held, previous: Owners, c: Consumer, p: TopicPartition) {
    && c in left && p in left[c]
    && (forall d :: d in left ==> !Less(Key(|left[c]|, c), Key(|left[d]|, d)))
    && ((exists q :: q in left[c] && q in previous) ==> p in previous)
    && (p !in previous ==> p == left[c][|left[c]| - 1])
  }

  /** `list` is dealt in this way until nothing is left. */
  ghost predicate DealtOut(left: Held, previous: Owners, list: seq<TopicPartition>)
    decreases |list|
  {
    if list == [] then forall c :: c in left ==> left[c] == []
    else exists c ::
        Dealt(left, previous, c, list[0]) && DealtOut(left[c := Drop(left[c], list[0])], previous, list[1..])
  }

  /** What is dealt from `left` completes what was dealt from `start`. */
  ghost predicate Completes(start: Held, previous: Owners, list: seq<TopicPartition>, left: Held) {
    forall rest :: DealtOut(left, previous, rest) ==> DealtOut(start, previous, list + rest)
  }

  lemma CompletesNone(start: Held, previous: Owners)
    ensures Completes(start, previous, [], start)
  {
    hide DealtOut;
    forall rest | DealtOut(start, previous, rest) ensures DealtOut(start, previous, [] + rest) {
      ConcatNil(rest);
    }
  }

  lemma CompletesOne(start: Held, previous: Owners, list: seq<TopicPartition>, left: Held, c: Consumer,
                     p: TopicPartition)
    requires Completes(start, previous, list, left) && Dealt(left, previous, c, p)
    ensures Completes(start, previous, list + [p], left[c := Drop(left[c], p)])
  {
    hide Dealt, Drop;
    assert c in left by {
      DealtHolder(left, previous, c, p);
    }
    forall rest | DealtOut(left[c := Drop(left[c], p)], previous, rest)
      ensures DealtOut(start, previous, (list + [p]) + rest)
    {
      assert ([p] + rest)[0] == p && ([p] + rest)[1..] == rest;
      assert DealtOut(left, previous, [p] + rest);
      ConcatAssoc(list, [p], rest);
    }
  }

  lemma DealtHolder(left: Held, previous: Owners, c: Consumer, p: TopicPartition)
    requires Dealt(left, previous, c, p)
    ensures c in left
  {
  }

  lemma LargestDeals(elements: set<Entry>, left: Held, previous: Owners, e: Entry, p: TopicPartition)
    requires Current(elements, left) && IsLast(elements, EntryKey, e) && left[e.consumer] != [] && p in left[e.consumer]
    requires (exists q :: q in left[e.consumer] && q in previous) ==> p in previous
    requires p !in previous ==> p == left[e.consumer][|left[e.consumer]| - 1]
    ensures Dealt(left, previous, e.consumer, p)
  {
    forall d | d in left ensures !Less(Key(|left[e.consumer]|, e.consumer), Key(|left[d]|, d)) {
      assert Entry(d, left[d]) in elements || left[d] == [];
    }
  }

  lemma NothingLeft(left: Held, previous: Owners)
    requires Current({}, left)
    ensures DealtOut(left, previous, [])
  {
  }

  /** One partition of a consumer: one that had another owner before if there is such a one,
      else the last. */
  method Pick(list: seq<TopicPartition>, previous: Owners) returns (p: TopicPartition)
    requires list != []
    ensures p in list
    ensures (exists q :: q in list && q in previous) ==> p in previous
    ensures p !in previous ==> p == list[|list| - 1]
  {
    var moved := set q | q in list && q in previous;
    if moved != {} {
      p :| p in moved;
    } else {
      p := list[|list| - 1];
      assert forall q :: q in list && q in previous ==> q in moved;
    }
  }

  /** Where the dealing stands. */
  ghost predicate Midway(start: Held, previous: Owners, known: set<TopicPartition>, elements: set<Entry>, left: Held,
                         list: seq<TopicPartition>) {
    && Current(elements, left) && Undealt(left, known, list) && Completes(start, previous, list, left)
    && Distinct(list) && forall p :: p in list ==> p in known
  }

  lemma MidwayNext(start: Held, previous: Owners, known: set<TopicPartition>, elements: set<Entry>, left: Held,
                   list: seq<TopicPartition>, e: Entry, p: TopicPartition)
    requires Midway(start, previous, known, elements, left, list) && IsLast(elements, EntryKey, e)
    requires e.consumer in left && p in left[e.consumer]
    requires (exists q :: q in left[e.consumer] && q in previous) ==> p in previous
    requires p !in previous ==> p == left[e.consumer][|left[e.consumer]| - 1]
    ensures var c := e.consumer;
      Midway(start, previous, known, elements - {e} + {Entry(c, Drop(left[c], p))}, left[c := Drop(left[c], p)],
          list + [p])
    ensures |known - Elements(list + [p])| < |known - Elements(list)|
  {
    hide Drop, Undealt, Current, Distinct, Completes, Dealt, Elements, IsLast;
    LastIsElement(elements, e);
    DealOne(left, known, list, e.consumer, p);
    LargestDeals(elements, left, previous, e, p);
    CompletesOne(start, previous, list, left, e.consumer, p);
    StillCurrent(elements, left, e, Drop(left[e.consumer], p));
  }

  lemma MidwayOut(start: Held, previous: Owners, known: set<TopicPartition>, elements: set<Entry>, left: Held,
                  list: seq<TopicPartition>, e: Entry)
    requires Midway(start, previous, known, elements, left, list) && e in elements
    ensures e.consumer in left && e.held == left[e.consumer]
    ensures left[e.consumer] == [] ==> Midway(start, previous, known, elements - {e}, left, list)
  {
    hide Undealt, Distinct, Completes;
    CurrentAt(elements, left, e);
    StillCurrent(elements, left, e, []);
  }

  lemma MidwayStart(held: Held, owner: Owners, previous: Owners, known: set<TopicPartition>)
    requires Mirror(held, owner) && DistinctAll(held)
    ensures var start := AllFiltered(held, known); Midway(start, previous, known, Entries(start), start, [])
  {
    hide Undealt, Current, Completes, AllFiltered, Entries;
    var start := AllFiltered(held, known);
    StartUndealt(held, owner, known);
    CompletesNone(start, previous);
    EntriesCurrent(start);
  }

  lemma MidwayEnd(start: Held, previous: Owners, known: set<TopicPartition>, left: Held, list: seq<TopicPartition>)
    requires Midway(start, previous, known, {}, left, list)
    ensures Distinct(list) && (forall p :: p in list ==> p in known) && DealtOut(start, previous, list)
  {
    hide Undealt, Completes, DealtOut;
    NothingLeft(left, previous);
    CompletesAll(start, previous, list, left);
  }

  /** Takes one partition after another from the consumer with the most left. */
  method Deal(held: Held, ghost owner: Owners, previous: Owners, known: set<TopicPartition>)
    returns (list: seq<TopicPartition>)
    requires Mirror(held, owner) && DistinctAll(held)
    ensures Distinct(list) && forall p :: p in list ==> p in known
    ensures DealtOut(AllFiltered(held, known), previous, list)
  {
    hide Midway, DealtOut, Drop, Entries, Distinct, IsLast, IsFirst, AllFiltered, Elements, Mirror, DistinctAll;
    var left := AllFiltered(held, known);
    ghost var start := left;
    list := [];
    MidwayStart(held, owner, previous, known);
    var consumers := new SortedSet(Entries(left), EntryKey);
    while consumers.elements != {}
      invariant fresh(consumers) && consumers.Valid() && consumers.cachedFirst == None && consumers.key == EntryKey
      invariant Midway(start, previous, known, consumers.elements, left, list)
      decreases |known - Elements(list)|, |consumers.elements|
    {
      ghost var elements := consumers.elements;
      var popped := consumers.PopLast();
      var e := popped.value;
      LastIsElement(elements, e);
      MidwayOut(start, previous, known, elements, left, list, e);
      var c := e.consumer;
      if left[c] != [] {
        var p := Pick(left[c], previous);
        MidwayNext(start, previous, known, elements, left, list, e, p);
        list := list + [p];
        left := left[c := Drop(left[c], p)];
        consumers.Add(Entry(c, left[c]));
      }
    }
    MidwayEnd(start, previous, known, left, list);
  }

  lemma CompletesAll(start: Held, previous: Owners, list: seq<TopicPartition>, left: Held)
    requires Completes(start, previous, list, left) && DealtOut(left, previous, [])
    ensures DealtOut(start, previous, list)
  {
    hide DealtOut;
    assert DealtOut(start, previous, list + []);
    ConcatNil(list);
  }

  lemma LastIsElement(elements: set<Entry>, e: Entry)
    requires IsLast(elements, EntryKey, e)
    ensures e in elements
  {
  }

  lemma CurrentAt(elements: set<Entry>, left: Held, e: Entry)
    requires Current(elements, left) && e in elements
    ensures e.consumer in left && e.held == left[e.consumer]
  {
  }

  lemma EntriesCurrent(left: Held)
    ensures Current(Entries(left), left)
  {
  }

  // ---------- The whole list ----------

  /** The partitions of `rest` that `list` lacks, in their order. */
  function Lacking(list: seq<TopicPartition>, rest: seq<TopicPartition>): seq<TopicPartition> {
    if rest == [] then [] else
      var n := |rest| - 1;
      Lacking(list, rest[..n]) + (if rest[n] in list then [] else [rest[n]])
  }

  lemma LackingNext(list: seq<TopicPartition>, rest: seq<TopicPartition>, i: nat)
    requires i < |rest|
    ensures list + Lacking(list, rest[..i + 1]) ==
            list + Lacking(list, rest[..i]) + (if rest[i] in list then [] else [rest[i]])
  {
    assert rest[..i + 1][..i] == rest[..i];
  }

  /** Appends, in their order, the partitions that are missing. */
  method Fill(dealt: seq<TopicPartition>, rest: seq<TopicPartition>) returns (list: seq<TopicPartition>)
    requires Distinct(dealt) && Distinct(rest)
    ensures Distinct(list) && forall p :: p in list <==> p in dealt || p in rest
    ensures list == dealt + Lacking(dealt, rest)
  {
    hide Lacking;
    list := dealt;
    NothingLacking(dealt);
    for i := 0 to |rest|
      invariant Distinct(list) && forall p :: p in list <==> p in dealt || p in rest[..i]
      invariant list == dealt + Lacking(dealt, rest[..i])
    {
      assert rest[..i + 1] == rest[..i] + [rest[i]];
      LackingNext(dealt, rest, i);
      if rest[i] !in list {
        list := list + [rest[i]];
      }
    }
    assert rest[..|rest|] == rest;
  }

  lemma NothingLacking(list: seq<TopicPartition>)
    ensures list + Lacking(list, []) == list
  {
  }

  /** Whichever way the list is made, it holds every known partition exactly once; it is the
      sorted one unless this is a reassignment in which all subscribe alike. */
  method PopulateSorted(potentials: Potentials, available: Held, held: Held, ghost owner: Owners,
                        previous: Owners, isFresh: bool)
    returns (list: seq<TopicPartition>, ghost dealt: seq<TopicPartition>, ghost sorted: seq<TopicPartition>)
    requires Mirror(held, owner) && DistinctAll(held)
    ensures Distinct(list) && forall p :: p in list <==> p in potentials
    ensures Known(sorted, potentials) && Ascending(sorted, potentials) && list == dealt + Lacking(dealt, sorted)
    ensures if isFresh || !AllEqual(potentials) || !AllEqual(available) then dealt == []
            else DealtOut(AllFiltered(held, potentials.Keys), previous, dealt)
    ensures isFresh || !AllEqual(potentials) || !AllEqual(available) ==>
      Known(list, potentials) && Ascending(list, potentials)
  {
    hide Ascending, Distinct, Mirror, DistinctAll, Lacking, DealtOut;
    var all := SortAll(potentials);
    AscendingDistinct(all, potentials);
    sorted, dealt := all, [];
    var alike := false;
    if !isFresh {
      alike := Identical(potentials);
      if alike {
        alike := Identical(available);
      }
    }
    if !alike {
      list := all;
      AllLacking(all);
      return;
    }
    var first := Deal(held, owner, previous, potentials.Keys);
    list := Fill(first, all);
    dealt := first;
  }

  lemma {:induction false} AllLacking(rest: seq<TopicPartition>)
    ensures [] + Lacking([], rest) == rest
    decreases |rest|
  {
    if rest != [] {
      var n := |rest| - 1;
      AllLacking(rest[..n]);
      assert rest == rest[..n] + [rest[n]];
    }
  }
}
