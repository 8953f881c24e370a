/** The executor of the sticky assignor (sticky_assignor.py): it hands out what nobody
    holds, sets aside what cannot change, moves partitions while that improves the
    balance, and takes the moves back when they did not. */
module Sticky {
  import opened Types
  import opened Movements
  import opened SortedSets
  import opened Scores
  import opened Assignment

  // ---------- The test for balance ----------

  ghost predicate Level(held: Held) {
    forall c, d :: c in held && d in held ==> |held[c]| <= |held[d]| + 1
  }

  /** No partition that `d` may hold is with a consumer that holds more than `d`. */
  ghost predicate ExhaustedAt(held: Held, owner: Owners, g: Group, d: Consumer)
    requires d in held
  {
    forall p :: MayHold(g, d, p) && p !in held[d] && p in owner && owner[p] in held ==> |held[owner[p]]| <= |held[d]|
  }

  ghost predicate Exhausted(held: Held, owner: Owners, g: Group) {
    forall d :: d in held ==> ExhaustedAt(held, owner, g, d)
  }

  ghost predicate Balanced(held: Held, owner: Owners, g: Group) {
    Level(held) || Exhausted(held, owner, g)
  }

  /** Whichever way the test says yes, the criterion of KIP-54 holds for every partition. */
  lemma BalancedIsSettled(held: Held, owner: Owners, g: Group, p: TopicPartition)
    requires Balanced(held, owner, g) && Mirror(held, owner)
    ensures SettledAt(held, owner, g, p)
  {
    if p in owner && p in g.potentials && owner[p] in held {
      forall d | d in g.potentials[p] && d in held ensures |held[owner[p]]| <= |held[d]| + 1 {
        assert MayHold(g, d, p);
      }
    }
  }

  // ---------- What the reassignment loop does ----------

  datatype State = State(held: Held, owner: Owners, moves: Records)

  /** One move: `q` went from its owner to `to`, and nothing else changed. */
  ghost predicate Step(held: Held, owner: Owners, after: Held, owners: Owners, q: TopicPartition, to: Consumer) {
    && q in owner && owner[q] in held && to in held && to != owner[q]
    && after == Shift(held, q, owner[q], to) && owners == owner[q := to]
  }

  ghost predicate Moves(s: State, q: TopicPartition, to: Consumer, t: State) {
    Step(s.held, s.owner, t.held, t.owner, q, to) && t.moves == Recorded(s.moves, q, s.owner[q], to)
  }

  /** The owner of `p` holds at least two more than `d`. */
  ghost predicate Lighter(s: State, p: TopicPartition, d: Consumer) {
    p in s.owner && s.owner[p] in s.held && d in s.held && |s.held[s.owner[p]]| > |s.held[d]| + 1
  }

  /** `to` comes first in ascending order among those that may hold `p`. */
  ghost predicate Least(held: Held, g: Group, p: TopicPartition, to: Consumer) {
    && to in held && MayHold(g, to, p)
    && forall d :: d in held && MayHold(g, d, p) ==> !Less(Key(|held[d]|, d), Key(|held[to]|, to))
  }

  /** Where the loop sends `p`: back to its previous owner if that one is lighter, else to the
      least consumer if any is lighter. */
  ghost predicate Target(g: Group, s: State, p: TopicPartition, to: Consumer) {
    if p in g.previous && Lighter(s, p, g.previous[p]) then to == g.previous[p]
    else (exists d :: MayHold(g, d, p) && Lighter(s, p, d)) && Least(s.held, g, p, to)
  }

  /** The loop's turn at `p`. */
  ghost predicate Turn(g: Group, s: State, p: TopicPartition, t: State, moved: bool) {
    if moved then exists to, q :: Target(g, s, p, to) && MayMove(s.moves, p, Holder(s, p), to, q) && Moves(s, q, to, t)
    else t == s && forall to :: !Target(g, s, p, to)
  }

  ghost function Holder(s: State, p: TopicPartition): Consumer {
    if p in s.owner then s.owner[p] else 0
  }

  /** One pass over the list, up to its end or to a balanced assignment. */
  ghost predicate PassOf(g: Group, s: State, list: seq<TopicPartition>, t: State, modified: bool)
    decreases |list|
  {
    if list == [] || Balanced(s.held, s.owner, g) then t == s && !modified
    else exists m, moved, later ::
      Turn(g, s, list[0], m, moved) && PassOf(g, m, list[1..], t, later) && modified == (moved || later)
  }

  /** A pass that is not over takes its first turn and goes on from there. */
  lemma NextTurn(g: Group, s: State, list: seq<TopicPartition>, t: State, modified: bool)
    returns (m: State, moved: bool, later: bool)
    requires PassOf(g, s, list, t, modified) && list != [] && !Balanced(s.held, s.owner, g)
    ensures Turn(g, s, list[0], m, moved) && PassOf(g, m, list[1..], t, later) && modified == (moved || later)
  {
    hide Turn, Balanced;
    m, moved, later :|
        Turn(g, s, list[0], m, moved) && PassOf(g, m, list[1..], t, later) && modified == (moved || later);
  }

  /** The loop ends in `t` after at most `n` passes, the last of which changed nothing. */
  ghost predicate EndsWithin(g: Group, s: State, list: seq<TopicPartition>, n: nat, t: State)
    decreases n
  {
    n > 0 && exists m, modified ::
      PassOf(g, s, list, m, modified) && (if modified then EndsWithin(g, m, list, n - 1, t) else m == t)
  }

  ghost predicate Ends(g: Group, s: State, list: seq<TopicPartition>, n: nat) {
    exists t :: EndsWithin(g, s, list, n, t)
  }

  /** The loop is in `t` after `n` passes that all moved something. */
  ghost predicate Runs(g: Group, s: State, list: seq<TopicPartition>, n: nat, t: State)
    decreases n
  {
    if n == 0 then t == s else exists m :: Runs(g, s, list, n - 1, m) && PassOf(g, m, list, t, true)
  }

  lemma RunsOn(g: Group, s: State, list: seq<TopicPartition>, n: nat, m: State, t: State)
    requires Runs(g, s, list, n, m) && PassOf(g, m, list, t, true)
    ensures Runs(g, s, list, n + 1, t)
  {
    hide PassOf;
  }

  /** A pass that reached `m` with `rest` to go completes a pass from `s`. */
  ghost predicate Continues(g: Group, s: State, list: seq<TopicPartition>, m: State, rest: seq<TopicPartition>,
                            modified: bool) {
    forall t, later :: PassOf(g, m, rest, t, later) ==> PassOf(g, s, list, t, modified || later)
  }

  lemma ContinuesFrom(g: Group, s: State, list: seq<TopicPartition>)
    ensures Continues(g, s, list, s, list[0..], false)
  {
    hide PassOf;
    assert list[0..] == list;
  }

  lemma ContinuesTurn(g: Group, s: State, list: seq<TopicPartition>, m: State, rest: seq<TopicPartition>,
                      modified: bool,
                      next: State, moved: bool)
    requires Continues(g, s, list, m, rest, modified) && rest != [] && !Balanced(m.held, m.owner, g)
    requires Turn(g, m, rest[0], next, moved)
    ensures Continues(g, s, list, next, rest[1..], modified || moved)
  {
    hide Turn, Balanced;
    forall t, later | PassOf(g, next, rest[1..], t, later) ensures PassOf(g, s, list, t, modified || moved || later) {
      assert PassOf(g, m, rest, t, moved || later);
      assert PassOf(g, s, list, t, modified || (moved || later));
    }
  }

  lemma ContinuesToEnd(g: Group, s: State, list: seq<TopicPartition>, m: State, rest: seq<TopicPartition>,
                       modified: bool)
    requires Continues(g, s, list, m, rest, modified) && (rest == [] || Balanced(m.held, m.owner, g))
    ensures PassOf(g, s, list, m, modified)
  {
    assert PassOf(g, m, rest, m, false);
    assert PassOf(g, s, list, m, modified || false);
  }

  /** A loop from `s` with `n` passes that reached `m` with `left` to go: every pass so far moved
      something, and what it comes to from there is what it comes to from `s`. */
  ghost predicate Loops(g: Group, s: State, list: seq<TopicPartition>, n: nat, m: State, left: nat) {
    && left <= n && Runs(g, s, list, n - left, m)
    && forall t :: EndsWithin(g, m, list, left, t) ==> EndsWithin(g, s, list, n, t)
  }

  lemma LoopsFrom(g: Group, s: State, list: seq<TopicPartition>, n: nat)
    ensures Loops(g, s, list, n, s, n)
  {
    hide EndsWithin;
  }

  lemma LoopsOn(g: Group, s: State, list: seq<TopicPartition>, n: nat, m: State, left: nat, next: State, modified: bool)
    requires Loops(g, s, list, n, m, left) && left > 0 && PassOf(g, m, list, next, modified)
    ensures if modified then Loops(g, s, list, n, next, left - 1) else EndsWithin(g, s, list, n, next)
  {
    hide PassOf;
    if modified {
      RunsOn(g, s, list, n - left, m, next);
      forall t | EndsWithin(g, next, list, left - 1, t) ensures EndsWithin(g, s, list, n, t) {
        assert EndsWithin(g, m, list, left, t);
      }
    } else {
      assert EndsWithin(g, m, list, left, next);
    }
  }

  lemma LoopsOut(g: Group, s: State, list: seq<TopicPartition>, n: nat, m: State)
    requires Loops(g, s, list, n, m, 0)
    ensures Runs(g, s, list, n, m)
  {
  }

  lemma NothingToPass(g: Group, s: State, n: nat, t: State)
    requires EndsWithin(g, s, [], n, t)
    ensures t == s
  {
  }

  // ---------- Groups whose members subscribe alike ----------

  /** Everyone of `all` may hold whatever more than one may hold, and nobody held anything in
      an earlier generation. */
  ghost predicate Alike(all: set<Consumer>, g: Group) {
    && g.previous == map[]
    && forall p, c :: p in g.potentials && |g.potentials[p]| >= 2 && c in all ==> MayHold(g, c, p)
  }

  /** No consumer that received a partition holds two more than another. */
  ghost predicate Settling(s: State) {
    forall p, d :: p in s.moves && p in s.owner && s.owner[p] in s.held && d in s.held ==>
      |s.held[s.owner[p]]| <= |s.held[d]| + 1
  }

  /** Then what moved stays, so whatever is asked to move moves itself, to the least consumer of
      all, and the receiver settles too. */
  lemma AlikeMoves(g: Group, s: State, p: TopicPartition, to: Consumer, q: TopicPartition, t: State)
    requires Alike(s.held.Keys, g) && Settling(s) && Current(s.moves, s.owner) && Mirror(s.held, s.owner)
    requires p in g.potentials && |g.potentials[p]| >= 2 && p in s.owner
    requires Target(g, s, p, to) && MayMove(s.moves, p, s.owner[p], to, q) && Moves(s, q, to, t)
    ensures q == p && Settling(t)
  {
    hide Drop;
    var d :| MayHold(g, d, p) && Lighter(s, p, d);
    assert Least(s.held, g, p, to);
    var c := s.owner[p];
    assert forall x :: x in s.held ==> MayHold(g, x, p);
    assert forall x :: x in s.held ==> |s.held[to]| <= |s.held[x]|;
    assert |s.held[c]| > |s.held[to]| + 1;
    assert p !in s.moves;
    assert p in s.held[c];
    assert |t.held[c]| == |s.held[c]| - 1 && |t.held[to]| == |s.held[to]| + 1;
    forall r, x | r in t.moves && r in t.owner && t.owner[r] in t.held && x in t.held
      ensures |t.held[t.owner[r]]| <= |t.held[x]| + 1
    {
      if r != p {
        assert r in s.moves && s.owner[r] == t.owner[r] && s.owner[r] != c;
      }
    }
  }

  // ---------- Groups with few rivals ----------

  /** A topic with more than one partition has at most two possible consumers. */
  ghost predicate FewRivals(g: Group) {
    forall p: TopicPartition, q: TopicPartition, c, d, e ::
      p != q && p.topic == q.topic && q in g.potentials && MayHold(g, c, p) && MayHold(g, d, p) && MayHold(g, e, p) ==>
        c == d || d == e || c == e
  }

  /** Then a substitute is with the consumer that was found to hold too many. */
  lemma FewOnDonor(g: Group, owner: Owners, p: TopicPartition, to: Consumer, q: TopicPartition)
    requires WellFormed(g) && Subscribed(owner, g) && FewRivals(g)
    requires p in owner && MayHold(g, to, p) && to != owner[p]
    requires q in owner && q.topic == p.topic && to != owner[q]
    ensures owner[q] == owner[p]
  {
    assert MayHold(g, owner[p], p) && MayHold(g, owner[q], q);
    assert MayHold(g, owner[q], p);
  }

  // ---------- Who takes part ----------

  /** Every consumer that competes for a partition takes part. */
  ghost predicate Roomy(held: Held, g: Group) {
    forall p, c :: MayHold(g, c, p) && |g.potentials[p]| >= 2 ==> c in held
  }

  /** Whether a consumer can give or receive a partition. */
  ghost predicate Participates(list: seq<TopicPartition>, g: Group, c: Consumer)
    requires c in g.available
  {
    |list| < |g.available[c]| || exists p :: p in list && p in g.potentials && |g.potentials[p]| >= 2
  }

  /** A consumer with as many partitions as it may hold holds all of them. */
  lemma FullHolder(held: Held, owner: Owners, g: Group, c: Consumer)
    requires WellFormed(g) && Consistent(held, owner, g)
    requires c in held && c in g.available && |held[c]| >= |g.available[c]|
    ensures forall p :: MayHold(g, c, p) ==> p in held[c]
  {
    forall x | x in held[c] ensures x in g.available[c] {
      assert x in owner && owner[x] == c;
      assert MayHold(g, owner[x], x);
    }
    FullList(held[c], g.available[c]);
  }

  /** A consumer that competes for some partition takes part. */
  lemma RivalsParticipate(held: Held, owner: Owners, g: Group, p: TopicPartition, c: Consumer)
    requires WellFormed(g) && Consistent(held, owner, g)
    requires MayHold(g, c, p) && |g.potentials[p]| >= 2 && c in held
    ensures c in g.available && Participates(held[c], g, c)
  {
    if |held[c]| >= |g.available[c]| {
      FullHolder(held, owner, g, c);
    }
  }

  lemma ConsistentMirror(held: Held, owner: Owners, g: Group)
    requires Consistent(held, owner, g)
    ensures Mirror(held, owner)
  {
  }

  lemma TwoRivals(g: Group, p: TopicPartition, c: Consumer, d: Consumer)
    requires MayHold(g, c, p) && MayHold(g, d, p) && c != d
    ensures |g.potentials[p]| >= 2
  {
    var i :| 0 <= i < |g.potentials[p]| && g.potentials[p][i] == c;
    var j :| 0 <= j < |g.potentials[p]| && g.potentials[p][j] == d;
  }

  /** A partition that `d` may hold and does not hold is held by one who takes part. */
  lemma OtherOwner(held: Held, owner: Owners, g: Group, d: Consumer, p: TopicPartition)
    requires Consistent(held, owner, g) && Covered(owner, g) && Roomy(held, g)
    requires d in held && MayHold(g, d, p) && p !in held[d]
    ensures p in owner && owner[p] in held
  {
    assert MayHold(g, owner[p], p);
    TwoRivals(g, p, d, owner[p]);
  }

  // ---------- The executor ----------

  class Executor {
    const group: Group
    var current: Held
    var owner: Owners
    var index: SortedSet<Entry>
    const movements: PartitionMovements
    var sortedPartitions: seq<TopicPartition>
    var unassigned: seq<TopicPartition>
    var revocationRequired: bool

    /** The index holds exactly the consumers taking part, with their lists. */
    ghost predicate Indexed()
      reads this, index
    {
      index.Valid() && index.key == EntryKey && index.elements == Entries(current)
    }

    /** No topic shows an exchange, and records name present owners. */
    ghost predicate Logged()
      reads this, movements
    {
      movements.Valid() && Current(movements.moves, owner) && NoExchange(movements.moves)
    }

    ghost function Snapshot(): State
      reads this, movements
    {
      State(current, owner, movements.moves)
    }

    ghost predicate Sound()
      reads this, index, movements
    {
      && WellFormed(group) && Consistent(current, owner, group) && Covered(owner, group) && Roomy(current, group)
      && current.Keys <= group.available.Keys && Indexed() && Logged()
    }

    constructor (group: Group, current: Held, owner: Owners, sortedPartitions: seq<TopicPartition>,
                 unassigned: seq<TopicPartition>, revocationRequired: bool)
      ensures this.group == group && this.current == current && this.owner == owner
      ensures this.sortedPartitions == sortedPartitions && this.unassigned == unassigned
      ensures this.revocationRequired == revocationRequired
      ensures fresh(index) && fresh(movements) && movements.Valid() && movements.moves == map[]
    {
      this.group, this.current, this.owner := group, current, owner;
      this.sortedPartitions, this.unassigned, this.revocationRequired :=
          sortedPartitions, unassigned, revocationRequired;
      index := new SortedSet({}, EntryKey);
      movements := new PartitionMovements();
    }

    /** One consumer's part of the test: whether it has all it may hold, or could only get
        partitions from consumers that hold no more. */
    method NothingToGain(c: Consumer, holders: Owners) returns (nothing: bool)
      requires WellFormed(group) && Consistent(current, owner, group) && Covered(owner, group) && Roomy(current, group)
      requires c in current && c in group.available
      requires forall p :: p in holders <==> p in owner && owner[p] in current
      requires forall p :: p in holders ==> holders[p] == owner[p]
      ensures nothing <==> ExhaustedAt(current, owner, group, c)
    {
      var list := group.available[c];
      if |current[c]| == |list| {
        FullHolder(current, owner, group, c);
        return true;
      }
      assert forall p :: MayHold(group, c, p) <==> p in list;
      hide WellFormed, Consistent, Covered, Roomy, MayHold;
      for i := 0 to |list|
        invariant forall p :: p in list[..i] && p !in current[c] && p in owner && owner[p] in current ==>
                    |current[owner[p]]| <= |current[c]|
      {
        if list[i] !in current[c] {
          OtherOwner(current, owner, group, c, list[i]);
          if |current[c]| < |current[holders[list[i]]]| {
            return false;
          }
        }
      }
      assert list[..|list|] == list;
      return true;
    }

    /** The test on every consumer that takes part, in ascending order. */
    method NobodyGains() returns (nothing: bool)
      requires WellFormed(group) && Consistent(current, owner, group) && Covered(owner, group) && Roomy(current, group)
      requires current.Keys <= group.available.Keys && Indexed()
      ensures nothing <==> Exhausted(current, owner, group)
    {
      hide WellFormed, Consistent, Covered, Roomy, ExhaustedAt, InOrder, SortedSet.Valid, MayHold;
      ConsistentMirror(current, owner, group);
      var holders := OwnersOf(current, owner);
      var order := index.Ascending();
      for i := 0 to |order|
        invariant forall k :: 0 <= k < i ==> order[k].consumer in current
        invariant forall k :: 0 <= k < i ==> ExhaustedAt(current, owner, group, order[k].consumer)
      {
        assert order[i] in Entries(current);
        nothing := NothingToGain(order[i].consumer, holders);
        if !nothing {
          return false;
        }
      }
      forall d | d in current ensures ExhaustedAt(current, owner, group, d) {
        assert Entry(d, current[d]) in order;
      }
      return true;
    }

    method IsBalanced() returns (balanced: bool)
      requires Sound() && current != map[]
      modifies index`cachedFirst, index`cachedLast
      ensures Sound()
      ensures balanced <==> Balanced(current, owner, group)
    {
      hide WellFormed, Consistent, Covered, Roomy, Current, NoExchange, Grouped, Tidy, Exhausted, Level;
      var least := index.First();
      var most := index.Last();
      assert Entries(current) != {} by {
        var c :| c in current;
        assert Entry(c, current[c]) in Entries(current);
      }
      Extremes(current, least.value, most.value);
      if |current[least.value.consumer]| >= |current[most.value.consumer]| - 1 {
        return true;
      }
      balanced := NobodyGains();
    }

    /** Takes a consumer out of the index; it is there, so the set does not raise. */
    method RemoveConsumer(c: Consumer)
      requires index.Valid() && c in current && Entry(c, current[c]) in index.elements
      modifies index
      ensures index.Valid() && index.elements == old(index.elements) - {Entry(c, current[c])}
    {
      var found := index.Remove(Entry(c, current[c]));
      assert found;
    }

    method AddConsumer(c: Consumer)
      requires index.Valid() && c in current
      modifies index
      ensures index.Valid() && index.elements == old(index.elements) + {Entry(c, current[c])}
    {
      index.Add(Entry(c, current[c]));
    }

    /** Moves `q`, and keeps the four structures in step. */
    method MovePartition(q: TopicPartition, to: Consumer)
      requires Indexed() && movements.Valid()
      requires q in owner && owner[q] in current && to in current && to != owner[q]
      requires q in movements.moves ==> movements.moves[q].dst == owner[q]
      modifies this`current, this`owner, index, movements
      ensures Indexed() && movements.Valid()
      ensures current == Shift(old(current), q, old(owner)[q], to) && owner == old(owner)[q := to]
      ensures movements.moves == Recorded(old(movements.moves), q, old(owner)[q], to)
    {
      var from := owner[q];
      ShiftedEntries(current, q, from, to);
      assert Entry(from, current[from]) in Entries(current) && Entry(to, current[to]) in Entries(current);
      hide Drop, Recorded, Entries, SortedSet.Valid, PartitionMovements.Valid;
      RemoveConsumer(from);
      RemoveConsumer(to);
      movements.MovePartition(q, from, to);
      current := current[from := Drop(current[from], q)][to := current[to] + [q]];
      owner := owner[q := to];
      AddConsumer(to);
      AddConsumer(from);
    }

    /** The first consumer in ascending order that may hold `p`. */
    method LeastPotential(p: TopicPartition) returns (least: Option<Consumer>)
      requires WellFormed(group) && current.Keys <= group.available.Keys && Indexed()
      ensures least.None? <==> forall d :: d in current ==> !MayHold(group, d, p)
      ensures least.Some? ==> Least(current, group, p, least.value)
    {
      assert forall c :: c in current ==> (MayHold(group, c, p) <==> p in group.available[c]);
      hide WellFormed, MayHold;
      var order := index.Ascending();
      for i := 0 to |order|
        invariant forall k :: 0 <= k < i ==> !MayHold(group, order[k].consumer, p)
      {
        assert order[i] in Entries(current);
        var c := order[i].consumer;
        if p in group.available[c] {
          forall d | d in current && MayHold(group, d, p)
            ensures !Less(Key(|current[d]|, d), Key(|current[c]|, c))
          {
            assert Entry(d, current[d]) in order;
          }
          return Some(c);
        }
      }
      forall d | d in current ensures !MayHold(group, d, p) {
        assert Entry(d, current[d]) in order;
      }
      return None;
    }

    /** Moves `p`, or the partition that keeps the movements sticky in its place. */
    method ReassignTo(p: TopicPartition, to: Consumer) returns (q: TopicPartition)
      requires Sound() && p in owner && MayHold(group, to, p) && to != owner[p]
      modifies this`current, this`owner, index, movements
      ensures Sound()
      ensures MayMove(old(movements.moves), p, old(owner)[p], to, q) && Moves(old(Snapshot()), q, to, Snapshot())
      ensures FewRivals(group) ==> old(owner)[q] == old(owner)[p]
    {
      q := movements.PartitionToBeMoved(p, owner[p], to);
      MoveKeepsSticky(movements.moves, owner, p, to, q);
      SubstituteMayMove(current, owner, group, p, to, q);
      ShiftKeeps(current, owner, group, q, to);
      if FewRivals(group) {
        FewOnDonor(group, owner, p, to, q);
      }
      hide WellFormed, Consistent, Covered, Roomy, Current, NoExchange, Drop, Recorded, MayMove, MayHold, FewRivals;
      MovePartition(q, to);
    }

    /** What one round of the loop does with one partition. It stays only when nobody who
        may hold it has two fewer than its owner. */
    method Consider(p: TopicPartition) returns (changed: bool, q: TopicPartition, to: Consumer)
      requires Sound() && Movable(owner, group, p)
      modifies this`current, this`owner, index, movements
      ensures Sound()
      ensures Turn(group, old(Snapshot()), p, Snapshot(), changed)
      ensures !changed ==> Snapshot() == old(Snapshot()) && SettledAt(current, owner, group, p)
      ensures changed ==> Step(old(current), old(owner), current, owner, q, to)
      ensures changed ==> old(owner)[p] in old(current) && |old(current)[old(owner)[p]]| > |old(current)[to]| + 1
      ensures changed ==> !SettledAt(old(current), old(owner), group, p)
      ensures Alike(old(current).Keys, group) && Settling(old(Snapshot())) ==>
        Settling(Snapshot()) && (changed ==> q == p)
      ensures FewRivals(group) && changed ==> old(owner)[q] == old(owner)[p]
    {
      hide WellFormed, Consistent, Covered, Roomy, Current, NoExchange, Grouped, Tidy, Entries,
           SortedSet.Valid, PartitionMovements.Valid, MayMove, Turn, Least, SettledAt, Alike, Settling,
           FewRivals;
      ghost var s := Snapshot();
      MovableParticipates(current, owner, group, p);
      var c := owner[p];
      changed, q, to := false, p, c;
      if p in group.previous && |current[c]| > |current[group.previous[p]]| + 1 {
        to := group.previous[p];
        q := ReassignTo(p, to);
        TurnMoves(group, s, p, to, q, Snapshot());
        AlikeTurn(group, s, p, to, q, Snapshot());
        return true, q, to;
      }
      var rivals := group.potentials[p];
      for i := 0 to |rivals|
        invariant forall k :: 0 <= k < i ==> |current[c]| <= |current[rivals[k]]| + 1
      {
        if |current[c]| > |current[rivals[i]]| + 1 {
          var least := LeastPotential(p);
          LeastIsLighter(group, s, p, rivals[i], least);
          to := least.value;
          q := ReassignTo(p, to);
          TurnMoves(group, s, p, to, q, Snapshot());
          AlikeTurn(group, s, p, to, q, Snapshot());
          return true, q, to;
        }
      }
      TurnStays(group, s, p);
    }

    /** One pass over the list. It counts its moves, and knows whether each of them took a
        partition from the consumer that was found to hold too many. */
    method Pass(list: seq<TopicPartition>, ghost order: seq<Consumer>)
      returns (modified: bool, ghost moves: nat, ghost onDonor: bool)
      requires Sound() && Lists(order, current) && AllMovable(list, owner, group)
      modifies this`current, this`owner, index, movements
      ensures Sound()
      ensures PassOf(group, old(Snapshot()), list, Snapshot(), modified)
      ensures Reached(old(current), old(owner), current, owner)
      ensures modified <==> moves > 0
      ensures !modified ==> Snapshot() == old(Snapshot())
      ensures !modified ==> AllSettledAt(list, current, owner, group)
      ensures AllSettledAt(list, old(current), old(owner), group) ==> !modified
      ensures onDonor ==> Lowered(order, old(current), current, moves)
      ensures Alike(old(current).Keys, group) && Settling(old(Snapshot())) ==> onDonor && Settling(Snapshot())
      ensures FewRivals(group) ==> onDonor
    {
      hide WellFormed, Consistent, Covered, Roomy, Current, NoExchange, Grouped, Tidy, Entries, Balanced,
           SettledAt, Reached, Turn, PassOf, Continues, Alike, Settling, FewRivals;
      SameReached(current, owner);
      modified, moves, onDonor := false, 0, true;
      ContinuesFrom(group, Snapshot(), list);
      for i := 0 to |list|
        invariant Sound()
        invariant Continues(group, old(Snapshot()), list, Snapshot(), list[i..], modified)
        invariant Reached(old(current), old(owner), current, owner)
        invariant modified <==> moves > 0
        invariant !modified ==> Snapshot() == old(Snapshot())
        invariant !modified ==> forall k :: 0 <= k < i ==> SettledAt(current, owner, group, list[k])
        invariant AllSettledAt(list, old(current), old(owner), group) ==> !modified
        invariant onDonor ==> Lowered(order, old(current), current, moves)
        invariant Alike(old(current).Keys, group) && Settling(old(Snapshot())) ==> onDonor && Settling(Snapshot())
        invariant FewRivals(group) ==> onDonor
      {
        ghost var held, owners := current, owner;
        var p := list[i];
        ReachedKeys(old(current), old(owner), current, owner);
        StillMovable(old(current), old(owner), current, owner, group, p);
        MovableParticipates(current, owner, group, p);
        ghost var s := Snapshot();
        assert list[i..][0] == p && list[i..][1..] == list[i + 1..];
        var balanced := IsBalanced();
        if balanced {
          AllSettled(current, owner, group);
          ContinuesToEnd(group, old(Snapshot()), list, s, list[i..], modified);
          return;
        }
        var changed, q, to := Consider(p);
        ContinuesTurn(group, old(Snapshot()), list, s, list[i..], modified, Snapshot(), changed);
        if changed {
          modified, moves, onDonor := true, moves + 1, onDonor && owners[q] == owners[p];
          StepReaches(old(current), old(owner), held, owners, current, owner, q, to);
          if onDonor {
            StepLowers(order, old(current), held, owners, current, owner, group, q, to, moves - 1);
          }
        }
      }
      ContinuesToEnd(group, old(Snapshot()), list, Snapshot(), list[|list|..], modified);
    }

    /** Passes over the list until one changes nothing. The source passes on without a
        bound; here at most `passes` are made, and `finished` says whether the last one
        changed nothing. While every move takes from the consumer found to hold too many,
        the number of moves is bounded by the score, and so is the number of passes. */
    method PerformReassignments(list: seq<TopicPartition>, passes: nat, ghost order: seq<Consumer>)
      returns (performed: bool, finished: bool, ghost onDonor: bool)
      requires Sound() && Lists(order, current) && AllMovable(list, owner, group)
      modifies this`current, this`owner, index, movements
      ensures Sound()
      ensures Reached(old(current), old(owner), current, owner)
      ensures !performed ==> Snapshot() == old(Snapshot())
      ensures if finished then EndsWithin(group, old(Snapshot()), list, passes, Snapshot())
              else Runs(group, old(Snapshot()), list, passes, Snapshot())
      ensures finished ==> AllSettledAt(list, current, owner, group)
      ensures AllSettledAt(list, old(current), old(owner), group) ==> !performed && (passes > 0 ==> finished)
      ensures onDonor ==> Lowered(order, old(current), current, if performed then 1 else 0)
      ensures onDonor && passes > Score(Sizes(order, old(current))) ==> finished
      ensures Alike(old(current).Keys, group) && Settling(old(Snapshot())) ==> onDonor && Settling(Snapshot())
      ensures FewRivals(group) ==> onDonor
    {
      hide AllMovable, AllSettledAt, WellFormed, Consistent, Covered, Roomy, Current, NoExchange, Grouped,
           Tidy, Entries, SettledAt, Movable, Reached, PassOf, EndsWithin, Runs, Loops, Alike, Settling,
           FewRivals;
      LoopsFrom(group, Snapshot(), list, passes);
      performed, finished, onDonor := false, false, true;
      ghost var moves: nat := 0;
      SameReached(current, owner);
      var left: nat := passes;
      while left > 0 && !finished
        invariant Sound()
        invariant Reached(old(current), old(owner), current, owner)
        invariant if finished then EndsWithin(group, old(Snapshot()), list, passes, Snapshot())
                  else Loops(group, old(Snapshot()), list, passes, Snapshot(), left)
        invariant performed <==> moves > 0
        invariant !performed ==> Snapshot() == old(Snapshot())
        invariant finished ==> AllSettledAt(list, current, owner, group)
        invariant AllSettledAt(list, old(current), old(owner), group) ==>
                    !performed && (left < passes ==> finished)
        invariant onDonor ==> Lowered(order, old(current), current, moves)
        invariant left <= passes && (finished || moves >= passes - left)
        invariant Alike(old(current).Keys, group) && Settling(old(Snapshot())) ==> onDonor && Settling(Snapshot())
        invariant FewRivals(group) ==> onDonor
        decreases left
      {
        ghost var held, owners, s := current, owner, Snapshot();
        AllStillMovable(list, old(current), old(owner), current, owner, group);
        ReachedLists(order, old(current), old(owner), current, owner);
        ReachedKeys(old(current), old(owner), current, owner);
        var modified;
        ghost var more, same;
        modified, more, same := Pass(list, order);
        LoopsOn(group, old(Snapshot()), list, passes, s, left, Snapshot(), modified);
        ReachedTransitive(old(current), old(owner), held, owners, current, owner);
        if onDonor && same {
          LoweredTransitive(order, old(current), held, current, moves, more);
        }
        moves, onDonor := moves + more, onDonor && same;
        performed, finished := performed || modified, !modified;
        left := left - 1;
      }
      if !finished {
        LoopsOut(group, old(Snapshot()), list, passes, Snapshot());
      }
    }

    // ---------- The whole rebalance ----------

    /** Gives a partition to the consumer with the fewest among those that may hold it. */
    method AssignPartition(p: TopicPartition) returns (c: Consumer)
      requires WellFormed(group) && Consistent(current, owner, group) && Indexed()
      requires current.Keys == group.available.Keys
      requires p in group.potentials && group.potentials[p] != [] && p !in owner
      modifies this`current, this`owner, index
      ensures Consistent(current, owner, group) && Indexed()
      ensures c in old(current) && current == old(current)[c := old(current)[c] + [p]] && owner == old(owner)[p := c]
      ensures forall d :: d in group.potentials[p] ==> d in old(current) && |old(current)[c]| <= |old(current)[d]|
      ensures Least(old(current), group, p, c)
    {
      PotentialsListed(group, p);
      var least := LeastPotential(p);
      c := least.value;
      GiveKeeps(current, owner, group, p, c);
      EntriesReplaced(current, c, current[c] + [p]);
      assert Entry(c, current[c]) in Entries(current);
      hide WellFormed, Consistent, Entries, MayHold, SortedSet.Valid, Less;
      RemoveConsumer(c);
      current := current[c := current[c] + [p]];
      owner := owner[p := c];
      AddConsumer(c);
    }

    method AssignAll()
      requires WellFormed(group) && Consistent(current, owner, group) && Indexed()
      requires current.Keys == group.available.Keys && Waiting(unassigned, owner, group)
      modifies this`current, this`owner, index
      ensures Consistent(current, owner, group) && Covered(owner, group) && Indexed()
      ensures current.Keys == group.available.Keys && Grown(old(current), current)
      ensures Covered(old(owner), group) ==> current == old(current) && owner == old(owner)
      ensures HandsOut(group, old(current), old(owner), unassigned, current, owner)
    {
      hide WellFormed, Consistent, Covered, Waiting, Grown, SortedSet.Valid, Entries, HandsOut, HandsOn, Least;
      GrownSame(current);
      assert unassigned[0..] == unassigned;
      HandsOnFrom(group, current, owner, unassigned);
      for i := 0 to |unassigned|
        invariant Consistent(current, owner, group) && Indexed()
        invariant current.Keys == group.available.Keys && Grown(old(current), current)
        invariant Waiting(unassigned[i..], owner, group)
        invariant Covered(old(owner), group) ==> current == old(current) && owner == old(owner)
        invariant HandsOn(group, old(current), old(owner), unassigned, current, owner, unassigned[i..])
      {
        var p := unassigned[i];
        ghost var owners, held := owner, current;
        assert unassigned[i..][0] == p && unassigned[i..][1..] == unassigned[i + 1..];
        WaitingFirst(unassigned[i..], owner, group);
        if group.potentials[p] != [] {
          var c := AssignPartition(p);
          WaitingGiven(unassigned[i..], owners, group, c);
          GrownMore(old(current), held, c, p);
          HandsOnNext(group, old(current), old(owner), unassigned, held, owners, unassigned[i..], c);
        } else {
          HandsOnSkip(group, old(current), old(owner), unassigned, current, owner, unassigned[i..]);
        }
      }
      NothingWaits(unassigned[|unassigned|..], owner, group);
      HandsOnEnd(group, old(current), old(owner), unassigned, current, owner);
    }

    /** The list without the partitions that fewer than two consumers may hold, in its order. */
    method Narrow(list: seq<TopicPartition>) returns (narrow: seq<TopicPartition>)
      requires Distinct(list)
      ensures narrow == Excluding(list, Uncontested(group))
    {
      hide Drop;
      narrow := list;
      var todo := Uncontested(group);
      assert Uncontested(group) - todo == {};
      ExcludingNothing(list, {});
      while todo != {}
        invariant todo <= Uncontested(group)
        invariant narrow == Excluding(list, Uncontested(group) - todo)
        decreases |todo|
      {
        var p :| p in todo;
        ExcludingMore(list, Uncontested(group) - todo, p);
        assert Uncontested(group) - (todo - {p}) == Uncontested(group) - todo + {p};
        narrow := Drop(narrow, p);
        todo := todo - {p};
      }
      assert Uncontested(group) - {} == Uncontested(group);
    }

    /** Both lists, narrowed down to what can move. */
    method NarrowDown()
      requires Covered(owner, group) && Listing(sortedPartitions, group)
      requires Distinct(unassigned) && forall p :: p in unassigned ==> p in group.potentials
      modifies this`sortedPartitions, this`unassigned
      ensures sortedPartitions == Excluding(old(sortedPartitions), Uncontested(group))
      ensures unassigned == Excluding(old(unassigned), Uncontested(group))
      ensures Contested(sortedPartitions, owner, group) && AllMovable(sortedPartitions, owner, group)
      ensures AllMovable(unassigned, owner, group)
    {
      hide Distinct, Covered, Contested, AllMovable, Uncontested;
      ExcludingHolds(sortedPartitions, Uncontested(group));
      ExcludingHolds(unassigned, Uncontested(group));
      sortedPartitions := Narrow(sortedPartitions);
      unassigned := Narrow(unassigned);
      NarrowMovable(group, owner, sortedPartitions, unassigned);
    }

    method CanParticipate(c: Consumer) returns (can: bool)
      requires Consistent(current, owner, group) && c in current && c in group.available
      ensures can <==> Participates(current[c], group, c)
    {
      if |current[c]| < |group.available[c]| {
        return true;
      }
      var list := current[c];
      for i := 0 to |list|
        invariant forall k :: 0 <= k < i ==> list[k] in group.potentials && |group.potentials[list[k]]| < 2
      {
        assert list[i] in owner && MayHold(group, owner[list[i]], list[i]);
        if |group.potentials[list[i]]| >= 2 {
          return true;
        }
      }
      return false;
    }

    /** Sets aside the consumers that can neither give nor receive. Everyone who competes
        for a partition stays. */
    method SetAside() returns (fixed: Held)
      requires WellFormed(group) && Consistent(current, owner, group) && Indexed()
      requires current.Keys == group.available.Keys
      modifies this`current, index
      ensures Consistent(current, owner, group) && Roomy(current, group) && Indexed()
      ensures Split(old(current), current, fixed) && TakingPart(group, old(current), current)
    {
      hide WellFormed, Consistent, Split, Idle, Engaged, Entries, SortedSet.Valid, TakingPart, Participates;
      fixed := map[];
      NothingAside(current, group);
      var todo := group.available.Keys;
      NobodyEngaged(current, group);
      while todo != {}
        invariant todo <= current.Keys <= group.available.Keys
        invariant Consistent(current, owner, group) && Indexed()
        invariant Split(old(current), current, fixed) && Idle(fixed, group) && Engaged(current, todo, group)
        decreases |todo|
      {
        var c :| c in todo;
        assert todo == todo - {c} + {c};
        todo := todo - {c};
        var can := CanParticipate(c);
        OneEngaged(current, todo, group, c);
        if !can {
          MoveAside(old(current), current, fixed, owner, group, c);
          RemoveConsumer(c);
          fixed := fixed[c := current[c]];
          current := current - {c};
        }
      }
      AsideIsRoomy(old(current), current, fixed, owner, group);
      AllTakingPart(group, old(current), current, fixed);
    }

    method Restore(fixed: Held)
      requires index.Valid() && fixed.Keys !! current.Keys
      modifies this`current, index
      ensures current == old(current) + fixed
      ensures index.Valid() && index.elements == old(index.elements) + Entries(fixed)
    {
      hide Entries, SortedSet.Valid, Done;
      var todo := fixed.Keys;
      NothingDone(current, fixed);
      while todo != {}
        invariant todo <= fixed.Keys
        invariant current == old(current) + Done(fixed, todo)
        invariant index.Valid() && index.elements == old(index.elements) + Entries(Done(fixed, todo))
        decreases |todo|
      {
        var c :| c in todo;
        OneMoreDone(old(current), fixed, todo, c);
        ghost var entries := Entries(Done(fixed, todo));
        todo := todo - {c};
        current := current[c := fixed[c]];
        assert current[c] == fixed[c];
        AddConsumer(c);
        UnionGrows(old(index.elements), entries, Entry(c, fixed[c]), Entries(Done(fixed, todo)));
      }
      AllDone(fixed);
    }

    /** Both reassignments: of what was just handed out, unless something was revoked, and of
        everything. `performed` speaks of the second. */
    method Reassign(passes: nat, ghost order: seq<Consumer>)
      returns (performed: bool, finished: bool, ghost onDonor: bool, ghost middle: State)
      requires Sound() && Lists(order, current)
      requires AllMovable(unassigned, owner, group)
      requires AllMovable(sortedPartitions, owner, group)
      modifies this`current, this`owner, index, movements
      ensures Sound() && Reached(old(current), old(owner), current, owner)
      ensures finished ==> AllSettledAt(sortedPartitions, current, owner, group)
      ensures AllSettledAt(unassigned + sortedPartitions, old(current), old(owner), group) ==>
                current == old(current) && owner == old(owner) && !performed && (passes > 0 ==> finished)
      ensures onDonor ==> Lowered(order, old(current), current, if performed then 1 else 0)
      ensures onDonor && passes > Score(Sizes(order, old(current))) ==> finished
      ensures Alike(old(current).Keys, group) && Settling(old(Snapshot())) ==> onDonor
      ensures FewRivals(group) ==> onDonor
      ensures finished ==>
        TwoLoops(group, revocationRequired, old(Snapshot()), unassigned, middle, sortedPartitions, passes, Snapshot())
      ensures finished ==> (performed <==> !AllSettledAt(sortedPartitions, middle.held, middle.owner, group))
      ensures finished && !performed ==> Snapshot() == middle
    {
      hide AllMovable, AllSettledAt, WellFormed, Consistent, Covered, Roomy, Current, NoExchange, Grouped,
           Tidy, Entries, SettledAt, Movable, Reached, Score, Sizes, SortedSet.Valid, Distinct, EndsWithin,
           Alike, Settling, FewRivals, Sound, Lowered;
      middle := Snapshot();
      SameReached(current, owner);
      LoweredSame(order, current);
      performed, finished, onDonor := false, true, true;
      ghost var start, startOwner := current, owner;
      SettledParts(unassigned, sortedPartitions, current, owner, group);
      if !revocationRequired {
        var moved;
        moved, finished, onDonor := PerformReassignments(unassigned, passes, order);
        if onDonor {
          LoweredScore(order, start, current, if moved then 1 else 0);
        }
        if !finished {
          return;
        }
      }
      middle := Snapshot();
      AllStillMovable(sortedPartitions, start, startOwner, current, owner, group);
      ReachedLists(order, start, startOwner, current, owner);
      ReachedKeys(start, startOwner, current, owner);
      ghost var same;
      performed, finished, same := PerformReassignments(sortedPartitions, passes, order);
      ReachedTransitive(start, startOwner, middle.held, middle.owner, current, owner);
      if onDonor && same {
        LoweredTransitive(order, start, middle.held, current, 0, if performed then 1 else 0);
      }
      onDonor := onDonor && same;
    }

    /** Reassigns, and goes back to the start when that was not an improvement. The lists and
        the owners go back; the index and the movement log stay those of what was `tried`. */
    method Improve(passes: nat, initializing: bool, order: seq<Consumer>)
      returns (finished: bool, reverted: bool, ghost onDonor: bool, ghost middle: State, ghost tried: State)
      requires Sound() && Lists(order, current)
      requires AllMovable(unassigned, owner, group)
      requires AllMovable(sortedPartitions, owner, group)
      modifies this`current, this`owner, index, movements
      ensures Consistent(current, owner, group) && Covered(owner, group)
      ensures Reached(old(current), old(owner), current, owner)
      ensures index.Valid() && index.key == EntryKey && index.elements == Entries(tried.held)
      ensures movements.Valid() && movements.moves == tried.moves && Current(tried.moves, tried.owner)
      ensures NoExchange(tried.moves)
      ensures Consistent(tried.held, tried.owner, group) && Reached(old(current), old(owner), tried.held, tried.owner)
      ensures !reverted ==> Sound() && tried == Snapshot()
      ensures reverted ==> current == old(current) && owner == old(owner) && !initializing
      ensures reverted ==> !AllSettledAt(sortedPartitions, middle.held, middle.owner, group)
      ensures reverted ==> Lists(order, tried.held) && Score(Sizes(order, tried.held)) >= Score(Sizes(order, current))
      ensures finished && !reverted ==> AllSettledAt(sortedPartitions, current, owner, group)
      ensures AllSettledAt(unassigned + sortedPartitions, old(current), old(owner), group) ==>
                current == old(current) && owner == old(owner) && !reverted && (passes > 0 ==> finished)
      ensures reverted ==> finished
      ensures onDonor ==> !reverted
      ensures onDonor && passes > Score(Sizes(order, old(current))) ==> finished
      ensures Alike(old(current).Keys, group) && Settling(old(Snapshot())) ==> onDonor
      ensures FewRivals(group) ==> onDonor
      ensures finished ==>
        TwoLoops(group, revocationRequired, old(Snapshot()), unassigned, middle, sortedPartitions, passes, tried)
      ensures finished && !reverted && !initializing ==>
        || (tried == middle && AllSettledAt(sortedPartitions, middle.held, middle.owner, group))
        || (Lists(order, tried.held) && Score(Sizes(order, tried.held)) < Score(Sizes(order, old(current))))
    {
      hide AllMovable, Contested, WellFormed, Consistent, Covered, Roomy, Current, NoExchange, Grouped, Tidy,
           Entries, SettledAt, AllSettledAt, Movable, Reached, Score, Sizes, SortedSet.Valid, Distinct, Alike,
           Settling, FewRivals, TwoLoops;
      var start, startOwner := current, owner;
      var performed;
      performed, finished, onDonor, middle := Reassign(passes, order);
      reverted, tried := false, Snapshot();
      ReachedLists(order, start, startOwner, current, owner);
      if finished && !initializing && performed {
        var after := BalanceScore(Sizes(order, current));
        var before := BalanceScore(Sizes(order, start));
        if after >= before {
          current, owner, reverted := start, startOwner, true;
          SameReached(current, owner);
        }
      }
    }

    /** The first half: build the index, hand out what nobody holds, and narrow down to
        the partitions and consumers that can change. */
    method Prepare() returns (initializing: bool, fixed: Held, ghost all: Held)
      requires WellFormed(group) && Consistent(current, owner, group) && current.Keys == group.available.Keys
      requires current != map[] && Waiting(unassigned, owner, group) && Listing(sortedPartitions, group)
      requires movements.Valid() && movements.moves == map[]
      modifies this
      ensures fresh(index) && Sound() && movements.moves == map[] && revocationRequired == old(revocationRequired)
      ensures initializing <==> forall c :: c in old(current) ==> old(current)[c] == []
      ensures Grown(old(current), all) && Consistent(all, owner, group) && Split(all, current, fixed)
      ensures HandsOut(group, old(current), old(owner), old(unassigned), all, owner) && TakingPart(group, all, current)
      ensures Covered(old(owner), group) ==> all == old(current) && owner == old(owner)
      ensures AllMovable(unassigned, owner, group)
      ensures Contested(sortedPartitions, owner, group) && AllMovable(sortedPartitions, owner, group)
      ensures sortedPartitions == Excluding(old(sortedPartitions), Uncontested(group))
      ensures unassigned == Excluding(old(unassigned), Uncontested(group))
    {
      hide HandsOut, TakingPart, Distinct, Listing, Waiting, Excluding, Uncontested, AllMovable, Contested,
           WellFormed, Consistent, Covered, Roomy, Current, NoExchange, Grouped, Tidy, Movable, Split, Grown,
           SortedSet.Valid, Entries, IsLast;
      index := new SortedSet(Entries(current), EntryKey);
      var most := index.Last();
      MostIsLongest(current, most);
      initializing := |current[most.value.consumer]| == 0;
      WaitingDistinct(unassigned, owner, group);
      AssignAll();
      NarrowDown();
      all := current;
      fixed := SetAside();
      SplitKeys(all, current, fixed);
      NoMovements(owner);
    }

    /** The end: what was set aside comes back, and what holds among those who took part holds
        among all. */
    method Conclude(fixed: Held, reverted: bool, ghost all: Held, ghost start: Held, ghost startOwner: Owners,
                    ghost tried: State)
      requires Consistent(all, startOwner, group) && Split(all, start, fixed)
      requires Consistent(current, owner, group) && Reached(start, startOwner, current, owner)
      requires Consistent(tried.held, tried.owner, group) && Reached(start, startOwner, tried.held, tried.owner)
      requires index.Valid() && index.elements == Entries(tried.held)
      requires !reverted ==> Roomy(current, group)
      requires !reverted ==> AllSettledAt(sortedPartitions, current, owner, group)
      requires Contested(sortedPartitions, startOwner, group)
      modifies this`current, index
      ensures Consistent(current, owner, group) && current == old(current) + fixed && current.Keys == all.Keys
      ensures old(current) == start ==> current == all
      ensures Consistent(tried.held + fixed, tried.owner, group)
      ensures index.Valid() && index.elements == Entries(tried.held + fixed)
      ensures !reverted ==> Settled(current, owner, group)
    {
      hide Contested, AllSettledAt, Consistent, Roomy, Movable, Split, SortedSet.Valid, Entries, Settled,
           SettledAt, Reached;
      Together(all, start, fixed, startOwner, current, owner, group);
      Together(all, start, fixed, startOwner, tried.held, tried.owner, group);
      EntriesUnion(tried.held, fixed);
      if !reverted {
        SettledTogether(start, startOwner, current, owner, fixed, group, sortedPartitions);
      }
      Restore(fixed);
    }

    /** The second half: reassign, take the moves back if they were no improvement, and bring
        back what was set aside. */
    method Finish(passes: nat, initializing: bool, fixed: Held, ghost all: Held)
      returns (finished: bool, reverted: bool, ghost onDonor: bool, ghost trace: Trace)
      requires Sound() && Consistent(all, owner, group) && Split(all, current, fixed)
      requires AllMovable(unassigned, owner, group)
      requires Contested(sortedPartitions, owner, group) && AllMovable(sortedPartitions, owner, group)
      modifies this`current, this`owner, index, movements
      ensures trace.all == all && trace.begun == old(Snapshot()) && Lists(trace.order, old(current))
      ensures finished ==> Consistent(current, owner, group) && Covered(owner, group) && current.Keys == all.Keys
      ensures finished && !reverted ==> Settled(current, owner, group)
      ensures finished ==>
        index.Valid() && index.key == EntryKey && index.elements == Entries(Whole(trace, trace.reached.held))
      ensures finished ==> Consistent(Whole(trace, trace.reached.held), trace.reached.owner, group)
      ensures finished ==> movements.moves == trace.reached.moves && Current(trace.reached.moves, trace.reached.owner)
      ensures movements.Valid() && NoExchange(movements.moves)
      ensures finished ==>
        TwoLoops(group, revocationRequired, trace.begun, unassigned, trace.middle, sortedPartitions, passes,
                 trace.reached)
      ensures finished && !reverted ==> current == Whole(trace, trace.reached.held) && owner == trace.reached.owner
      ensures reverted ==> finished && current == all && owner == old(owner)
      ensures finished ==> (reverted <==> !initializing && Stirred(group, trace, sortedPartitions) && NotBetter(trace))
      ensures AllSettledAt(unassigned + sortedPartitions, old(current), old(owner), group) && passes > 0 ==>
                finished && current == all && owner == old(owner)
      ensures onDonor ==> !reverted
      ensures onDonor && passes > Score(Sizes(trace.order, old(current))) ==> finished
      ensures Alike(old(current).Keys, group) && Settling(old(Snapshot())) ==> onDonor
      ensures FewRivals(group) ==> onDonor
    {
      hide AllMovable, Contested, WellFormed, Consistent, Covered, Roomy, Current, NoExchange, Grouped, Tidy,
           Split, SortedSet.Valid, Entries, Settled, AllSettledAt, Reached, Lists, Sizes, Score,
           PartitionMovements.Valid, Alike, Settling, FewRivals, TwoLoops;
      ghost var start, startOwner, begun := current, owner, Snapshot();
      var listing := Enumerate(current.Keys);
      KeysListed(listing, current);
      ghost var middle, tried;
      finished, reverted, onDonor, middle, tried := Improve(passes, initializing, listing);
      trace := Trace(all, begun, middle, tried, listing);
      if finished {
        Conclude(fixed, reverted, all, start, startOwner, tried);
        SplitAside(all, start, fixed);
      }
    }

    /** The whole rebalance. Whenever it comes to an end, every partition somebody may hold
        is held by exactly one consumer, one that subscribes to it, and the two
        dictionaries are exact inverses; unless the moves were taken back, the criterion of
        KIP-54 holds. A settled assignment with nothing to hand out stays as it is. Moves
        that always take from the consumer found to hold too many are never taken back,
        and come to an end: so it is when all subscribe alike, and when every topic has one
        partition or two possible consumers. The index and the movement log describe what
        was `tried`, which after a revert is not what the lists say. */
    method Balance(passes: nat)
      returns (finished: bool, reverted: bool, ghost onDonor: bool, ghost trace: Trace)
      requires WellFormed(group) && Consistent(current, owner, group) && current.Keys == group.available.Keys
      requires current != map[] && Waiting(unassigned, owner, group) && Listing(sortedPartitions, group)
      requires movements.Valid() && movements.moves == map[]
      modifies this, movements
      ensures finished ==>
        Consistent(current, owner, group) && Covered(owner, group) && current.Keys == group.available.Keys
      ensures finished && !reverted ==> Settled(current, owner, group)
      ensures finished ==>
        index.Valid() && index.key == EntryKey && index.elements == Entries(Whole(trace, trace.reached.held))
      ensures finished ==> Consistent(Whole(trace, trace.reached.held), trace.reached.owner, group)
      ensures finished ==> movements.moves == trace.reached.moves && Current(trace.reached.moves, trace.reached.owner)
      ensures movements.Valid() && NoExchange(movements.moves)
      ensures HandsOut(group, old(current), old(owner), old(unassigned), trace.all, trace.begun.owner)
      ensures TakingPart(group, trace.all, trace.begun.held) && trace.begun.moves == map[]
      ensures Lists(trace.order, trace.begun.held)
      ensures finished ==>
        TwoLoops(group, old(revocationRequired), trace.begun, Excluding(old(unassigned), Uncontested(group)),
                 trace.middle, Excluding(old(sortedPartitions), Uncontested(group)), passes, trace.reached)
      ensures finished && !reverted ==> current == Whole(trace, trace.reached.held) && owner == trace.reached.owner
      ensures reverted ==>
        finished && current == trace.all && owner == trace.begun.owner && Grown(old(current), current)
      ensures finished ==>
        (reverted <==>
          && (exists c :: c in old(current) && old(current)[c] != [])
          && Stirred(group, trace, Excluding(old(sortedPartitions), Uncontested(group))) && NotBetter(trace))
      ensures Covered(old(owner), group) && Settled(old(current), old(owner), group) && passes > 0 ==>
                finished && current == old(current) && owner == old(owner)
      ensures Grown(old(current), trace.all) && Roomy(trace.begun.held, group)
      ensures trace.begun.held.Keys <= group.available.Keys
      ensures Covered(old(owner), group) ==>
        trace.all == old(current) && trace.begun.owner == old(owner) && Consistent(trace.begun.held, old(owner), group)
      ensures onDonor ==> !reverted
      ensures onDonor && passes > Score(Sizes(trace.order, trace.begun.held)) ==> finished
      ensures Alike(group.available.Keys, group) || FewRivals(group) ==> onDonor
      ensures Alike(group.available.Keys, group) || FewRivals(group) ==>
        (passes > |group.available| * |group.available| * |group.potentials| ==> finished)
    {
      hide AllMovable, Contested, WellFormed, Consistent, Covered, Roomy, Current, NoExchange, Grouped, Tidy,
           Split, Grown, SortedSet.Valid, Entries, Settled, AllSettledAt, Lists, Sizes, Score, Waiting,
           Listing, PartitionMovements.Valid, Alike, Settling, FewRivals, TwoLoops, Excluding, Uncontested,
           HandsOut, TakingPart, NotBetter, Whole, Stirred;
      var initializing, fixed;
      ghost var all;
      initializing, fixed, all := Prepare();
      ghost var begun := Snapshot();
      StartGrown(old(current), all, current, fixed);
      if Settled(all, owner, group) {
        SettledStart(all, current, fixed, owner, group, unassigned + sortedPartitions);
      }
      AlikeStart(group, current, all, owner);
      finished, reverted, onDonor, trace := Finish(passes, initializing, fixed, all);
      StartBound(group, begun.held, begun.owner, trace.order);
    }
  }

  /** The stations of a rebalance: all lists once everything is handed out, the state of those
      who take part when the loops begin, between them and after them, and an order of those
      who take part. */
  datatype Trace = Trace(all: Held, begun: State, middle: State, reached: State, order: seq<Consumer>)

  /** Lists of those who take part, with those set aside. */
  ghost function Whole(trace: Trace, held: Held): Held {
    held + (trace.all - trace.begun.held.Keys)
  }

  /** The loops did not lower the score. */
  ghost predicate NotBetter(trace: Trace) {
    && Lists(trace.order, trace.begun.held) && Lists(trace.order, trace.reached.held)
    && Score(Sizes(trace.order, trace.reached.held)) >= Score(Sizes(trace.order, trace.begun.held))
  }

  /** The second loop, which goes over `list`, had something to move. */
  ghost predicate Stirred(g: Group, trace: Trace, list: seq<TopicPartition>) {
    !AllSettledAt(list, trace.middle.held, trace.middle.owner, g)
  }

  lemma SplitAside(all: Held, kept: Held, aside: Held)
    requires Split(all, kept, aside)
    ensures aside == all - kept.Keys
  {
  }

  /** The two loops: over what was handed out, unless something was revoked, then over all. */
  ghost predicate TwoLoops(g: Group, revoked: bool, s: State, first: seq<TopicPartition>, m: State,
                           second: seq<TopicPartition>, passes: nat, t: State) {
    && (if revoked then m == s else EndsWithin(g, s, first, passes, m))
    && EndsWithin(g, m, second, passes, t)
  }

  lemma OneLoop(g: Group, revoked: bool, s: State, m: State, second: seq<TopicPartition>, passes: nat, t: State)
    requires TwoLoops(g, revoked, s, [], m, second, passes, t)
    ensures EndsWithin(g, s, second, passes, t)
  {
    hide EndsWithin;
    if !revoked {
      NothingToPass(g, s, passes, m);
    }
  }

  // ---------- Handing out ----------

  /** Each partition in turn goes to the least consumer that may hold it, by the number of its
      partitions and then by name; those nobody may hold are left. */
  ghost predicate HandsOut(g: Group, held: Held, owner: Owners, rest: seq<TopicPartition>, after: Held, owners: Owners)
    decreases |rest|
  {
    if rest == [] then after == held && owners == owner
    else if rest[0] !in g.potentials || g.potentials[rest[0]] == [] then
      HandsOut(g, held, owner, rest[1..], after, owners)
    else exists c ::
      Least(held, g, rest[0], c) && HandsOut(g, Given(held, c, rest[0]), owner[rest[0] := c], rest[1..], after, owners)
  }

  ghost function Given(held: Held, c: Consumer, p: TopicPartition): Held {
    if c in held then held[c := held[c] + [p]] else held
  }

  /** What is handed out from here completes the handing out of the whole list. */
  ghost predicate HandsOn(g: Group, held: Held, owner: Owners, list: seq<TopicPartition>, now: Held, owning: Owners,
                          rest: seq<TopicPartition>) {
    forall after, owners :: HandsOut(g, now, owning, rest, after, owners) ==>
      HandsOut(g, held, owner, list, after, owners)
  }

  lemma HandsOnFrom(g: Group, held: Held, owner: Owners, list: seq<TopicPartition>)
    ensures HandsOn(g, held, owner, list, held, owner, list[0..])
  {
    hide HandsOut;
    assert list[0..] == list;
  }

  lemma HandsOnNext(g: Group, held: Held, owner: Owners, list: seq<TopicPartition>, now: Held, owning: Owners,
                    rest: seq<TopicPartition>, c: Consumer)
    requires HandsOn(g, held, owner, list, now, owning, rest) && rest != [] && Least(now, g, rest[0], c)
    ensures c in now && HandsOn(g, held, owner, list, now[c := now[c] + [rest[0]]], owning[rest[0] := c], rest[1..])
  {
    assert MayHold(g, c, rest[0]);
    hide Least;
    forall after, owners | HandsOut(g, now[c := now[c] + [rest[0]]], owning[rest[0] := c], rest[1..], after, owners)
      ensures HandsOut(g, held, owner, list, after, owners)
    {
      assert HandsOut(g, now, owning, rest, after, owners);
    }
  }

  lemma HandsOnSkip(g: Group, held: Held, owner: Owners, list: seq<TopicPartition>, now: Held, owning: Owners,
                    rest: seq<TopicPartition>)
    requires HandsOn(g, held, owner, list, now, owning, rest) && rest != []
    requires rest[0] in g.potentials ==> g.potentials[rest[0]] == []
    ensures HandsOn(g, held, owner, list, now, owning, rest[1..])
  {
    forall after, owners | HandsOut(g, now, owning, rest[1..], after, owners)
      ensures HandsOut(g, held, owner, list, after, owners)
    {
      assert HandsOut(g, now, owning, rest, after, owners);
    }
  }

  lemma HandsOnEnd(g: Group, held: Held, owner: Owners, list: seq<TopicPartition>, now: Held, owning: Owners)
    requires HandsOn(g, held, owner, list, now, owning, list[|list|..])
    ensures HandsOut(g, held, owner, list, now, owning)
  {
    assert HandsOut(g, now, owning, list[|list|..], now, owning);
  }

  // ---------- Taking part ----------

  /** `kept` are those of `all` that can give or receive, with their lists. */
  ghost predicate TakingPart(g: Group, all: Held, kept: Held) {
    && (forall c :: c in all ==> (c in kept <==> c in g.available && Participates(all[c], g, c)))
    && (forall c :: c in kept ==> c in all && kept[c] == all[c])
  }

  /** Those outside `todo` can give or receive. */
  ghost predicate Engaged(held: Held, todo: set<Consumer>, g: Group) {
    forall c :: c in held && c !in todo ==> c in g.available && Participates(held[c], g, c)
  }

  lemma NobodyEngaged(held: Held, g: Group)
    requires held.Keys == g.available.Keys
    ensures Engaged(held, g.available.Keys, g)
  {
    assert forall c :: c in held ==> c in held.Keys;
  }

  lemma OneEngaged(held: Held, todo: set<Consumer>, g: Group, c: Consumer)
    requires Engaged(held, todo + {c}, g) && c in held && c in g.available
    ensures if Participates(held[c], g, c) then Engaged(held, todo, g) else Engaged(held - {c}, todo, g)
  {
  }

  lemma AllTakingPart(g: Group, all: Held, kept: Held, aside: Held)
    requires Split(all, kept, aside) && Idle(aside, g) && Engaged(kept, {}, g)
    ensures TakingPart(g, all, kept)
  {
  }

  /** The partitions that fewer than two consumers may hold. */
  function Uncontested(g: Group): set<TopicPartition> {
    set p | p in g.potentials && |g.potentials[p]| < 2
  }

  /** The list without the members of `out`, in its order. */
  function Excluding(list: seq<TopicPartition>, out: set<TopicPartition>): seq<TopicPartition> {
    if list == [] then [] else (if list[0] in out then [] else [list[0]]) + Excluding(list[1..], out)
  }

  lemma {:induction false} ExcludingNothing(list: seq<TopicPartition>, out: set<TopicPartition>)
    requires forall p :: p in list ==> p !in out
    ensures Excluding(list, out) == list
    decreases |list|
  {
    if list != [] {
      ExcludingNothing(list[1..], out);
    }
  }

  lemma {:induction false} ExcludingHolds(list: seq<TopicPartition>, out: set<TopicPartition>)
    requires Distinct(list)
    ensures Distinct(Excluding(list, out))
    ensures forall p :: p in Excluding(list, out) <==> p in list && p !in out
    decreases |list|
  {
    if list != [] {
      assert list == [list[0]] + list[1..];
      ExcludingHolds(list[1..], out);
    }
  }

  lemma ExcludingUnfolds(list: seq<TopicPartition>, out: set<TopicPartition>)
    ensures Excluding(list, out) == if list == [] then [] else
      if list[0] in out then Excluding(list[1..], out) else [list[0]] + Excluding(list[1..], out)
  {
  }

  lemma DropCons(x: TopicPartition, s: seq<TopicPartition>, p: TopicPartition)
    ensures Drop([x] + s, p) == if x == p then s else [x] + Drop(s, p)
  {
    assert ([x] + s)[1..] == s;
  }

  lemma DropNothing(p: TopicPartition)
    ensures Drop([], p) == []
  {
  }

  /** Dropping one more element excludes one more. */
  lemma {:induction false} ExcludingMore(list: seq<TopicPartition>, out: set<TopicPartition>, p: TopicPartition)
    requires Distinct(list)
    ensures Drop(Excluding(list, out), p) == Excluding(list, out + {p})
    decreases |list|
  {
    hide Drop, Excluding;
    if list == [] {
      ExcludingUnfolds(list, out);
      ExcludingUnfolds(list, out + {p});
      DropNothing(p);
    } else {
      ExcludingMore(list[1..], out, p);
      ExcludingOnce(list[1..], out, p);
      ExcludingUnfolds(list, out);
      ExcludingUnfolds(list, out + {p});
      DropCons(list[0], Excluding(list[1..], out), p);
    }
  }

  lemma {:induction false} ExcludingSame(list: seq<TopicPartition>, a: set<TopicPartition>, b: set<TopicPartition>)
    requires forall p :: p in list ==> (p in a <==> p in b)
    ensures Excluding(list, a) == Excluding(list, b)
    decreases |list|
  {
    if list != [] {
      assert list == [list[0]] + list[1..];
      ExcludingSame(list[1..], a, b);
    }
  }

  lemma {:induction false} ExcludingTwice(list: seq<TopicPartition>, a: set<TopicPartition>, b: set<TopicPartition>)
    ensures Excluding(Excluding(list, a), b) == Excluding(list, a + b)
    decreases |list|
  {
    if list != [] {
      ExcludingTwice(list[1..], a, b);
      var rest := Excluding(list[1..], a);
      ExcludingUnfolds(list, a);
      ExcludingUnfolds(list, a + b);
      if list[0] !in a {
        ExcludingUnfolds([list[0]] + rest, b);
        assert ([list[0]] + rest)[1..] == rest;
      }
    }
  }

  lemma {:induction false} ExcludingOnce(list: seq<TopicPartition>, out: set<TopicPartition>, p: TopicPartition)
    ensures p !in list ==> Excluding(list, out + {p}) == Excluding(list, out)
    decreases |list|
  {
    if list != [] {
      ExcludingOnce(list[1..], out, p);
    }
  }

  ghost predicate Listing(list: seq<TopicPartition>, g: Group) {
    Distinct(list) && forall p :: p in list <==> p in g.potentials
  }

  lemma AlikeStart(g: Group, start: Held, all: Held, owner: Owners)
    requires start.Keys <= g.available.Keys
    ensures Alike(g.available.Keys, g) ==> Alike(start.Keys, g)
    ensures Settling(State(start, owner, map[]))
  {
  }

  lemma ListedBelow(held: Held, owner: Owners, g: Group, c: Consumer)
    requires Consistent(held, owner, g) && c in held
    ensures |held[c]| <= |g.potentials|
  {
    DistinctSize(held[c]);
    forall p | p in held[c] ensures p in g.potentials {
      assert MayHold(g, owner[p], p);
    }
    assert Elements(held[c]) <= g.potentials.Keys;
    SubsetBelow(Elements(held[c]), g.potentials.Keys);
  }

  lemma SubsetBelow<T>(a: set<T>, b: set<T>)
    requires a <= b
    ensures |a| <= |b|
  {
    assert b == a + (b - a);
  }

  /** The score of any assignment is at most the square of the number of members times the
      number of partitions. */
  lemma StartBound(g: Group, held: Held, owner: Owners, order: seq<Consumer>)
    requires Consistent(held, owner, g) && held.Keys <= g.available.Keys && Lists(order, held)
    ensures Score(Sizes(order, held)) <= |g.available| * |g.available| * |g.potentials|
  {
    hide Score, Consistent;
    var sizes, n := Sizes(order, held), |g.available|;
    forall i | 0 <= i < |sizes| ensures 0 <= sizes[i] <= |g.potentials| {
      ListedBelow(held, owner, g, order[i]);
    }
    ScoreBound(sizes, |g.potentials|);
    DistinctSize(order);
    assert Elements(order) == held.Keys;
    SubsetBelow(held.Keys, g.available.Keys);
    SquareGrows(|sizes|, n, |g.potentials|);
  }

  lemma SquareGrows(m: nat, n: nat, b: nat)
    requires m <= n
    ensures m * m * b <= n * n * b
  {
    assert m * m <= n * n by {
      assert m * m <= m * n;
      assert m * n <= n * n;
    }
    assert n * n * b == m * m * b + (n * n - m * m) * b;
  }

  lemma KeysListed(order: seq<Consumer>, held: Held)
    requires Distinct(order) && forall c :: c in order <==> c in held.Keys
    ensures Lists(order, held)
  {
  }

  lemma MostIsLongest(held: Held, most: Option<Entry>)
    requires held != map[] && (most.None? <==> Entries(held) == {})
    requires most.Some? ==> IsLast(Entries(held), EntryKey, most.value)
    ensures most.Some? && most.value.consumer in held
    ensures held[most.value.consumer] == [] <==> forall c :: c in held ==> held[c] == []
  {
    var c :| c in held;
    assert Entry(c, held[c]) in Entries(held);
    forall c | c in held ensures |held[c]| <= |held[most.value.consumer]| {
      assert Entry(c, held[c]) in Entries(held);
    }
  }

  lemma WaitingDistinct(rest: seq<TopicPartition>, owner: Owners, g: Group)
    requires Waiting(rest, owner, g)
    ensures Distinct(rest) && forall p :: p in rest ==> p in g.potentials
  {
  }

  lemma NarrowMovable(g: Group, owner: Owners, list: seq<TopicPartition>, rest: seq<TopicPartition>)
    requires Covered(owner, g)
    requires forall p :: p in list <==> p in g.potentials && p !in Uncontested(g)
    requires forall p :: p in rest ==> p in g.potentials && p !in Uncontested(g)
    ensures Contested(list, owner, g) && AllMovable(list, owner, g)
    ensures AllMovable(rest, owner, g)
  {
  }

  lemma SplitKeys(all: Held, kept: Held, aside: Held)
    requires Split(all, kept, aside)
    ensures kept.Keys <= all.Keys && aside.Keys <= all.Keys
  {
  }

  lemma NoMovements(owner: Owners)
    ensures Current(map[], owner) && NoExchange(map[])
  {
  }

  lemma Together(all: Held, start: Held, fixed: Held, owner: Owners, held: Held, owners: Owners, g: Group)
    requires Consistent(all, owner, g) && Split(all, start, fixed)
    requires Reached(start, owner, held, owners) && Consistent(held, owners, g)
    ensures Consistent(held + fixed, owners, g) && fixed.Keys !! held.Keys && (held + fixed).Keys == all.Keys
    ensures held == start ==> held + fixed == all
  {
    assert held.Keys == start.Keys;
    forall c, p | c in fixed && p in fixed[c] ensures p in owners && owners[p] == c {
      assert p in all[c] && c !in start;
      assert p in owner.Keys;
    }
  }

  lemma EntriesUnion(held: Held, fixed: Held)
    requires fixed.Keys !! held.Keys
    ensures Entries(held + fixed) == Entries(held) + Entries(fixed)
  {
  }

  lemma StartGrown(held: Held, all: Held, start: Held, fixed: Held)
    requires Grown(held, all) && Split(all, start, fixed)
    ensures all.Keys == held.Keys && forall c :: c in start ==> c in held && held[c] <= start[c]
  {
    assert forall c :: c in start ==> c in all.Keys;
  }

  /** What is settled among all is settled among those who take part. */
  lemma SettledStart(all: Held, start: Held, fixed: Held, owner: Owners, g: Group, list: seq<TopicPartition>)
    requires Settled(all, owner, g) && Split(all, start, fixed)
    ensures AllSettledAt(list, start, owner, g)
  {
    forall p | p in list ensures SettledAt(start, owner, g, p) {
      assert p in owner ==> SettledAt(all, owner, g, p);
    }
  }

  /** What is settled among those who take part is settled among all: a partition that one
      consumer may hold has no rival. */
  lemma SettledTogether(start: Held, owner: Owners, held: Held, owners: Owners, fixed: Held, g: Group,
                        list: seq<TopicPartition>)
    requires Reached(start, owner, held, owners) && Consistent(held, owners, g) && Roomy(held, g)
    requires fixed.Keys !! held.Keys
    requires Contested(list, owner, g)
    requires AllSettledAt(list, held, owners, g)
    ensures Settled(held + fixed, owners, g)
  {
    forall p | p in owners ensures SettledAt(held + fixed, owners, g, p) {
      assert MayHold(g, owners[p], p);
      assert p in owner.Keys;
      if |g.potentials[p]| >= 2 {
        assert p in list;
        forall d | d in g.potentials[p] ensures d in held {
          assert MayHold(g, d, p);
        }
      }
    }
  }

  ghost predicate AllMovable(list: seq<TopicPartition>, owner: Owners, g: Group) {
    forall p :: p in list ==> Movable(owner, g, p)
  }

  /** `list` holds all that can move. */
  ghost predicate Contested(list: seq<TopicPartition>, owner: Owners, g: Group) {
    forall p :: p in list <==> Movable(owner, g, p)
  }

  lemma AllStillMovable(list: seq<TopicPartition>, held: Held, owner: Owners, after: Held, owners: Owners, g: Group)
    requires Reached(held, owner, after, owners) && AllMovable(list, owner, g)
    ensures AllMovable(list, owners, g)
  {
    forall p | p in list ensures Movable(owners, g, p) {
      StillMovable(held, owner, after, owners, g, p);
    }
  }

  lemma SettledParts(list: seq<TopicPartition>, rest: seq<TopicPartition>, held: Held, owner: Owners, g: Group)
    ensures AllSettledAt(list + rest, held, owner, g) <==>
      AllSettledAt(list, held, owner, g) && AllSettledAt(rest, held, owner, g)
  {
  }

  ghost predicate AllSettledAt(list: seq<TopicPartition>, held: Held, owner: Owners, g: Group) {
    forall p :: p in list ==> SettledAt(held, owner, g, p)
  }

  /** `all` is `kept` and `aside` together. */
  ghost predicate Split(all: Held, kept: Held, aside: Held) {
    all == kept + aside && kept.Keys !! aside.Keys
  }

  /** These consumers can neither give nor receive. */
  ghost predicate Idle(held: Held, g: Group) {
    forall c :: c in held ==> c in g.available && !Participates(held[c], g, c)
  }

  lemma NothingAside(held: Held, g: Group)
    ensures Split(held, held, map[]) && Idle(map[], g)
  {
    var none: Held := map[];
    assert held == held + none;
  }

  lemma MoveAside(all: Held, kept: Held, aside: Held, owner: Owners, g: Group, c: Consumer)
    requires Split(all, kept, aside) && Idle(aside, g) && Consistent(kept, owner, g)
    requires c in kept && c in g.available && !Participates(kept[c], g, c)
    ensures Split(all, kept - {c}, aside[c := kept[c]]) && Idle(aside[c := kept[c]], g)
    ensures Consistent(kept - {c}, owner, g)
    ensures Entry(c, kept[c]) in Entries(kept) && Entries(kept - {c}) == Entries(kept) - {Entry(c, kept[c])}
  {
    EntriesWithout(kept, c);
  }

  lemma AsideIsRoomy(all: Held, held: Held, fixed: Held, owner: Owners, g: Group)
    requires WellFormed(g) && Consistent(all, owner, g) && Split(all, held, fixed) && all.Keys == g.available.Keys
    requires Idle(fixed, g)
    ensures Roomy(held, g)
  {
    forall p, c | MayHold(g, c, p) && |g.potentials[p]| >= 2 ensures c in held {
      assert c in g.available.Keys;
      RivalsParticipate(all, owner, g, p, c);
    }
  }

  /** What was put back of `fixed` when `todo` is left. */
  ghost function Done(fixed: Held, todo: set<Consumer>): Held {
    map c | c in fixed && c !in todo :: fixed[c]
  }

  lemma NothingDone(held: Held, fixed: Held)
    ensures held + Done(fixed, fixed.Keys) == held && Entries(Done(fixed, fixed.Keys)) == {}
  {
  }

  lemma OneMoreDone(held: Held, fixed: Held, todo: set<Consumer>, c: Consumer)
    requires c in todo && c in fixed && fixed.Keys !! held.Keys
    ensures (held + Done(fixed, todo))[c := fixed[c]] == held + Done(fixed, todo - {c})
    ensures Entries(Done(fixed, todo - {c})) == Entries(Done(fixed, todo)) + {Entry(c, fixed[c])}
  {
    assert Done(fixed, todo - {c}) == Done(fixed, todo)[c := fixed[c]];
    EntriesWith(Done(fixed, todo), c, fixed[c]);
  }

  lemma UnionGrows<T>(a: set<T>, b: set<T>, x: T, c: set<T>)
    requires c == b + {x}
    ensures (a + b) + {x} == a + c
  {
  }

  lemma AllDone(fixed: Held)
    ensures Done(fixed, {}) == fixed
  {
  }

  /** What is left to hand out: nobody holds it, and nothing else is missing. */
  ghost predicate Waiting(rest: seq<TopicPartition>, owner: Owners, g: Group) {
    && Distinct(rest)
    && (forall p :: p in rest ==> p in g.potentials && p !in owner)
    && (forall p :: p in g.potentials && g.potentials[p] != [] && p !in owner ==> p in rest)
  }

  lemma WaitingFirst(rest: seq<TopicPartition>, owner: Owners, g: Group)
    requires Waiting(rest, owner, g) && rest != []
    ensures rest[0] in g.potentials && rest[0] !in owner
    ensures g.potentials[rest[0]] == [] ==> Waiting(rest[1..], owner, g)
    ensures Covered(owner, g) ==> g.potentials[rest[0]] == []
  {
    assert rest == [rest[0]] + rest[1..];
  }

  lemma WaitingGiven(rest: seq<TopicPartition>, owner: Owners, g: Group, c: Consumer)
    requires Waiting(rest, owner, g) && rest != []
    ensures Waiting(rest[1..], owner[rest[0] := c], g)
  {
    assert rest == [rest[0]] + rest[1..];
  }

  lemma NothingWaits(rest: seq<TopicPartition>, owner: Owners, g: Group)
    requires Waiting(rest, owner, g) && rest == []
    ensures Covered(owner, g)
  {
  }

  lemma GrownSame(held: Held)
    ensures Grown(held, held)
  {
  }

  lemma GrownMore(held: Held, after: Held, c: Consumer, p: TopicPartition)
    requires Grown(held, after) && c in after
    ensures Grown(held, after[c := after[c] + [p]])
  {
  }

  /** Lists may have got longer at the end. */
  ghost predicate Grown(held: Held, after: Held) {
    after.Keys == held.Keys && forall c :: c in held ==> held[c] <= after[c]
  }

  lemma PotentialsListed(g: Group, p: TopicPartition)
    requires WellFormed(g) && p in g.potentials && g.potentials[p] != []
    ensures forall d :: d in g.potentials[p] ==> d in g.available && MayHold(g, d, p)
    ensures MayHold(g, g.potentials[p][0], p)
  {
    assert forall d :: d in g.potentials[p] ==> MayHold(g, d, p);
  }

  lemma GiveKeeps(held: Held, owner: Owners, g: Group, p: TopicPartition, c: Consumer)
    requires Consistent(held, owner, g) && c in held && MayHold(g, c, p) && p !in owner
    ensures Consistent(held[c := held[c] + [p]], owner[p := c], g)
  {
    assert p !in held[c];
    assert Distinct(held[c] + [p]);
  }

  /** Only partitions of the consumers taking part changed hands, and only among them. */
  ghost predicate Reached(held: Held, owner: Owners, after: Held, owners: Owners) {
    && after.Keys == held.Keys && owners.Keys == owner.Keys
    && forall p :: p in owner ==> owners[p] == owner[p] || (owners[p] in held && owner[p] in held)
  }

  /** The score fell by at least `moves`. */
  ghost predicate Lowered(order: seq<Consumer>, held: Held, after: Held, moves: nat) {
    Lists(order, held) && Lists(order, after) && Score(Sizes(order, after)) + moves <= Score(Sizes(order, held))
  }

  lemma SameReached(held: Held, owner: Owners)
    ensures Reached(held, owner, held, owner)
  {
  }

  lemma ReachedKeys(held: Held, owner: Owners, after: Held, owners: Owners)
    requires Reached(held, owner, after, owners)
    ensures after.Keys == held.Keys
  {
  }

  lemma ReachedLists(order: seq<Consumer>, held: Held, owner: Owners, after: Held, owners: Owners)
    requires Reached(held, owner, after, owners) && Lists(order, held)
    ensures Lists(order, after)
  {
    assert forall c :: c in held.Keys <==> c in after.Keys;
  }

  lemma ReachedTransitive(held: Held, owner: Owners, middle: Held, between: Owners, after: Held, owners: Owners)
    requires Reached(held, owner, middle, between) && Reached(middle, between, after, owners)
    ensures Reached(held, owner, after, owners)
  {
    assert forall c :: c in held <==> c in middle;
  }

  lemma StepReaches(held: Held, owner: Owners, middle: Held, between: Owners, after: Held, owners: Owners,
                    q: TopicPartition, to: Consumer)
    requires Reached(held, owner, middle, between) && Step(middle, between, after, owners, q, to)
    ensures Reached(held, owner, after, owners)
  {
    hide Drop;
    assert Reached(middle, between, after, owners);
    ReachedTransitive(held, owner, middle, between, after, owners);
  }

  lemma LoweredSame(order: seq<Consumer>, held: Held)
    requires Lists(order, held)
    ensures Lowered(order, held, held, 0)
  {
  }

  lemma LoweredScore(order: seq<Consumer>, held: Held, after: Held, moves: nat)
    requires Lowered(order, held, after, moves)
    ensures Lowered(order, held, after, 0)
    ensures Lists(order, held) && Lists(order, after) && Score(Sizes(order, after)) <= Score(Sizes(order, held))
  {
  }

  lemma LoweredTransitive(order: seq<Consumer>, held: Held, middle: Held, after: Held, m: nat, n: nat)
    requires Lowered(order, held, middle, m) && Lowered(order, middle, after, n)
    ensures Lowered(order, held, after, m + n)
  {
  }

  lemma StepLowers(order: seq<Consumer>, held: Held, middle: Held, between: Owners, after: Held, owners: Owners,
                   g: Group, q: TopicPartition, to: Consumer, moves: nat)
    requires Lowered(order, held, middle, moves) && Consistent(middle, between, g)
    requires Step(middle, between, after, owners, q, to) && |middle[between[q]]| > |middle[to]| + 1
    ensures Lowered(order, held, after, moves + 1)
  {
    ShiftLowersScore(order, middle, q, between[q], to);
  }

  lemma StillMovable(held: Held, owner: Owners, after: Held, owners: Owners, g: Group, p: TopicPartition)
    requires Reached(held, owner, after, owners) && Movable(owner, g, p)
    ensures Movable(owners, g, p)
  {
    assert p in owner.Keys;
  }

  lemma AllSettled(held: Held, owner: Owners, g: Group)
    requires Balanced(held, owner, g) && Consistent(held, owner, g)
    ensures forall p :: SettledAt(held, owner, g, p)
  {
    forall p ensures SettledAt(held, owner, g, p) {
      BalancedIsSettled(held, owner, g, p);
    }
  }

  lemma AlikeTurn(g: Group, s: State, p: TopicPartition, to: Consumer, q: TopicPartition, t: State)
    requires Consistent(s.held, s.owner, g) && Current(s.moves, s.owner) && Movable(s.owner, g, p)
    requires Target(g, s, p, to) && MayMove(s.moves, p, s.owner[p], to, q) && Moves(s, q, to, t)
    ensures Alike(s.held.Keys, g) && Settling(s) ==> q == p && Settling(t)
  {
    hide Alike, Settling, Target, MayMove, Moves, Current;
    if Alike(s.held.Keys, g) && Settling(s) {
      AlikeMoves(g, s, p, to, q, t);
    }
  }

  /** If somebody is lighter, the least consumer is. */
  lemma LeastIsLighter(g: Group, s: State, p: TopicPartition, d: Consumer, least: Option<Consumer>)
    requires MayHold(g, d, p) && Lighter(s, p, d)
    requires least.None? <==> forall c :: c in s.held ==> !MayHold(g, c, p)
    requires least.Some? ==> Least(s.held, g, p, least.value)
    ensures least.Some? && MayHold(g, least.value, p) && Lighter(s, p, least.value)
    ensures !(p in g.previous && Lighter(s, p, g.previous[p])) ==> Target(g, s, p, least.value)
  {
  }

  lemma TurnMoves(g: Group, s: State, p: TopicPartition, to: Consumer, q: TopicPartition, t: State)
    requires Target(g, s, p, to) && MayHold(g, to, p) && Lighter(s, p, to)
    requires MayMove(s.moves, p, s.owner[p], to, q) && Moves(s, q, to, t)
    ensures Turn(g, s, p, t, true) && !SettledAt(s.held, s.owner, g, p)
  {
    hide MayMove, Moves, Target;
    assert Holder(s, p) == s.owner[p];
  }

  lemma TurnStays(g: Group, s: State, p: TopicPartition)
    requires p in s.owner && s.owner[p] in s.held
    requires p in g.potentials && forall d :: d in g.potentials[p] ==> d in s.held && !Lighter(s, p, d)
    requires p in g.previous ==> !Lighter(s, p, g.previous[p])
    ensures Turn(g, s, p, s, false) && SettledAt(s.held, s.owner, g, p)
  {
  }

  /** A partition that more than one consumer may hold, and somebody does. */
  ghost predicate Movable(owner: Owners, g: Group, p: TopicPartition) {
    p in owner && p in g.potentials && |g.potentials[p]| >= 2
  }

  lemma MovableParticipates(held: Held, owner: Owners, g: Group, p: TopicPartition)
    requires WellFormed(g) && Consistent(held, owner, g) && Roomy(held, g) && Movable(owner, g, p)
    ensures owner[p] in held
    ensures forall d :: d in g.potentials[p] ==> d in held && MayHold(g, d, p)
    ensures p in g.previous ==> g.previous[p] in held && MayHold(g, g.previous[p], p)
  {
    assert MayHold(g, owner[p], p);
    forall d | d in g.potentials[p] ensures d in held && MayHold(g, d, p) {
      assert MayHold(g, d, p);
    }
  }

  /** A partition of the same topic can go where `p` can, and both ends take part. */
  lemma SubstituteMayMove(held: Held, owner: Owners, g: Group, p: TopicPartition, to: Consumer, q: TopicPartition)
    requires WellFormed(g) && Subscribed(owner, g) && Roomy(held, g)
    requires p in owner && MayHold(g, to, p) && q in owner && q.topic == p.topic && owner[q] != to
    ensures MayHold(g, to, q) && owner[q] in held && to in held
  {
    assert MayHold(g, owner[q], q);
    TwoRivals(g, q, owner[q], to);
  }

  /** A move keeps the assignment consistent, complete and open to the same consumers. */
  lemma ShiftKeeps(held: Held, owner: Owners, g: Group, q: TopicPartition, to: Consumer)
    requires Consistent(held, owner, g) && Covered(owner, g) && Roomy(held, g)
    requires q in owner && owner[q] in held && to in held && to != owner[q] && MayHold(g, to, q)
    ensures var after := Shift(held, q, owner[q], to);
      Consistent(after, owner[q := to], g) && Covered(owner[q := to], g) && Roomy(after, g) && after.Keys == held.Keys
  {
    hide Drop;
    ShiftKeepsMirror(held, owner, q, to);
  }

  /** The first and last entries have the shortest and the longest list. */
  lemma Extremes(held: Held, least: Entry, most: Entry)
    requires IsFirst(Entries(held), EntryKey, least) && IsLast(Entries(held), EntryKey, most)
    ensures Level(held) <==> |least.held| >= |most.held| - 1
  {
    forall c | c in held ensures |least.held| <= |held[c]| <= |most.held| {
      assert Entry(c, held[c]) in Entries(held);
    }
  }

  // ---------- No run for ever ----------

  /** What the loop keeps, as a property of its state. */
  ghost predicate Kept(g: Group, s: State, list: seq<TopicPartition>) {
    && WellFormed(g) && Consistent(s.held, s.owner, g) && Covered(s.owner, g) && Roomy(s.held, g)
    && Current(s.moves, s.owner) && NoExchange(s.moves) && AllMovable(list, s.owner, g)
  }

  /** Substitutes are with the consumer found to hold too many: there are few rivals, or all
      subscribe alike and what moved has settled. */
  ghost predicate OnDonor(g: Group, s: State) {
    FewRivals(g) || (Alike(s.held.Keys, g) && Settling(s))
  }

  lemma TargetLighter(g: Group, s: State, p: TopicPartition, to: Consumer)
    requires Target(g, s, p, to) && (p in g.previous ==> MayHold(g, g.previous[p], p))
    ensures MayHold(g, to, p) && Lighter(s, p, to) && to != s.owner[p]
  {
  }

  lemma SameDonor(g: Group, s: State, p: TopicPartition, to: Consumer, q: TopicPartition, t: State)
    requires WellFormed(g) && Consistent(s.held, s.owner, g) && Current(s.moves, s.owner) && Movable(s.owner, g, p)
    requires OnDonor(g, s) && Target(g, s, p, to) && MayHold(g, to, p) && to != s.owner[p]
    requires MayMove(s.moves, p, s.owner[p], to, q) && Moves(s, q, to, t)
    requires q in s.owner && q.topic == p.topic && to != s.owner[q]
    ensures s.owner[q] == s.owner[p] && OnDonor(g, t)
  {
    hide WellFormed, Current, Target, MayMove, FewRivals, Alike, Settling, MayHold, Mirror, DistinctAll, Drop;
    if FewRivals(g) {
      FewOnDonor(g, s.owner, p, to, q);
    } else {
      AlikeTurn(g, s, p, to, q, t);
      assert t.held.Keys == s.held.Keys;
    }
  }

  /** A turn keeps the state in order, and if it moves something it lowers the score. */
  lemma TurnLowers(g: Group, s: State, list: seq<TopicPartition>, p: TopicPartition, t: State, moved: bool,
                   order: seq<Consumer>)
    requires Kept(g, s, list) && OnDonor(g, s) && p in list && Turn(g, s, p, t, moved) && Lists(order, s.held)
    ensures Kept(g, t, list) && OnDonor(g, t) && Lowered(order, s.held, t.held, if moved then 1 else 0)
  {
    hide WellFormed, Consistent, Covered, Roomy, Current, NoExchange, OnDonor, Target, MayMove, Movable,
         MayHold, Lists, Drop, Recorded, Score, Sizes, Lowered;
    LoweredSame(order, s.held);
    if moved {
      MovableParticipates(s.held, s.owner, g, p);
      MovableOwned(s.owner, g, p);
      var to, q :| Target(g, s, p, to) && MayMove(s.moves, p, Holder(s, p), to, q) && Moves(s, q, to, t);
      TargetLighter(g, s, p, to);
      MoveKeepsSticky(s.moves, s.owner, p, to, q);
      ConsistentSubscribed(s.held, s.owner, g);
      SubstituteMayMove(s.held, s.owner, g, p, to, q);
      ShiftKeeps(s.held, s.owner, g, q, to);
      SameDonor(g, s, p, to, q, t);
      StepLowers(order, s.held, s.held, s.owner, t.held, t.owner, g, q, to, 0);
      SameReached(s.held, s.owner);
      StepReaches(s.held, s.owner, s.held, s.owner, t.held, t.owner, q, to);
      AllStillMovable(list, s.held, s.owner, t.held, t.owner, g);
    }
  }

  lemma MovableOwned(owner: Owners, g: Group, p: TopicPartition)
    requires Movable(owner, g, p)
    ensures p in owner
  {
  }

  lemma ConsistentSubscribed(held: Held, owner: Owners, g: Group)
    requires Consistent(held, owner, g)
    ensures Subscribed(owner, g)
  {
  }

  lemma {:induction false} PassLowers(g: Group, s: State, list: seq<TopicPartition>, rest: seq<TopicPartition>,
                                      t: State,
                                      modified: bool, order: seq<Consumer>)
    requires Kept(g, s, list) && OnDonor(g, s) && Lists(order, s.held) && (forall p :: p in rest ==> p in list)
    requires PassOf(g, s, rest, t, modified)
    ensures Kept(g, t, list) && OnDonor(g, t) && Lowered(order, s.held, t.held, if modified then 1 else 0)
    decreases |rest|
  {
    hide Kept, OnDonor, Turn, Balanced, Lists, Lowered;
    LoweredSame(order, s.held);
    if rest != [] && !Balanced(s.held, s.owner, g) {
      var m, moved, later :|
        Turn(g, s, rest[0], m, moved) && PassOf(g, m, rest[1..], t, later) && modified == (moved || later);
      TurnLowers(g, s, list, rest[0], m, moved, order);
      LoweredScore(order, s.held, m.held, if moved then 1 else 0);
      PassLowers(g, m, list, rest[1..], t, later, order);
      LoweredTransitive(order, s.held, m.held, t.held, if moved then 1 else 0, if later then 1 else 0);
      LoweredLess(order, s.held, t.held, (if moved then 1 else 0) + (if later then 1 else 0),
          if modified then 1 else 0);
    }
  }

  lemma LoweredLess(order: seq<Consumer>, held: Held, after: Held, m: nat, n: nat)
    requires Lowered(order, held, after, m) && n <= m
    ensures Lowered(order, held, after, n)
  {
  }

  /** However often the loop goes round, it lowers the score each time: when there are few
      rivals, or all subscribe alike, it goes round no more often than its score at the start
      says, with no bound on the passes given beforehand. */
  lemma {:induction false} RunsLower(g: Group, s: State, list: seq<TopicPartition>, n: nat, t: State,
                                     order: seq<Consumer>)
    requires Kept(g, s, list) && OnDonor(g, s) && Lists(order, s.held) && Runs(g, s, list, n, t)
    ensures Kept(g, t, list) && OnDonor(g, t) && Lowered(order, s.held, t.held, n)
    ensures forall c :: c in order ==> c in s.held
    ensures n <= Score(Sizes(order, s.held))
    decreases n
  {
    hide Kept, OnDonor, PassOf, Score, Lowered;
    LoweredSame(order, s.held);
    if n > 0 {
      var m :| Runs(g, s, list, n - 1, m) && PassOf(g, m, list, t, true);
      RunsLower(g, s, list, n - 1, m, order);
      LoweredScore(order, s.held, m.held, n - 1);
      PassLowers(g, m, list, list, t, true, order);
      LoweredTransitive(order, s.held, m.held, t.held, n - 1, 1);
    }
    LoweredBounds(order, s.held, t.held, n);
  }

  lemma LoweredBounds(order: seq<Consumer>, held: Held, after: Held, moves: nat)
    requires Lowered(order, held, after, moves)
    ensures moves <= Score(Sizes(order, held))
  {
  }
}
