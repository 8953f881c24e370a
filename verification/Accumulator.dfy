/** The message accumulator (producer/message_accumulator.py) as the object it is,
    proved against the per-partition functions of `Delivery`. */
module Accumulator {
  import opened Types
  import opened Delivery

  // ---------- Queues and the pending set ----------

  /** The batches of a queue and the `held` ones are different, all numbered below `n`. */
  ghost predicate Apart(queue: seq<Batch>, held: set<nat>, n: nat) {
    && (forall i :: 0 <= i < |queue| ==> queue[i].id < n && queue[i].id !in held)
    && (forall i, j :: 0 <= i < j < |queue| ==> queue[i].id != queue[j].id)
    && (forall id :: id in held ==> id < n)
  }

  lemma ApartPop(queue: seq<Batch>, held: set<nat>, n: nat)
    requires Apart(queue, held, n) && queue != []
    ensures Apart(queue[1..], held + {queue[0].id}, n) && Apart(queue[1..], held, n)
  {
  }

  lemma FrontApart(queue: seq<Batch>, held: set<nat>, n: nat)
    requires Apart(queue, held, n) && queue != []
    ensures queue[0].id !in held
  {
  }

  lemma ApartPush(queue: seq<Batch>, held: set<nat>, n: nat, b: Batch)
    requires Apart(queue, held, n) && b.id in held
    ensures Apart([b] + queue, held - {b.id}, n)
  {
  }

  lemma ApartAppend(queue: seq<Batch>, held: set<nat>, n: nat, b: Batch)
    requires Apart(queue, held, n) && b.id == n
    ensures Apart(queue + [b], held, n + 1)
  {
  }

  // ---------- Draining ----------

  /** What the sender knows when it drains: muted partitions, leaders, busy nodes and
      partitions whose oldest batch is over its time. */
  datatype Env = Env(muted: set<TopicPartition>, leaders: map<TopicPartition, int>,
                     ignored: set<int>, expired: set<TopicPartition>)

  predicate NoLeader(tp: TopicPartition, env: Env) {
    tp !in env.leaders || env.leaders[tp] == -1
  }

  /** A batch leaves the queue: to its leader, or to fail for want of one. */
  predicate Leaves(s: Slot, tp: TopicPartition, env: Env) {
    && s.queue != [] && tp !in env.muted
    && if NoLeader(tp, env) then tp in env.expired else env.leaders[tp] !in env.ignored
  }

  function SlotAfter(s: Slot, tp: TopicPartition, env: Env): Slot {
    if Leaves(s, tp, env) then Pop(s) else s
  }

  /** The batch handed to the sender; an empty one is resolved on the spot. */
  function HandedOut(s: Slot, tp: TopicPartition, env: Env, who: Producer): Option<Batch> {
    if Leaves(s, tp, env) && !NoLeader(tp, env) && Popped(s, who).records != []
    then Some(Popped(s, who)) else None
  }

  /** What a drain does to one partition, by what the sender knows: nothing when the partition is
      muted, empty, or led by a busy node, or has no leader and is in time. Without a leader
      and over its time the oldest batch goes and is not handed out. Otherwise the oldest batch
      goes, and is handed out with its own id and records unless it has none. */
  lemma DrainCases(s: Slot, tp: TopicPartition, env: Env, who: Producer)
    ensures tp in env.muted || s.queue == [] ==> SlotAfter(s, tp, env) == s && HandedOut(s, tp, env, who) == None
    ensures tp !in env.muted && s.queue != [] && (tp !in env.leaders || env.leaders[tp] == -1) ==>
      && HandedOut(s, tp, env, who) == None
      && SlotAfter(s, tp, env).queue == (if tp in env.expired then s.queue[1..] else s.queue)
    ensures tp !in env.muted && s.queue != [] && tp in env.leaders && env.leaders[tp] != -1 ==>
      if env.leaders[tp] in env.ignored then SlotAfter(s, tp, env) == s && HandedOut(s, tp, env, who) == None
      else
        && SlotAfter(s, tp, env).queue == s.queue[1..]
        && (HandedOut(s, tp, env, who).Some? <==> s.queue[0].records != [])
        && (HandedOut(s, tp, env, who).Some? ==>
          var b := HandedOut(s, tp, env, who).value;
          b.id == s.queue[0].id && b.records == s.queue[0].records && b.closed == s.queue[0].closed)
  {
  }

  function Ids(handed: Option<Batch>): set<nat> {
    if handed.Some? then {handed.value.id} else {}
  }

  /** Some of these partitions are not muted and have no leader. */
  ghost predicate SomeLeaderless(tps: set<TopicPartition>, env: Env) {
    exists tp :: tp in tps && tp !in env.muted && NoLeader(tp, env)
  }

  lemma NoneLeaderless(env: Env)
    ensures !SomeLeaderless({}, env)
  {
  }

  lemma MoreLeaderless(tps: set<TopicPartition>, tp: TopicPartition, env: Env)
    ensures SomeLeaderless(tps + {tp}, env) <==> SomeLeaderless(tps, env) || (tp !in env.muted && NoLeader(tp, env))
  {
    assert tp in tps + {tp};
    if SomeLeaderless(tps, env) {
      var t :| t in tps && t !in env.muted && NoLeader(t, env);
      assert t in tps + {tp};
    }
  }

  lemma HandedHasLeader(s: Slot, tp: TopicPartition, env: Env, who: Producer)
    ensures HandedOut(s, tp, env, who).Some? ==> tp in env.leaders
    ensures s.queue == [] ==>
      SlotAfter(s, tp, env) == s && HandedOut(s, tp, env, who).None? && Ids(HandedOut(s, tp, env, who)) == {}
  {
  }

  class MessageAccumulator {
    var batches: map<TopicPartition, seq<Batch>>    // _batches, without empty queues
    var pending: map<TopicPartition, set<nat>>      // _pending_batches, by partition
    var sequences: map<TopicPartition, int>         // the transaction manager's sequence numbers
    var created: map<TopicPartition, nat>
    const who: Producer

    function Created(tp: TopicPartition): nat
      reads this
    {
      if tp in created then created[tp] else 0
    }

    function Pending(tp: TopicPartition): set<nat>
      reads this
    {
      if tp in pending then pending[tp] else {}
    }

    function SlotOf(tp: TopicPartition): Slot
      reads this
    {
      Slot(if tp in batches then batches[tp] else [], if tp in sequences then sequences[tp] else 0)
    }

    /** No queue is empty, and no batch is both queued and pending. */
    ghost predicate Valid()
      reads this
    {
      forall tp :: ValidAt(tp)
    }

    ghost predicate ValidAt(tp: TopicPartition)
      reads this
    {
      (tp in batches ==> batches[tp] != []) && Apart(SlotOf(tp).queue, Pending(tp), Created(tp))
    }

    /** Only partition `tp` changed, and it is still in order. */
    twostate lemma OthersKept(tp: TopicPartition)
      requires old(Valid()) && ValidAt(tp)
      requires forall t :: t != tp ==> (t in batches <==> t in old(batches))
      requires forall t :: t != tp ==> SlotOf(t) == old(SlotOf(t))
      requires forall t :: t != tp ==> Pending(t) == old(Pending(t)) && Created(t) == old(Created(t))
      ensures Valid()
    {
      forall t ensures ValidAt(t) {
        assert old(ValidAt(t));
      }
    }

    lemma NonEmpty(tp: TopicPartition)
      requires Valid() && tp in batches
      ensures SlotOf(tp).queue != []
    {
      assert ValidAt(tp);
    }

    constructor (who: Producer)
      ensures Valid() && this.who == who
      ensures forall tp :: SlotOf(tp) == Slot([], 0) && Pending(tp) == {} && Created(tp) == 0
    {
      batches, pending, sequences, created := map[], map[], map[], map[];
      this.who := who;
    }

    /** _append_batch: a new batch at the end of the partition's queue. */
    method AppendBatch(tp: TopicPartition, records: seq<Record>, closed: bool)
      requires Valid()
      modifies this`batches, this`created
      ensures Valid() && Created(tp) == old(Created(tp)) + 1
      ensures SlotOf(tp) == Enqueue(old(SlotOf(tp)), Batch(old(Created(tp)), records, closed, 0, None))
      ensures forall t :: t != tp ==> SlotOf(t) == old(SlotOf(t)) && Created(t) == old(Created(t))
    {
      assert ValidAt(tp);
      var id := Created(tp);
      var queue := if tp in batches then batches[tp] else [];
      ApartAppend(queue, Pending(tp), id, Batch(id, records, closed, 0, None));
      batches := batches[tp := queue + [Batch(id, records, closed, 0, None)]];
      created := created[tp := id + 1];
      OthersKept(tp);
    }

    /** MessageBatch.append on the newest queued batch. */
    method AppendToLast(tp: TopicPartition, record: Record, room: bool) returns (added: bool)
      requires Valid() && tp in batches
      modifies this`batches
      ensures Valid()
      ensures var s := old(SlotOf(tp));
        && s.queue != []
        && added == (!s.queue[|s.queue| - 1].closed && room)
        && SlotOf(tp) == if added then AppendRecord(s, record) else s
      ensures Behind(SlotOf(tp).queue, 0) == Behind(old(SlotOf(tp)).queue, 0) + (if added then [record] else [])
      ensures forall t :: t != tp ==> SlotOf(t) == old(SlotOf(t))
    {
      assert ValidAt(tp);
      BehindAppend(SlotOf(tp), record, 0);
      ConcatNil(Behind(SlotOf(tp).queue, 0));
      hide Behind;
      var queue := batches[tp];
      var batch := queue[|queue| - 1];
      if batch.closed || !room {
        return false;
      }
      batches := batches[tp := queue[|queue| - 1 := batch.(records := batch.records + [record])]];
      OthersKept(tp);
      return true;
    }

    /** One round of add_message: `room` says whether the builder still takes the message. */
    method AddMessage(tp: TopicPartition, record: Record, room: bool) returns (added: bool)
      requires Valid()
      modifies this`batches, this`created
      ensures Valid()
      ensures var s := if old(SlotOf(tp)).queue == []
          then Enqueue(old(SlotOf(tp)), Batch(old(Created(tp)), [], false, 0, None)) else old(SlotOf(tp));
        && added == (!s.queue[|s.queue| - 1].closed && room)
        && SlotOf(tp) == if added then AppendRecord(s, record) else s
      ensures Behind(SlotOf(tp).queue, 0) == Behind(old(SlotOf(tp)).queue, 0) + (if added then [record] else [])
      ensures forall t :: t != tp ==> SlotOf(t) == old(SlotOf(t)) && Created(t) == old(Created(t))
    {
      assert ValidAt(tp);
      if tp !in batches {
        AppendBatch(tp, [], false);
        assert Behind(SlotOf(tp).queue, 0) == [] + Behind(SlotOf(tp).queue, 1);
      }
      hide Behind;
      added := AppendToLast(tp, record, room);
    }

    /** One round of add_batch: a whole builder is queued only behind nothing. */
    method AddBatch(tp: TopicPartition, records: seq<Record>, closed: bool) returns (added: bool)
      requires Valid()
      modifies this`batches, this`created
      ensures Valid() && added == (old(SlotOf(tp)).queue == [])
      ensures SlotOf(tp) == if added
        then Enqueue(old(SlotOf(tp)), Batch(old(Created(tp)), records, closed, 0, None)) else old(SlotOf(tp))
      ensures Behind(SlotOf(tp).queue, 0) == Behind(old(SlotOf(tp)).queue, 0) + (if added then records else [])
      ensures forall t :: t != tp ==> SlotOf(t) == old(SlotOf(t)) && Created(t) == old(Created(t))
    {
      assert ValidAt(tp);
      if tp in batches {
        return false;
      }
      AppendBatch(tp, records, closed);
      assert Behind(SlotOf(tp).queue, 0) == records + Behind(SlotOf(tp).queue, 1);
      return true;
    }

    /** The next sequence number of a partition, taken by `count` records. */
    method TakeSequence(tp: TopicPartition, count: nat) returns (sequence: int)
      requires Valid()
      modifies this`sequences
      ensures Valid()
      ensures sequence == old(SlotOf(tp)).sequence
      ensures SlotOf(tp) == old(SlotOf(tp)).(sequence := NextSeq(sequence, count))
      ensures forall t :: t != tp ==> SlotOf(t) == old(SlotOf(t))
    {
      sequence := if tp in sequences then sequences[tp] else 0;
      assert ValidAt(tp);
      sequences := sequences[tp := NextSeq(sequence, count)];
      assert ValidAt(tp);
      OthersKept(tp);
    }

    /** _pop_batch: the first drain takes a sequence number, a retry keeps its own. */
    method PopBatch(tp: TopicPartition) returns (batch: Batch)
      requires Valid() && SlotOf(tp).queue != []
      modifies this`batches, this`sequences, this`pending
      ensures Valid()
      ensures batch == Popped(old(SlotOf(tp)), who) && SlotOf(tp) == Pop(old(SlotOf(tp)))
      ensures Pending(tp) == old(Pending(tp)) + {batch.id}
      ensures batch.id !in old(Pending(tp))
      ensures forall t :: t != tp ==> SlotOf(t) == old(SlotOf(t)) && Pending(t) == old(Pending(t))
    {
      hide Apart, NextSeq;
      assert ValidAt(tp);
      batch := batches[tp][0];
      if batch.retries == 0 {
        var sequence := TakeSequence(tp, |batch.records|);
        batch := batch.(stamp := Some(Stamp(who.pid, who.epoch, sequence)));
      }
      batch := batch.(retries := batch.retries + 1);
      TakeFront(tp);
    }

    /** The oldest batch leaves the queue and becomes pending. */
    method TakeFront(tp: TopicPartition)
      requires Valid() && SlotOf(tp).queue != []
      modifies this`batches, this`pending
      ensures Valid()
      ensures SlotOf(tp) == old(SlotOf(tp)).(queue := old(SlotOf(tp)).queue[1..])
      ensures Pending(tp) == old(Pending(tp)) + {old(SlotOf(tp)).queue[0].id}
      ensures old(SlotOf(tp)).queue[0].id !in old(Pending(tp))
      ensures forall t :: t != tp ==> SlotOf(t) == old(SlotOf(t)) && Pending(t) == old(Pending(t))
    {
      assert ValidAt(tp);
      hide Apart;
      var queue := batches[tp];
      FrontApart(queue, Pending(tp), Created(tp));
      ApartPop(queue, Pending(tp), Created(tp));
      batches := if |queue| == 1 then batches - {tp} else batches[tp := queue[1..]];
      pending := pending[tp := Pending(tp) + {queue[0].id}];
      OthersKept(tp);
    }

    /** The callback of a resolved batch. */
    method Resolved(tp: TopicPartition, id: nat)
      requires Valid() && id in Pending(tp)
      modifies this`pending
      ensures Valid() && Pending(tp) == old(Pending(tp)) - {id}
      ensures forall t :: t != tp ==> Pending(t) == old(Pending(t))
    {
      assert ValidAt(tp);
      pending := pending[tp := Pending(tp) - {id}];
      OthersKept(tp);
    }

    /** reenqueue: a batch to retry goes back to the front. */
    method PutBack(tp: TopicPartition, batch: Batch)
      requires Valid() && batch.id in Pending(tp)
      modifies this`batches, this`pending
      ensures Valid()
      ensures SlotOf(tp) == Reenqueue(old(SlotOf(tp)), batch) && Pending(tp) == old(Pending(tp)) - {batch.id}
      ensures forall t :: t != tp ==> SlotOf(t) == old(SlotOf(t)) && Pending(t) == old(Pending(t))
    {
      assert ValidAt(tp);
      var queue := if tp in batches then batches[tp] else [];
      ApartPush(queue, Pending(tp), Created(tp), batch);
      batches := batches[tp := [batch] + queue];
      pending := pending[tp := Pending(tp) - {batch.id}];
      OthersKept(tp);
    }

    /** One partition of drain_by_nodes. */
    method DrainOne(tp: TopicPartition, env: Env) returns (handed: Option<Batch>)
      requires Valid() && SlotOf(tp).queue != []
      modifies this`batches, this`sequences, this`pending
      ensures Valid()
      ensures SlotOf(tp) == SlotAfter(old(SlotOf(tp)), tp, env)
      ensures handed == HandedOut(old(SlotOf(tp)), tp, env, who)
      ensures Pending(tp) == old(Pending(tp)) + Ids(handed)
      ensures forall t :: t != tp ==> SlotOf(t) == old(SlotOf(t)) && Pending(t) == old(Pending(t))
    {
      handed := None;
      if tp in env.muted {
        return;
      }
      if NoLeader(tp, env) {
        if tp in env.expired {
          var late := PopBatch(tp);
          Resolved(tp, late.id);
        }
        return;
      } else if env.leaders[tp] in env.ignored {
        return;
      }
      var batch := PopBatch(tp);
      if batch.records != [] {
        handed := Some(batch);
      } else {
        Resolved(tp, batch.id);
      }
    }

    /** drain_by_nodes: at most one batch per partition, each with its leader. */
    method DrainByNodes(env: Env) returns (nodes: map<TopicPartition, (int, Batch)>, unknown: bool)
      requires Valid()
      modifies this`batches, this`sequences, this`pending
      ensures Valid()
      ensures forall tp :: SlotOf(tp) == SlotAfter(old(SlotOf(tp)), tp, env)
      ensures forall tp :: tp in nodes <==> HandedOut(old(SlotOf(tp)), tp, env, who).Some?
      ensures forall tp :: tp in nodes ==>
        tp in env.leaders && nodes[tp] == (env.leaders[tp], HandedOut(old(SlotOf(tp)), tp, env, who).value)
      ensures forall tp :: Pending(tp) == old(Pending(tp)) + Ids(HandedOut(old(SlotOf(tp)), tp, env, who))
      ensures unknown <==> SomeLeaderless(old(batches).Keys, env)
    {
      hide Leaves, SlotAfter, HandedOut, NoLeader, ValidAt, SomeLeaderless, Ids;
      forall tp | tp in batches ensures SlotOf(tp).queue != [] {
        NonEmpty(tp);
      }
      nodes, unknown := map[], false;
      forall tp ensures HandedOut(SlotOf(tp), tp, env, who).Some? ==> tp in env.leaders
        ensures SlotOf(tp).queue == [] ==>
          SlotAfter(SlotOf(tp), tp, env) == SlotOf(tp) && HandedOut(SlotOf(tp), tp, env, who).None?
          && Pending(tp) + Ids(HandedOut(SlotOf(tp), tp, env, who)) == Pending(tp)
      {
        HandedHasLeader(SlotOf(tp), tp, env, who);
      }
      var todo := batches.Keys;
      ghost var before := batches.Keys;
      assert before - todo == {};
      NoneLeaderless(env);
      while todo != {}
        invariant Valid() && todo <= before == old(batches.Keys)
        invariant forall tp :: tp in todo || tp !in before ==> SlotOf(tp) == old(SlotOf(tp))
        invariant forall tp :: tp in before && tp !in todo ==> SlotOf(tp) == SlotAfter(old(SlotOf(tp)), tp, env)
        invariant forall tp :: tp in nodes <==>
          tp in before && tp !in todo && HandedOut(old(SlotOf(tp)), tp, env, who).Some?
        invariant forall tp :: tp in nodes ==>
          tp in env.leaders && nodes[tp] == (env.leaders[tp], HandedOut(old(SlotOf(tp)), tp, env, who).value)
        invariant forall tp :: tp in todo || tp !in before ==> Pending(tp) == old(Pending(tp))
        invariant forall tp :: tp in before && tp !in todo ==>
          Pending(tp) == old(Pending(tp)) + Ids(HandedOut(old(SlotOf(tp)), tp, env, who))
        invariant unknown <==> SomeLeaderless(before - todo, env)
        decreases todo
      {
        var tp :| tp in todo;
        var handed := DrainOne(tp, env);
        MoreLeaderless(before - todo, tp, env);
        assert before - (todo - {tp}) == before - todo + {tp};
        todo := todo - {tp};
        if tp !in env.muted && NoLeader(tp, env) {
          unknown := true;
        }
        if handed.Some? {
          nodes := nodes[tp := (env.leaders[tp], handed.value)];
        }
      }
      assert before - {} == before;
    }
  }
}
