/** Idempotent delivery of one partition (KIP-98).

    `Part` joins what the client keeps for a partition (the accumulator queue, the
    sequence number, the in-flight batch, the mute flag) with the network and a broker
    that appends a batch only at the next expected base sequence.  A run is any
    sequence of events: the network may delay, repeat or drop requests and replies.
 */
module Delivery {
  import opened Types

  const TWO31: int := 0x8000_0000
  const TWO32: int := 0x1_0000_0000

  // ---------- Sequence numbers ----------

  /** The 32-bit number that stands for the `x`-th record of a partition. */
  function Wire(x: nat): int {
    if x < TWO31 then x else if x < TWO32 then x - TWO32 else Wire(x - TWO32)
  }

  predicate Int32(x: int) {
    -TWO31 <= x < TWO31
  }

  /** TransactionManager.increment_sequence_number. */
  function NextSeq(sequence: int, increment: nat): int {
    var s := sequence + increment;
    if s > TWO31 - 1 then s - TWO32 else s
  }

  /** The single wrap keeps a sequence number in 32 bits exactly while the increment
      does not skip more than a whole cycle past the top. */
  lemma NextSeqInt32(sequence: int, increment: nat)
    requires Int32(sequence)
    ensures Int32(NextSeq(sequence, increment)) <==> sequence + increment < TWO32 + TWO31
  {
  }

  lemma {:induction false} WireInt32(x: nat)
    ensures Int32(Wire(x)) && (x - Wire(x)) % TWO32 == 0
  {
    if x >= TWO32 {
      WireInt32(x - TWO32);
    }
  }

  lemma {:induction false} NextSeqIsWire(x: nat, increment: nat)
    requires increment <= TWO32
    ensures NextSeq(Wire(x), increment) == Wire(x + increment)
  {
    if x >= TWO32 {
      NextSeqIsWire(x - TWO32, increment);
    }
  }

  /** Two positions less than a whole cycle apart have different numbers. */
  lemma {:induction false} WireInjective(x: nat, y: nat)
    requires Wire(x) == Wire(y) && x <= y < x + TWO32
    ensures x == y
  {
    if x >= TWO32 {
      WireInjective(x - TWO32, y - TWO32);
    }
  }

  // ---------- Batches and the accumulator's view of a partition ----------

  type Record = int

  const MAX_COUNT: nat := 0x7fff_ffff

  datatype Stamp = Stamp(pid: int, epoch: int, sequence: int)

  /** A MessageBatch: its place in creation order, its records, whether its builder is
      closed, how often it was drained and the producer state written on the first drain. */
  datatype Batch = Batch(id: nat, records: seq<Record>, closed: bool, retries: nat, stamp: Option<Stamp>)

  /** The bytes of a produce request for a batch; `id` is not on the wire. */
  datatype Request = Request(id: nat, records: seq<Record>, stamp: Stamp)

  /** A partition's queue and its next sequence number. */
  datatype Slot = Slot(queue: seq<Batch>, sequence: int)

  datatype Producer = Producer(pid: int, epoch: int)

  /** MessageAccumulator._append_batch. */
  function Enqueue(s: Slot, b: Batch): Slot {
    s.(queue := s.queue + [b])
  }

  /** BatchBuilder.append on the newest queued batch. */
  function AppendRecord(s: Slot, r: Record): Slot
    requires s.queue != []
  {
    var k := |s.queue| - 1;
    s.(queue := s.queue[k := s.queue[k].(records := s.queue[k].records + [r])])
  }

  /** The builders closed by flush_for_commit. */
  function CloseAll(s: Slot): Slot {
    s.(queue := seq(|s.queue|, i requires 0 <= i < |s.queue| => s.queue[i].(closed := true)))
  }

  /** The batch that MessageAccumulator._pop_batch hands out. */
  function Popped(s: Slot, who: Producer): Batch
    requires s.queue != []
  {
    var b := s.queue[0];
    var stamped := if b.retries == 0 then b.(stamp := Some(Stamp(who.pid, who.epoch, s.sequence))) else b;
    stamped.(retries := b.retries + 1)
  }

  /** What MessageAccumulator._pop_batch leaves behind. */
  function Pop(s: Slot): Slot
    requires s.queue != []
  {
    var b := s.queue[0];
    Slot(s.queue[1..], if b.retries == 0 then NextSeq(s.sequence, |b.records|) else s.sequence)
  }

  /** MessageAccumulator.reenqueue. */
  function Reenqueue(s: Slot, b: Batch): Slot {
    s.(queue := [b] + s.queue)
  }

  // ---------- The partition, the network and the broker ----------

  datatype Reply = Appended | Duplicate | OutOfOrder

  datatype Part = Part(
    slot: Slot,
    flight: Option<Batch>,           // the batch the sender holds
    muted: bool,                     // in Sender._muted_partitions
    created: nat,                    // batches created so far
    drained: seq<Batch>,             // batches in the order of their first drain
    sent: set<Request>,              // every request ever put on the network
    log: seq<Request>,               // what the broker appended
    expected: int,                   // the base sequence the broker expects next
    replies: set<(Request, Reply)>,  // every reply the broker ever produced
    done: set<nat>,                  // batches resolved as delivered
    failed: set<nat>)                // batches resolved with an error

  function Init(): Part {
    Part(Slot([], 0), None, false, 0, [], {}, [], 0, {}, {}, {})
  }

  datatype Event =
    | Open(records: seq<Record>, closed: bool)  // a new batch enters the queue
    | Append(record: Record)                    // a message joins the newest queued batch
    | Close                                     // flush_for_commit closes the builders
    | Drain                                     // the sender takes the oldest batch
    | Send                                      // its buffer is built and sent
    | Deliver(request: Request, kept: nat)      // the network hands a copy to the broker
    | Ack                                       // a success reply reaches the sender
    | Retry                                     // a retriable error or a lost reply
    | Fail                                      // an error that is not retried
    | Expire                                    // drained without a leader after its time
    | Unmute                                    // the send task ends

  function RequestOf(b: Batch): Request
    requires b.stamp.Some?
  {
    Request(b.id, b.records, b.stamp.value)
  }

  /** The position of the first record of batch `i` in the stream of drained records. */
  function Start(d: seq<Batch>, i: nat): nat
    requires i <= |d|
  {
    if i == 0 then 0 else Start(d, i - 1) + |d[i - 1].records|
  }

  /** A request with the bytes of its batch's first drain. */
  ghost predicate FromBatch(d: seq<Batch>, r: Request) {
    r.id < |d| && d[r.id].stamp.Some? && r == RequestOf(d[r.id]) && r.records != []
  }

  /** A log that holds each batch at most once and in creation order. */
  ghost predicate Ordered(d: seq<Batch>, log: seq<Request>) {
    && (forall j :: 0 <= j < |log| ==> FromBatch(d, log[j]))
    && forall j, k :: 0 <= j < k < |log| ==> log[j].id < log[k].id
  }

  /** The position after the newest appended batch. */
  ghost function LogEnd(d: seq<Batch>, log: seq<Request>): nat
    requires Ordered(d, log)
  {
    if log == [] then 0 else Start(d, log[|log| - 1].id + 1)
  }

  /** Some of the last `kept` batches has the number and the length of `r`. */
  ghost predicate Remembered(log: seq<Request>, r: Request, kept: nat)
    requires kept <= |log|
  {
    exists j :: |log| - kept <= j < |log| && log[j].stamp == r.stamp && |log[j].records| == |r.records|
  }

  /** The broker: recognise a remembered batch, append in sequence, refuse the rest. */
  ghost function Answer(log: seq<Request>, expected: int, r: Request, kept: nat): Reply
    requires kept <= |log|
  {
    if Remembered(log, r, kept) then Duplicate
    else if r.stamp.sequence == expected then Appended
    else OutOfOrder
  }

  /** The network assumption: a copy that still arrives, the batches the broker still
      remembers and the end of its log lie within one cycle of 2^32 records. */
  ghost predicate Fresh(d: seq<Batch>, log: seq<Request>, r: Request, kept: nat) {
    && Ordered(d, log) && r.id < |d| && kept <= |log|
    && var s, end := Start(d, r.id), LogEnd(d, log);
    && var oldest := if kept > 0 then Start(d, log[|log| - kept].id) else end;
    && end < s + TWO32 && s < oldest + TWO32 && end < oldest + TWO32
  }

  ghost predicate Enabled(p: Part, e: Event) {
    match e
    case Open(records, _) => p.slot.queue == [] && |records| <= MAX_COUNT
    case Append(_) =>
      && p.slot.queue != []
      && var b := p.slot.queue[|p.slot.queue| - 1];
      && !b.closed && |b.records| < MAX_COUNT
    case Close => true
    case Drain => !p.muted && p.slot.queue != []
    case Send => p.flight.Some? && p.flight.value.stamp.Some?
    case Deliver(r, kept) => r in p.sent && Fresh(p.drained, p.log, r, kept)
    case Ack =>
      && p.flight.Some? && p.flight.value.stamp.Some?
      && var r := RequestOf(p.flight.value);
      && ((r, Appended) in p.replies || (r, Duplicate) in p.replies)
    case Retry => p.flight.Some? && p.flight.value.closed
    case Fail => p.flight.Some?
    case Expire => !p.muted && p.slot.queue != []
    case Unmute => p.muted && p.flight.None?
  }

  /** Popping the head records its first drain. */
  function Drained(p: Part, who: Producer): seq<Batch>
    requires p.slot.queue != []
  {
    if p.slot.queue[0].retries == 0 then p.drained + [Popped(p.slot, who)] else p.drained
  }

  ghost function Apply(p: Part, e: Event, who: Producer): Part
    requires Enabled(p, e)
  {
    match e
    case Open(records, closed) =>
      p.(slot := Enqueue(p.slot, Batch(p.created, records, closed, 0, None)), created := p.created + 1)
    case Append(r) => p.(slot := AppendRecord(p.slot, r))
    case Close => p.(slot := CloseAll(p.slot))
    case Drain =>
      var b := Popped(p.slot, who);
      var q := p.(slot := Pop(p.slot), drained := Drained(p, who));
      // an empty batch is resolved on the spot and never sent
      if b.records == [] then q.(done := q.done + {b.id}) else q.(flight := Some(b), muted := true)
    case Send =>
      var b := p.flight.value.(closed := true);
      p.(flight := Some(b), sent := p.sent + {RequestOf(b)})
    case Deliver(r, kept) =>
      var a := Answer(p.log, p.expected, r, kept);
      var q := p.(replies := p.replies + {(r, a)});
      if a == Appended
      then q.(log := p.log + [r], expected := NextSeq(p.expected, |r.records|))
      else q
    case Ack => p.(flight := None, done := p.done + {p.flight.value.id})
    case Retry => p.(flight := None, slot := Reenqueue(p.slot, p.flight.value))
    case Fail => p.(flight := None, failed := p.failed + {p.flight.value.id})
    case Expire =>
      p.(slot := Pop(p.slot), drained := Drained(p, who), failed := p.failed + {Popped(p.slot, who).id})
    case Unmute => p.(muted := false)
  }

  /** The state after a run, if every event was possible when it happened. */
  ghost function Run(p: Part, events: seq<Event>, who: Producer): Option<Part>
    decreases |events|
  {
    if events == [] then Some(p)
    else if Enabled(p, events[0]) then Run(Apply(p, events[0], who), events[1..], who)
    else None
  }

  // ---------- The invariant ----------

  /** Same batch, same records, same producer state: only the drain count may differ. */
  ghost predicate SameBytes(b: Batch, c: Batch) {
    b.id == c.id && b.records == c.records && b.stamp == c.stamp
  }

  /** Every drained batch carries the number of its first record. */
  ghost predicate TiledAt(d: seq<Batch>, i: nat, who: Producer)
    requires i < |d|
  {
    && d[i].id == i && |d[i].records| <= MAX_COUNT
    && d[i].stamp == Some(Stamp(who.pid, who.epoch, Wire(Start(d, i))))
  }

  ghost predicate Tiled(d: seq<Batch>, who: Producer) {
    forall i :: 0 <= i < |d| ==> TiledAt(d, i, who)
  }

  ghost predicate HasRetry(queue: seq<Batch>) {
    queue != [] && queue[0].retries > 0
  }

  /** The held or requeued batch `b` is the one drained last, with the same bytes. */
  ghost predicate Again(b: Batch, drained: seq<Batch>) {
    drained != [] && SameBytes(b, drained[|drained| - 1]) && b.records != [] && b.retries > 0
  }

  /** Batches not drained yet: numbered from `n` on in creation order, `end` the next number. */
  ghost predicate Waiting(queue: seq<Batch>, first: nat, n: nat, end: nat) {
    && first <= |queue| && end == n + |queue| - first
    && forall j :: first <= j < |queue| ==>
      queue[j].id == n + j - first && queue[j].retries == 0 && |queue[j].records| <= MAX_COUNT
  }

  /** At most two unresolved batches, the held or requeued one first, ids in creation order. */
  ghost predicate Pipeline(queue: seq<Batch>, flight: Option<Batch>, muted: bool, created: nat, drained: seq<Batch>) {
    && |queue| + (if flight.Some? then 1 else 0) <= 2
    && (flight.Some? ==> !HasRetry(queue) && muted && Again(flight.value, drained))
    && (HasRetry(queue) ==> Again(queue[0], drained) && queue[0].closed)
    && Waiting(queue, if HasRetry(queue) then 1 else 0, |drained|, created)
  }

  ghost predicate Busy(p: Part) {
    p.flight.Some? || HasRetry(p.slot.queue)
  }

  /** Of the `n` drained batches exactly the last may be unresolved, when `busy`. */
  ghost predicate Resolution(n: nat, busy: bool, done: set<nat>, failed: set<nat>) {
    && (forall i :: i in done || i in failed ==> i < n)
    && done !! failed
    && forall i :: 0 <= i < n ==> ((i in done || i in failed) <==> !(i == n - 1 && busy))
  }

  /** Every request on the network repeats the bytes of the first drain. */
  ghost predicate SentBytes(drained: seq<Batch>, sent: set<Request>, replies: set<(Request, Reply)>) {
    && (forall r :: r in sent ==> FromBatch(drained, r))
    && forall r, a :: (r, a) in replies ==> r in sent
  }

  ghost predicate InLog(log: seq<Request>, id: nat) {
    exists j :: 0 <= j < |log| && log[j].id == id
  }

  /** A success reply, and a batch reported delivered, are in the log. */
  ghost predicate AcksInLog(drained: seq<Batch>, log: seq<Request>, replies: set<(Request, Reply)>, done: set<nat>) {
    && (forall r, a :: (r, a) in replies && a != OutOfOrder ==> InLog(log, r.id))
    && forall i :: i in done ==> i < |drained| && (drained[i].records != [] ==> InLog(log, i))
  }

  ghost predicate Inv(p: Part, who: Producer) {
    && Tiled(p.drained, who) && p.slot.sequence == Wire(Start(p.drained, |p.drained|))
    && Pipeline(p.slot.queue, p.flight, p.muted, p.created, p.drained)
    && Resolution(|p.drained|, Busy(p), p.done, p.failed)
    && SentBytes(p.drained, p.sent, p.replies)
    && Ordered(p.drained, p.log) && p.expected == Wire(LogEnd(p.drained, p.log))
    && AcksInLog(p.drained, p.log, p.replies, p.done)
  }

  // ---------- Facts about positions ----------

  lemma {:induction false} StartMonotone(d: seq<Batch>, i: nat, j: nat)
    requires i <= j <= |d|
    ensures Start(d, i) <= Start(d, j)
    ensures i < j && d[i].records != [] ==> Start(d, i) < Start(d, j)
    decreases j - i
  {
    if i < j {
      StartMonotone(d, i, j - 1);
    }
  }

  lemma {:induction false} StartGrow(d: seq<Batch>, b: Batch, i: nat)
    requires i <= |d|
    ensures Start(d + [b], i) == Start(d, i)
  {
    if i > 0 {
      StartGrow(d, b, i - 1);
    }
  }

  // ---------- Every event keeps the invariant ----------

  /** In sequence means: exactly the batch that starts where the log ends. */
  lemma AppendsAtEnd(d: seq<Batch>, log: seq<Request>, r: Request, kept: nat, who: Producer)
    requires Tiled(d, who) && FromBatch(d, r) && Fresh(d, log, r, kept)
    requires r.stamp.sequence == Wire(LogEnd(d, log))
    ensures Start(d, r.id) == LogEnd(d, log)
    ensures log != [] ==> log[|log| - 1].id < r.id
  {
    var s, end := Start(d, r.id), LogEnd(d, log);
    assert TiledAt(d, r.id, who);
    if kept > 0 {
      StartMonotone(d, log[|log| - kept].id, log[|log| - 1].id + 1);
    }
    if s <= end {
      WireInjective(s, end);
    } else {
      WireInjective(end, s);
    }
    if log != [] {
      var last := log[|log| - 1].id;
      if r.id <= last {
        StartMonotone(d, r.id, last + 1);
      }
    }
  }

  /** Two fresh batches with the same number are the same batch. */
  lemma SameNumber(d: seq<Batch>, a: nat, b: nat, who: Producer)
    requires Tiled(d, who) && a <= b < |d| && d[a].records != [] && d[a].stamp == d[b].stamp
    requires Start(d, b) < Start(d, a) + TWO32
    ensures a == b
  {
    assert TiledAt(d, a, who) && TiledAt(d, b, who);
    StartMonotone(d, a, b);
    WireInjective(Start(d, a), Start(d, b));
  }

  /** What the broker takes for a duplicate is one. */
  lemma RememberedInLog(d: seq<Batch>, log: seq<Request>, r: Request, kept: nat, who: Producer)
    requires Tiled(d, who) && FromBatch(d, r) && Fresh(d, log, r, kept) && Remembered(log, r, kept)
    ensures InLog(log, r.id)
  {
    var n := |log|;
    var j :| n - kept <= j < n && log[j].stamp == r.stamp && |log[j].records| == |r.records|;
    var a, b := log[j].id, log[n - kept].id;
    StartMonotone(d, b, a);
    StartMonotone(d, a, log[n - 1].id + 1);
    if a <= r.id {
      SameNumber(d, a, r.id, who);
    } else {
      SameNumber(d, r.id, a, who);
    }
  }

  lemma InLogGrow(log: seq<Request>, r: Request, id: nat)
    requires InLog(log, id) || id == r.id
    ensures InLog(log + [r], id)
  {
    if InLog(log, id) {
      var j :| 0 <= j < |log| && log[j].id == id;
      assert (log + [r])[j].id == id;
    } else {
      assert (log + [r])[|log|] == r;
    }
  }

  lemma AcksGrow(d: seq<Batch>, log: seq<Request>, replies: set<(Request, Reply)>, done: set<nat>, r: Request)
    requires AcksInLog(d, log, replies, done)
    ensures AcksInLog(d, log + [r], replies + {(r, Appended)}, done)
  {
    forall i | InLog(log, i) || i == r.id ensures InLog(log + [r], i) {
      InLogGrow(log, r, i);
    }
  }

  /** The log after an in-sequence append is still in order and ends where `r` ends. */
  lemma OrderedAppend(d: seq<Batch>, log: seq<Request>, r: Request, kept: nat, who: Producer)
    requires Tiled(d, who) && FromBatch(d, r) && Fresh(d, log, r, kept)
    requires r.stamp.sequence == Wire(LogEnd(d, log))
    ensures Ordered(d, log + [r])
    ensures Wire(LogEnd(d, log + [r])) == NextSeq(Wire(LogEnd(d, log)), |r.records|)
  {
    AppendsAtEnd(d, log, r, kept, who);
    assert TiledAt(d, r.id, who);
    NextSeqIsWire(LogEnd(d, log), |r.records|);
    var n := |log|;
    assert (log + [r])[n] == r;
    forall j, k | 0 <= j < k < n + 1 ensures (log + [r])[j].id < (log + [r])[k].id {
      if k == n {
        assert log[j].id <= log[n - 1].id;
      }
    }
  }

  lemma DeliverKeeps(p: Part, r: Request, kept: nat, who: Producer)
    requires Inv(p, who) && Enabled(p, Deliver(r, kept))
    ensures Inv(Apply(p, Deliver(r, kept), who), who)
  {
    hide Pipeline, Resolution, Tiled, Start;
    var a := Answer(p.log, p.expected, r, kept);
    assert FromBatch(p.drained, r);
    if a == Appended {
      OrderedAppend(p.drained, p.log, r, kept, who);
      AcksGrow(p.drained, p.log, p.replies, p.done, r);
    } else if a == Duplicate {
      RememberedInLog(p.drained, p.log, r, kept, who);
    }
  }

  /** Draining a batch for the first time extends the tiling by its records. */
  lemma TiledGrow(p: Part, who: Producer)
    requires Inv(p, who) && p.slot.queue != [] && p.slot.queue[0].retries == 0
    ensures var d, n := Drained(p, who), |p.drained|;
      && |d| == n + 1 && Tiled(d, who) && Pop(p.slot).sequence == Wire(Start(d, n + 1))
      && (forall i :: 0 <= i <= n ==> Start(d, i) == Start(p.drained, i))
  {
    var b, d, n := Popped(p.slot, who), Drained(p, who), |p.drained|;
    assert d == p.drained + [b] && b.id == n;
    forall i | 0 <= i <= n ensures Start(d, i) == Start(p.drained, i) {
      StartGrow(p.drained, b, i);
    }
    forall i | 0 <= i < |d| ensures TiledAt(d, i, who) {
      if i < n {
        assert TiledAt(p.drained, i, who);
      }
    }
    NextSeqIsWire(Start(p.drained, n), |b.records|);
  }

  /** Old requests and the old log read the same after another first drain. */
  lemma OrderedGrow(d: seq<Batch>, b: Batch, log: seq<Request>)
    requires Ordered(d, log)
    ensures forall r :: FromBatch(d, r) ==> FromBatch(d + [b], r)
    ensures Ordered(d + [b], log) && LogEnd(d + [b], log) == LogEnd(d, log)
  {
    if log != [] {
      StartGrow(d, b, log[|log| - 1].id + 1);
    }
  }

  lemma DrainFirst(p: Part, who: Producer, e: Event)
    requires e == Drain || e == Expire
    requires Inv(p, who) && Enabled(p, e) && p.slot.queue[0].retries == 0
    ensures Inv(Apply(p, e, who), who)
  {
    hide Ordered, Tiled, Start, FromBatch, InLog;
    var b, q := Popped(p.slot, who), Apply(p, e, who);
    TiledGrow(p, who);
    OrderedGrow(p.drained, b, p.log);
    assert q.drained == p.drained + [b] && q.slot == Pop(p.slot);
    DrainPipeline(p, q, b);
    assert b.id == |p.drained| && !Busy(p);
    hide Pipeline;
  }

  lemma DrainPipeline(p: Part, q: Part, b: Batch)
    requires Pipeline(p.slot.queue, p.flight, p.muted, p.created, p.drained)
    requires p.slot.queue != [] && p.slot.queue[0].retries == 0 && p.flight.None?
    requires q.slot.queue == p.slot.queue[1..] && q.drained == p.drained + [b] && q.created == p.created
    requires q.flight.None? || (q.flight == Some(b) && q.muted && b.records != [] && b.retries > 0)
    ensures Pipeline(q.slot.queue, q.flight, q.muted, q.created, q.drained)
  {
    assert Waiting(q.slot.queue, 0, |q.drained|, q.created);
  }

  lemma DrainAgain(p: Part, who: Producer, e: Event)
    requires e == Drain || e == Expire
    requires Inv(p, who) && Enabled(p, e) && p.slot.queue[0].retries > 0
    ensures Inv(Apply(p, e, who), who)
  {
    hide Ordered, SentBytes, AcksInLog, Start;
    var q := Apply(p, e, who);
    assert TiledAt(p.drained, |p.drained| - 1, who);
    assert q.drained == p.drained && q.slot.queue == p.slot.queue[1..];
    assert Waiting(q.slot.queue, 0, |q.drained|, q.created);
  }

  lemma QueueKeeps(p: Part, who: Producer, e: Event)
    requires e.Open? || e.Append? || e.Close?
    requires Inv(p, who) && Enabled(p, e)
    ensures Inv(Apply(p, e, who), who)
  {
    hide Tiled, Ordered, SentBytes, AcksInLog, Start, Resolution;
    var q := Apply(p, e, who);
    assert HasRetry(q.slot.queue) == HasRetry(p.slot.queue);
  }

  lemma SendKeeps(p: Part, who: Producer)
    requires Inv(p, who) && Enabled(p, Send)
    ensures Inv(Apply(p, Send, who), who)
  {
    var n := |p.drained|;
    assert TiledAt(p.drained, n - 1, who);
    assert FromBatch(p.drained, RequestOf(p.flight.value));
  }

  lemma ResolveKeeps(p: Part, who: Producer, e: Event)
    requires e == Ack || e == Fail
    requires Inv(p, who) && Enabled(p, e)
    ensures Inv(Apply(p, e, who), who)
  {
    hide Ordered, SentBytes, Start;
    assert TiledAt(p.drained, |p.drained| - 1, who);
    assert p.flight.value.id == |p.drained| - 1;
  }

  lemma RetryKeeps(p: Part, who: Producer)
    requires Inv(p, who) && Enabled(p, Retry)
    ensures Inv(Apply(p, Retry, who), who)
  {
    var q := Apply(p, Retry, who);
    assert q.slot.queue[0] == p.flight.value && q.slot.queue[1..] == p.slot.queue;
    assert Waiting(q.slot.queue, 1, |q.drained|, q.created);
  }

  lemma StepKeeps(p: Part, who: Producer, e: Event)
    requires Inv(p, who) && Enabled(p, e)
    ensures Inv(Apply(p, e, who), who)
  {
    hide Tiled, Ordered, SentBytes, AcksInLog, Resolution, Start;
    match e
    case Deliver(r, kept) => DeliverKeeps(p, r, kept, who);
    case Drain => if p.slot.queue[0].retries == 0 { DrainFirst(p, who, e); } else { DrainAgain(p, who, e); }
    case Expire => if p.slot.queue[0].retries == 0 { DrainFirst(p, who, e); } else { DrainAgain(p, who, e); }
    case Retry => RetryKeeps(p, who);
    case Open(_, _) => QueueKeeps(p, who, e);
    case Append(_) => QueueKeeps(p, who, e);
    case Close => QueueKeeps(p, who, e);
    case Send => SendKeeps(p, who);
    case Ack => ResolveKeeps(p, who, e);
    case Fail => ResolveKeeps(p, who, e);
    case Unmute =>
  }

  lemma {:induction false} RunKeeps(p: Part, events: seq<Event>, who: Producer)
    requires Inv(p, who)
    ensures Run(p, events, who).Some? ==> Inv(Run(p, events, who).value, who)
    decreases |events|
  {
    if events != [] && Enabled(p, events[0]) {
      StepKeeps(p, who, events[0]);
      RunKeeps(Apply(p, events[0], who), events[1..], who);
    }
  }

  // ---------- What every run guarantees ----------

  ghost predicate Reached(p: Part, events: seq<Event>, who: Producer) {
    Run(Init(), events, who) == Some(p)
  }

  lemma ReachedInv(p: Part, events: seq<Event>, who: Producer)
    requires Reached(p, events, who)
    ensures Inv(p, who)
  {
    assert Start([], 0) == 0;
    RunKeeps(Init(), events, who);
  }

  /** However requests and replies are lost, repeated or reordered, and whichever batches
      fail: no batch is appended twice, the log is in creation order, every request for a
      batch carries the same bytes, and a batch reported delivered is in the log. */
  lemma AtMostOnceInOrder(p: Part, events: seq<Event>, who: Producer)
    requires Reached(p, events, who)
    ensures forall j, k :: 0 <= j < k < |p.log| ==> p.log[j].id < p.log[k].id
    ensures forall r, s :: r in p.sent && s in p.sent && r.id == s.id ==> r == s
    ensures forall i :: i in p.done ==> i < |p.drained| && (p.drained[i].records != [] ==> InLog(p.log, i))
  {
    ReachedInv(p, events, who);
    forall r, s | r in p.sent && s in p.sent && r.id == s.id ensures r == s {
      assert FromBatch(p.drained, r) && FromBatch(p.drained, s);
    }
  }

  /** The base sequences on a partition tile the record stream in 32 bits. */
  lemma SequencesTile(p: Part, events: seq<Event>, who: Producer, i: nat)
    requires Reached(p, events, who) && i < |p.drained|
    ensures p.drained[i].stamp.Some?
    ensures var s := p.drained[i].stamp.value.sequence;
      && Int32(s) && (Start(p.drained, i) - s) % TWO32 == 0
      && (i + 1 < |p.drained| ==>
        p.drained[i + 1].stamp == Some(Stamp(who.pid, who.epoch, NextSeq(s, |p.drained[i].records|))))
  {
    ReachedInv(p, events, who);
    assert TiledAt(p.drained, i, who);
    WireInt32(Start(p.drained, i));
    NextSeqIsWire(Start(p.drained, i), |p.drained[i].records|);
    if i + 1 < |p.drained| {
      assert TiledAt(p.drained, i + 1, who);
    }
  }

  ghost predicate Queued(queue: seq<Batch>, id: nat) {
    exists j :: 0 <= j < |queue| && queue[j].id == id
  }

  ghost predicate Held(flight: Option<Batch>, id: nat) {
    flight.Some? && flight.value.id == id
  }

  /** At most two batches are outstanding, in creation order with the held one first, and
      every batch ever created is in exactly one of four places: delivered, failed, held by
      the sender or queued. A drained one that is queued is the requeued head. */
  lemma BoundedPipeline(p: Part, events: seq<Event>, who: Producer)
    requires Reached(p, events, who)
    ensures |p.slot.queue| + (if p.flight.Some? then 1 else 0) <= 2
    ensures !(p.flight.Some? && HasRetry(p.slot.queue))
    ensures forall i, j :: 0 <= i < j < |p.slot.queue| ==> p.slot.queue[i].id < p.slot.queue[j].id
    ensures p.flight.Some? ==> forall j :: 0 <= j < |p.slot.queue| ==> p.flight.value.id < p.slot.queue[j].id
    ensures p.done !! p.failed && |p.drained| <= p.created
    ensures forall i: nat ::
      (i in p.done || i in p.failed || Held(p.flight, i) || Queued(p.slot.queue, i)) <==> i < p.created
    ensures forall i: nat :: i in p.done || i in p.failed ==> !Held(p.flight, i) && !Queued(p.slot.queue, i)
    ensures forall i: nat :: i < |p.drained| && Queued(p.slot.queue, i) ==>
      HasRetry(p.slot.queue) && p.slot.queue[0].id == i
  {
    ReachedInv(p, events, who);
    var n, first := |p.drained|, if HasRetry(p.slot.queue) then 1 else 0;
    if n > 0 {
      assert TiledAt(p.drained, n - 1, who);
    }
    hide Tiled, Ordered, SentBytes, AcksInLog, Run, Start;
    forall i: nat | n <= i < p.created ensures Queued(p.slot.queue, i) {
      assert p.slot.queue[i - n + first].id == i;
    }
  }

  // ---------- Runs without failed batches: exactly once ----------

  function Flat(d: seq<Batch>, m: nat): seq<Record>
    requires m <= |d|
  {
    if m == 0 then [] else Flat(d, m - 1) + d[m - 1].records
  }

  function FlatLog(log: seq<Request>): seq<Record> {
    if log == [] then [] else FlatLog(log[..|log| - 1]) + log[|log| - 1].records
  }

  lemma Newest(d: seq<Batch>, log: seq<Request>, id: nat)
    requires Ordered(d, log) && InLog(log, id)
    ensures log != [] && id <= log[|log| - 1].id
  {
  }

  /** Without its newest entry the log holds every other batch it held. */
  lemma DropNewest(d: seq<Batch>, log: seq<Request>, id: nat)
    requires Ordered(d, log) && InLog(log, id) && log[|log| - 1].id != id
    ensures InLog(log[..|log| - 1], id)
  {
    var k :| 0 <= k < |log| && log[k].id == id;
    assert log[..|log| - 1][k].id == id;
  }

  lemma OrderedDrop(d: seq<Batch>, log: seq<Request>)
    requires Ordered(d, log) && log != []
    ensures var rest := log[..|log| - 1];
      Ordered(d, rest) && (rest != [] ==> rest[|rest| - 1].id < log[|log| - 1].id)
  {
  }

  lemma NewestHasRecords(d: seq<Batch>, log: seq<Request>)
    requires Ordered(d, log) && log != []
    ensures var last := log[|log| - 1];
      last.id < |d| && last.records == d[last.id].records && last.records != []
  {
    assert FromBatch(d, log[|log| - 1]);
  }

  /** A log that holds every non-empty batch below `m`, and nothing else, holds their records. */
  lemma {:induction false} LogIsPrefix(d: seq<Batch>, log: seq<Request>, m: nat)
    requires m <= |d| && Ordered(d, log)
    requires forall i :: 0 <= i < m && d[i].records != [] ==> InLog(log, i)
    requires log != [] ==> log[|log| - 1].id < m
    ensures FlatLog(log) == Flat(d, m)
    decreases m
  {
    hide Ordered, InLog, FromBatch;
    if m == 0 {
    } else if d[m - 1].records == [] {
      if log != [] { NewestHasRecords(d, log); }
      LogIsPrefix(d, log, m - 1);
    } else {
      var n := |log|;
      Newest(d, log, m - 1);
      NewestHasRecords(d, log);
      OrderedDrop(d, log);
      var rest := log[..n - 1];
      forall i | 0 <= i < m - 1 && d[i].records != [] ensures InLog(rest, i) {
        DropNewest(d, log, i);
      }
      LogIsPrefix(d, rest, m - 1);
      assert FlatLog(log) == FlatLog(rest) + log[n - 1].records;
    }
  }

  /** The number of drained batches whose fate is settled, when nothing failed. */
  ghost function Settled(p: Part): nat
    requires Busy(p) ==> p.drained != []
  {
    if Busy(p) then |p.drained| - 1 else |p.drained|
  }

  /** With no failed batch the broker holds, in order and once each, the records of all
      batches drained so far, up to the one still unresolved. */
  lemma ExactlyOnce(p: Part, events: seq<Event>, who: Producer)
    requires Reached(p, events, who) && p.failed == {}
    ensures Busy(p) ==> p.drained != []
    ensures FlatLog(p.log) == Flat(p.drained, |p.drained|)
         || (Busy(p) && FlatLog(p.log) == Flat(p.drained, Settled(p)))
  {
    ReachedInv(p, events, who);
    var d, n, m := p.drained, |p.drained|, Settled(p);
    assert forall i :: 0 <= i < m && d[i].records != [] ==> InLog(p.log, i);
    if p.log != [] {
      assert FromBatch(d, p.log[|p.log| - 1]);
    }
    if m == n || (p.log != [] && p.log[|p.log| - 1].id == n - 1) {
      LogIsPrefix(d, p.log, n);
    } else {
      LogIsPrefix(d, p.log, m);
    }
  }

  // ---------- What was given is what is delivered ----------

  /** The records that an event brings in. */
  function Brought(e: Event): seq<Record> {
    if e.Open? then e.records else if e.Append? then [e.record] else []
  }

  /** The records that were given to the producer, in the order they were accepted. */
  function Given(events: seq<Event>): seq<Record>
    decreases |events|
  {
    if events == [] then [] else Brought(events[0]) + Given(events[1..])
  }

  /** The records of the batches from place `first` on. */
  function Behind(queue: seq<Batch>, first: nat): seq<Record>
    decreases |queue| - first
  {
    if first >= |queue| then [] else queue[first].records + Behind(queue, first + 1)
  }

  /** All records the partition has taken: those of the batches drained so far, then those of
      the queued batches not drained yet. */
  ghost function Taken(p: Part): seq<Record> {
    Flat(p.drained, |p.drained|) + Behind(p.slot.queue, if HasRetry(p.slot.queue) then 1 else 0)
  }

  lemma {:induction false} FlatGrow(d: seq<Batch>, b: Batch, m: nat)
    requires m <= |d|
    ensures Flat(d + [b], m) == Flat(d, m)
    decreases m
  {
    if m > 0 {
      FlatGrow(d, b, m - 1);
    }
  }

  lemma FlatOne(d: seq<Batch>, b: Batch)
    ensures Flat(d + [b], |d| + 1) == Flat(d, |d|) + b.records
  {
    FlatGrow(d, b, |d|);
  }

  lemma {:induction false} BehindSame(queue: seq<Batch>, other: seq<Batch>, first: nat)
    requires |queue| == |other| && forall i :: first <= i < |queue| ==> other[i].records == queue[i].records
    ensures Behind(queue, first) == Behind(other, first)
    decreases |queue| - first
  {
    if first < |queue| {
      BehindSame(queue, other, first + 1);
    }
  }

  lemma {:induction false} BehindTail(queue: seq<Batch>, first: nat)
    requires queue != []
    ensures Behind(queue[1..], first) == Behind(queue, first + 1)
    decreases |queue| - first
  {
    if first + 1 < |queue| {
      BehindTail(queue, first + 1);
    }
  }

  /** A record that joins the newest batch comes after all others. */
  lemma {:induction false} BehindAppend(s: Slot, r: Record, first: nat)
    requires s.queue != [] && first < |s.queue|
    ensures Behind(AppendRecord(s, r).queue, first) == Behind(s.queue, first) + [r]
    decreases |s.queue| - first
  {
    var after := AppendRecord(s, r).queue;
    if first + 1 < |s.queue| {
      BehindAppend(s, r, first + 1);
      ConcatAssoc(s.queue[first].records, Behind(s.queue, first + 1), [r]);
    } else {
      assert Behind(s.queue, first) == s.queue[first].records + [];
      assert Behind(after, first) == after[first].records + [];
    }
  }

  lemma TakenByOpen(p: Part, records: seq<Record>, closed: bool, who: Producer)
    requires Inv(p, who) && Enabled(p, Open(records, closed))
    ensures Taken(Apply(p, Open(records, closed), who)) == Taken(p) + records
  {
    hide Tiled, Ordered, SentBytes, AcksInLog, Resolution, Start, Pipeline, Flat;
    var q := Apply(p, Open(records, closed), who);
    assert q.slot.queue == [Batch(p.created, records, closed, 0, None)];
    assert Behind(q.slot.queue, 0) == records + Behind(q.slot.queue, 1);
    assert Behind(q.slot.queue, 1) == [] && Behind(p.slot.queue, 0) == [];
    ConcatNil(records);
    ConcatNil(Flat(p.drained, |p.drained|));
  }

  lemma TakenByAppend(p: Part, r: Record, who: Producer)
    requires Inv(p, who) && Enabled(p, Append(r))
    ensures Taken(Apply(p, Append(r), who)) == Taken(p) + [r]
  {
    hide Tiled, Ordered, SentBytes, AcksInLog, Resolution, Start, Flat;
    var first := if HasRetry(p.slot.queue) then 1 else 0;
    assert first < |p.slot.queue|;
    BehindAppend(p.slot, r, first);
    ConcatAssoc(Flat(p.drained, |p.drained|), Behind(p.slot.queue, first), [r]);
  }

  lemma TakenByDrain(p: Part, e: Event, who: Producer)
    requires (e == Drain || e == Expire) && Inv(p, who) && Enabled(p, e)
    ensures Taken(Apply(p, e, who)) == Taken(p)
  {
    hide Tiled, Ordered, SentBytes, AcksInLog, Resolution, Start, Flat;
    var q, d, queue := Apply(p, e, who), p.drained, p.slot.queue;
    assert q.slot.queue == queue[1..] && !HasRetry(q.slot.queue);
    BehindTail(queue, 0);
    if queue[0].retries == 0 {
      var b := Popped(p.slot, who);
      FlatOne(d, b);
      ConcatAssoc(Flat(d, |d|), b.records, Behind(queue, 1));
    }
  }

  lemma TakenByRetry(p: Part, who: Producer)
    requires Inv(p, who) && Enabled(p, Retry)
    ensures Taken(Apply(p, Retry, who)) == Taken(p)
  {
    hide Tiled, Ordered, SentBytes, AcksInLog, Resolution, Start, Flat;
    var q := Apply(p, Retry, who);
    assert q.slot.queue[1..] == p.slot.queue;
    BehindTail(q.slot.queue, 0);
  }

  lemma TakenByClose(p: Part, who: Producer)
    ensures Taken(Apply(p, Close, who)) == Taken(p)
  {
    hide Flat;
    var q := Apply(p, Close, who);
    BehindSame(p.slot.queue, q.slot.queue, 0);
    BehindSame(p.slot.queue, q.slot.queue, 1);
  }

  /** An event adds what it brings to what was taken, at the end; no other event changes it. */
  lemma TakenGrows(p: Part, e: Event, who: Producer)
    requires Inv(p, who) && Enabled(p, e)
    ensures Taken(Apply(p, e, who)) == Taken(p) + Brought(e)
  {
    hide Inv, Flat, Behind;
    ConcatNil(Taken(p));
    match e
    case Open(records, closed) => TakenByOpen(p, records, closed, who);
    case Append(r) => TakenByAppend(p, r, who);
    case Close => TakenByClose(p, who);
    case Drain => TakenByDrain(p, e, who);
    case Expire => TakenByDrain(p, e, who);
    case Retry => TakenByRetry(p, who);
    case _ =>
  }

  lemma {:induction false} RunTakes(p: Part, events: seq<Event>, who: Producer)
    requires Inv(p, who)
    ensures Run(p, events, who).Some? ==> Taken(Run(p, events, who).value) == Taken(p) + Given(events)
    decreases |events|
  {
    hide Inv, Taken, Apply, Enabled;
    ConcatNil(Taken(p));
    if events != [] && Enabled(p, events[0]) {
      StepKeeps(p, who, events[0]);
      TakenGrows(p, events[0], who);
      RunTakes(Apply(p, events[0], who), events[1..], who);
      ConcatAssoc(Taken(p), Brought(events[0]), Given(events[1..]));
    }
  }

  /** Over every run the records given to the producer, in their order, are those of the
      drained batches followed by those still queued: none is lost, repeated or reordered. */
  lemma GivenIsTaken(p: Part, events: seq<Event>, who: Producer)
    requires Reached(p, events, who)
    ensures Given(events) == Flat(p.drained, |p.drained|)
                             + Behind(p.slot.queue, if HasRetry(p.slot.queue) then 1 else 0)
  {
    assert Start([], 0) == 0;
    RunTakes(Init(), events, who);
    ConcatNil(Given(events));
  }

  lemma FlatPrefix(d: seq<Batch>)
    requires d != []
    ensures Flat(d, |d| - 1) <= Flat(d, |d|)
  {
  }

  /** With no failed batch the log is a prefix of what was given, in the order it was given. */
  lemma LogIsPrefixOfGiven(p: Part, events: seq<Event>, who: Producer)
    requires Reached(p, events, who) && p.failed == {}
    ensures FlatLog(p.log) <= Given(events)
  {
    hide Run, Flat, FlatLog, Given, Behind;
    ExactlyOnce(p, events, who);
    GivenIsTaken(p, events, who);
    if p.drained != [] {
      FlatPrefix(p.drained);
    }
  }

  lemma {:induction false} StartFlat(d: seq<Batch>, i: nat, j: nat)
    requires i <= j <= |d| && forall k :: i <= k < j ==> d[k].records == []
    ensures Start(d, i) == Start(d, j)
    decreases j - i
  {
    if i < j {
      StartFlat(d, i, j - 1);
    }
  }

  /** Some non-empty batch drained before batch `i` never reached the log, which has not reached `i`. */
  ghost predicate Gap(d: seq<Batch>, log: seq<Request>, i: nat)
    requires i < |d|
  {
    exists k :: 0 <= k < i && d[k].records != [] && (log != [] ==> log[|log| - 1].id < k)
  }

  /** The batch being sent is refused as out of order exactly when an earlier batch was
      lost for good; a broker that remembers its newest batch takes any other retry. */
  lemma RefusedIffGap(p: Part, events: seq<Event>, who: Producer, kept: nat)
    requires Reached(p, events, who)
    requires p.flight.Some? && p.flight.value.stamp.Some?
    requires Fresh(p.drained, p.log, RequestOf(p.flight.value), kept) && (p.log != [] ==> kept > 0)
    ensures 0 < |p.drained| && (Answer(p.log, p.expected, RequestOf(p.flight.value), kept) == OutOfOrder
      <==> Gap(p.drained, p.log, |p.drained| - 1))
  {
    hide Run, Resolution, SentBytes, AcksInLog;
    ReachedInv(p, events, who);
    var d, n, r, m := p.drained, |p.drained|, RequestOf(p.flight.value), |p.log|;
    assert TiledAt(d, n - 1, who) && FromBatch(d, r);
    var last := if m == 0 then 0 else p.log[m - 1].id + 1;
    if m > 0 { assert FromBatch(d, p.log[m - 1]); }
    if Gap(d, p.log, n - 1) {
      var k :| last <= k < n - 1 && d[k].records != [];
      StartMonotone(d, last, k);
      StartMonotone(d, k, n - 1);
      NotBeyond(d, p.log, n - 1);
      RefusedAhead(d, p.log, r, kept, who);
    } else if m > 0 && p.log[m - 1].id == n - 1 {
      assert p.log[m - 1] == r;
      assert Remembered(p.log, r, kept);
    } else {
      StartFlat(d, last, n - 1);
    }
  }

  /** Such a run: a batch expires without having been sent, its number is spent, and the
      broker refuses the next one. */
  lemma ExpiryBlocks(who: Producer) returns (p: Part)
    ensures Reached(p, [Open([7], true), Expire, Open([8], true), Drain], who)
    ensures p.log == [] && p.failed == {0} && p.flight.Some? && p.flight.value.stamp.Some?
    ensures var r := RequestOf(p.flight.value);
      r.records == [8] && Fresh(p.drained, p.log, r, 0) && Answer(p.log, p.expected, r, 0) == OutOfOrder
  {
    var events := [Open([7], true), Expire, Open([8], true), Drain];
    var p1 := Apply(Init(), events[0], who);
    var p2 := Apply(p1, events[1], who);
    var p3 := Apply(p2, events[2], who);
    p := Apply(p3, events[3], who);
    assert events[1..][1..][1..][1..] == [];
    assert p2.drained == [Batch(0, [7], true, 1, Some(Stamp(who.pid, who.epoch, 0)))];
    assert Start(p.drained, 1) == Start(p.drained, 0) + 1;
  }

  /** A batch ahead of the end of the log, and not in it, is refused. */
  lemma RefusedAhead(d: seq<Batch>, log: seq<Request>, r: Request, kept: nat, who: Producer)
    requires Tiled(d, who) && FromBatch(d, r) && Fresh(d, log, r, kept)
    requires !InLog(log, r.id) && LogEnd(d, log) < Start(d, r.id)
    ensures Answer(log, Wire(LogEnd(d, log)), r, kept) == OutOfOrder
  {
    if Remembered(log, r, kept) {
      RememberedInLog(d, log, r, kept, who);
    } else if r.stamp.sequence == Wire(LogEnd(d, log)) {
      AppendsAtEnd(d, log, r, kept, who);
    }
  }

  /** With no failed batch nothing is ever refused: retrying is always safe. */
  lemma NoFailureNoGap(p: Part, events: seq<Event>, who: Producer)
    requires Reached(p, events, who) && p.failed == {} && p.drained != []
    ensures !Gap(p.drained, p.log, |p.drained| - 1)
  {
    ReachedInv(p, events, who);
    var d, n := p.drained, |p.drained|;
    forall k | 0 <= k < n - 1 && d[k].records != [] ensures p.log != [] && k <= p.log[|p.log| - 1].id {
      Newest(d, p.log, k);
    }
  }

  lemma NotBeyond(d: seq<Batch>, log: seq<Request>, id: nat)
    requires Ordered(d, log) && (log != [] ==> log[|log| - 1].id < id)
    ensures !InLog(log, id)
  {
    if InLog(log, id) {
      Newest(d, log, id);
    }
  }
}
