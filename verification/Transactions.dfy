/** Transactions over many partitions (KIP-98): the transaction manager, the sender's
    single transactional task and the produce pipelines it has to wait for.

    Runs cover retriable errors, lost replies and failed batches; abortable and fatal
    transaction errors are outside the model.
 */
module Transactions {
  import opened Types
  import opened Delivery

  // ---------- TransactionManager ----------

  datatype TxnState =
    Uninitialized | Ready | InTransaction | Committing | Aborting | AbortableError | FatalError

  predicate ValidTransition(source: TxnState, target: TxnState) {
    match target
    case Ready => source in {Uninitialized, Committing, Aborting}
    case InTransaction => source == Ready
    case Committing => source == InTransaction
    case Aborting => source in {InTransaction, AbortableError}
    case _ => target in {AbortableError, FatalError}
  }

  /** One call of send_offsets_to_transaction that is not committed yet. */
  datatype Offsets = Offsets(group: string, positions: map<TopicPartition, int>)

  datatype Txn = Txn(
    state: TxnState,
    partitions: set<TopicPartition>,   // _txn_partitions
    pending: set<TopicPartition>,      // _pending_txn_partitions
    group: Option<string>,             // _txn_consumer_group
    offsets: seq<Offsets>)             // _pending_txn_offsets

  // A failed assertion of the manager is None.

  function TransitionTo(t: Txn, target: TxnState): Option<Txn> {
    if ValidTransition(t.state, target) then Some(t.(state := target)) else None
  }

  function MaybeAdd(t: Txn, tp: TopicPartition): Option<Txn> {
    if t.state != InTransaction then None
    else Some(if tp in t.partitions then t else t.(pending := t.pending + {tp}))
  }

  function AddOffsets(t: Txn, o: Offsets): Option<Txn> {
    if t.state != InTransaction then None else Some(t.(offsets := t.offsets + [o]))
  }

  function PartitionAdded(t: Txn, tp: TopicPartition): Option<Txn> {
    if tp !in t.pending then None
    else Some(t.(pending := t.pending - {tp}, partitions := t.partitions + {tp}))
  }

  function OffsetCommitted(t: Txn, tp: TopicPartition, offset: int, group: string): Option<Txn> {
    if t.offsets == [] then None
    else
      var head := t.offsets[0];
      if head.group != group || tp !in head.positions || head.positions[tp] != offset then None
      else
        var left := head.positions - {tp};
        Some(t.(offsets := if left == map[] then t.offsets[1..] else [head.(positions := left)] + t.offsets[1..]))
  }

  function Complete(t: Txn): Option<Txn> {
    if t.pending != {} || t.offsets != [] || !ValidTransition(t.state, Ready) then None
    else Some(t.(state := Ready, partitions := {}, group := None))
  }

  /** needs_transaction_commit. */
  predicate NeedsEnd(t: Txn) {
    t.state == Committing || t.state == Aborting
  }

  /** is_empty_transaction. */
  predicate EmptyTransaction(t: Txn) {
    t.partitions == {} && t.group == None
  }

  /** producer/transaction_manager.py as the object it is; `ok` is false where the source
      fails an assertion, and then nothing has changed. */
  class TransactionManager {
    var state: TxnState
    var partitions: set<TopicPartition>
    var pending: set<TopicPartition>
    var group: Option<string>
    var offsets: seq<Offsets>

    function View(): Txn
      reads this
    {
      Txn(state, partitions, pending, group, offsets)
    }

    constructor ()
      ensures View() == Txn(Uninitialized, {}, {}, None, [])
    {
      state, partitions, pending, group, offsets := Uninitialized, {}, {}, None, [];
    }

    method Transition(target: TxnState) returns (ok: bool)
      modifies this`state
      ensures ok == TransitionTo(old(View()), target).Some?
      ensures View() == if ok then TransitionTo(old(View()), target).value else old(View())
    {
      ok := ValidTransition(state, target);
      if ok {
        state := target;
      }
    }

    method MaybeAddPartition(tp: TopicPartition) returns (ok: bool)
      modifies this`pending
      ensures ok == MaybeAdd(old(View()), tp).Some?
      ensures View() == if ok then MaybeAdd(old(View()), tp).value else old(View())
    {
      ok := state == InTransaction;
      if ok && tp !in partitions {
        pending := pending + {tp};
      }
    }

    method AddOffsetsToTxn(o: Offsets) returns (ok: bool)
      modifies this`offsets
      ensures ok == AddOffsets(old(View()), o).Some?
      ensures View() == if ok then AddOffsets(old(View()), o).value else old(View())
    {
      ok := state == InTransaction;
      if ok {
        offsets := offsets + [o];
      }
    }

    method AddedPartition(tp: TopicPartition) returns (ok: bool)
      modifies this`pending, this`partitions
      ensures ok == PartitionAdded(old(View()), tp).Some?
      ensures View() == if ok then PartitionAdded(old(View()), tp).value else old(View())
    {
      ok := tp in pending;
      if ok {
        pending := pending - {tp};
        partitions := partitions + {tp};
      }
    }

    method AddedGroup(id: string)
      modifies this`group
      ensures View() == old(View()).(group := Some(id))
    {
      group := Some(id);
    }

    method CommittedOffset(tp: TopicPartition, offset: int, id: string) returns (ok: bool)
      modifies this`offsets
      ensures ok == OffsetCommitted(old(View()), tp, offset, id).Some?
      ensures View() == if ok then OffsetCommitted(old(View()), tp, offset, id).value else old(View())
    {
      if offsets == [] || offsets[0].group != id || tp !in offsets[0].positions || offsets[0].positions[tp] != offset {
        return false;
      }
      var left := offsets[0].positions - {tp};
      if left == map[] {
        offsets := offsets[1..];
      } else {
        offsets := [offsets[0].(positions := left)] + offsets[1..];
      }
      return true;
    }

    method CompleteTransaction() returns (ok: bool)
      modifies this`state, this`partitions, this`group
      ensures ok == Complete(old(View())).Some?
      ensures View() == if ok then Complete(old(View())).value else old(View())
    {
      if pending != {} || offsets != [] {
        return false;
      }
      ok := Transition(Ready);
      if ok {
        partitions := {};
        group := None;
      }
    }
  }

  // ---------- The sender's transactional task ----------

  datatype Task =
    | Idle
    | AddingPartitions(tps: set<TopicPartition>)     // those of the request, once it is built
    | AddingGroup(group: string)
    | CommittingOffsets(group: string, left: set<TopicPartition>)
    | Flushing
    | Ending

  /** The partitions, the transaction, the sender's task, and the batches a flush waits for;
      and the account of the present transaction. */
  datatype Sys = Sys(
    parts: map<TopicPartition, Part>, txn: Txn, task: Task, waiting: set<(TopicPartition, nat)>, account: Account)

  /** One offset of a call: group, partition, offset. */
  datatype Commit = Commit(group: string, tp: TopicPartition, offset: int)

  /** What happened in a transaction: the partitions that got a batch, the groups of the calls
      with offsets, in order, and the groups added, the offsets asked for and those committed. */
  datatype Account = Account(
    touched: set<TopicPartition>, calls: seq<string>, joined: set<string>, asked: set<Commit>, committed: set<Commit>)

  function NoAccount(): Account {
    Account({}, [], {}, {}, {})
  }

  /** The offsets of a call. */
  function CommitsOf(o: Offsets): set<Commit> {
    set tp | tp in o.positions :: Commit(o.group, tp, o.positions[tp])
  }

  /** The offsets of calls that are not committed yet. */
  function Uncommitted(offsets: seq<Offsets>): set<Commit> {
    set i, tp | 0 <= i < |offsets| && tp in offsets[i].positions ::
      Commit(offsets[i].group, tp, offsets[i].positions[tp])
  }

  /** Batches of a partition that are not resolved yet. */
  function Outstanding(p: Part): set<nat> {
    set i | 0 <= i < p.created && i !in p.done && i !in p.failed
  }

  /** The snapshot flush_for_commit waits for. */
  function Snapshot(s: Sys): set<(TopicPartition, nat)> {
    set tp, i | tp in s.parts && i in Outstanding(s.parts[tp]) :: (tp, i)
  }

  function CloseParts(parts: map<TopicPartition, Part>): map<TopicPartition, Part> {
    map tp | tp in parts :: parts[tp].(slot := CloseAll(parts[tp].slot))
  }

  /** Sender._maybe_do_transactional_request. */
  function NextTask(t: Txn): Task {
    if t.pending != {} then AddingPartitions({})
    else if t.group == None && t.offsets != [] then AddingGroup(t.offsets[0].group)
    else if t.group != None && t.offsets != [] then CommittingOffsets(t.offsets[0].group, t.offsets[0].positions.Keys)
    else if NeedsEnd(t) then Flushing
    else Idle
  }

  datatype Action =
    | Begin
    | End(commit: bool)                              // commit_transaction or abort_transaction
    | SendOffsets(offsets: Offsets)
    | OnPart(tp: TopicPartition, event: Event)       // anything that happens on one partition
    | Start                                          // the sender picks its next task
    | Ask                                            // the request is built from the live set
    | Added(tp: TopicPartition)                      // one partition of a reply was added
    | GroupAdded
    | Committed(tp: TopicPartition)                  // one offset of a reply was committed
    | TaskOver                                       // the task returns, successful or to be retried
    | Flushed                                        // flush_for_commit returns
    | Ended                                          // EndTxn succeeded

  /** Calls of the user. A send that waited for room opens its batch when it wakes up, in
      whatever state the transaction is by then. */
  predicate UserCall(a: Action) {
    a.Begin? || a.End? || a.SendOffsets? || (a.OnPart? && a.event.Open?)
  }

  /** The state in which a call of the user goes through. */
  predicate InTime(t: Txn, a: Action) {
    if a.Begin? then t.state == Ready else t.state == InTransaction
  }

  /** What may happen next. Nothing is demanded of the user's calls but a known partition with
      room for a batch. */
  ghost predicate Possible(s: Sys, a: Action) {
    match a
    case Begin | End(_) | SendOffsets(_) => true
    case OnPart(tp, e) =>
      && tp in s.parts && Enabled(s.parts[tp], e) && !e.Close?
      // the sender drains only partitions that are not waiting to be added
      && (e.Drain? || e.Expire? ==> tp !in s.txn.pending)
    case Start => s.task == Idle
    case Ask => s.task.AddingPartitions?
    case Added(tp) => s.task.AddingPartitions? && tp in s.task.tps
    case GroupAdded => s.task.AddingGroup?
    case Committed(tp) => s.task.CommittingOffsets? && tp in s.task.left
    case TaskOver => s.task != Idle && !s.task.Flushing?
    case Flushed => s.task.Flushing? && Snapshot(s) * s.waiting == {}
    case Ended => s.task == Ending
  }

  /** None when an assertion of the transaction manager fails. */
  ghost function Perform(s: Sys, a: Action, who: Producer): Option<Sys>
    requires Possible(s, a)
  {
    match a
    case Begin => Lift(s, TransitionTo(s.txn, InTransaction))
    case End(commit) => Lift(s, TransitionTo(s.txn, if commit then Committing else Aborting))
    case SendOffsets(o) => Lift(s.(account := Asked(s.account, o)), AddOffsets(s.txn, o))
    case OnPart(tp, e) =>
      var t := s.(parts := s.parts[tp := Apply(s.parts[tp], e, who)]);
      if e.Open? then Lift(t.(account := Touched(s.account, tp)), MaybeAdd(s.txn, tp)) else Some(t)
    case Start =>
      var t := s.(task := NextTask(s.txn));
      Some(if t.task.Flushing? then t.(parts := CloseParts(s.parts), waiting := Snapshot(s)) else t)
    case Ask => Some(s.(task := AddingPartitions(s.txn.pending)))
    case Added(tp) => Lift(s.(task := AddingPartitions(s.task.tps - {tp})), PartitionAdded(s.txn, tp))
    case GroupAdded =>
      Some(s.(txn := s.txn.(group := Some(s.task.group)), task := Idle, account := Joined(s.account, s.task.group)))
    case Committed(tp) =>
      var c := Commit(s.task.group, tp, HeadOffset(s.txn, tp));
      Lift(s.(task := s.task.(left := s.task.left - {tp}),
              account := s.account.(committed := s.account.committed + {c})),
          OffsetCommitted(s.txn, tp, HeadOffset(s.txn, tp), s.task.group))
    case TaskOver => Some(s.(task := Idle))
    case Flushed =>
      if EmptyTransaction(s.txn) then Lift(Over(s), Complete(s.txn)) else Some(s.(task := Ending))
    case Ended => Lift(Over(s), Complete(s.txn))
  }

  /** The transaction is over, and so is its account. */
  function Over(s: Sys): Sys {
    s.(task := Idle, account := NoAccount())
  }

  function Touched(a: Account, tp: TopicPartition): Account {
    a.(touched := a.touched + {tp})
  }

  function Asked(a: Account, o: Offsets): Account {
    a.(calls := a.calls + [o.group], asked := a.asked + CommitsOf(o))
  }

  function Joined(a: Account, group: string): Account {
    a.(joined := a.joined + {group})
  }

  /** The offset requested for `tp` by the oldest uncommitted call. */
  function HeadOffset(t: Txn, tp: TopicPartition): int {
    if t.offsets != [] && tp in t.offsets[0].positions then t.offsets[0].positions[tp] else 0
  }

  ghost function Lift(s: Sys, t: Option<Txn>): Option<Sys> {
    if t.Some? then Some(s.(txn := t.value)) else None
  }

  // ---------- The invariant ----------

  ghost predicate Quiet(p: Part) {
    Outstanding(p) == {}
  }

  ghost predicate AllQuiet(s: Sys) {
    forall tp :: tp in s.parts ==> Quiet(s.parts[tp])
  }

  ghost predicate Covered(s: Sys) {
    forall tp :: tp in s.parts ==>
      && (!Quiet(s.parts[tp]) ==> tp in s.txn.partitions || tp in s.txn.pending)
      && (Busy(s.parts[tp]) ==> tp !in s.txn.pending)
  }

  ghost predicate TaskInv(s: Sys) {
    match s.task
    case Idle => true
    case AddingPartitions(tps) => s.txn.state != Ready && tps <= s.txn.pending
    case AddingGroup(_) => s.txn.state != Ready
    case CommittingOffsets(group, left) =>
      && s.txn.state != Ready
      && (left != {} ==>
            s.txn.offsets != [] && s.txn.offsets[0].group == group && left == s.txn.offsets[0].positions.Keys)
    case Flushing =>
      NeedsEnd(s.txn) && s.txn.pending == {} && s.txn.offsets == [] && Snapshot(s) <= s.waiting
    case Ending => NeedsEnd(s.txn) && s.txn.pending == {} && s.txn.offsets == [] && AllQuiet(s)
  }

  ghost predicate TxnInv(t: Txn) {
    && t.state in {Ready, InTransaction, Committing, Aborting}
    && t.partitions !! t.pending
    && (t.state == Ready ==> t.partitions == {} && t.pending == {} && t.offsets == [] && t.group == None)
  }

  /** Only the group of the first call is ever added; until then no call is committed. */
  ghost predicate GroupInv(t: Txn, task: Task, calls: seq<string>, joined: set<string>) {
    && (t.state == Ready ==> calls == [])
    && (forall i :: 0 <= i < |t.offsets| ==> t.offsets[i].group in calls)
    && (match t.group
        case None =>
          && joined == {} && |calls| == |t.offsets|
          && (forall i :: 0 <= i < |calls| ==> calls[i] == t.offsets[i].group)
        case Some(g) => joined == {g} && calls != [] && calls[0] == g)
    && (task.AddingGroup? ==> t.group == None && calls != [] && task.group == calls[0])
    && (task.CommittingOffsets? ==> t.group != None && task.group in calls)
  }

  /** Partitions with a batch of the transaction are added or pending, and offsets asked for are
      committed or still to be. */
  ghost predicate AccountInv(t: Txn, a: Account) {
    && a.touched == t.partitions + t.pending
    && a.asked == a.committed + Uncommitted(t.offsets)
    && (t.state == Ready ==> a.asked == {} && a.committed == {})
  }

  ghost predicate Sealed(p: Part) {
    forall i :: 0 <= i < |p.slot.queue| ==> p.slot.queue[i].closed
  }

  /** While the transaction is being ended no queued batch takes another record. */
  ghost predicate SealedInv(s: Sys) {
    s.task == Flushing || s.task == Ending ==> forall tp :: tp in s.parts ==> Sealed(s.parts[tp])
  }

  /** The transaction side of the invariant. */
  ghost predicate TxnSide(s: Sys) {
    && TxnInv(s.txn) && Covered(s) && TaskInv(s) && (s.txn.state == Ready ==> AllQuiet(s))
    && GroupInv(s.txn, s.task, s.account.calls, s.account.joined) && AccountInv(s.txn, s.account) && SealedInv(s)
  }

  ghost predicate PartsInv(parts: map<TopicPartition, Part>, who: Producer) {
    forall tp :: tp in parts ==> Inv(parts[tp], who)
  }

  ghost predicate SysInv(s: Sys, who: Producer) {
    PartsInv(s.parts, who) && TxnSide(s)
  }

  // ---------- Every action keeps it, and no assertion fails ----------

  lemma QueuedIsOutstanding(p: Part, who: Producer)
    requires Inv(p, who) && p.slot.queue != []
    ensures p.slot.queue[0].id in Outstanding(p)
  {
    if HasRetry(p.slot.queue) {
      assert TiledAt(p.drained, |p.drained| - 1, who);
    }
  }

  /** Only opening a batch adds an outstanding one; only draining makes a partition busy. */
  lemma PartEffect(p: Part, e: Event, who: Producer)
    requires Inv(p, who) && Enabled(p, e)
    ensures e.Open? || Outstanding(Apply(p, e, who)) <= Outstanding(p)
    ensures e.Drain? || (Busy(Apply(p, e, who)) ==> Busy(p))
    ensures e.Open? || (Sealed(p) ==> Sealed(Apply(p, e, who)))
  {
    hide Tiled, Ordered, SentBytes, AcksInLog, Resolution, Fresh;
  }

  lemma CloseKeeps(s: Sys, who: Producer)
    requires PartsInv(s.parts, who)
    ensures var q := CloseParts(s.parts);
      && q.Keys == s.parts.Keys
      && forall tp :: tp in q ==>
        && Inv(q[tp], who) && Outstanding(q[tp]) == Outstanding(s.parts[tp]) && Busy(q[tp]) == Busy(s.parts[tp])
        && Sealed(q[tp])
  {
    hide Inv, Outstanding, Busy, Sealed;
    var q := CloseParts(s.parts);
    forall tp | tp in q
      ensures Inv(q[tp], who) && Outstanding(q[tp]) == Outstanding(s.parts[tp]) && Busy(q[tp]) == Busy(s.parts[tp])
      ensures Sealed(q[tp])
    {
      CloseOne(s.parts[tp], who);
    }
  }

  lemma CloseOne(p: Part, who: Producer)
    requires Inv(p, who)
    ensures var q := p.(slot := CloseAll(p.slot));
      Inv(q, who) && Outstanding(q) == Outstanding(p) && Busy(q) == Busy(p) && Sealed(q)
  {
    assert p.(slot := CloseAll(p.slot)) == Apply(p, Close, who);
    QueueKeeps(p, who, Close);
    hide Inv;
  }

  lemma SnapshotShrinks(s: Sys, t: Sys)
    requires s.parts.Keys == t.parts.Keys
    requires forall tp :: tp in s.parts ==> Outstanding(t.parts[tp]) <= Outstanding(s.parts[tp])
    ensures Snapshot(t) <= Snapshot(s) && (AllQuiet(s) ==> AllQuiet(t))
  {
  }

  lemma PartsUpdate(parts: map<TopicPartition, Part>, tp: TopicPartition, q: Part, who: Producer)
    requires PartsInv(parts, who) && Inv(q, who)
    ensures PartsInv(parts[tp := q], who)
  {
  }

  /** A partition may change in any way that opens nothing and sends only what was added. */
  lemma PartChange(s: Sys, tp: TopicPartition, q: Part)
    requires TxnSide(s) && tp in s.parts
    requires Outstanding(q) <= Outstanding(s.parts[tp])
    requires Busy(q) && !Busy(s.parts[tp]) ==> tp !in s.txn.pending
    requires Sealed(s.parts[tp]) ==> Sealed(q)
    ensures TxnSide(s.(parts := s.parts[tp := q]))
  {
    SnapshotShrinks(s, s.(parts := s.parts[tp := q]));
  }

  lemma OpenChange(s: Sys, tp: TopicPartition, q: Part)
    requires TxnSide(s) && tp in s.parts && s.txn.state == InTransaction
    requires Busy(q) ==> Busy(s.parts[tp])
    requires Busy(s.parts[tp]) ==> !Quiet(s.parts[tp])
    ensures MaybeAdd(s.txn, tp).Some?
    ensures TxnSide(s.(parts := s.parts[tp := q], txn := MaybeAdd(s.txn, tp).value, account := Touched(s.account, tp)))
  {
    hide Outstanding, Uncommitted;
  }

  lemma BusyIsOutstanding(p: Part, who: Producer)
    requires Inv(p, who) && Busy(p)
    ensures |p.drained| - 1 in Outstanding(p)
  {
    assert TiledAt(p.drained, |p.drained| - 1, who);
  }

  lemma OnPartKeeps(s: Sys, tp: TopicPartition, e: Event, who: Producer)
    requires SysInv(s, who) && Possible(s, OnPart(tp, e)) && (e.Open? ==> s.txn.state == InTransaction)
    ensures var t := Perform(s, OnPart(tp, e), who); t.Some? && SysInv(t.value, who)
  {
    hide Inv, Outstanding, TxnSide, Busy, Enabled, Apply;
    var p := s.parts[tp];
    var q := Apply(p, e, who);
    StepKeeps(p, who, e);
    PartEffect(p, e, who);
    PartsUpdate(s.parts, tp, q, who);
    if e.Open? {
      if Busy(p) { BusyIsOutstanding(p, who); }
      OpenChange(s, tp, q);
    } else {
      PartChange(s, tp, q);
    }
  }

  lemma StartKeeps(s: Sys, who: Producer)
    requires SysInv(s, who) && Possible(s, Start)
    ensures var t := Perform(s, Start, who); t.Some? && SysInv(t.value, who)
  {
    hide Inv, Outstanding;
    var t := Perform(s, Start, who).value;
    if t.task.Flushing? {
      CloseKeeps(s, who);
      SnapshotShrinks(s, t);
    }
  }

  lemma FlushedKeeps(s: Sys, who: Producer)
    requires SysInv(s, who) && Possible(s, Flushed)
    ensures AllQuiet(s)
    ensures var t := Perform(s, Flushed, who); t.Some? && SysInv(t.value, who)
  {
    assert Snapshot(s) == {};
    forall tp | tp in s.parts ensures Quiet(s.parts[tp]) {
      assert forall i :: i in Outstanding(s.parts[tp]) ==> (tp, i) in Snapshot(s);
    }
  }

  lemma CommittedKeeps(s: Sys, tp: TopicPartition, who: Producer)
    requires SysInv(s, who) && Possible(s, Committed(tp))
    ensures var t := Perform(s, Committed(tp), who); t.Some? && SysInv(t.value, who)
  {
    hide Inv, Outstanding, Uncommitted, Covered, SealedInv, TxnInv;
    var left := s.txn.offsets[0].positions - {tp};
    assert left.Keys == s.task.left - {tp};
    OneCommitted(s.txn.offsets, tp);
    var c := Commit(s.task.group, tp, HeadOffset(s.txn, tp));
    OffsetCommittedIs(s.txn, tp);
    AccountMoves(s.account.asked, s.account.committed, Uncommitted(s.txn.offsets), c,
                 Uncommitted(Without(s.txn.offsets, tp)));
    CommittedSides(s, tp, s.account.committed + {c});
  }

  /** The offsets left once one of the oldest call is committed. */
  function Without(offsets: seq<Offsets>, tp: TopicPartition): seq<Offsets>
    requires offsets != []
  {
    var left := offsets[0].positions - {tp};
    if left == map[] then offsets[1..] else [offsets[0].(positions := left)] + offsets[1..]
  }

  lemma OffsetCommittedIs(t: Txn, tp: TopicPartition)
    requires t.offsets != [] && tp in t.offsets[0].positions
    ensures OffsetCommitted(t, tp, HeadOffset(t, tp), t.offsets[0].group) == Some(t.(offsets := Without(t.offsets, tp)))
  {
  }

  lemma OneCommitted(offsets: seq<Offsets>, tp: TopicPartition)
    requires offsets != [] && tp in offsets[0].positions
    ensures Uncommitted(offsets) ==
            Uncommitted(Without(offsets, tp)) + {Commit(offsets[0].group, tp, offsets[0].positions[tp])}
  {
    var after, c := Without(offsets, tp), Commit(offsets[0].group, tp, offsets[0].positions[tp]);
    var left, k := offsets[0].positions - {tp}, |offsets| - |after|;
    forall x | x in Uncommitted(offsets) ensures x in Uncommitted(after) + {c} {
      var i, u :| 0 <= i < |offsets| && u in offsets[i].positions
        && x == Commit(offsets[i].group, u, offsets[i].positions[u]);
      if i > 0 {
        assert after[i - k] == offsets[i];
      } else if u != tp {
        assert u in left && left != map[] && u in after[0].positions;
      }
    }
    forall x | x in Uncommitted(after) ensures x in Uncommitted(offsets) {
      var i, u :| 0 <= i < |after| && u in after[i].positions && x == Commit(after[i].group, u, after[i].positions[u]);
      assert u in offsets[i + k].positions;
    }
  }

  lemma AccountMoves(asked: set<Commit>, committed: set<Commit>, before: set<Commit>, c: Commit, after: set<Commit>)
    requires asked == committed + before && before == after + {c}
    ensures asked == (committed + {c}) + after
  {
  }

  lemma CommittedSides(s: Sys, tp: TopicPartition, committed: set<Commit>)
    requires TxnSide(s) && s.task.CommittingOffsets? && tp in s.task.left
    requires s.txn.offsets != [] && s.txn.offsets[0].group == s.task.group
    requires s.task.left == s.txn.offsets[0].positions.Keys
    requires s.account.asked == committed + Uncommitted(Without(s.txn.offsets, tp))
    ensures TxnSide(s.(task := s.task.(left := s.task.left - {tp}),
                       txn := s.txn.(offsets := Without(s.txn.offsets, tp)),
                       account := s.account.(committed := committed)))
  {
    hide Outstanding, Uncommitted, Quiet, Busy;
    var left := s.txn.offsets[0].positions - {tp};
    assert left.Keys == s.task.left - {tp};
  }

  lemma AskedGrows(offsets: seq<Offsets>, o: Offsets)
    ensures Uncommitted(offsets + [o]) == Uncommitted(offsets) + CommitsOf(o)
  {
    var after := offsets + [o];
    forall x | x in Uncommitted(after) ensures x in Uncommitted(offsets) + CommitsOf(o) {
      var i, u :| 0 <= i < |after| && u in after[i].positions && x == Commit(after[i].group, u, after[i].positions[u]);
      assert i < |offsets| ==> u in offsets[i].positions;
    }
    forall x | x in Uncommitted(offsets) ensures x in Uncommitted(after) {
      var i, u :| 0 <= i < |offsets| && u in offsets[i].positions
        && x == Commit(offsets[i].group, u, offsets[i].positions[u]);
      assert u in after[i].positions;
    }
    forall x | x in CommitsOf(o) ensures x in Uncommitted(after) {
      var u :| u in o.positions && x == Commit(o.group, u, o.positions[u]);
      assert u in after[|offsets|].positions;
    }
  }

  lemma SendOffsetsKeeps(s: Sys, o: Offsets, who: Producer)
    requires SysInv(s, who) && s.txn.state == InTransaction
    ensures SysInv(Perform(s, SendOffsets(o), who).value, who)
  {
    hide Inv, Outstanding, Uncommitted, CommitsOf, Quiet, Busy, Sealed;
    AskedGrows(s.txn.offsets, o);
    assert (s.account.committed + Uncommitted(s.txn.offsets)) + CommitsOf(o)
        == s.account.committed + (Uncommitted(s.txn.offsets) + CommitsOf(o));
  }

  lemma UserCallKeeps(s: Sys, a: Action, who: Producer)
    requires SysInv(s, who) && Possible(s, a) && UserCall(a)
    ensures var t := Perform(s, a, who);
      (t.Some? <==> InTime(s.txn, a)) && (t.Some? ==> SysInv(t.value, who))
  {
    hide Inv, Outstanding, Apply, Enabled, Uncommitted, CommitsOf, Sealed;
    if s.txn.state == InTransaction {
      match a
      case OnPart(tp, e) => OnPartKeeps(s, tp, e, who);
      case SendOffsets(o) => SendOffsetsKeeps(s, o, who);
      case _ =>
    }
  }

  lemma SenderKeeps(s: Sys, a: Action, who: Producer)
    requires SysInv(s, who) && Possible(s, a) && !UserCall(a)
    ensures var t := Perform(s, a, who); t.Some? && SysInv(t.value, who)
  {
    hide Inv, Outstanding, Apply, Enabled, Uncommitted, CommitsOf, Sealed;
    match a
    case OnPart(tp, e) => OnPartKeeps(s, tp, e, who);
    case Start => StartKeeps(s, who);
    case Flushed => FlushedKeeps(s, who);
    case Committed(tp) => CommittedKeeps(s, tp, who);
    case Ended => NothingUncommitted();
    case Added(tp) =>
      assert (s.txn.partitions + {tp}) + (s.txn.pending - {tp}) == s.txn.partitions + s.txn.pending;
    case _ =>
  }

  lemma NothingUncommitted()
    ensures Uncommitted([]) == {}
  {
  }

  /** An assertion of the manager fails exactly for a call of the user that comes at the wrong
      time; every other action goes through and keeps the invariant. */
  lemma ActionKeeps(s: Sys, a: Action, who: Producer)
    requires SysInv(s, who) && Possible(s, a)
    ensures var t := Perform(s, a, who);
      && (t.None? <==> UserCall(a) && !InTime(s.txn, a))
      && (t.Some? ==> SysInv(t.value, who))
  {
    hide SysInv, Possible, Perform;
    if UserCall(a) {
      UserCallKeeps(s, a, who);
    } else {
      SenderKeeps(s, a, who);
    }
  }

  // ---------- Runs ----------

  ghost predicate Initial(s: Sys) {
    && s.txn == Txn(Ready, {}, {}, None, []) && s.task == Idle && s.account == NoAccount()
    && forall tp :: tp in s.parts ==> s.parts[tp] == Init()
  }

  datatype Outcome = Stuck | AssertionFailed | Reached(state: Sys)

  /** A run. A call of the user that fails raises to the user and changes nothing; an assertion
      that fails anywhere else ends the run. */
  ghost function RunAll(s: Sys, actions: seq<Action>, who: Producer): Outcome
    decreases |actions|
  {
    if actions == [] then Outcome.Reached(s)
    else if !Possible(s, actions[0]) then Stuck
    else
      var t := Perform(s, actions[0], who);
      if t.Some? then RunAll(t.value, actions[1..], who)
      else if UserCall(actions[0]) then RunAll(s, actions[1..], who)
      else AssertionFailed
  }

  lemma {:induction false} RunAllKeeps(s: Sys, actions: seq<Action>, who: Producer)
    requires SysInv(s, who)
    ensures var o := RunAll(s, actions, who);
      o != AssertionFailed && (o.Reached? ==> SysInv(o.state, who))
    decreases |actions|
  {
    hide SysInv, Possible, Perform;
    if actions != [] && Possible(s, actions[0]) {
      ActionKeeps(s, actions[0], who);
      var t := Perform(s, actions[0], who);
      RunAllKeeps(if t.Some? then t.value else s, actions[1..], who);
    }
  }

  lemma InitialInv(s: Sys, who: Producer)
    requires Initial(s)
    ensures SysInv(s, who)
  {
    assert Delivery.Start([], 0) == 0;
  }

  /** In every run of begin, produce, offsets, commit and abort, called at any time and with any
      loss and retry: no assertion fails but on a call of the user at the wrong time, which
      changes nothing; a batch is drained only from a partition already added to the
      transaction; when EndTxn is out nothing of the transaction is open; and a new
      transaction finds nothing open. */
  lemma TransactionOrder(s: Sys, actions: seq<Action>, who: Producer)
    requires Initial(s)
    ensures var o := RunAll(s, actions, who);
      && o != AssertionFailed
      && (o.Reached? ==>
        && (forall tp :: Possible(o.state, OnPart(tp, Drain)) ==> tp in o.state.txn.partitions)
        && (o.state.task == Ending ==>
          AllQuiet(o.state) && o.state.txn.pending == {} && o.state.txn.offsets == [])
        && (InTime(o.state.txn, Begin) ==> AllQuiet(o.state) && o.state.txn.partitions == {}))
  {
    hide RunAll, Inv, Outstanding;
    InitialInv(s, who);
    RunAllKeeps(s, actions, who);
    var o := RunAll(s, actions, who);
    if o.Reached? {
      forall tp | Possible(o.state, OnPart(tp, Drain)) ensures tp in o.state.txn.partitions {
        QueuedIsOutstanding(o.state.parts[tp], who);
      }
    }
  }

  /** Offsets are committed for a group that was added to the transaction if and only if it is
      the group of the first call: only that one is ever added. So all is well exactly for
      callers that stay with one group. */
  lemma GroupOrder(s: Sys, actions: seq<Action>, who: Producer)
    requires Initial(s)
    ensures var o := RunAll(s, actions, who);
      o.Reached? ==>
        && (o.state.account.joined != {} ==>
              o.state.account.calls != [] && o.state.account.joined == {o.state.account.calls[0]})
        && (o.state.task.CommittingOffsets? ==>
          && o.state.account.calls != [] && o.state.task.group in o.state.account.calls
          && (o.state.task.group in o.state.account.joined <==> o.state.task.group == o.state.account.calls[0]))
  {
    hide RunAll, Inv, Outstanding, Covered, TaskInv, TxnInv;
    InitialInv(s, who);
    RunAllKeeps(s, actions, who);
  }

  /** At EndTxn every batch is settled, and a non-empty one that did not fail is in its log: a
      commit lacks nothing but batches that failed. */
  lemma CommitHolds(s: Sys, actions: seq<Action>, who: Producer, tp: TopicPartition, i: nat)
    requires Initial(s)
    requires RunAll(s, actions, who).Reached?
    ensures var t := RunAll(s, actions, who).state;
      t.task == Ending && tp in t.parts && i < t.parts[tp].created ==>
        && i < |t.parts[tp].drained| && (i in t.parts[tp].done <==> i !in t.parts[tp].failed)
        && (i !in t.parts[tp].failed && t.parts[tp].drained[i].records != [] ==> InLog(t.parts[tp].log, i))
  {
    hide RunAll;
    InitialInv(s, who);
    RunAllKeeps(s, actions, who);
    var t := RunAll(s, actions, who).state;
    if t.task == Ending && tp in t.parts && i < t.parts[tp].created {
      SettledHolds(t.parts[tp], who, i);
    }
  }

  lemma SettledHolds(p: Part, who: Producer, i: nat)
    requires Inv(p, who) && Quiet(p) && i < p.created
    ensures i < |p.drained| && (i in p.done <==> i !in p.failed)
    ensures i !in p.failed && p.drained[i].records != [] ==> InLog(p.log, i)
  {
    assert i !in Outstanding(p);
  }

  /** Which task the sender takes up, over every run: partitions are added first, then the
      group, then offsets are committed; a transaction that is being committed or aborted and
      has none of that left is flushed; nothing is done only outside a transaction's end, with
      nothing to do. */
  lemma TaskTaken(s: Sys, actions: seq<Action>, who: Producer)
    requires Initial(s)
    ensures var o := RunAll(s, actions, who);
      o.Reached? && o.state.task == Idle ==>
        var t, task := o.state.txn, Perform(o.state, Action.Start, who).value.task;
        && (task.AddingPartitions? <==> t.pending != {})
        && (task.AddingGroup? <==> t.pending == {} && t.group == None && t.offsets != [])
        && (task.AddingGroup? ==> task.group == t.offsets[0].group)
        && (task.CommittingOffsets? <==> t.pending == {} && t.group != None && t.offsets != [])
        && (task.CommittingOffsets? ==> task.group == t.offsets[0].group && task.left == t.offsets[0].positions.Keys)
        && (task == Flushing <==> t.pending == {} && t.offsets == [] && t.state in {Committing, Aborting})
        && (task == Idle <==> t.pending == {} && t.offsets == [] && t.state in {Ready, InTransaction})
  {
    hide RunAll, Inv, Outstanding, Covered, TaskInv, GroupInv, AccountInv, SealedInv, CloseParts, Snapshot;
    InitialInv(s, who);
    RunAllKeeps(s, actions, who);
  }

  /** While a transaction is flushed or ended no batch takes another record, whatever the run. */
  lemma FlushTakesNothing(s: Sys, actions: seq<Action>, who: Producer, tp: TopicPartition, r: Record)
    requires Initial(s)
    ensures var o := RunAll(s, actions, who);
      o.Reached? && (o.state.task == Flushing || o.state.task == Ending) && tp in o.state.parts ==>
        !Enabled(o.state.parts[tp], Append(r))
  {
    hide RunAll, Inv, Outstanding, Covered, TaskInv, GroupInv, AccountInv;
    InitialInv(s, who);
    RunAllKeeps(s, actions, who);
  }

  /** When the flush returns, EndTxn goes out if and only if a batch was opened or offsets were
      sent in the transaction; otherwise it is over without a request. When EndTxn has
      succeeded the producer is ready, with nothing left of the transaction. */
  lemma EndIsSent(s: Sys, actions: seq<Action>, who: Producer)
    requires Initial(s)
    ensures var o := RunAll(s, actions, who);
      && (o.Reached? && Possible(o.state, Flushed) ==>
        var t := Perform(o.state, Flushed, who);
        && t.Some?
        && (t.value.task == Ending <==> o.state.account.touched != {} || o.state.account.calls != [])
        && (t.value.task != Ending ==> t.value.txn == Txn(Ready, {}, {}, None, [])))
      && (o.Reached? && Possible(o.state, Ended) ==>
        var t := Perform(o.state, Ended, who);
        t.Some? && t.value.txn == Txn(Ready, {}, {}, None, []) && t.value.task == Idle)
  {
    hide RunAll, Inv, Outstanding, Covered, SealedInv, Uncommitted, Snapshot;
    InitialInv(s, who);
    RunAllKeeps(s, actions, who);
  }

  /** Over every run the offsets asked for in a transaction are those committed and those of the
      calls still waiting; when EndTxn is out all of them are committed. */
  lemma OffsetsKept(s: Sys, actions: seq<Action>, who: Producer)
    requires Initial(s)
    ensures var o := RunAll(s, actions, who);
      o.Reached? ==>
        && o.state.account.asked == o.state.account.committed + Uncommitted(o.state.txn.offsets)
        && (o.state.task == Ending ==> o.state.account.committed == o.state.account.asked)
  {
    hide RunAll, Inv, Outstanding, Covered, SealedInv, GroupInv;
    InitialInv(s, who);
    RunAllKeeps(s, actions, who);
  }

  // ---------- Some runs ----------

  /** Action `k` of a run. */
  lemma RunFrom(s: Sys, actions: seq<Action>, k: nat, who: Producer)
    requires k < |actions| && Possible(s, actions[k]) && Perform(s, actions[k], who).Some?
    ensures RunAll(s, actions[k..], who) == RunAll(Perform(s, actions[k], who).value, actions[k + 1..], who)
  {
    assert actions[k..][0] == actions[k] && actions[k..][1..] == actions[k + 1..];
  }

  lemma RunEnds(s: Sys, actions: seq<Action>, k: nat, who: Producer)
    requires k == |actions|
    ensures RunAll(s, actions[k..], who) == Outcome.Reached(s)
  {
  }

  /** A full batch in a transaction that was added: a send finds it, passes the check of the
      transaction's state, and waits until the batch is drained. */
  function Full(tp: TopicPartition, r: Record): seq<Action> {
    [Begin, OnPart(tp, Open([r], true)), Action.Start, Ask, Added(tp), TaskOver]
  }

  ghost function FullPart(r: Record): Part {
    Init().(slot := Slot([Batch(0, [r], true, 0, None)], 0), created := 1)
  }

  /** The state it leads to. */
  ghost function FullState(s: Sys, tp: TopicPartition, r: Record): Sys
    requires tp in s.parts
  {
    s.(parts := s.parts[tp := FullPart(r)], txn := Txn(InTransaction, {tp}, {}, None, []),
       account := Touched(NoAccount(), tp))
  }

  lemma FullRun(s: Sys, tp: TopicPartition, r: Record, who: Producer)
    requires Initial(s) && tp in s.parts
    ensures RunAll(s, Full(tp, r), who) == Outcome.Reached(FullState(s, tp, r))
  {
    hide RunAll;
    var a, t := Full(tp, r), FullState(s, tp, r);
    var begun := s.(txn := s.txn.(state := InTransaction));
    assert a[0..] == a;
    RunFrom(s, a, 0, who);
    assert Init().slot.queue + [Batch(0, [r], true, 0, None)] == [Batch(0, [r], true, 0, None)];
    assert {} + {tp} == {tp};
    assert NoAccount().touched + {tp} == {tp};
    assert Perform(begun, a[1], who) == Some(t.(txn := t.txn.(partitions := {}, pending := {tp})));
    RunFrom(begun, a, 1, who);
    var queued := t.(txn := t.txn.(partitions := {}, pending := {tp}));
    RunFrom(queued, a, 2, who);
    var asked := queued.(task := AddingPartitions({}));
    RunFrom(asked, a, 3, who);
    var sent := queued.(task := AddingPartitions({tp}));
    RunFrom(sent, a, 4, who);
    var added := t.(task := AddingPartitions({}));
    assert {tp} - {tp} == {};
    assert Perform(sent, a[4], who) == Some(added);
    RunFrom(added, a, 5, who);
    RunEnds(t, a, 6, who);
  }

  /** A blocked send: it waits on a full batch, the commit begins, the batch is drained, and
      the send that wakes up to open a batch fails the manager's assertion. */
  lemma LateSendFails(s: Sys, tp: TopicPartition, r: Record, who: Producer) returns (waits: Sys, wakes: Sys)
    requires Initial(s) && tp in s.parts
    ensures RunAll(s, Full(tp, r), who) == Outcome.Reached(waits) && tp in waits.parts
    ensures waits.txn.state == InTransaction && waits.parts[tp].slot.queue != []
    ensures var queue := waits.parts[tp].slot.queue; queue[|queue| - 1].closed
    ensures RunAll(waits, [End(true), OnPart(tp, Drain)], who) == Outcome.Reached(wakes)
    ensures Possible(wakes, OnPart(tp, Open([], false))) && Perform(wakes, OnPart(tp, Open([], false)), who) == None
  {
    hide RunAll;
    FullRun(s, tp, r, who);
    waits := FullState(s, tp, r);
    var a := [End(true), OnPart(tp, Drain)];
    assert a[0..] == a;
    RunFrom(waits, a, 0, who);
    var ending := waits.(txn := waits.txn.(state := Committing));
    wakes := ending.(parts := ending.parts[tp := Apply(ending.parts[tp], Drain, who)]);
    RunFrom(ending, a, 1, who);
    RunEnds(wakes, a, 2, who);
  }

  /** The end of a transaction when every batch is settled: EndTxn goes out. */
  lemma QuietEnd(s: Sys, commit: bool, who: Producer) returns (t: Sys)
    requires AllQuiet(s) && s.task == Idle && s.txn.state == InTransaction
    requires s.txn.partitions != {} && s.txn.pending == {} && s.txn.offsets == []
    ensures RunAll(s, [End(commit), Action.Start, Flushed], who) == Outcome.Reached(t)
    ensures t == s.(task := Ending, txn := s.txn.(state := if commit then Committing else Aborting),
                    parts := CloseParts(s.parts), waiting := {})
  {
    hide RunAll, Outstanding, CloseParts;
    var a := [End(commit), Action.Start, Flushed];
    assert a[0..] == a;
    RunFrom(s, a, 0, who);
    var over := s.(txn := s.txn.(state := if commit then Committing else Aborting));
    RunFrom(over, a, 1, who);
    NothingOpen(over);
    var flushing := over.(task := Flushing, parts := CloseParts(over.parts), waiting := Snapshot(over));
    RunFrom(flushing, a, 2, who);
    t := flushing.(task := Ending);
    RunEnds(t, a, 3, who);
  }

  lemma NothingOpen(s: Sys)
    requires AllQuiet(s)
    ensures Snapshot(s) == {}
  {
  }

  lemma InitQuiet()
    ensures Quiet(Init())
  {
  }

  lemma OneQuiet(s: Sys, t: Sys, tp: TopicPartition, q: Part)
    requires Initial(s) && t.parts == s.parts[tp := q] && Quiet(q)
    ensures AllQuiet(t)
  {
    InitQuiet();
  }

  lemma ExpiredPart(r: Record, who: Producer)
    ensures Enabled(FullPart(r), Expire)
    ensures var p := Apply(FullPart(r), Expire, who);
      && Quiet(p) && p.failed == {0} && p.log == [] && p.slot.queue == []
      && |p.drained| == 1 && p.drained[0].records == [r]
  {
    var p := Apply(FullPart(r), Expire, who);
    assert p.failed == {0} && p.created == 1;
  }

  /** A commit that lacks a batch: it expired without having been sent, and EndTxn goes out. */
  lemma CommitLacksExpired(s: Sys, tp: TopicPartition, r: Record, who: Producer) returns (gone: Sys, t: Sys)
    requires Initial(s) && tp in s.parts
    ensures RunAll(FullState(s, tp, r), [OnPart(tp, Expire)], who) == Outcome.Reached(gone)
    ensures RunAll(gone, [End(true), Action.Start, Flushed], who) == Outcome.Reached(t)
    ensures t.task == Ending && t.txn.state == Committing && tp in t.parts
    ensures t.parts[tp].failed == {0} && t.parts[tp].log == []
    ensures |t.parts[tp].drained| == 1 && t.parts[tp].drained[0].records == [r]
  {
    hide RunAll, Apply, Enabled, Quiet, FullPart, AllQuiet;
    var a, full := [OnPart(tp, Expire)], FullState(s, tp, r);
    var p := FullPart(r);
    ExpiredPart(r, who);
    gone := full.(parts := full.parts[tp := Apply(p, Expire, who)]);
    assert a[0..] == a;
    RunFrom(full, a, 0, who);
    RunEnds(gone, a, 1, who);
    assert gone.parts == s.parts[tp := Apply(p, Expire, who)];
    OneQuiet(s, gone, tp, Apply(p, Expire, who));
    t := QuietEnd(gone, true, who);
  }

  /** An abort is carried out: flush, EndTxn, and the producer is ready again. */
  lemma AbortRuns(s: Sys, tp: TopicPartition, r: Record, who: Producer) returns (gone: Sys, ending: Sys, t: Sys)
    requires Initial(s) && tp in s.parts
    ensures RunAll(FullState(s, tp, r), [OnPart(tp, Expire)], who) == Outcome.Reached(gone)
    ensures RunAll(gone, [End(false), Action.Start, Flushed], who) == Outcome.Reached(ending)
    ensures ending.task == Ending && ending.txn.state == Aborting
    ensures RunAll(ending, [Ended], who) == Outcome.Reached(t)
    ensures t.txn == Txn(Ready, {}, {}, None, []) && t.task == Idle
  {
    hide RunAll, Apply, Enabled, Quiet, FullPart, AllQuiet, CloseParts;
    var a, full := [OnPart(tp, Expire)], FullState(s, tp, r);
    var p := FullPart(r);
    ExpiredPart(r, who);
    gone := full.(parts := full.parts[tp := Apply(p, Expire, who)]);
    assert a[0..] == a;
    RunFrom(full, a, 0, who);
    RunEnds(gone, a, 1, who);
    assert gone.parts == s.parts[tp := Apply(p, Expire, who)];
    OneQuiet(s, gone, tp, Apply(p, Expire, who));
    ending := QuietEnd(gone, false, who);
    assert [Ended][0..] == [Ended];
    RunFrom(ending, [Ended], 0, who);
    t := Over(ending).(txn := Txn(Ready, {}, {}, None, []));
    RunEnds(t, [Ended], 1, who);
  }

  /** What happens to a batch that is appended and then fails, the reply being lost. */
  function Lost(r: Request): seq<Event> {
    [Drain, Send, Deliver(r, 0), Fail, Unmute]
  }

  ghost function SentRequest(r: Record, who: Producer): Request {
    Request(0, [r], Stamp(who.pid, who.epoch, 0))
  }

  lemma LostPart(r: Record, who: Producer) returns (p: Part)
    ensures Run(FullPart(r), Lost(SentRequest(r, who)), who) == Some(p)
    ensures Quiet(p) && p.failed == {0} && p.log == [SentRequest(r, who)] && p.slot.queue == []
  {
    hide Run, Quiet;
    var e := Lost(SentRequest(r, who));
    var p0 := FullPart(r);
    var p1 := Apply(p0, e[0], who);
    var p2 := Apply(p1, e[1], who);
    var p3 := Apply(p2, e[2], who);
    var p4 := Apply(p3, e[3], who);
    p := Apply(p4, e[4], who);
    assert e[0..] == e;
    EventFrom(p0, e, 0, who);
    EventFrom(p1, e, 1, who);
    EventFrom(p2, e, 2, who);
    EventFrom(p3, e, 3, who);
    EventFrom(p4, e, 4, who);
    EventsEnd(p, e, 5, who);
    NoneLeft(p);
  }

  lemma NoneLeft(p: Part)
    requires p.created == 1 && 0 in p.failed
    ensures Quiet(p)
  {
  }

  lemma EventFrom(p: Part, events: seq<Event>, k: nat, who: Producer)
    requires k < |events| && Enabled(p, events[k])
    ensures Run(p, events[k..], who) == Run(Apply(p, events[k], who), events[k + 1..], who)
  {
    assert events[k..][0] == events[k] && events[k..][1..] == events[k + 1..];
  }

  lemma EventsEnd(p: Part, events: seq<Event>, k: nat, who: Producer)
    requires k == |events|
    ensures Run(p, events[k..], who) == Some(p)
  {
  }

  function OnPartition(tp: TopicPartition, events: seq<Event>): (r: seq<Action>)
    ensures |r| == |events|
  {
    seq(|events|, i requires 0 <= i < |events| => OnPart(tp, events[i]))
  }

  /** What happens on one partition happens in the system, if no batch is opened. */
  lemma {:induction false} PartRuns(s: Sys, tp: TopicPartition, events: seq<Event>, q: Part, who: Producer)
    requires tp in s.parts && tp !in s.txn.pending && Run(s.parts[tp], events, who) == Some(q)
    requires forall i :: 0 <= i < |events| ==> !events[i].Open? && !events[i].Close?
    ensures RunAll(s, OnPartition(tp, events), who) == Outcome.Reached(s.(parts := s.parts[tp := q]))
    decreases |events|
  {
    hide Apply, Enabled;
    if events == [] {
      assert s.parts[tp := q] == s.parts;
    } else {
      var t := s.(parts := s.parts[tp := Apply(s.parts[tp], events[0], who)]);
      PartRuns(t, tp, events[1..], q, who);
      assert OnPartition(tp, events)[1..] == OnPartition(tp, events[1..]);
      assert t.parts[tp := q] == s.parts[tp := q];
    }
  }

  /** A failed batch may be in the log all the same: that a batch failed does not say that the
      commit lacks it. */
  lemma CommitHasLost(s: Sys, tp: TopicPartition, r: Record, who: Producer) returns (lost: Sys, t: Sys)
    requires Initial(s) && tp in s.parts
    ensures RunAll(FullState(s, tp, r), OnPartition(tp, Lost(SentRequest(r, who))), who) == Outcome.Reached(lost)
    ensures RunAll(lost, [End(true), Action.Start, Flushed], who) == Outcome.Reached(t)
    ensures t.task == Ending && t.txn.state == Committing && tp in t.parts
    ensures t.parts[tp].failed == {0} && t.parts[tp].log == [SentRequest(r, who)]
  {
    hide RunAll, Run, Quiet, FullPart, AllQuiet;
    var full := FullState(s, tp, r);
    var p := LostPart(r, who);
    PartRuns(full, tp, Lost(SentRequest(r, who)), p, who);
    lost := full.(parts := full.parts[tp := p]);
    assert lost.parts == s.parts[tp := p];
    OneQuiet(s, lost, tp, p);
    t := QuietEnd(lost, true, who);
  }

  function TwoCalls(g: string, h: string, tp: TopicPartition): seq<Action> {
    [Begin, SendOffsets(Offsets(g, map[tp := 1])), SendOffsets(Offsets(h, map[tp := 1])), Action.Start, GroupAdded]
  }

  ghost function TwoCalled(s: Sys, g: string, h: string, tp: TopicPartition): Sys {
    var offsets := [Offsets(g, map[tp := 1]), Offsets(h, map[tp := 1])];
    s.(txn := Txn(InTransaction, {}, {}, Some(g), offsets),
       account := Joined(Asked(Asked(NoAccount(), offsets[0]), offsets[1]), g))
  }

  lemma TwoCallsRun(s: Sys, g: string, h: string, tp: TopicPartition, who: Producer)
    requires Initial(s)
    ensures RunAll(s, TwoCalls(g, h, tp), who) == Outcome.Reached(TwoCalled(s, g, h, tp))
  {
    hide RunAll, Snapshot, CloseParts, Apply, Enabled, OffsetCommitted, PartitionAdded, MaybeAdd, Complete,
         HeadOffset, Over, CommitsOf, Asked, Joined, NoAccount;
    var a, t := TwoCalls(g, h, tp), TwoCalled(s, g, h, tp);
    var first, second := Offsets(g, map[tp := 1]), Offsets(h, map[tp := 1]);
    var t0 := s.(txn := Txn(InTransaction, {}, {}, None, []));
    var t1 := t0.(txn := t0.txn.(offsets := [first]), account := Asked(NoAccount(), first));
    var t2 := t0.(txn := t0.txn.(offsets := [first, second]), account := Asked(t1.account, second));
    assert a[0..] == a;
    RunFrom(s, a, 0, who);
    assert [] + [first] == [first];
    RunFrom(t0, a, 1, who);
    assert [first] + [second] == [first, second];
    RunFrom(t1, a, 2, who);
    RunFrom(t2, a, 3, who);
    RunFrom(t2.(task := AddingGroup(g)), a, 4, who);
    RunEnds(t, a, 5, who);
  }

  lemma LastCommitted(t: Txn, tp: TopicPartition, first: Offsets, second: Offsets)
    requires t.offsets == [first, second] && first.positions == map[tp := 1]
    ensures HeadOffset(t, tp) == 1 && OffsetCommitted(t, tp, 1, first.group) == Some(t.(offsets := [second]))
  {
    assert first.positions - {tp} == map[] && [first, second][1..] == [second];
  }

  /** Two groups in one transaction: the offsets of the second go out although only the first
      was added. */
  lemma SecondGroupNotAdded(s: Sys, g: string, h: string, tp: TopicPartition, who: Producer) returns (t: Sys)
    requires Initial(s) && g != h
    ensures RunAll(s, TwoCalls(g, h, tp), who) == Outcome.Reached(TwoCalled(s, g, h, tp))
    ensures RunAll(TwoCalled(s, g, h, tp), [Action.Start, Committed(tp), TaskOver, Action.Start], who) ==
      Outcome.Reached(t)
    ensures t.task == CommittingOffsets(h, {tp})
    ensures t.account.calls == [g, h] && t.account.joined == {g} && h !in t.account.joined
  {
    hide RunAll, Snapshot, CloseParts, Apply, Enabled, TwoCalls, OffsetCommitted, CommitsOf;
    TwoCallsRun(s, g, h, tp, who);
    var a, t4 := [Action.Start, Committed(tp), TaskOver, Action.Start], TwoCalled(s, g, h, tp);
    var first, second := t4.txn.offsets[0], t4.txn.offsets[1];
    assert first.positions.Keys == {tp} && second.positions.Keys == {tp};
    assert a[0..] == a;
    RunFrom(t4, a, 0, who);
    LastCommitted(t4.txn, tp, first, second);
    assert {tp} - {tp} == {};
    RunFrom(t4.(task := CommittingOffsets(g, {tp})), a, 1, who);
    var t6 := t4.(txn := t4.txn.(offsets := [second]), task := CommittingOffsets(g, {}),
                  account := t4.account.(committed := {} + {Commit(g, tp, 1)}));
    RunFrom(t6, a, 2, who);
    RunFrom(t6.(task := Idle), a, 3, who);
    t := t6.(task := CommittingOffsets(h, {tp}));
    RunEnds(t, a, 4, who);
  }

  // ---------- The manager in the system ----------

  /** The sender and its transaction manager as objects; the partitions and the batches a flush
      waits for are those of the system. */
  class TransactionalSender {
    const manager: TransactionManager
    var task: Task
    ghost var parts: map<TopicPartition, Part>
    ghost var waiting: set<(TopicPartition, nat)>
    ghost var account: Account

    ghost function View(): Sys
      reads this, manager
    {
      Sys(parts, manager.View(), task, waiting, account)
    }

    constructor (ghost parts: map<TopicPartition, Part>)
      ensures View().parts == parts && View().task == Idle && View().account == NoAccount() && fresh(manager)
      ensures manager.View() == Txn(Uninitialized, {}, {}, None, [])
    {
      manager := new TransactionManager();
      task, this.parts, waiting, account := Idle, parts, {}, NoAccount();
    }

    /** A call of the user. */
    method Call(a: Action, ghost who: Producer) returns (ok: bool)
      requires Possible(View(), a) && UserCall(a)
      modifies this, manager
      ensures ok == Perform(old(View()), a, who).Some?
      ensures View() == if ok then Perform(old(View()), a, who).value else old(View())
    {
      hide Apply, Enabled, TransitionTo, MaybeAdd, AddOffsets;
      match a {
        case Begin =>
          ok := manager.Transition(InTransaction);
        case End(commit) =>
          ok := manager.Transition(if commit then Committing else Aborting);
        case SendOffsets(o) =>
          ok := manager.AddOffsetsToTxn(o);
          account := if ok then Asked(account, o) else account;
        case OnPart(tp, e) =>
          ok := manager.MaybeAddPartition(tp);
          if ok {
            account := Touched(account, tp);
            parts := parts[tp := Apply(parts[tp], e, who)];
          }
      }
    }

    /** A step of the sender's task. */
    method Work(a: Action, ghost who: Producer) returns (ok: bool)
      requires Possible(View(), a) && !UserCall(a) && Perform(View(), a, who).Some?
      modifies this, manager
      ensures ok && View() == Perform(old(View()), a, who).value
    {
      hide Apply, Enabled, Snapshot, CloseParts, PartitionAdded, OffsetCommitted, Complete;
      ghost var s := View();
      ok := true;
      match a {
        case OnPart(tp, e) =>
          parts := parts[tp := Apply(parts[tp], e, who)];
        case Start =>
          task := NextTask(manager.View());
          if task.Flushing? {
            waiting := Snapshot(s);
            parts := CloseParts(parts);
          }
        case Ask =>
          task := AddingPartitions(manager.pending);
        case Added(tp) =>
          ok := manager.AddedPartition(tp);
          task := AddingPartitions(task.tps - {tp});
        case GroupAdded =>
          manager.AddedGroup(task.group);
          account := Joined(account, task.group);
          task := Idle;
        case Committed(tp) =>
          ghost var c := Commit(task.group, tp, HeadOffset(manager.View(), tp));
          account := account.(committed := account.committed + {c});
          ok := manager.CommittedOffset(tp, HeadOffset(manager.View(), tp), task.group);
          task := task.(left := task.left - {tp});
        case TaskOver =>
          task := Idle;
        case Flushed =>
          if EmptyTransaction(manager.View()) {
            ok := manager.CompleteTransaction();
            task, account := Idle, NoAccount();
          } else {
            task := Ending;
          }
        case Ended =>
          ok := manager.CompleteTransaction();
          task, account := Idle, NoAccount();
      }
    }

    /** Any action, through the manager's own methods: the result is the system's, and the
        manager refuses exactly the calls of the user at the wrong time. */
    method Do(a: Action, ghost who: Producer) returns (ok: bool)
      requires SysInv(View(), who) && Possible(View(), a)
      modifies this, manager
      ensures ok <==> !(UserCall(a) && !InTime(old(manager.View()), a))
      ensures View() == if ok then Perform(old(View()), a, who).value else old(View())
      ensures SysInv(View(), who)
    {
      hide SysInv, Possible, Perform, InTime;
      ActionKeeps(View(), a, who);
      if a.Begin? || a.End? || a.SendOffsets? || (a.OnPart? && a.event.Open?) {
        ok := Call(a, who);
      } else {
        ok := Work(a, who);
      }
    }
  }
}
