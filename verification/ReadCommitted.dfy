/** The consumer's streaming filter (consumer/fetcher.py, PartitionRecords).

    The reference looks at the whole log: a transactional batch is aborted when the next
    marker of its producer is an abort marker.  The reader sees one fetched stretch and
    the broker's list of aborted transactions, and keeps a set of producers.
 */
module ReadCommitted {
  import opened Types

  datatype Rec = Rec(offset: int, payload: int)

  /** A record batch of the partition log. */
  datatype LogBatch = LogBatch(
    base: int, next: int, pid: Option<int>, transactional: bool,
    control: bool, abort: bool, records: seq<Rec>)

  /** What is wrong with a fetched copy of a batch: it is below the minimum size, its checksum
      is wrong, iterating over it fails at record `cut` (at the number of records when bytes
      are left over), or a deserializer fails on the records at some places. */
  datatype Damage = Damage(short: bool, crc: bool, cut: Option<nat>, unreadable: set<nat>)

  datatype Level = ReadUncommitted | ReadCommitted

  // ---------- The log and what is visible in it ----------

  ghost predicate BatchOk(b: LogBatch) {
    && b.base < b.next
    && (forall i :: 0 <= i < |b.records| ==> b.base <= b.records[i].offset < b.next)
    && (forall i, j :: 0 <= i < j < |b.records| ==> b.records[i].offset < b.records[j].offset)
    && (b.transactional || b.control ==> b.pid.Some?)
  }

  ghost predicate LogOk(log: seq<LogBatch>) {
    && (forall i :: 0 <= i < |log| ==> BatchOk(log[i]))
    && (forall i, j :: 0 <= i < j < |log| ==> log[i].next <= log[j].base)
  }

  type Log = log: seq<LogBatch> | LogOk(log) witness []

  /** A commit or abort marker of producer `p`. */
  predicate IsMarker(b: LogBatch, p: int) {
    b.control && b.pid == Some(p)
  }

  /** The first marker of `p` after batch `i` is at `j`. */
  ghost predicate NextMarker(log: seq<LogBatch>, p: int, i: nat, j: nat) {
    i < j < |log| && IsMarker(log[j], p) && forall k :: i < k < j ==> !IsMarker(log[k], p)
  }

  ghost predicate Aborted(log: seq<LogBatch>, i: nat)
    requires i < |log|
  {
    && log[i].transactional && !log[i].control && log[i].pid.Some?
    && exists j: nat :: NextMarker(log, log[i].pid.value, i, j) && log[j].abort
  }

  ghost predicate Visible(log: seq<LogBatch>, level: Level, i: nat)
    requires i < |log|
  {
    !log[i].control && !(level == ReadCommitted && Aborted(log, i))
  }

  function AtLeast(records: seq<Rec>, n: int): seq<Rec> {
    if records == [] then []
    else (if records[0].offset >= n then [records[0]] else []) + AtLeast(records[1..], n)
  }

  /** The visible records of batch `i` at offset `n` or later. */
  ghost function Shown(log: seq<LogBatch>, level: Level, i: nat, n: int): seq<Rec>
    requires i < |log|
  {
    if Visible(log, level, i) then AtLeast(log[i].records, n) else []
  }

  /** The visible records from batch `i` on, at offset `n` or later. */
  ghost function From(log: seq<LogBatch>, level: Level, i: nat, n: int): seq<Rec>
    requires i <= |log|
    decreases |log| - i
  {
    if i == |log| then []
    else Shown(log, level, i, n) + From(log, level, i + 1, n)
  }

  // ---------- The reader ----------

  /** A generator of records: batches still to read with their damage, whether the first one
      was entered and how far, the next fetch offset, and the state of the
      aborted-transaction filter. */
  datatype Reader = Reader(
    batches: seq<LogBatch>, damage: seq<Damage>, entered: bool, index: nat, next: int,
    aborted: seq<(int, int)>, producers: set<int>)

  datatype Yield = Record(rec: Rec) | Stop | Raised

  /** _consume_aborted_up_to, on the list and the set it fills. */
  function Consumed(aborted: seq<(int, int)>, offset: int): seq<(int, int)> {
    if aborted != [] && aborted[0].1 <= offset then Consumed(aborted[1..], offset) else aborted
  }

  function Collected(aborted: seq<(int, int)>, producers: set<int>, offset: int): set<int>
    decreases |aborted|
  {
    if aborted != [] && aborted[0].1 <= offset
    then Collected(aborted[1..], producers + {aborted[0].0}, offset) else producers
  }

  /** The filter after the header of batch `b`. */
  function AbortedAfter(b: LogBatch, level: Level, aborted: seq<(int, int)>): seq<(int, int)> {
    if level == ReadCommitted && b.pid.Some? then Consumed(aborted, b.base) else aborted
  }

  function ProducersAfter(b: LogBatch, level: Level, aborted: seq<(int, int)>, producers: set<int>): set<int> {
    if level == ReadCommitted && b.pid.Some? then
      var p := Collected(aborted, producers, b.base);
      if b.control && b.abort then p - {b.pid.value} else p
    else producers
  }

  predicate Skipped(b: LogBatch, level: Level, producers: set<int>) {
    b.control || (level == ReadCommitted && b.pid.Some? && b.transactional && b.pid.value in producers)
  }

  predicate ReaderOk(r: Reader) {
    |r.damage| == |r.batches| && (r.entered ==> r.batches != [] && r.index <= |r.batches[0].records|)
  }

  /** The reader after the last record of its batch, after a skipped batch, in a new batch. */
  function Left(r: Reader): Reader
    requires ReaderOk(r) && r.batches != []
  {
    r.(batches := r.batches[1..], damage := r.damage[1..], entered := false, index := 0, next := r.batches[0].next)
  }

  function Passed(r: Reader, level: Level): Reader
    requires ReaderOk(r) && r.batches != []
  {
    var b := r.batches[0];
    r.(aborted := AbortedAfter(b, level, r.aborted), producers := ProducersAfter(b, level, r.aborted, r.producers),
       batches := r.batches[1..], damage := r.damage[1..], next := b.next)
  }

  function Entered(r: Reader, level: Level): Reader
    requires r.batches != []
  {
    var b := r.batches[0];
    r.(aborted := AbortedAfter(b, level, r.aborted), producers := ProducersAfter(b, level, r.aborted, r.producers),
       entered := true, index := 0)
  }

  /** A generator that raised: it only stops from now on, at the offset it had reached. */
  function Dead(r: Reader): Reader {
    r.(batches := [], damage := [], entered := false, index := 0)
  }

  /** The header of a batch raises: the slice is too short, the checksum is wrong, or the
      filter needs a marker that cannot be read. */
  predicate HeaderFails(b: LogBatch, d: Damage, level: Level, check: bool) {
    d.short || (check && d.crc) || (level == ReadCommitted && b.pid.Some? && b.control && d.cut == Some(0))
  }

  datatype Progress = Done(y: Yield, r: Reader) | More(r: Reader)

  /** Rounds left in the first batch of a reader. */
  function Rounds(r: Reader): nat
    requires ReaderOk(r)
  {
    if r.batches == [] then 0
    else if r.entered then |r.batches[0].records| - r.index
    else |r.batches[0].records| + 1
  }

  /** One round of the generator: a batch header, a record, or the end of a batch. */
  function Step(r: Reader, level: Level, check: bool): (p: Progress)
    requires ReaderOk(r)
    ensures ReaderOk(p.r)
    ensures p.More? ==>
      |p.r.batches| < |r.batches| || (|p.r.batches| == |r.batches| && Rounds(p.r) < Rounds(r))
  {
    if r.batches == [] then Done(Stop, r)
    else
      var b, d := r.batches[0], r.damage[0];
      if !r.entered then
        if HeaderFails(b, d, level, check) then Done(Raised, Dead(r))
        else if Skipped(b, level, ProducersAfter(b, level, r.aborted, r.producers)) then More(Passed(r, level))
        else More(Entered(r, level))
      else if d.cut == Some(r.index) then Done(Raised, Dead(r))
      else if r.index == |b.records| then More(Left(r))
      else if b.records[r.index].offset < r.next then More(r.(index := r.index + 1))
      else if r.index in d.unreadable then Done(Raised, Dead(r))
      else Done(Record(b.records[r.index]), r.(index := r.index + 1, next := b.records[r.index].offset + 1))
  }

  /** A bound on the rounds left in a reader. */
  function Work(batches: seq<LogBatch>): nat {
    if batches == [] then 0 else |batches[0].records| + 2 + Work(batches[1..])
  }

  function Todo(r: Reader): nat
    requires ReaderOk(r)
  {
    Work(r.batches) - (if r.entered then r.index + 1 else 0)
  }

  lemma StepShrinks(r: Reader, level: Level, check: bool)
    requires ReaderOk(r)
    ensures var p := Step(r, level, check);
      p.More? || p.y.Record? ==> Todo(p.r) < Todo(r)
  {
  }

  /** Resume the generator until it yields, stops or fails. */
  function Advance(r: Reader, level: Level, check: bool): (y: (Yield, Reader))
    requires ReaderOk(r)
    ensures ReaderOk(y.1)
    decreases |r.batches|, Rounds(r)
  {
    match Step(r, level, check)
    case Done(y, t) => (y, t)
    case More(t) => Advance(t, level, check)
  }

  lemma StepAdvances(r: Reader, level: Level, check: bool)
    requires ReaderOk(r)
    ensures var p := Step(r, level, check);
      if p.Done? then Advance(r, level, check) == (p.y, p.r)
      else Advance(r, level, check) == Advance(p.r, level, check) && Todo(p.r) < Todo(r)
  {
    StepShrinks(r, level, check);
  }

  /** A reader that raises has passed over whole batches at most since its last record: it
      stands where it stood or after one of its batches. From then on it only stops. */
  lemma {:induction false} AdvanceRaises(r: Reader, level: Level, check: bool)
    requires ReaderOk(r)
    ensures var (y, t) := Advance(r, level, check);
      y == Raised ==>
        && (t.next == r.next || exists i :: 0 <= i < |r.batches| && t.next == r.batches[i].next)
        && t.batches == [] && Advance(t, level, check) == (Stop, t)
    decreases Todo(r)
  {
    StepAdvances(r, level, check);
    var p := Step(r, level, check);
    if p.More? {
      AdvanceRaises(p.r, level, check);
      StepMoves(r, level, check);
      var (y, t) := Advance(p.r, level, check);
      if i :| 0 <= i < |p.r.batches| && t.next == p.r.batches[i].next {
        var k := |r.batches| - |p.r.batches|;
        assert r.batches[k + i] == p.r.batches[i];
      }
    }
  }

  lemma StepMoves(r: Reader, level: Level, check: bool)
    requires ReaderOk(r)
    ensures var p := Step(r, level, check);
      p.More? ==>
        && r.batches != []
        && ((p.r.batches == r.batches && p.r.next == r.next) ||
            (p.r.batches == r.batches[1..] && p.r.next == r.batches[0].next))
  {
  }

  // ---------- The broker's list of aborted transactions ----------

  /** Every marker of `p` before batch `j` is before offset `o`. */
  ghost predicate MarkersBefore(log: seq<LogBatch>, j: nat, p: int, o: int)
    requires j <= |log|
  {
    forall k :: 0 <= k < j && IsMarker(log[k], p) ==> log[k].base < o
  }

  /** `(p, o)` is the aborted transaction of `p` that ends at marker `j`: `o` is at or before
      its data and after every earlier marker of `p`. */
  ghost predicate Entry(log: seq<LogBatch>, p: int, o: int, j: nat) {
    && j < |log| && IsMarker(log[j], p) && log[j].abort && o <= log[j].base
    && MarkersBefore(log, j, p, o)
  }

  /** `x` is the entry of the transaction that batch `i` belongs to. */
  ghost predicate EntryOf(log: seq<LogBatch>, i: nat, x: (int, int)) {
    && i < |log| && log[i].pid == Some(x.0) && x.1 <= log[i].base
    && MarkersBefore(log, i, x.0, x.1)
  }

  /** The list belongs to the stretch from `s` to `e`: each entry is a transaction that
      ends there or later, and every aborted batch of the stretch has its entry. */
  ghost predicate Matches(log: seq<LogBatch>, s: nat, e: nat, list: seq<(int, int)>) {
    && s <= e <= |log|
    && (forall x :: x in list ==> exists j: nat :: s <= j && Entry(log, x.0, x.1, j))
    && (forall i :: s <= i < e && Aborted(log, i) ==> exists x :: x in list && EntryOf(log, i, x))
  }

  ghost predicate SortedList(list: seq<(int, int)>) {
    forall i, j :: 0 <= i < j < |list| ==> list[i].1 <= list[j].1
  }

  // ---------- Consuming the sorted list ----------

  /** What is consumed is exactly what starts at or before the offset. */
  lemma {:induction false} ConsumeSplits(aborted: seq<(int, int)>, producers: set<int>, offset: int)
    requires SortedList(aborted)
    ensures SortedList(Consumed(aborted, offset))
    ensures forall x :: x in Consumed(aborted, offset) <==> x in aborted && x.1 > offset
    ensures forall p :: p in Collected(aborted, producers, offset) <==>
      p in producers || exists x :: x in aborted && x.0 == p && x.1 <= offset
    decreases |aborted|
  {
    if aborted != [] && aborted[0].1 <= offset {
      ConsumeSplits(aborted[1..], producers + {aborted[0].0}, offset);
    }
  }

  // ---------- The set of aborted producers ----------

  /** No abort marker of `p` at offset `o` or later among batches `s` to `i`. */
  ghost predicate NoAbortSince(log: seq<LogBatch>, s: nat, i: nat, p: int, o: int)
    requires i <= |log|
  {
    forall k :: s <= k < i && IsMarker(log[k], p) && log[k].abort ==> log[k].base < o
  }

  ghost predicate Open(log: seq<LogBatch>, s: nat, i: nat, list: seq<(int, int)>, c: int, p: int)
    requires i <= |log|
  {
    exists x :: x in list && x.0 == p && x.1 <= c && NoAbortSince(log, s, i, p, x.1)
  }

  /** After batches `s` to `i`, with the list consumed up to offset `c`, the set holds the
      producers with a consumed entry whose abort marker was not met yet. */
  ghost predicate Filter(log: seq<LogBatch>, s: nat, i: nat, list: seq<(int, int)>, c: int,
                         aborted: seq<(int, int)>, producers: set<int>)
  {
    && s <= i <= |log| && SortedList(aborted)
    && (forall x :: x in aborted <==> x in list && x.1 > c)
    && (forall k :: s <= k < i && log[k].pid.Some? ==> log[k].base <= c)
    && (forall k :: i <= k < |log| ==> c < log[k].base)
    && (forall p :: p in producers <==> Open(log, s, i, list, c, p))
  }

  lemma FilterStep(log: Log, s: nat, i: nat, list: seq<(int, int)>, c: int,
                   aborted: seq<(int, int)>, producers: set<int>)
    requires i < |log| && Filter(log, s, i, list, c, aborted, producers)
    ensures Filter(log, s, i + 1, list, if log[i].pid.Some? then log[i].base else c,
      AbortedAfter(log[i], ReadCommitted, aborted), ProducersAfter(log[i], ReadCommitted, aborted, producers))
  {
    var b := log[i];
    if b.pid.None? {
      forall p ensures Open(log, s, i, list, c, p) <==> Open(log, s, i + 1, list, c, p) {
        assert forall o :: NoAbortSince(log, s, i, p, o) <==> NoAbortSince(log, s, i + 1, p, o);
      }
    } else {
      ConsumeSplits(aborted, producers, b.base);
      var after := ProducersAfter(b, ReadCommitted, aborted, producers);
      forall p ensures p in after <==> Open(log, s, i + 1, list, b.base, p) {
        FilterProducer(log, s, i, list, c, aborted, producers, p);
      }
    }
  }

  lemma FilterProducer(log: Log, s: nat, i: nat, list: seq<(int, int)>, c: int,
                       aborted: seq<(int, int)>, producers: set<int>, p: int)
    requires i < |log| && Filter(log, s, i, list, c, aborted, producers) && log[i].pid.Some?
    ensures p in ProducersAfter(log[i], ReadCommitted, aborted, producers)
      <==> Open(log, s, i + 1, list, log[i].base, p)
  {
    var b := log[i];
    ConsumeSplits(aborted, producers, b.base);
    var all := Collected(aborted, producers, b.base);
    // before the marker is looked at, the set is complete for entries up to this batch
    assert p in all <==> exists x :: x in list && x.0 == p && x.1 <= b.base && NoAbortSince(log, s, i, p, x.1) by {
      forall x | x in list && x.0 == p && c < x.1 ensures NoAbortSince(log, s, i, p, x.1) {
      }
      if p in producers {
        var x :| x in list && x.0 == p && x.1 <= c && NoAbortSince(log, s, i, p, x.1);
        assert x in list && x.0 == p && x.1 <= b.base && NoAbortSince(log, s, i, p, x.1);
      }
    }
    if IsMarker(b, p) && b.abort {
      forall x | x in list && x.1 <= b.base ensures !NoAbortSince(log, s, i + 1, p, x.1) {
        assert IsMarker(log[i], p) && log[i].abort && log[i].base >= x.1;
      }
    } else {
      assert forall o :: NoAbortSince(log, s, i, p, o) <==> NoAbortSince(log, s, i + 1, p, o);
    }
  }

  lemma OpenIfAborted(log: seq<LogBatch>, s: nat, e: nat, i: nat, list: seq<(int, int)>)
    requires Matches(log, s, e, list) && s <= i < e && Aborted(log, i)
    ensures Open(log, s, i + 1, list, log[i].base, log[i].pid.value)
  {
    hide Entry;
    var x :| x in list && EntryOf(log, i, x);
    hide Aborted;
    assert NoAbortSince(log, s, i + 1, x.0, x.1);
  }

  lemma AbortedIfOpen(log: Log, s: nat, e: nat, i: nat, list: seq<(int, int)>)
    requires Matches(log, s, e, list) && s <= i < e
    requires !log[i].control && log[i].transactional && log[i].pid.Some?
    requires Open(log, s, i + 1, list, log[i].base, log[i].pid.value)
    ensures Aborted(log, i)
  {
    hide LogOk, EntryOf, Aborted, MarkersBefore, NoAbortSince;
    var p := log[i].pid.value;
    var x :| x in list && x.0 == p && x.1 <= log[i].base && NoAbortSince(log, s, i + 1, p, x.1);
    var j: nat :| s <= j && Entry(log, p, x.1, j);
    EndsLater(log, s, i, p, x.1, j);
    AbortsAt(log, i, p, x.1, j);
  }

  /** An entry that is still open after batch `i` ends at a later marker. */
  lemma EndsLater(log: seq<LogBatch>, s: nat, i: nat, p: int, o: int, j: nat)
    requires s <= i < |log| && s <= j && Entry(log, p, o, j) && NoAbortSince(log, s, i + 1, p, o)
    ensures i < j
  {
    hide MarkersBefore;
  }

  lemma AbortsAt(log: Log, i: nat, p: int, o: int, j: nat)
    requires i < j && Entry(log, p, o, j) && o <= log[i].base
    requires !log[i].control && log[i].transactional && log[i].pid == Some(p)
    ensures Aborted(log, i)
  {
    BasesGrow(log, i);
    hide LogOk;
    assert NextMarker(log, p, i, j);
  }

  lemma BasesGrow(log: Log, i: nat)
    requires i < |log|
    ensures forall k :: i < k < |log| ==> log[i].base < log[k].base
  {
    assert BatchOk(log[i]);
  }

  /** The reader skips a data batch exactly when its transaction was aborted. */
  lemma FilterDecides(log: Log, s: nat, e: nat, i: nat, list: seq<(int, int)>, c: int,
                      aborted: seq<(int, int)>, producers: set<int>)
    requires Matches(log, s, e, list) && s <= i < e && !log[i].control
    requires Filter(log, s, i, list, c, aborted, producers)
    ensures Skipped(log[i], ReadCommitted, ProducersAfter(log[i], ReadCommitted, aborted, producers)) <==>
      Aborted(log, i)
  {
    var b := log[i];
    assert BatchOk(b);
    if b.pid.Some? {
      FilterProducer(log, s, i, list, c, aborted, producers, b.pid.value);
      if Aborted(log, i) {
        OpenIfAborted(log, s, e, i, list);
      }
      if b.transactional && Open(log, s, i + 1, list, b.base, b.pid.value) {
        AbortedIfOpen(log, s, e, i, list);
      }
    }
  }

  // ---------- Offsets ----------

  lemma {:induction false} AtLeastSuffix(records: seq<Rec>, n: int, k: nat)
    requires k <= |records|
    requires forall j :: 0 <= j < k ==> records[j].offset < n
    requires forall j :: k <= j < |records| ==> records[j].offset >= n
    ensures AtLeast(records, n) == records[k..]
    decreases |records|
  {
    if records != [] {
      AtLeastSuffix(records[1..], n, if k == 0 then 0 else k - 1);
    }
  }

  lemma ShownBefore(log: Log, level: Level, i: nat, n: int)
    requires i < |log| && log[i].next <= n
    ensures Shown(log, level, i, n) == []
  {
    assert BatchOk(log[i]);
    AtLeastSuffix(log[i].records, n, |log[i].records|);
  }

  lemma ShownAfter(log: Log, level: Level, i: nat, n: int, m: int)
    requires i < |log| && n <= m <= log[i].base
    ensures Shown(log, level, i, n) == Shown(log, level, i, m)
  {
    assert BatchOk(log[i]);
    AtLeastSuffix(log[i].records, n, 0);
    AtLeastSuffix(log[i].records, m, 0);
  }

  /** Batches that end at or before `n` contribute nothing. */
  lemma {:induction false} SkipBefore(log: Log, level: Level, h: nat, i: nat, n: int)
    requires h <= i <= |log| && forall k :: h <= k < i ==> log[k].next <= n
    ensures From(log, level, h, n) == From(log, level, i, n)
    decreases i - h
  {
    hide LogOk, Shown;
    if h < i {
      ShownBefore(log, level, h, n);
      SkipBefore(log, level, h + 1, i, n);
      ConcatNil(From(log, level, h + 1, n));
    }
  }

  /** Batches that start at or after `m` contribute all their records. */
  lemma {:induction false} RaiseStart(log: Log, level: Level, i: nat, n: int, m: int)
    requires i <= |log| && n <= m && forall k :: i <= k < |log| ==> m <= log[k].base
    ensures From(log, level, i, n) == From(log, level, i, m)
    decreases |log| - i
  {
    hide LogOk, Shown;
    if i < |log| {
      ShownAfter(log, level, i, n, m);
      RaiseStart(log, level, i + 1, n, m);
    }
  }

  // ---------- The reader against the log ----------

  /** The filter state of a reader that processed batches `s` to `i`. */
  ghost predicate FilterSide(log: seq<LogBatch>, level: Level, s: nat, i: nat, list: seq<(int, int)>, r: Reader) {
    level == ReadCommitted ==> exists c :: Filter(log, s, i, list, c, r.aborted, r.producers)
  }

  /** A reader that entered visible batch `i` and passed only records below its offset. */
  ghost predicate InBatch(log: seq<LogBatch>, level: Level, i: nat, index: nat, n: int) {
    && i < |log| && Visible(log, level, i) && n <= log[i].next && index <= |log[i].records|
    && forall k :: 0 <= k < index ==> log[i].records[k].offset < n
  }

  /** Every batch before `i` ends at or before offset `n`. */
  ghost predicate Behind(log: seq<LogBatch>, i: nat, n: int) {
    i <= |log| && forall k :: 0 <= k < i ==> log[k].next <= n
  }

  /** Every batch from `e` on starts at or after offset `n`. */
  ghost predicate Before(log: seq<LogBatch>, e: nat, n: int) {
    forall k :: e <= k < |log| ==> n <= log[k].base
  }

  /** `r` reads the stretch from `s` to `e` of the log and stands in or before batch `i`. */
  ghost predicate StandsAt(log: seq<LogBatch>, level: Level, s: nat, e: nat, list: seq<(int, int)>, r: Reader, i: nat) {
    && s <= i <= e <= |log| && ReaderOk(r)
    && (level == ReadCommitted ==> Matches(log, s, e, list))
    && r.batches == log[i..e] && Behind(log, i, r.next) && (s < e ==> Before(log, e, r.next))
    && FilterSide(log, level, s, if r.entered then i + 1 else i, list, r)
    && (r.entered ==> InBatch(log, level, i, r.index, r.next))
    && (!r.entered && i < e ==> r.next < log[i].next)
  }

  ghost predicate Follows(log: seq<LogBatch>, level: Level, s: nat, e: nat, list: seq<(int, int)>, r: Reader) {
    exists i: nat :: StandsAt(log, level, s, e, list, r, i)
  }

  lemma LaterBases(log: Log, i: nat, m: int)
    requires i < |log| && m <= log[i].next
    ensures forall k :: i + 1 <= k < |log| ==> m <= log[k].base
  {
  }

  /** The rest of the log after batch `i`, seen from inside it or from its end. */
  lemma LeaveBatch(log: Log, level: Level, i: nat, n: int)
    requires i < |log| && n <= log[i].next && Shown(log, level, i, n) == []
    ensures From(log, level, i, n) == From(log, level, i + 1, log[i].next)
  {
    hide LogOk, Shown;
    LaterBases(log, i, log[i].next);
    RaiseStart(log, level, i + 1, n, log[i].next);
    ConcatNil(From(log, level, i + 1, n));
  }

  lemma ShownYields(log: Log, level: Level, i: nat, n: int, k: nat)
    requires i < |log| && Visible(log, level, i)
    requires k < |log[i].records| && log[i].records[k].offset >= n
    requires forall j :: 0 <= j < k ==> log[i].records[j].offset < n
    ensures var x := log[i].records[k];
      Shown(log, level, i, n) == [x] + Shown(log, level, i, x.offset + 1) && x.offset + 1 <= log[i].next
  {
    hide LogOk, Visible, AtLeast;
    var records := log[i].records;
    BatchIsOk(log, i);
    AtLeastSuffix(records, n, k);
    AtLeastSuffix(records, records[k].offset + 1, k + 1);
    assert records[k..] == [records[k]] + records[k + 1..];
  }

  lemma BatchIsOk(log: Log, i: nat)
    requires i < |log|
    ensures BatchOk(log[i])
  {
  }

  lemma FromBatch(log: Log, level: Level, i: nat, n: int)
    requires i < |log|
    ensures From(log, level, i, n) == Shown(log, level, i, n) + From(log, level, i + 1, n)
  {
    hide LogOk, Shown;
  }

  lemma YieldRecord(log: Log, level: Level, i: nat, n: int, k: nat)
    requires i < |log| && Visible(log, level, i) && n <= log[i].next
    requires k < |log[i].records| && log[i].records[k].offset >= n
    requires forall j :: 0 <= j < k ==> log[i].records[j].offset < n
    ensures var x := log[i].records[k];
      From(log, level, i, n) == [x] + From(log, level, i, x.offset + 1) && x.offset + 1 <= log[i].next
  {
    hide LogOk, Shown, Visible, From;
    var x := log[i].records[k];
    ShownYields(log, level, i, n, k);
    FromBatch(log, level, i, n);
    FromBatch(log, level, i, x.offset + 1);
    LaterBases(log, i, x.offset + 1);
    RaiseStart(log, level, i + 1, n, x.offset + 1);
    ConcatAssoc([x], Shown(log, level, i, x.offset + 1), From(log, level, i + 1, n));
  }

  lemma InsideYields(log: Log, level: Level, i: nat, index: nat, n: int)
    requires InBatch(log, level, i, index, n) && Behind(log, i, n)
    requires index < |log[i].records| && log[i].records[index].offset >= n
    ensures var x := log[i].records[index];
      && InBatch(log, level, i, index + 1, x.offset + 1) && Behind(log, i, x.offset + 1) && n <= x.offset + 1
      && From(log, level, 0, n) == [x] + From(log, level, 0, x.offset + 1)
  {
    hide LogOk, From, Visible;
    var x := log[i].records[index];
    BatchIsOk(log, i);
    YieldRecord(log, level, i, n, index);
    SkipBefore(log, level, 0, i, n);
    SkipBefore(log, level, 0, i, x.offset + 1);
  }

  lemma InsideLeaves(log: Log, level: Level, i: nat, n: int)
    requires i < |log| && InBatch(log, level, i, |log[i].records|, n) && Behind(log, i, n)
    ensures Behind(log, i + 1, log[i].next) && n <= log[i].next
    ensures From(log, level, 0, n) == From(log, level, 0, log[i].next)
  {
    hide LogOk, From, Visible, AtLeast;
    AtLeastSuffix(log[i].records, n, |log[i].records|);
    PastBatch(log, level, i, n);
  }

  /** Moving on to the end of batch `i`, of which nothing is left, loses nothing. */
  lemma PastBatch(log: Log, level: Level, i: nat, n: int)
    requires i < |log| && n <= log[i].next && Behind(log, i, n)
    requires Shown(log, level, i, n) == []
    ensures From(log, level, 0, n) == From(log, level, 0, log[i].next) && Behind(log, i + 1, log[i].next)
  {
    hide LogOk, From, Shown;
    SkipBefore(log, level, 0, i, n);
    LeaveBatch(log, level, i, n);
    SkipBefore(log, level, 0, i + 1, log[i].next);
  }

  lemma LeftBehind(log: Log, e: nat, i: nat)
    requires i < e <= |log|
    ensures log[i..e][1..] == log[i + 1..e] && (i + 1 < e ==> log[i].next < log[i + 1].next)
  {
    if i + 1 < e {
      assert BatchOk(log[i + 1]) && log[i].next <= log[i + 1].base;
    }
  }

  lemma HeaderFollows(log: Log, level: Level, s: nat, e: nat, list: seq<(int, int)>, r: Reader, i: nat)
    requires StandsAt(log, level, s, e, list, r, i) && r.batches != [] && !r.entered
    ensures var skip := Skipped(log[i], level, ProducersAfter(log[i], level, r.aborted, r.producers));
      && skip == !Visible(log, level, i)
      && (if skip then StandsAt(log, level, s, e, list, Passed(r, level), i + 1)
          else StandsAt(log, level, s, e, list, Entered(r, level), i))
  {
    assert BatchOk(log[i]);
    LeftBehind(log, e, i);
    FilterSideStep(log, level, s, e, list, r, i);
  }

  lemma FilterSideStep(log: Log, level: Level, s: nat, e: nat, list: seq<(int, int)>, r: Reader, i: nat)
    requires s <= i < e <= |log| && FilterSide(log, level, s, i, list, r)
    requires level == ReadCommitted ==> Matches(log, s, e, list)
    ensures var producers := ProducersAfter(log[i], level, r.aborted, r.producers);
      && FilterSide(log, level, s, i + 1, list,
           r.(aborted := AbortedAfter(log[i], level, r.aborted), producers := producers))
      && Skipped(log[i], level, producers) == !Visible(log, level, i)
  {
    if level == ReadCommitted {
      var c :| Filter(log, s, i, list, c, r.aborted, r.producers);
      FilterStep(log, s, i, list, c, r.aborted, r.producers);
      if !log[i].control {
        FilterDecides(log, s, e, i, list, c, r.aborted, r.producers);
      }
    }
  }

  /** From `r` to `t` exactly `out` was yielded and nothing visible was passed over. */
  ghost predicate Between(log: seq<LogBatch>, level: Level, r: Reader, out: seq<Rec>, t: Reader) {
    r.next <= t.next && From(log, level, 0, r.next) == out + From(log, level, 0, t.next)
  }

  lemma BetweenTransitive(log: seq<LogBatch>, level: Level, r: Reader, a: seq<Rec>, t: Reader, b: seq<Rec>, u: Reader)
    requires Between(log, level, r, a, t) && Between(log, level, t, b, u)
    ensures Between(log, level, r, a + b, u)
  {
    hide From;
    ConcatAssoc(a, b, From(log, level, 0, u.next));
  }

  function Out(y: Yield): seq<Rec> {
    if y.Record? then [y.rec] else []
  }

  lemma StepYields(log: Log, level: Level, s: nat, e: nat, list: seq<(int, int)>, r: Reader, i: nat)
    requires StandsAt(log, level, s, e, list, r, i) && r.entered
    requires r.index < |log[i].records| && log[i].records[r.index].offset >= r.next
    ensures var x := log[i].records[r.index];
      var t := r.(index := r.index + 1, next := x.offset + 1);
      StandsAt(log, level, s, e, list, t, i) && Between(log, level, r, [x], t)
  {
    hide LogOk, From, Visible, Matches, Filter;
    InsideYields(log, level, i, r.index, r.next);
    LaterBases(log, i, log[i].records[r.index].offset + 1);
  }

  lemma StepPasses(log: Log, level: Level, s: nat, e: nat, list: seq<(int, int)>, r: Reader, i: nat)
    requires StandsAt(log, level, s, e, list, r, i) && r.entered
    requires r.index < |log[i].records| && log[i].records[r.index].offset < r.next
    ensures StandsAt(log, level, s, e, list, r.(index := r.index + 1), i)
    ensures Between(log, level, r, [], r.(index := r.index + 1))
  {
    hide LogOk, From, Visible, Matches, Filter;
    ConcatNil(From(log, level, 0, r.next));
  }

  lemma StepLeaves(log: Log, level: Level, s: nat, e: nat, list: seq<(int, int)>, r: Reader, i: nat)
    requires StandsAt(log, level, s, e, list, r, i) && r.entered && r.index == |log[i].records|
    ensures StandsAt(log, level, s, e, list, Left(r), i + 1) && Between(log, level, r, [], Left(r))
  {
    hide LogOk, From, Visible, Matches, Filter;
    InsideLeaves(log, level, i, r.next);
    LeftBehind(log, e, i);
    LaterBases(log, i, log[i].next);
    ConcatNil(From(log, level, 0, log[i].next));
  }

  ghost predicate StepOk(log: seq<LogBatch>, level: Level, s: nat, e: nat, list: seq<(int, int)>, r: Reader,
                         p: Progress) {
    && Between(log, level, r, if p.Done? then Out(p.y) else [], p.r)
    && (if p == Done(Raised, p.r) then p.r.batches == [] else Follows(log, level, s, e, list, p.r))
  }

  lemma StepRaises(log: seq<LogBatch>, level: Level, s: nat, e: nat, list: seq<(int, int)>, r: Reader)
    ensures StepOk(log, level, s, e, list, r, Done(Raised, Dead(r)))
  {
    hide From;
    ConcatNil(From(log, level, 0, r.next));
  }

  lemma StepInside(log: Log, level: Level, check: bool, s: nat, e: nat, list: seq<(int, int)>, r: Reader, i: nat)
    requires StandsAt(log, level, s, e, list, r, i) && r.entered
    ensures StepOk(log, level, s, e, list, r, Step(r, level, check))
  {
    hide LogOk, From, Visible, InBatch, Behind, Before, FilterSide, Matches, Between;
    var b, d := log[i], r.damage[0];
    assert r.batches[0] == b;
    StepRaises(log, level, s, e, list, r);
    InBatchIndex(log, level, i, r.index, r.next);
    if d.cut == Some(r.index) {
    } else if r.index == |b.records| {
      StepLeaves(log, level, s, e, list, r, i);
    } else if b.records[r.index].offset < r.next {
      StepPasses(log, level, s, e, list, r, i);
    } else if r.index !in d.unreadable {
      StepYields(log, level, s, e, list, r, i);
    }
  }

  lemma InBatchIndex(log: seq<LogBatch>, level: Level, i: nat, index: nat, n: int)
    requires InBatch(log, level, i, index, n)
    ensures i < |log| && index <= |log[i].records|
  {
  }

  lemma StepHeader(log: Log, level: Level, check: bool, s: nat, e: nat, list: seq<(int, int)>, r: Reader, i: nat)
    requires StandsAt(log, level, s, e, list, r, i) && !r.entered && r.batches != []
    ensures StepOk(log, level, s, e, list, r, Step(r, level, check))
  {
    hide LogOk, From, Visible, InBatch, FilterSide, Matches, ProducersAfter, AbortedAfter, Skipped, HeaderFails;
    assert r.batches[0] == log[i];
    StepRaises(log, level, s, e, list, r);
    HeaderFollows(log, level, s, e, list, r, i);
    if !Visible(log, level, i) {
      NothingShown(log, level, i, r.next);
      PastBatch(log, level, i, r.next);
    }
    ConcatNil(From(log, level, 0, log[i].next));
    ConcatNil(From(log, level, 0, r.next));
  }

  lemma NothingShown(log: seq<LogBatch>, level: Level, i: nat, n: int)
    requires i < |log| && !Visible(log, level, i)
    ensures Shown(log, level, i, n) == []
  {
  }

  /** One round keeps the reader on the log and passes over nothing visible. */
  lemma StepFollows(log: Log, level: Level, check: bool, s: nat, e: nat, list: seq<(int, int)>, r: Reader)
    requires Follows(log, level, s, e, list, r)
    ensures ReaderOk(r) && StepOk(log, level, s, e, list, r, Step(r, level, check))
  {
    var i: nat :| StandsAt(log, level, s, e, list, r, i);
    if r.entered {
      StepInside(log, level, check, s, e, list, r, i);
    } else if r.batches != [] {
      StepHeader(log, level, check, s, e, list, r, i);
    }
  }

  /** What a resumed reader yields is exactly the next visible record, and the offset it
      stands at afterwards loses nothing. */
  lemma {:induction false} AdvanceFollows(log: Log, level: Level, check: bool, s: nat, e: nat,
                                          list: seq<(int, int)>, r: Reader)
    requires ReaderOk(r) && Follows(log, level, s, e, list, r)
    ensures var (y, t) := Advance(r, level, check);
      && Between(log, level, r, Out(y), t)
      && (y != Raised ==> Follows(log, level, s, e, list, t))
      && (!y.Record? ==> t.batches == []) && (y.Record? ==> Todo(t) < Todo(r))
    decreases Todo(r)
  {
    hide From, Follows;
    StepFollows(log, level, check, s, e, list, r);
    StepShrinks(r, level, check);
    var p := Step(r, level, check);
    if p.More? {
      AdvanceFollows(log, level, check, s, e, list, p.r);
      var (y, t) := Advance(p.r, level, check);
      BetweenTransitive(log, level, r, [], p.r, Out(y), t);
      ConcatNil(Out(y));
    }
  }

  // ---------- A whole fetched stretch ----------

  /** A fresh PartitionRecords; the list is sorted by first offset. */
  function NewReader(batches: seq<LogBatch>, damage: seq<Damage>, list: seq<(int, int)>, offset: int): Reader {
    Reader(batches, damage, false, 0, offset, SortList(list), {})
  }

  function Insert(x: (int, int), list: seq<(int, int)>): seq<(int, int)> {
    if list == [] || x.1 <= list[0].1 then [x] + list else [list[0]] + Insert(x, list[1..])
  }

  function SortList(list: seq<(int, int)>): seq<(int, int)> {
    if list == [] then [] else Insert(list[0], SortList(list[1..]))
  }

  lemma {:induction false} InsertSorted(x: (int, int), list: seq<(int, int)>)
    requires SortedList(list)
    ensures SortedList(Insert(x, list))
    ensures forall y :: y in Insert(x, list) <==> y == x || y in list
    decreases |list|
  {
    if list != [] && x.1 > list[0].1 {
      InsertSorted(x, list[1..]);
      assert list == [list[0]] + list[1..];
      var rest := Insert(x, list[1..]);
      forall y | y in rest ensures list[0].1 <= y.1 {
      }
      assert forall j :: 0 <= j < |rest| ==> rest[j] in rest;
    }
  }

  lemma {:induction false} SortListSorted(list: seq<(int, int)>)
    ensures SortedList(SortList(list))
    ensures forall y :: y in SortList(list) <==> y in list
    decreases |list|
  {
    if list != [] {
      SortListSorted(list[1..]);
      InsertSorted(list[0], SortList(list[1..]));
      assert list == [list[0]] + list[1..];
    }
  }

  lemma {:induction false} BelowAll(list: seq<(int, int)>, bound: int) returns (c: int)
    ensures c < bound && forall x :: x in list ==> c < x.1
    decreases |list|
  {
    if list == [] {
      c := bound - 1;
    } else {
      c := BelowAll(list[1..], if list[0].1 < bound then list[0].1 else bound);
      assert list == [list[0]] + list[1..];
    }
  }

  /** What a broker may answer to a fetch at offset `n`: batches from the one that holds `n` on. */
  ghost predicate Fetched(log: seq<LogBatch>, level: Level, s: nat, e: nat, list: seq<(int, int)>, n: int) {
    && s <= e <= |log| && Behind(log, s, n) && (s < e ==> n < log[s].next)
    && (level == ReadCommitted ==> Matches(log, s, e, list))
  }

  lemma NewFollows(log: Log, level: Level, s: nat, e: nat, damage: seq<Damage>, list: seq<(int, int)>, n: int)
    requires Fetched(log, level, s, e, list, n) && |damage| == e - s
    ensures Follows(log, level, s, e, list, NewReader(log[s..e], damage, list, n))
  {
    var r := NewReader(log[s..e], damage, list, n);
    SortListSorted(list);
    var c := BelowAll(list, if s < |log| then log[s].base else 0);
    assert Filter(log, s, s, list, c, r.aborted, r.producers) by {
      forall k | s <= k < |log| ensures c < log[k].base {
        if s < k { assert BatchOk(log[s]) && log[s].next <= log[k].base; }
      }
    }
    assert StandsAt(log, level, s, e, list, r, s);
  }

  /** The visible records of batches `i` to `e` at offset `n` or later. */
  ghost function Stretch(log: seq<LogBatch>, level: Level, i: nat, e: nat, n: int): seq<Rec>
    requires i <= e <= |log|
    decreases e - i
  {
    if i == e then []
    else Shown(log, level, i, n) + Stretch(log, level, i + 1, e, n)
  }

  lemma {:induction false} FromSplits(log: seq<LogBatch>, level: Level, i: nat, e: nat, n: int)
    requires i <= e <= |log|
    ensures From(log, level, i, n) == Stretch(log, level, i, e, n) + From(log, level, e, n)
    decreases e - i
  {
    hide Shown;
    if i < e {
      FromSplits(log, level, i + 1, e, n);
      ConcatAssoc(Shown(log, level, i, n), Stretch(log, level, i + 1, e, n), From(log, level, e, n));
    } else {
      ConcatNil(From(log, level, e, n));
    }
  }

  /** Everything a reader yields until it stops or fails. */
  function ReadAll(r: Reader, level: Level, check: bool): (seq<Rec>, Yield, Reader)
    requires ReaderOk(r)
    decreases Todo(r)
  {
    var (y, t) := Advance(r, level, check);
    if y.Record? && Todo(t) < Todo(r) then
      var (rest, last, u) := ReadAll(t, level, check);
      ([y.rec] + rest, last, u)
    else ([], y, t)
  }

  lemma {:induction false} ReadAllFollows(log: Log, level: Level, check: bool, s: nat, e: nat,
                                          list: seq<(int, int)>, r: Reader)
    requires ReaderOk(r) && Follows(log, level, s, e, list, r)
    ensures var (out, y, t) := ReadAll(r, level, check);
      && Between(log, level, r, out, t) && !y.Record?
      && (y == Stop ==> Follows(log, level, s, e, list, t) && t.batches == [])
    decreases Todo(r)
  {
    var (y, t) := Advance(r, level, check);
    AdvanceFollows(log, level, check, s, e, list, r);
    if y.Record? {
      ReadAllFollows(log, level, check, s, e, list, t);
      var (rest, last, u) := ReadAll(t, level, check);
      BetweenTransitive(log, level, r, [y.rec], t, rest, u);
    }
  }

  // ---------- Undamaged copies ----------

  predicate Sound(d: Damage) {
    !d.short && !d.crc && d.cut.None? && d.unreadable == {}
  }

  ghost predicate AllSound(damage: seq<Damage>) {
    forall d :: d in damage ==> Sound(d)
  }

  lemma {:induction false} AdvanceSound(r: Reader, level: Level, check: bool)
    requires ReaderOk(r) && AllSound(r.damage)
    ensures var (y, t) := Advance(r, level, check);
      y != Raised && AllSound(t.damage) && (y.Record? ==> Todo(t) < Todo(r))
    decreases Todo(r)
  {
    StepShrinks(r, level, check);
    assert r.batches != [] ==> Sound(r.damage[0]);
    var p := Step(r, level, check);
    if p.More? {
      AdvanceSound(p.r, level, check);
    }
  }

  lemma {:induction false} ReadAllSound(r: Reader, level: Level, check: bool)
    requires ReaderOk(r) && AllSound(r.damage)
    ensures ReadAll(r, level, check).1 == Stop
    decreases Todo(r)
  {
    hide AllSound;
    AdvanceSound(r, level, check);
    var (y, t) := Advance(r, level, check);
    if y.Record? {
      ReadAllSound(t, level, check);
    }
  }

  /** What is left of a stretch for an undamaged reader anywhere in it: the visible records at
      its offset or later. */
  lemma RestIsVisible(log: Log, level: Level, check: bool, s: nat, e: nat, list: seq<(int, int)>, r: Reader)
    requires ReaderOk(r) && Follows(log, level, s, e, list, r) && AllSound(r.damage)
    ensures s <= e <= |log| && ReadAll(r, level, check).0 == Stretch(log, level, s, e, r.next)
  {
    hide LogOk, Shown, Matches, Filter, AllSound;
    ReadAllFollows(log, level, check, s, e, list, r);
    ReadAllSound(r, level, check);
    var (out, y, t) := ReadAll(r, level, check);
    SkipBefore(log, level, 0, s, r.next);
    FromSplits(log, level, s, e, r.next);
    var i: nat :| StandsAt(log, level, s, e, list, t, i);
    assert i == e by { assert |log[i..e]| == 0; }
    if s < e {
      RaiseStart(log, level, e, r.next, t.next);
    }
    SkipBefore(log, level, 0, e, t.next);
    Cancel(out, Stretch(log, level, s, e, r.next), From(log, level, e, r.next));
  }

  // ---------- Damaged copies ----------

  /** Nothing was read past the damage of the batch a reader is in. */
  ghost predicate ShortOfDamage(r: Reader, check: bool)
    requires ReaderOk(r)
  {
    r.entered ==>
      && !r.damage[0].short && !(check && r.damage[0].crc)
      && (r.damage[0].cut.Some? ==> r.index <= r.damage[0].cut.value)
  }

  /** A record of a batch that is long enough and has the right checksum, if checksums are
      checked; it is before the point where the batch cannot be parsed, and its key and value
      can be deserialized. */
  ghost predicate Readable(r: Reader, check: bool, x: Rec)
    requires |r.damage| == |r.batches|
  {
    exists j, k ::
      && 0 <= j < |r.batches| && 0 <= k < |r.batches[j].records| && x == r.batches[j].records[k]
      && !r.damage[j].short && !(check && r.damage[j].crc)
      && (r.damage[j].cut.Some? ==> k < r.damage[j].cut.value) && k !in r.damage[j].unreadable
  }

  /** Whatever is damaged, only records that can be read are yielded. */
  lemma {:induction false} YieldsReadable(r: Reader, level: Level, check: bool)
    requires ReaderOk(r) && ShortOfDamage(r, check)
    ensures var (y, t) := Advance(r, level, check);
      ShortOfDamage(t, check) && (y.Record? ==> Readable(r, check, y.rec))
    decreases Todo(r)
  {
    StepAdvances(r, level, check);
    var p := Step(r, level, check);
    if p.More? {
      StepDamage(r, level, check);
      YieldsReadable(p.r, level, check);
      var y := Advance(p.r, level, check).0;
      if y.Record? {
        ReadableBefore(r, p.r, check, y.rec);
      }
    } else if p.y.Record? {
      assert p.y.rec == r.batches[0].records[r.index];
    }
  }

  lemma StepDamage(r: Reader, level: Level, check: bool)
    requires ReaderOk(r) && ShortOfDamage(r, check)
    ensures var p := Step(r, level, check);
      p.More? ==>
        && ShortOfDamage(p.r, check) && r.batches != []
        && ((p.r.batches == r.batches && p.r.damage == r.damage) ||
            (p.r.batches == r.batches[1..] && p.r.damage == r.damage[1..]))
  {
  }

  lemma ReadableBefore(r: Reader, t: Reader, check: bool, x: Rec)
    requires |r.damage| == |r.batches| && |t.damage| == |t.batches| && Readable(t, check, x) && r.batches != []
    requires || (t.batches == r.batches && t.damage == r.damage)
             || (t.batches == r.batches[1..] && t.damage == r.damage[1..])
    ensures Readable(r, check, x)
  {
    var j, k :|
      && 0 <= j < |t.batches| && 0 <= k < |t.batches[j].records| && x == t.batches[j].records[k]
      && !t.damage[j].short && !(check && t.damage[j].crc)
      && (t.damage[j].cut.Some? ==> k < t.damage[j].cut.value) && k !in t.damage[j].unreadable;
    var i := j + |r.batches| - |t.batches|;
    assert r.batches[i] == t.batches[j] && r.damage[i] == t.damage[j];
  }

  /** The streaming filter of a fetched stretch yields exactly the records the whole log
      says are visible there, in order, when it runs to the end, as it does on an undamaged
      copy; when it raises, what it yielded so far and the rest from its offset are what was
      visible. */
  lemma StreamIsVisible(log: Log, level: Level, check: bool, s: nat, e: nat, damage: seq<Damage>,
                        list: seq<(int, int)>, n: int)
    requires Fetched(log, level, s, e, list, n) && |damage| == e - s
    ensures var (out, y, t) := ReadAll(NewReader(log[s..e], damage, list, n), level, check);
      && (y == Stop ==> out == Stretch(log, level, s, e, n)) && (AllSound(damage) ==> y == Stop)
      && From(log, level, 0, n) == out + From(log, level, 0, t.next)
  {
    hide LogOk, Shown, Matches, Filter, AllSound;
    var r := NewReader(log[s..e], damage, list, n);
    NewFollows(log, level, s, e, damage, list, n);
    ReadAllFollows(log, level, check, s, e, list, r);
    var (out, y, t) := ReadAll(r, level, check);
    if AllSound(damage) {
      ReadAllSound(r, level, check);
    }
    if y == Stop {
      SkipBefore(log, level, 0, s, n);
      FromSplits(log, level, s, e, n);
      var i: nat :| StandsAt(log, level, s, e, list, t, i);
      assert i == e by { assert |log[i..e]| == 0; }
      if s < e {
        RaiseStart(log, level, e, n, t.next);
      }
      SkipBefore(log, level, 0, e, t.next);
      Cancel(out, Stretch(log, level, s, e, n), From(log, level, e, n));
    }
  }

  lemma Cancel(a: seq<Rec>, b: seq<Rec>, x: seq<Rec>)
    requires a + x == b + x
    ensures a == b
  {
    assert |a + x| == |b + x|;
    assert (a + x)[..|a|] == a && (b + x)[..|b|] == b;
  }
}
