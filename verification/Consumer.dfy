/** One partition of a consumer: its position, the buffered fetch result and the user's
    calls (consumer/fetcher.py, consumer/subscription_state.py).

    A session starts at an explicit position (a seek or a reset).  Whatever responses
    arrive and however the user reads, what was delivered followed by what is visible
    from the position is what was visible from the start of the session.
 */
module Consumer {
  import opened Types
  import opened ReadCommitted

  datatype Partition = Partition(position: Option<int>, paused: bool, buffer: Option<Reader>)

  datatype Config = Config(level: Level, check: bool)

  /** What a read returned: records, and whether an exception was raised instead. */
  datatype Read = Read(records: seq<Rec>, raised: bool, after: Partition)

  /** FetchResult.check_assignment. */
  predicate Usable(p: Partition) {
    p.buffer.Some? && !p.paused && p.position == Some(p.buffer.value.next)
  }

  predicate BufferOk(p: Partition) {
    p.buffer.Some? ==> ReaderOk(p.buffer.value)
  }

  /** FetchResult.getone, and the fetcher that drops an exhausted result. */
  function GetOne(p: Partition, c: Config): Read
    requires BufferOk(p)
  {
    if !Usable(p) then Read([], false, p.(buffer := None))
    else
      var (y, t) := Advance(p.buffer.value, c.level, c.check);
      match y
      case Record(x) => Read([x], false, p.(position := Some(t.next), buffer := Some(t)))
      case Stop => Read([], false, p.(position := Some(t.next), buffer := None))
      case Raised => Read([], true, p.(buffer := Some(t)))
  }

  /** Up to `max` records of a reader, at least one if there is one. */
  function Take(r: Reader, max: Option<nat>, c: Config): (seq<Rec>, Yield, Reader)
    requires ReaderOk(r)
    decreases Todo(r)
  {
    var (y, t) := Advance(r, c.level, c.check);
    if !y.Record? || Todo(t) >= Todo(r) then ([], y, t)
    else if max.Some? && max.value <= 1 then ([y.rec], y, t)
    else
      var (rest, last, u) := Take(t, if max.Some? then Some(max.value - 1) else None, c);
      ([y.rec] + rest, last, u)
  }

  /** FetchResult.getall, and the fetcher that drops an exhausted result. */
  function GetAll(p: Partition, max: Option<nat>, c: Config): Read
    requires BufferOk(p)
  {
    if !Usable(p) then Read([], false, p.(buffer := None))
    else
      var (out, y, t) := Take(p.buffer.value, max, c);
      match y
      case Record(_) => Read(out, false, p.(position := Some(t.next), buffer := Some(t)))
      case Stop => Read(out, false, p.(position := Some(t.next), buffer := None))
      // the records gathered so far are dropped with the exception; the position stays
      case Raised => Read([], true, p.(buffer := Some(t)))
  }

  /** _proc_fetch_request: a response counts only if it answers the current position. */
  function Accept(p: Partition, offset: int, batches: seq<LogBatch>, damage: seq<Damage>,
                  list: seq<(int, int)>): Partition {
    if p.position == Some(offset) && batches != []
    then p.(buffer := Some(NewReader(batches, damage, list, offset))) else p
  }

  /** seek_to; a finished reset ends in the same state. */
  function SeekTo(p: Partition, offset: int): Partition {
    p.(position := Some(offset), buffer := None)
  }

  /** request_offset_reset. */
  function AwaitReset(p: Partition): Partition {
    p.(position := None, buffer := None)
  }

  // ---------- Sessions ----------

  datatype Session = Session(part: Partition, start: int, delivered: seq<Rec>)

  datatype Event =
    | Response(offset: int, s: nat, e: nat, damage: seq<Damage>, list: seq<(int, int)>)  // late and repeated ones too
    | One
    | All(max: Option<nat>)
    | Pause
    | Resume

  ghost predicate Enabled(log: seq<LogBatch>, c: Config, e: Event) {
    e.Response? ==> Fetched(log, c.level, e.s, e.e, e.list, e.offset) && |e.damage| == e.e - e.s
  }

  ghost function Apply(log: seq<LogBatch>, c: Config, x: Session, e: Event): Session
    requires Enabled(log, c, e) && BufferOk(x.part)
  {
    match e
    case Response(offset, s, last, damage, list) => x.(part := Accept(x.part, offset, log[s..last], damage, list))
    case One => var g := GetOne(x.part, c); x.(part := g.after, delivered := x.delivered + g.records)
    case All(max) => var g := GetAll(x.part, max, c); x.(part := g.after, delivered := x.delivered + g.records)
    case Pause => x.(part := x.part.(paused := true))
    case Resume => x.(part := x.part.(paused := false))
  }

  ghost predicate Reading(log: seq<LogBatch>, level: Level, r: Reader) {
    ReaderOk(r) && (r.batches == [] || exists s, e, list :: Follows(log, level, s, e, list, r))
  }

  ghost predicate Inv(log: seq<LogBatch>, c: Config, x: Session) {
    && x.part.position.Some? && x.start <= x.part.position.value
    && From(log, c.level, 0, x.start) == x.delivered + From(log, c.level, 0, x.part.position.value)
    && (x.part.buffer.Some? ==> Reading(log, c.level, x.part.buffer.value))
  }

  lemma AdvanceReading(log: Log, c: Config, r: Reader)
    requires Reading(log, c.level, r)
    ensures var (y, t) := Advance(r, c.level, c.check);
      && Between(log, c.level, r, Out(y), t) && Reading(log, c.level, t) && (y.Record? ==> Todo(t) < Todo(r))
  {
    hide LogOk, From, Follows;
    ConcatNil(From(log, c.level, 0, r.next));
    if r.batches != [] {
      var s, e, list :| Follows(log, c.level, s, e, list, r);
      AdvanceFollows(log, c.level, c.check, s, e, list, r);
    }
  }

  lemma {:induction false} TakeReading(log: Log, c: Config, r: Reader, max: Option<nat>)
    requires Reading(log, c.level, r)
    ensures var (out, y, t) := Take(r, max, c);
      Between(log, c.level, r, out, t) && Reading(log, c.level, t)
    decreases Todo(r)
  {
    hide From, Advance;
    AdvanceReading(log, c, r);
    var (y, t) := Advance(r, c.level, c.check);
    if y.Record? && !(max.Some? && max.value <= 1) {
      var rest := if max.Some? then Some(max.value - 1) else None;
      TakeReading(log, c, t, rest);
      var (more, last, u) := Take(t, rest, c);
      BetweenTransitive(log, c.level, r, [y.rec], t, more, u);
    }
  }

  /** How many of `n` records a read of at most `max` returns: all without a maximum, and at
      least one if there is one. */
  function Quota(max: Option<nat>, n: nat): nat {
    if max.None? || n <= max.value then n else if max.value == 0 then 1 else max.value
  }

  lemma {:induction false} TakeIsFirst(r: Reader, max: Option<nat>, c: Config)
    requires ReaderOk(r) && AllSound(r.damage)
    ensures var all, (out, y, t) := ReadAll(r, c.level, c.check).0, Take(r, max, c);
      out == all[..Quota(max, |all|)] && y != Raised
    decreases Todo(r)
  {
    hide Advance, AllSound;
    AdvanceSound(r, c.level, c.check);
    var (y, t) := Advance(r, c.level, c.check);
    if y.Record? && !(max.Some? && max.value <= 1) {
      var less := if max.Some? then Some(max.value - 1) else None;
      TakeIsFirst(t, less, c);
      var all, rest := ReadAll(r, c.level, c.check).0, ReadAll(t, c.level, c.check).0;
      assert all == [y.rec] + rest && Quota(max, |all|) == Quota(less, |rest|) + 1;
      FirstOnes(y.rec, rest, Quota(less, |rest|));
    }
  }

  lemma FirstOnes(x: Rec, rest: seq<Rec>, n: nat)
    requires n <= |rest|
    ensures ([x] + rest)[..n + 1] == [x] + rest[..n]
  {
  }

  /** getall, on a result that can be used and is undamaged: exactly the first `max` of the
      visible records that the fetched stretch has from the position on, all of them without
      a maximum, and at least one if there is one. */
  lemma AllReturns(log: Log, c: Config, p: Partition, max: Option<nat>, s: nat, e: nat, list: seq<(int, int)>)
    requires Usable(p) && ReaderOk(p.buffer.value) && Follows(log, c.level, s, e, list, p.buffer.value)
    requires AllSound(p.buffer.value.damage)
    ensures s <= e <= |log|
    ensures var g, rest := GetAll(p, max, c), Stretch(log, c.level, s, e, p.position.value);
      !g.raised && g.records == rest[..Quota(max, |rest|)]
  {
    hide Follows, AllSound, ReadAll, Take, Stretch;
    RestIsVisible(log, c.level, c.check, s, e, list, p.buffer.value);
    TakeIsFirst(p.buffer.value, max, c);
  }

  /** getone, on such a result: the first of those records, if there is one. */
  lemma OneReturns(log: Log, c: Config, p: Partition, s: nat, e: nat, list: seq<(int, int)>)
    requires Usable(p) && ReaderOk(p.buffer.value) && Follows(log, c.level, s, e, list, p.buffer.value)
    requires AllSound(p.buffer.value.damage)
    ensures s <= e <= |log|
    ensures var g, rest := GetOne(p, c), Stretch(log, c.level, s, e, p.position.value);
      !g.raised && g.records == rest[..Quota(Some(1), |rest|)]
  {
    hide Follows, AllSound, Stretch, Advance;
    RestIsVisible(log, c.level, c.check, s, e, list, p.buffer.value);
    AdvanceSound(p.buffer.value, c.level, c.check);
  }

  /** Whatever the result, a getall returns no more than it was asked for. */
  lemma {:induction false} TakeBounded(r: Reader, max: nat, c: Config)
    requires ReaderOk(r)
    ensures |Take(r, Some(max), c).0| <= if max == 0 then 1 else max
    decreases Todo(r)
  {
    hide Advance;
    var (y, t) := Advance(r, c.level, c.check);
    if y.Record? && Todo(t) < Todo(r) && max > 1 {
      TakeBounded(t, max - 1, c);
    }
  }

  /** Moving the position over what was just read keeps the session's account. */
  lemma Deliver(log: Log, c: Config, x: Session, out: seq<Rec>, t: Reader)
    requires Inv(log, c, x) && x.part.buffer.Some? && x.part.position == Some(x.part.buffer.value.next)
    requires Between(log, c.level, x.part.buffer.value, out, t)
    ensures x.start <= t.next
    ensures From(log, c.level, 0, x.start) == (x.delivered + out) + From(log, c.level, 0, t.next)
  {
    hide LogOk, From, Reading;
    ConcatAssoc(x.delivered, out, From(log, c.level, 0, t.next));
  }

  lemma ResponseKeeps(log: Log, c: Config, x: Session, offset: int, s: nat, e: nat, damage: seq<Damage>,
                      list: seq<(int, int)>)
    requires Inv(log, c, x) && Fetched(log, c.level, s, e, list, offset) && |damage| == e - s
    ensures Inv(log, c, x.(part := Accept(x.part, offset, log[s..e], damage, list)))
  {
    hide LogOk, From, Follows, Matches;
    NewFollows(log, c.level, s, e, damage, list, offset);
  }

  lemma OneKeeps(log: Log, c: Config, x: Session)
    requires Inv(log, c, x)
    ensures BufferOk(x.part) && Inv(log, c, Apply(log, c, x, One))
  {
    hide LogOk, From, Follows, Advance, Between;
    if Usable(x.part) {
      var r := x.part.buffer.value;
      AdvanceReading(log, c, r);
      var (y, t) := Advance(r, c.level, c.check);
      Deliver(log, c, x, Out(y), t);
    }
    ConcatNil(x.delivered);
  }

  lemma AllKeeps(log: Log, c: Config, x: Session, max: Option<nat>)
    requires Inv(log, c, x)
    ensures BufferOk(x.part) && Inv(log, c, Apply(log, c, x, All(max)))
  {
    hide LogOk, From, Follows, Take, Between;
    if Usable(x.part) {
      var r := x.part.buffer.value;
      TakeReading(log, c, r, max);
      var (out, y, t) := Take(r, max, c);
      Deliver(log, c, x, out, t);
    }
    ConcatNil(x.delivered);
  }

  lemma EventKeeps(log: Log, c: Config, x: Session, e: Event)
    requires Inv(log, c, x) && Enabled(log, c, e)
    ensures Inv(log, c, Apply(log, c, x, e))
  {
    hide LogOk, From, Follows, Fetched, Advance, Take, Accept;
    match e
    case Response(offset, s, last, damage, list) => ResponseKeeps(log, c, x, offset, s, last, damage, list);
    case One => OneKeeps(log, c, x);
    case All(max) => AllKeeps(log, c, x, max);
    case Pause =>
    case Resume =>
  }

  ghost function Run(log: seq<LogBatch>, c: Config, x: Session, events: seq<Event>): Option<Session>
    decreases |events|
  {
    if events == [] then Some(x)
    else if Enabled(log, c, events[0]) && BufferOk(x.part) then Run(log, c, Apply(log, c, x, events[0]), events[1..])
    else None
  }

  lemma InvBuffer(log: seq<LogBatch>, c: Config, x: Session)
    requires Inv(log, c, x)
    ensures BufferOk(x.part)
  {
  }

  lemma ApplyStart(log: seq<LogBatch>, c: Config, x: Session, e: Event)
    requires Enabled(log, c, e) && BufferOk(x.part)
    ensures Apply(log, c, x, e).start == x.start
  {
  }

  lemma {:induction false} RunKeeps(log: Log, c: Config, x: Session, events: seq<Event>)
    requires Inv(log, c, x) && forall i :: 0 <= i < |events| ==> Enabled(log, c, events[i])
    ensures var y := Run(log, c, x, events);
      y.Some? && Inv(log, c, y.value) && y.value.start == x.start
    decreases |events|
  {
    hide LogOk, Inv, Enabled, Apply;
    if events != [] {
      InvBuffer(log, c, x);
      ApplyStart(log, c, x, events[0]);
      EventKeeps(log, c, x, events[0]);
      RunKeeps(log, c, Apply(log, c, x, events[0]), events[1..]);
    }
  }

  // ---------- What every session guarantees ----------

  lemma ShownBounds(log: Log, level: Level, i: nat, n: int)
    requires i < |log|
    ensures Increasing(Shown(log, level, i, n))
    ensures forall k :: 0 <= k < |Shown(log, level, i, n)| ==>
      log[i].base <= Shown(log, level, i, n)[k].offset < log[i].next
  {
    assert BatchOk(log[i]);
    AtLeastBounds(log[i].records, n);
    AtLeastIncreasing(log[i].records, n);
  }

  lemma {:induction false} FromAbove(log: Log, level: Level, i: nat, n: int)
    requires i < |log|
    ensures forall k :: 0 <= k < |From(log, level, i, n)| ==> From(log, level, i, n)[k].offset >= log[i].base
    decreases |log| - i
  {
    ShownBounds(log, level, i, n);
    hide Shown;
    if i + 1 < |log| {
      assert BatchOk(log[i]) && log[i].next <= log[i + 1].base;
      FromAbove(log, level, i + 1, n);
    }
  }

  lemma {:induction false} AtLeastBounds(records: seq<Rec>, n: int)
    ensures forall k :: 0 <= k < |AtLeast(records, n)| ==>
      AtLeast(records, n)[k].offset >= n && AtLeast(records, n)[k] in records
    decreases |records|
  {
    if records != [] {
      AtLeastBounds(records[1..], n);
    }
  }

  ghost predicate Increasing(records: seq<Rec>) {
    forall i, j :: 0 <= i < j < |records| ==> records[i].offset < records[j].offset
  }

  lemma {:induction false} AtLeastIncreasing(records: seq<Rec>, n: int)
    requires Increasing(records)
    ensures Increasing(AtLeast(records, n))
    decreases |records|
  {
    if records != [] {
      AtLeastIncreasing(records[1..], n);
      AtLeastBounds(records[1..], n);
    }
  }

  lemma ConcatIncreasing(a: seq<Rec>, b: seq<Rec>, bound: int)
    requires Increasing(a) && Increasing(b)
    requires forall k :: 0 <= k < |a| ==> a[k].offset < bound
    requires forall k :: 0 <= k < |b| ==> bound <= b[k].offset
    ensures Increasing(a + b)
  {
  }

  lemma {:induction false} FromIncreasing(log: Log, level: Level, i: nat, n: int)
    requires i <= |log|
    ensures Increasing(From(log, level, i, n))
    decreases |log| - i
  {
    hide Shown, Increasing, LogOk;
    if i < |log| {
      ShownBounds(log, level, i, n);
      if i + 1 < |log| {
        LaterBases(log, i, log[i].next);
        FromAbove(log, level, i + 1, n);
      }
      FromIncreasing(log, level, i + 1, n);
      ConcatIncreasing(Shown(log, level, i, n), From(log, level, i + 1, n), log[i].next);
    } else {
      NothingIncreases();
    }
  }

  lemma NothingIncreases()
    ensures Increasing([])
  {
  }

  lemma PrefixIncreasing(a: seq<Rec>, b: seq<Rec>)
    requires Increasing(a + b)
    ensures Increasing(a)
  {
    assert forall k :: 0 <= k < |a| ==> (a + b)[k] == a[k];
  }

  lemma SeekStarts(log: Log, c: Config, p: Partition, start: int)
    ensures Inv(log, c, Session(SeekTo(p, start), start, []))
  {
    hide From;
    ConcatNil(From(log, c.level, 0, start));
  }

  /** From a seek to offset `start` on, whatever responses arrive (stale, repeated, with any
      stretch of the log), however the user reads, pauses and resumes, and wherever a damaged
      batch, a record that cannot be parsed or a failing deserializer interrupts it: the
      records delivered are strictly increasing, none is lost or repeated, and refetching
      from the position continues exactly where delivery stopped. */
  lemma NoLossNoDuplicate(log: Log, c: Config, p: Partition, start: int, events: seq<Event>)
    requires forall i :: 0 <= i < |events| ==> Enabled(log, c, events[i])
    ensures var x := Run(log, c, Session(SeekTo(p, start), start, []), events);
      && x.Some? && x.value.part.position.Some?
      && From(log, c.level, 0, start) == x.value.delivered + From(log, c.level, 0, x.value.part.position.value)
      && Increasing(x.value.delivered)
  {
    hide From, Run, Increasing;
    var s := Session(SeekTo(p, start), start, []);
    SeekStarts(log, c, p, start);
    RunKeeps(log, c, s, events);
    FromIncreasing(log, c.level, 0, start);
    var x := Run(log, c, s, events);
    PrefixIncreasing(x.value.delivered, From(log, c.level, 0, x.value.part.position.value));
  }
}
