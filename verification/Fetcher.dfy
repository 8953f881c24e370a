/** consumer/fetcher.py as the objects it is: PartitionRecords, the generator of one fetched
    stretch, and FetchedPartition, the position and fetch result of one partition.  Both are
    proved against the functions of `ReadCommitted` and `Consumer`. */
module Fetcher {
  import opened Types
  import opened ReadCommitted
  import opened Consumer

  class PartitionRecords {
    var batches: seq<LogBatch>
    var damage: seq<Damage>
    var entered: bool
    var index: nat
    var next: int
    var aborted: seq<(int, int)>
    var producers: set<int>
    const level: Level
    const check: bool

    function View(): Reader
      reads this
    {
      Reader(batches, damage, entered, index, next, aborted, producers)
    }

    constructor (batches: seq<LogBatch>, damage: seq<Damage>, list: seq<(int, int)>, offset: int, c: Config)
      ensures View() == NewReader(batches, damage, list, offset) && level == c.level && check == c.check
    {
      this.damage := damage;
      this.batches, entered, index, next := batches, false, 0, offset;
      aborted, producers := SortList(list), {};
      level, check := c.level, c.check;
    }

    /** _consume_aborted_up_to. */
    method ConsumeAborted(offset: int)
      modifies this`aborted, this`producers
      ensures aborted == Consumed(old(aborted), offset)
      ensures producers == Collected(old(aborted), old(producers), offset)
    {
      while aborted != [] && aborted[0].1 <= offset
        invariant Consumed(aborted, offset) == Consumed(old(aborted), offset)
        invariant Collected(aborted, producers, offset) == Collected(old(aborted), old(producers), offset)
        decreases |aborted|
      {
        producers := producers + {aborted[0].0};
        aborted := aborted[1..];
      }
    }

    /** The header of a batch: move the filter on and decide whether to skip it. */
    method Header(b: LogBatch) returns (skip: bool)
      modifies this`aborted, this`producers
      ensures aborted == AbortedAfter(b, level, old(aborted))
      ensures producers == ProducersAfter(b, level, old(aborted), old(producers))
      ensures skip == Skipped(b, level, producers)
    {
      if level == ReadCommitted && b.pid.Some? {
        ConsumeAborted(b.base);
        if b.control && b.abort {
          producers := producers - {b.pid.value};
        }
        if b.transactional && b.pid.value in producers {
          return true;
        }
      }
      return b.control;
    }

    /** __next__: run the generator to its next yield. */
    method Next() returns (y: Yield)
      requires ReaderOk(View())
      modifies this
      ensures ReaderOk(View()) && (y, View()) == Advance(old(View()), level, check)
    {
      hide Advance, Todo;
      while batches != []
        invariant ReaderOk(View()) && Advance(View(), level, check) == Advance(old(View()), level, check)
        decreases Todo(View())
      {
        StepAdvances(View(), level, check);
        var b, d := batches[0], damage[0];
        if !entered {
          if HeaderFails(b, d, level, check) {
            Die();
            return Raised;
          }
          var skip := Header(b);
          if skip {
            batches, damage, next := batches[1..], damage[1..], b.next;
          } else {
            entered, index := true, 0;
          }
        } else if d.cut == Some(index) {
          Die();
          return Raised;
        } else if index == |b.records| {
          batches, damage, entered, index, next := batches[1..], damage[1..], false, 0, b.next;
        } else if b.records[index].offset < next {
          index := index + 1;
        } else if index in d.unreadable {
          Die();
          return Raised;
        } else {
          y, next, index := Record(b.records[index]), b.records[index].offset + 1, index + 1;
          return;
        }
      }
      StepAdvances(View(), level, check);
      return Stop;
    }

    /** An exception closes the generator; the offset it had reached stays. */
    method Die()
      modifies this`batches, this`damage, this`entered, this`index
      ensures View() == Dead(old(View()))
    {
      batches, damage, entered, index := [], [], false, 0;
    }
  }

  class FetchedPartition {
    var position: Option<int>
    var paused: bool
    var result: PartitionRecords?
    const config: Config

    ghost predicate Valid()
      reads this, result
    {
      result != null ==> ReaderOk(result.View()) && result.level == config.level && result.check == config.check
    }

    function View(): Partition
      reads this, result
    {
      Partition(position, paused, if result == null then None else Some(result.View()))
    }

    constructor (config: Config)
      ensures Valid() && this.config == config && View() == Partition(None, false, None)
    {
      position, paused, result := None, false, null;
      this.config := config;
    }

    method Seeked(offset: int)
      requires Valid()
      modifies this
      ensures Valid() && View() == SeekTo(old(View()), offset)
    {
      position, result := Some(offset), null;
    }

    method Reset()
      requires Valid()
      modifies this
      ensures Valid() && View() == AwaitReset(old(View()))
    {
      position, result := None, null;
    }

    /** The acceptance logic of _proc_fetch_request. */
    method Accepted(offset: int, batches: seq<LogBatch>, damage: seq<Damage>, list: seq<(int, int)>)
      requires Valid() && |damage| == |batches|
      modifies this
      ensures Valid() && View() == Accept(old(View()), offset, batches, damage, list)
      ensures old(position) != Some(offset) ==> View() == old(View())
      ensures old(position) == Some(offset) && batches != [] ==>
        result != null && result.View() == NewReader(batches, damage, list, offset) && position == old(position)
      ensures result == old(result) || fresh(result)
    {
      if position != Some(offset) {
        return;
      }
      if batches != [] {
        result := new PartitionRecords(batches, damage, list, offset, config);
      }
    }

    /** check_assignment. */
    method Check() returns (ok: bool)
      requires Valid()
      modifies this`result
      ensures Valid() && ok == Usable(old(View()))
      ensures if ok then result == old(result) else result == null
    {
      ok := result != null && !paused && position == Some(result.next);
      if !ok {
        result := null;
      }
    }

    method One() returns (got: seq<Rec>, raised: bool)
      requires Valid()
      modifies this, result
      ensures Valid() && Read(got, raised, View()) == GetOne(old(View()), config)
      ensures |got| <= 1
      ensures old(paused) || old(result) == null || old(position) != Some(old(result.next)) ==>
        got == [] && !raised && result == null && position == old(position)
      ensures result == null || result == old(result)
    {
      var ok := Check();
      if !ok {
        return [], false;
      }
      var y := result.Next();
      if y == Raised {
        return [], true;
      }
      position := Some(result.next);
      if y == Stop {
        result := null;
        return [], false;
      }
      return [y.rec], false;
    }

    /** getall: records are gathered one by one; an exception drops them. */
    method All(max: Option<nat>) returns (got: seq<Rec>, raised: bool)
      requires Valid()
      modifies this, result
      ensures Valid() && Read(got, raised, View()) == GetAll(old(View()), max, config)
      ensures max.Some? ==> |got| <= if max.value == 0 then 1 else max.value
      ensures old(paused) || old(result) == null || old(position) != Some(old(result.next)) ==>
        got == [] && !raised && result == null && position == old(position)
      ensures result == null || result == old(result)
    {
      hide ReaderOk, Advance, Take;
      var ok := Check();
      if !ok {
        return [], false;
      }
      got, raised := [], false;
      ghost var r := result.View();
      GatherStart(r, max, config);
      if max.Some? {
        TakeBounded(r, max.value, config);
      }
      var left := max;
      while true
        invariant result == old(result) != null && Valid() && position == old(position) && paused == old(paused)
        invariant Gathered(r, max, got, result.View(), left, config)
        decreases Todo(result.View())
      {
        GatherStep(r, max, got, result.View(), left, config);
        var y := result.Next();
        if y == Raised {
          return [], true;
        }
        if y == Stop {
          position, result := Some(result.next), null;
          return;
        }
        got := got + [y.rec];
        if left.Some? && left.value <= 1 {
          position := Some(result.next);
          return;
        }
        left := if left.Some? then Some(left.value - 1) else None;
      }
    }

    /** One event of a session `x`. */
    method Do(log: seq<LogBatch>, e: Event, ghost x: Session) returns (got: seq<Rec>)
      requires Valid() && Enabled(log, config, e) && x.part == View()
      modifies this, result
      ensures Valid() && (result == null || result == old(result) || fresh(result))
      ensures Session(View(), x.start, x.delivered + got) == Apply(log, config, x, e)
    {
      hide Fetched, GetOne, GetAll, Accept, ReaderOk;
      got := [];
      ConcatNil(x.delivered);
      match e {
        case Response(offset, s, last, damage, list) =>
          FetchedInside(log, config.level, s, last, list, offset);
          Accepted(offset, log[s..last], damage, list);
        case One =>
          var raised;
          got, raised := One();
        case All(max) =>
          var raised;
          got, raised := All(max);
        case Pause => paused := true;
        case Resume => paused := false;
      }
    }

    /** A session on the object: a seek, or a reset that finds an offset, and then any events.
        What it delivers is what the log shows from the start up to the position. */
    method Serve(log: Log, reset: bool, start: int, events: seq<Event>) returns (delivered: seq<Rec>)
      requires Valid() && forall i :: 0 <= i < |events| ==> Enabled(log, config, events[i])
      modifies this, result
      ensures Valid() && position.Some?
      ensures From(log, config.level, 0, start) == delivered + From(log, config.level, 0, position.value)
      ensures Increasing(delivered)
    {
      hide From, Inv, Enabled, Apply, Increasing, ReaderOk;
      ghost var before := View();
      if reset {
        Reset();
      }
      Seeked(start);
      delivered := [];
      SeekStarts(log, config, before, start);
      for i := 0 to |events|
        invariant Valid() && (result == null || fresh(result))
        invariant Inv(log, config, Session(View(), start, delivered))
      {
        ghost var x := Session(View(), start, delivered);
        EventKeeps(log, config, x, events[i]);
        var got := Do(log, events[i], x);
        delivered := delivered + got;
      }
      InvAccounts(log, config, Session(View(), start, delivered));
    }
  }

  lemma FetchedInside(log: seq<LogBatch>, level: Level, s: nat, e: nat, list: seq<(int, int)>, offset: int)
    requires Fetched(log, level, s, e, list, offset)
    ensures s <= e <= |log|
  {
  }

  lemma InvAccounts(log: Log, c: Config, x: Session)
    requires Inv(log, c, x)
    ensures x.part.position.Some?
    ensures From(log, c.level, 0, x.start) == x.delivered + From(log, c.level, 0, x.part.position.value)
    ensures Increasing(x.delivered)
  {
    hide From, Increasing;
    FromIncreasing(log, c.level, 0, x.start);
    PrefixIncreasing(x.delivered, From(log, c.level, 0, x.part.position.value));
  }

  /** Taking the rest from `here` completes what `r` was asked for. */
  ghost predicate Gathered(r: Reader, max: Option<nat>, got: seq<Rec>, here: Reader, left: Option<nat>, c: Config) {
    && ReaderOk(r) && ReaderOk(here)
    && Take(r, max, c) == (got + Take(here, left, c).0, Take(here, left, c).1, Take(here, left, c).2)
  }

  lemma GatherStep(r: Reader, max: Option<nat>, got: seq<Rec>, here: Reader, left: Option<nat>, c: Config)
    requires Gathered(r, max, got, here, left, c)
    ensures var (y, t) := Advance(here, c.level, c.check);
      if !y.Record? then Take(r, max, c) == (got, y, t)
      else if left.Some? && left.value <= 1 then Take(r, max, c) == (got + [y.rec], y, t)
      else
        && Todo(t) < Todo(here)
        && Gathered(r, max, got + [y.rec], t, if left.Some? then Some(left.value - 1) else None, c)
  {
    AdvanceShrinks(here, c);
    var (y, t) := Advance(here, c.level, c.check);
    if !y.Record? {
      ConcatNil(got);
    } else if !(left.Some? && left.value <= 1) {
      var rest := Take(t, if left.Some? then Some(left.value - 1) else None, c).0;
      ConcatAssoc(got, [y.rec], rest);
    }
  }

  lemma GatherStart(r: Reader, max: Option<nat>, c: Config)
    requires ReaderOk(r)
    ensures Gathered(r, max, [], r, max, c)
  {
    ConcatNil(Take(r, max, c).0);
  }

  lemma {:induction false} AdvanceShrinks(r: Reader, c: Config)
    requires ReaderOk(r)
    ensures var (y, t) := Advance(r, c.level, c.check); y.Record? ==> Todo(t) < Todo(r)
    decreases Todo(r)
  {
    StepShrinks(r, c.level, c.check);
    var p := Step(r, c.level, c.check);
    if p.More? {
      AdvanceShrinks(p.r, c);
    }
  }
}
