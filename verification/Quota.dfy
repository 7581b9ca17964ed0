/** The monthly Cost Explorer quota: a process-local counter and a counter row per UTC month. */
module Quota {
  import opened Basics
  import opened Calendar
  import opened CanonicalJson
  import opened Store

  /** `ClockOutOfRange` is the ValueError of building 1 January 10000. */
  datatype Slot = Acquired | LimitExceeded | QuotaUnavailable | ClockOutOfRange

  // ---------------------------------------------------------------- in memory

  datatype Counter = Counter(period: Option<Month>, count: nat)

  function Rolled(c: Counter, m: Month): Counter
  {
    if c.period == Some(m) then c else Counter(Some(m), 0)
  }

  function CounterAcquire(c: Counter, limit: nat, now: Clock): (Counter, Slot)
  {
    var r := Rolled(c, MonthOf(now));
    if r.count >= limit then (r, LimitExceeded) else (r.(count := r.count + 1), Acquired)
  }

  class InMemoryCostRequestLimiter {
    const limit: nat
    var counter: Counter

    constructor (limit: nat)
      requires limit > 0
      ensures this.limit == limit && counter == Counter(None, 0)
    {
      this.limit := limit;
      counter := Counter(None, 0);
    }

    method Acquire(now: Clock) returns (slot: Slot)
      modifies this
      ensures (counter, slot) == CounterAcquire(old(counter), limit, now)
    {
      var period := MonthOf(now);
      if counter.period != Some(period) { counter := Counter(Some(period), 0); }
      if counter.count >= limit { return LimitExceeded; }
      counter := counter.(count := counter.count + 1);
      return Acquired;
    }
  }

  // ---------------------------------------------------------------- DynamoDB

  function QuotaKey(action: string, m: Month): Digest
    requires ValidMonth(m)
  {
    Sha256(action + ":" + PeriodText(m))
  }

  predicate HasNextMonth(m: Month) { m != Month(9999, 12) }

  predicate CountAllows(row: Option<Item>, limit: nat)
  {
    row.None? || Count !in row.value || (row.value[Count].N? && row.value[Count].number < limit)
  }

  /** `count` plus one from zero, and the expiry set to the start of the next month. */
  function CountedRow(row: Option<Item>, expires: int): Item
  {
    var item := if row.Some? then row.value else map[];
    var count := if Count in item && item[Count].N? then item[Count].number else 0;
    item[Count := N(count + 1)][ExpiresAt := N(expires)]
  }

  function AcquireUpdate(t: Table, action: string, limit: nat, now: Clock, fault: Fault): Written
  {
    var m := MonthOf(now);
    if !HasNextMonth(m) then Written(t, NoAnswer)
    else
      var key := QuotaKey(action, m);
      var row := Lookup(t, key);
      ConditionalWrite(t, key, CountAllows(row, limit), CountedRow(row, Epoch(MonthEnd(m))), fault)
  }

  function SlotOf(reply: Reply, m: Month): Slot
  {
    if !HasNextMonth(m) then ClockOutOfRange
    else match reply case Done => Acquired case ConditionFailed => LimitExceeded case NoAnswer => QuotaUnavailable
  }

  class DynamoDbCostRequestLimiter {
    const limit: nat
    const action: string
    const table: SharedTable

    constructor (table: SharedTable, action: string, limit: nat)
      requires limit > 0 && action != ""
      ensures this.table == table && this.action == action && this.limit == limit
    {
      this.table := table;
      this.action := action;
      this.limit := limit;
    }

    method Acquire(now: Clock, fault: Fault) returns (slot: Slot)
      modifies table
      ensures table.items == AcquireUpdate(old(table.items), action, limit, now, fault).table
      ensures slot == SlotOf(AcquireUpdate(old(table.items), action, limit, now, fault).reply, MonthOf(now))
    {
      var m := MonthOf(now);
      if !HasNextMonth(m) { return ClockOutOfRange; }
      var expires := Epoch(MonthEnd(m));
      var reply := table.UpdateItem(QuotaKey(action, m), row => CountAllows(row, limit),
                                    row => CountedRow(row, expires), fault);
      match reply {
        case Done => return Acquired;
        case ConditionFailed => return LimitExceeded;
        case NoAnswer => return QuotaUnavailable;
      }
    }
  }

  lemma QuotaKeyInjective(action: string, m: Month, n: Month)
    requires ValidMonth(m) && ValidMonth(n) && QuotaKey(action, m) == QuotaKey(action, n)
    ensures m == n
  {
    var k := |action + ":"|;
    assert (action + ":" + PeriodText(m))[k..] == PeriodText(m);
    assert (action + ":" + PeriodText(n))[k..] == PeriodText(n);
    PeriodTextInjective(m, n);
  }

  /** What an acquire may store: the count one higher, expiring the whole days of 86400 seconds that lie between the
      first of January 1970 and the first day of the next month; nothing else changes. */
  lemma CounterExpires(t: Table, action: string, limit: nat, now: Clock, fault: Fault, days: nat)
    ensures var y, m := now.date.year, now.date.month;
            var next := if m == 12 then Date(y + 1, 1, 1) else Date(y, m + 1, 1);
            var key := QuotaKey(action, Month(y, m));
            var t' := AcquireUpdate(t, action, limit, now, fault).table;
            t' != t ==>
              && key in t' && t' == t[key := t'[key]]
              && Has(t'[key], Count, N(RowCount(t, action, Month(y, m)) + 1))
              && (DaysAfter(Date(1970, 1, 1), days) == next ==> Has(t'[key], ExpiresAt, N(86400 * days)))
              && (DaysAfter(next, days) == Date(1970, 1, 1) ==> Has(t'[key], ExpiresAt, N(-86400 * days)))
  {
    MonthEndInDays(MonthOf(now), days);
  }

  // ---------------------------------------------------------------- the two limiters agree

  /** One step of a run: an acquire at a clock reading, or TTL removing the row of a month. */
  datatype QuotaStep = TryAcquire(at: Clock) | SweepMonth(month: Month, at: Clock)

  function StepTable(t: Table, s: QuotaStep, action: string, limit: nat): Table
  {
    match s
    case TryAcquire(at) => AcquireUpdate(t, action, limit, at, NoFault).table
    case SweepMonth(m, at) =>
      if ValidMonth(m) && Sweepable(t, QuotaKey(action, m), Instant(at)) then Sweep(t, QuotaKey(action, m)) else t
  }

  function StepCounter(c: Counter, s: QuotaStep, limit: nat): Counter
  {
    if s.TryAcquire? then CounterAcquire(c, limit, s.at).0 else c
  }

  /** Outcomes of the keyed rows over a run, oldest first. */
  function TableSlots(t: Table, run: seq<QuotaStep>, action: string, limit: nat): seq<Slot>
    decreases |run|
  {
    if run == [] then []
    else
      (if run[0].TryAcquire? then
         [SlotOf(AcquireUpdate(t, action, limit, run[0].at, NoFault).reply, MonthOf(run[0].at))] else [])
      + TableSlots(StepTable(t, run[0], action, limit), run[1..], action, limit)
  }

  /** What an acquire of the single counter should look like in the keyed rows: the same slot, but the ValueError in the
      last month of the calendar. */
  function ExpectedSlot(c: Counter, limit: nat, now: Clock): Slot
  {
    if HasNextMonth(MonthOf(now)) then CounterAcquire(c, limit, now).1 else ClockOutOfRange
  }

  function ExpectedSlots(c: Counter, run: seq<QuotaStep>, limit: nat): seq<Slot>
    decreases |run|
  {
    if run == [] then []
    else
      (if run[0].TryAcquire? then [ExpectedSlot(c, limit, run[0].at)] else [])
      + ExpectedSlots(StepCounter(c, run[0], limit), run[1..], limit)
  }

  function CounterSlots(c: Counter, run: seq<QuotaStep>, limit: nat): seq<Slot>
    decreases |run|
  {
    if run == [] then []
    else
      (if run[0].TryAcquire? then [CounterAcquire(c, limit, run[0].at).1] else [])
      + CounterSlots(StepCounter(c, run[0], limit), run[1..], limit)
  }

  predicate MonotoneFrom(start: int, run: seq<QuotaStep>)
    decreases |run|
  {
    run == [] || (start <= Instant(run[0].at) && MonotoneFrom(Instant(run[0].at), run[1..]))
  }

  function RowCount(t: Table, action: string, m: Month): int
    requires ValidMonth(m)
  {
    var key := QuotaKey(action, m);
    if key in t && Count in t[key] && t[key][Count].N? then t[key][Count].number else 0
  }

  /** The row of a month is a counter row of that month. */
  predicate CounterRow(t: Table, action: string, m: Month)
    requires ValidMonth(m)
  {
    var key := QuotaKey(action, m);
    key in t ==> Count in t[key] && t[key][Count].N? && Has(t[key], ExpiresAt, N(Epoch(MonthEnd(m))))
  }

  /** At clock `now` the rows know what the one counter knows: the current month's count, and
      nothing about months still to come. */
  ghost predicate Agree(t: Table, c: Counter, action: string, now: Clock)
  {
    forall m: Month | ValidMonth(m) ::
      && CounterRow(t, action, m)
      && (!MonthBefore(m, MonthOf(now)) ==> RowCount(t, action, m) == if c.period == Some(m) then c.count else 0)
  }

  lemma AgreeLater(t: Table, c: Counter, action: string, now: Clock, later: Clock)
    requires Agree(t, c, action, now) && Instant(now) <= Instant(later)
    ensures Agree(t, c, action, later)
  {
    MonthsFollowTime(now, later);
  }

  lemma AcquireHere(t: Table, action: string, limit: nat, now: Clock)
    requires limit > 0 && CounterRow(t, action, MonthOf(now)) && HasNextMonth(MonthOf(now))
    ensures var w := AcquireUpdate(t, action, limit, now, NoFault);
            var here := MonthOf(now);
            && CounterRow(w.table, action, here)
            && (RowCount(t, action, here) >= limit ==> w == Written(t, ConditionFailed))
            && (RowCount(t, action, here) < limit ==>
                  w.reply == Done && RowCount(w.table, action, here) == RowCount(t, action, here) + 1)
  {
  }

  lemma AcquireElsewhere(t: Table, action: string, limit: nat, now: Clock, fault: Fault, m: Month)
    requires ValidMonth(m) && m != MonthOf(now)
    ensures var t' := AcquireUpdate(t, action, limit, now, fault).table;
            Lookup(t', QuotaKey(action, m)) == Lookup(t, QuotaKey(action, m))
  {
    if QuotaKey(action, m) == QuotaKey(action, MonthOf(now)) { QuotaKeyInjective(action, m, MonthOf(now)); }
  }

  lemma AgreeAcquire(t: Table, c: Counter, action: string, limit: nat, now: Clock)
    requires limit > 0
    requires Agree(t, c, action, now) && HasNextMonth(MonthOf(now))
    requires c.period.Some? ==> c.period == Some(MonthOf(now)) || MonthBefore(c.period.value, MonthOf(now))
    ensures SlotOf(AcquireUpdate(t, action, limit, now, NoFault).reply, MonthOf(now)) == CounterAcquire(c, limit, now).1
    ensures Agree(AcquireUpdate(t, action, limit, now, NoFault).table, CounterAcquire(c, limit, now).0, action, now)
  {
    var here := MonthOf(now);
    var t' := AcquireUpdate(t, action, limit, now, NoFault).table;
    var c' := CounterAcquire(c, limit, now).0;
    assert CounterRow(t, action, here) && RowCount(t, action, here) == Rolled(c, here).count;
    AcquireHere(t, action, limit, now);
    forall m: Month | ValidMonth(m)
      ensures CounterRow(t', action, m)
      ensures !MonthBefore(m, here) ==> RowCount(t', action, m) == if c'.period == Some(m) then c'.count else 0
    {
      assert CounterRow(t, action, m);
      if m != here { AcquireElsewhere(t, action, limit, now, NoFault, m); }
    }
  }

  lemma AgreeSweep(t: Table, c: Counter, action: string, m: Month, now: Clock)
    requires Agree(t, c, action, now) && ValidMonth(m) && Sweepable(t, QuotaKey(action, m), Instant(now))
    ensures Agree(Sweep(t, QuotaKey(action, m)), c, action, now)
  {
    var t' := Sweep(t, QuotaKey(action, m));
    forall n: Month | ValidMonth(n)
      ensures CounterRow(t', action, n)
      ensures !MonthBefore(n, MonthOf(now)) ==> RowCount(t', action, n) == if c.period == Some(n) then c.count else 0
    {
      assert CounterRow(t, action, n);
      if QuotaKey(action, n) == QuotaKey(action, m) {
        QuotaKeyInjective(action, n, m);
        SweptMonthIsOver(t, action, m, now);
      }
    }
  }

  lemma MonthIsOver(m: Month, t: Clock)
    requires ValidMonth(m) && MonthEnd(m) <= Instant(t)
    ensures MonthBefore(m, MonthOf(t))
  {
    InsideMonth(t);
    if MonthBefore(MonthOf(t), m) {
      MonthsApart(MonthOf(t), m);
      MonthLength(m);
    }
  }

  /** TTL cannot take the counter of a month that still lasts. */
  lemma SweptMonthIsOver(t: Table, action: string, m: Month, now: Clock)
    requires ValidMonth(m) && CounterRow(t, action, m) && Sweepable(t, QuotaKey(action, m), Instant(now))
    ensures MonthEnd(m) <= Instant(now) && MonthBefore(m, MonthOf(now))
  {
    MonthEndIsWhole(m);
    MonthIsOver(m, now);
  }

  /** In the last month the keyed limiter only raises, for good. */
  lemma {:induction false} LastMonthRun(t: Table, c: Counter, run: seq<QuotaStep>, action: string, limit: nat,
                                        now: Clock)
    requires MonotoneFrom(Instant(now), run) && !HasNextMonth(MonthOf(now))
    ensures TableSlots(t, run, action, limit) == ExpectedSlots(c, run, limit)
    decreases |run|
  {
    if run != [] {
      MonthsFollowTime(now, run[0].at);
      LastMonthRun(StepTable(t, run[0], action, limit), StepCounter(c, run[0], limit), run[1..], action, limit,
                   run[0].at);
    }
  }

  /** With a clock that never goes back and a store that answers, keyed rows and the single counter
      accept and reject the same acquires in every run, although the counter remembers one month only: the
      keyed rows do what is expected of the counter, and only raise in the last month of the calendar. */
  lemma {:induction false} LimitersAgree(t: Table, c: Counter, run: seq<QuotaStep>, action: string, limit: nat,
                                         now: Clock)
    requires limit > 0
    requires Agree(t, c, action, now) && MonotoneFrom(Instant(now), run)
    requires c.period.Some? ==> c.period == Some(MonthOf(now)) || MonthBefore(c.period.value, MonthOf(now))
    ensures TableSlots(t, run, action, limit) == ExpectedSlots(c, run, limit)
    decreases |run|
  {
    if run != [] {
      var s := run[0];
      if !HasNextMonth(MonthOf(s.at)) && s.TryAcquire? {
        LastMonthRun(StepTable(t, s, action, limit), StepCounter(c, s, limit), run[1..], action, limit, s.at);
      } else {
        AgreeLater(t, c, action, now, s.at);
        MonthsFollowTime(now, s.at);
        match s {
          case TryAcquire(at) => AgreeAcquire(t, c, action, limit, at);
          case SweepMonth(m, at) =>
            if ValidMonth(m) && Sweepable(t, QuotaKey(action, m), Instant(at)) { AgreeSweep(t, c, action, m, at); }
        }
        LimitersAgree(StepTable(t, s, action, limit), StepCounter(c, s, limit), run[1..], action, limit, s.at);
      }
    }
  }

  /** From a table without counter rows, a fresh counter, any clock start. */
  lemma FreshLimitersAgree(t: Table, run: seq<QuotaStep>, action: string, limit: nat, now: Clock)
    requires limit > 0
    requires forall m: Month | ValidMonth(m) :: QuotaKey(action, m) !in t
    requires MonotoneFrom(Instant(now), run)
    ensures TableSlots(t, run, action, limit) == ExpectedSlots(Counter(None, 0), run, limit)
  {
    LimitersAgree(t, Counter(None, 0), run, action, limit, now);
  }

  /** What is expected is what the counter does, exactly if the run makes no acquire in December 9999. */
  lemma {:induction false} ExpectedIsCounter(c: Counter, run: seq<QuotaStep>, limit: nat)
    ensures ExpectedSlots(c, run, limit) == CounterSlots(c, run, limit)
            <==> forall i :: 0 <= i < |run| && run[i].TryAcquire? ==> MonthOf(run[i].at) != Month(9999, 12)
    decreases |run|
  {
    if run != [] {
      var s := run[0];
      var rest := run[1..];
      var d := StepCounter(c, s, limit);
      ExpectedIsCounter(d, rest, limit);
      assert forall i :: 0 <= i < |rest| ==> rest[i] == run[i + 1];
      SameSlots(ExpectedSlots(c, run, limit), CounterSlots(c, run, limit),
                if s.TryAcquire? then [ExpectedSlot(c, limit, s.at)] else [],
                if s.TryAcquire? then [CounterAcquire(c, limit, s.at).1] else [],
                ExpectedSlots(d, rest, limit), CounterSlots(d, rest, limit));
      if forall i :: 0 <= i < |rest| && rest[i].TryAcquire? ==> MonthOf(rest[i].at) != Month(9999, 12) {
        assert forall i :: 0 < i < |run| ==> run[i] == rest[i - 1];
      }
    }
  }

  lemma SameSlots(a: seq<Slot>, b: seq<Slot>, x: seq<Slot>, y: seq<Slot>, v: seq<Slot>, w: seq<Slot>)
    requires a == x + v && b == y + w && |x| == |y|
    ensures a == b <==> x == y && v == w
  {
    assert v == a[|x|..] && w == b[|x|..] && x == a[..|x|] && y == b[..|x|];
  }

  /** At a clock in December 9999, and only then, the keyed limiter raises instead of answering. */
  lemma LastMonthDiffers(t: Table, c: Counter, action: string, limit: nat, now: Clock)
    ensures SlotOf(AcquireUpdate(t, action, limit, now, NoFault).reply, MonthOf(now)) == ClockOutOfRange
            <==> MonthOf(now) == Month(9999, 12)
    ensures CounterAcquire(c, limit, now).1 != ClockOutOfRange
  {
  }
}
