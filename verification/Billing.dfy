/** Billable calls by the time they are made. A job may hold its slot for a while before it calls, so a call can be made
    in another month than the one that paid for it. */
module Billing {
  import opened Basics
  import opened Calendar
  import Quota
  import opened Work
  import opened Protocol
  import opened Ledger
  import opened SharedQuota
  import opened Safety

  // ---------------------------------------------------------------- readings and the months they pay from

  /** The reading lies in the month, and was not taken after `now`. */
  predicate ReadIn(m: Month, read: int, now: int)
  {
    ValidMonth(m) && During(m, read) && read <= now
  }

  predicate EntryDated(e: Event)
  {
    && (Billable(e) ==> ReadIn(e.paidBy.value.month, e.paidBy.value.read, e.when))
    && (e.SlotTaken? ==> Quota.HasNextMonth(e.month) && 0 <= e.age && (e.age == 0 ==> e.inMonth))
  }

  ghost predicate LogDated(log: seq<Event>)
  {
    forall i :: 0 <= i < |log| ==> EntryDated(log[i])
  }

  ghost predicate JobsDated(w: World)
  {
    forall job :: job in w.jobs && w.jobs[job].phase.Funded? ==>
      ReadIn(w.jobs[job].phase.paid, w.jobs[job].phase.read, w.clock)
  }

  lemma JobsStayDated(w: World, s: Step)
    requires JobsDated(w) && Enabled(w, s)
    ensures JobsDated(Apply(w, s))
  {
    match s
    case Consume(_, _, _, _) => ConsumeStartsJob(w, s);
    case Acquire(_, now, _) =>
      AcquireLog(w, s);
      AcquireJob(w, s);
      MonthsDivideTime(now, MonthOf(now));
    case _ =>
  }

  lemma SlotIsDated(w: World, s: Step)
    requires Enabled(w, s) && s.Acquire? && TakesSlot(w.config, w.table, s.now, s.fault)
    ensures EntryDated(SlotEntry(w, s))
  {
    InsideMonth(s.now);
  }

  lemma MoreDated(log: seq<Event>, more: seq<Event>)
    requires LogDated(log) && LogDated(more)
    ensures LogDated(log + more)
  {
  }

  lemma LogStaysDated(w: World, s: Step)
    requires LogDated(w.log) && JobsDated(w) && Enabled(w, s)
    ensures LogDated(Apply(w, s).log)
  {
    match s
    case Tick(_) =>
    case SweepItem(key) => MoreDated(w.log, [Swept(key)]);
    case Acquire(_, _, _) =>
      AcquireLog(w, s);
      if TakesSlot(w.config, w.table, s.now, s.fault) {
        SlotIsDated(w, s);
        MoreDated(w.log, [SlotEntry(w, s)]);
      }
    case CallProvider(job) =>
      MoreDated(w.log, [Called(job, w.jobs[job].work, PaymentOf(w.jobs[job].phase), w.clock)]);
    case _ =>
      NeutralStep(w, s);
      MoreDated(w.log, Apply(w, s).log[|w.log|..]);
  }

  // ---------------------------------------------------------------- calls in their own month

  lemma {:induction false} TallyImplied(log: seq<Event>, k: Kind, l: Kind)
    requires forall i :: 0 <= i < |log| && Is(k, log[i]) ==> Is(l, log[i])
    ensures Tally(log, k) <= Tally(log, l)
  {
    if log != [] {
      TallyImplied(log[..|log| - 1], k, l);
    }
  }

  lemma {:induction false} TallyNone(log: seq<Event>, k: Kind)
    requires forall i :: 0 <= i < |log| ==> !Is(k, log[i])
    ensures Tally(log, k) == 0
  {
    if log != [] {
      TallyNone(log[..|log| - 1], k);
    }
  }

  /** Only a call changes the number of own calls. */
  lemma NoCallNoChange(w: World, s: Step, m: Month)
    requires Enabled(w, s) && !s.CallProvider?
    ensures Tally(Apply(w, s).log, OwnCalls(m)) == Tally(w.log, OwnCalls(m))
  {
    if s.SweepItem? {
      TallyAppend(w.log, Swept(s.key), OwnCalls(m));
    } else if s.Acquire? {
      AcquireLog(w, s);
      TallyAppend(w.log, SlotEntry(w, s), OwnCalls(m));
    } else if !s.Tick? {
      NeutralStep(w, s);
      NeutralTally(w.log, Apply(w, s).log[|w.log|..], OwnCalls(m));
    }
  }

  /** While the month lasts, own calls are among the calls its slots paid for; afterwards there are no new ones. */
  lemma OwnStep(w: World, s: Step, m: Month)
    requires ValidMonth(m) && Enabled(w, s) && QuotaOk(Apply(w, s), m)
    requires Tally(w.log, OwnCalls(m)) <= w.config.limit
    ensures Tally(Apply(w, s).log, OwnCalls(m)) <= w.config.limit
  {
    var v := Apply(w, s);
    if s.CallProvider? {
      TallyAppend(w.log, v.log[|w.log|], OwnCalls(m));
      if w.clock < MonthEnd(m) { TallyImplied(v.log, OwnCalls(m), CallsPaidBy(m)); }
    } else {
      NoCallNoChange(w, s, m);
    }
  }

  ghost predicate BillsOk(w: World, m: Month)
  {
    LogDated(w.log) && JobsDated(w) && Tally(w.log, OwnCalls(m)) <= w.config.limit
  }

  lemma {:induction false} BillsRun(w: World, run: seq<Step>, m: Month)
    requires w.config.limit > 0 && LedgerOk(w) && ValidMonth(m) && QuotaOk(w, m) && BillsOk(w, m) && Legal(w, run)
    ensures BillsOk(Final(w, run), m)
    decreases |run|
  {
    if run != [] {
      var s := run[0];
      QuotaStep(w, s, m);
      StepKeeps(w, s);
      JobsStayDated(w, s);
      LogStaysDated(w, s);
      OwnStep(w, s, m);
      BillsRun(Apply(w, s), run[1..], m);
    }
  }

  lemma ReachableBills(c: Config, w: World, m: Month)
    requires Reachable(c, w) && ValidMonth(m)
    ensures BillsOk(w, m) && w.config == c
  {
    var clock, run :| Runs(c, clock, run, w);
    InitialIsGood(c, clock);
    InitialQuota(c, clock, m);
    RunIsGood(Initial(c, clock), run);
    BillsRun(Initial(c, clock), run, m);
  }

  // ---------------------------------------------------------------- calls made while a month lasts

  lemma OneMonth(m: Month, n: Month, instant: int)
    requires ValidMonth(m) && ValidMonth(n) && During(m, instant) && During(n, instant)
    ensures m == n
  {
    if MonthBefore(m, n) { MonthsApart(m, n); }
    if MonthBefore(n, m) { MonthsApart(n, m); }
  }

  lemma {:induction false} CallsSplit(log: seq<Event>, m: Month)
    requires LogDated(log) && ValidMonth(m)
    ensures Tally(log, CallsDuring(m)) == Tally(log, OwnCalls(m)) + Tally(log, HeldOver(m))
  {
    if log != [] {
      assert EntryDated(log[|log| - 1]);
      CallsSplit(log[..|log| - 1], m);
    }
  }

  /** In every reachable world, calls paid by a month and made before its end stay within the limit, whatever the age of
      readings and whatever is removed. All other calls made in the month are paid by earlier months. */
  lemma OwnCallsWithinLimit(c: Config, w: World, m: Month)
    requires Reachable(c, w) && ValidMonth(m)
    ensures Tally(w.log, OwnCalls(m)) <= c.limit
    ensures Tally(w.log, CallsDuring(m)) == Tally(w.log, OwnCalls(m)) + Tally(w.log, HeldOver(m))
    ensures forall i :: 0 <= i < |w.log| && Is(HeldOver(m), w.log[i]) ==> MonthBefore(w.log[i].paidBy.value.month, m)
  {
    ReachableBills(c, w, m);
    CallsSplit(w.log, m);
    forall i | 0 <= i < |w.log| && Is(HeldOver(m), w.log[i]) ensures MonthBefore(w.log[i].paidBy.value.month, m) {
      assert EntryDated(w.log[i]);
      var n := w.log[i].paidBy.value.month;
      if MonthBefore(m, n) { MonthsApart(m, n); }
    }
  }

  /** No call came later than `hold` after the clock reading of its slot. */
  predicate HeldAtMost(log: seq<Event>, hold: nat)
  {
    forall i :: 0 <= i < |log| && Billable(log[i]) ==> log[i].when - log[i].paidBy.value.read <= hold
  }

  /** If calls come at the instant their slots were read, the calls made in a month stay within the limit. */
  lemma PromptCallsWithinLimit(c: Config, w: World, m: Month)
    requires Reachable(c, w) && ValidMonth(m) && HeldAtMost(w.log, 0)
    ensures Tally(w.log, CallsDuring(m)) <= c.limit
  {
    OwnCallsWithinLimit(c, w, m);
    ReachableBills(c, w, m);
    forall i | 0 <= i < |w.log| ensures !Is(HeldOver(m), w.log[i]) {
      assert EntryDated(w.log[i]);
      if MadeDuring(m, w.log[i]) { OneMonth(w.log[i].paidBy.value.month, m, w.log[i].when); }
    }
    TallyNone(w.log, HeldOver(m));
  }

  // ---------------------------------------------------------------- the age of slot readings

  /** No slot was taken with a clock reading older than `age`. */
  predicate SlotsReadAtMost(log: seq<Event>, age: nat)
  {
    forall i :: 0 <= i < |log| && log[i].SlotTaken? ==> log[i].age <= age
  }

  /** If the clock reading and the counter update are one step wherever a slot is taken, no month ever gives more slots
      than the limit, and its slots never pay for more calls, whatever TTL removes. */
  lemma AtomicReadingsKeepLimit(c: Config, w: World, m: Month)
    requires Reachable(c, w) && SlotsReadAtMost(w.log, 0) && ValidMonth(m)
    ensures Tally(w.log, CallsPaidBy(m)) <= Tally(w.log, Slots(m)) <= c.limit
  {
    ReachableBills(c, w, m);
    forall i | 0 <= i < |w.log| && w.log[i].SlotTaken? && w.log[i].month == m ensures w.log[i].inMonth {
      assert EntryDated(w.log[i]);
    }
    CallsWithinLimit(c, w, m);
  }

  /** The last month of the calendar gives no slots. */
  lemma NoSlotWithoutNextMonth(c: Config, w: World, m: Month)
    requires Reachable(c, w) && ValidMonth(m) && !Quota.HasNextMonth(m)
    ensures Tally(w.log, Slots(m)) == 0
  {
    ReachableBills(c, w, m);
    forall i | 0 <= i < |w.log| ensures !Is(Slots(m), w.log[i]) { assert EntryDated(w.log[i]); }
    TallyNone(w.log, Slots(m));
  }

  const SHORTEST_MONTH: nat := 28 * MICROS_PER_DAY

  /** A call held for no longer than the shortest month is paid by the month it is made in or the one before. */
  lemma HeldFromMonthBefore(e: Event, p: Month, hold: nat)
    requires EntryDated(e) && ValidMonth(p) && ValidMonth(MonthAfter(p)) && hold <= SHORTEST_MONTH
    requires Billable(e) && e.when - e.paidBy.value.read <= hold && Is(HeldOver(MonthAfter(p)), e)
    ensures PaidBy(p, e)
  {
    var q := e.paidBy.value.month;
    MonthLength(p);
    if MonthBefore(q, p) { MonthsApart(q, p); }
    if MonthBefore(MonthAfter(p), q) { MonthsApart(MonthAfter(p), q); }
  }

  /** With current slot readings and calls held for at most 28 days, a month sees at most twice the limit of calls. */
  lemma AtMostTwiceTheLimit(c: Config, w: World, p: Month, hold: nat)
    requires Reachable(c, w) && ValidMonth(p) && ValidMonth(MonthAfter(p))
    requires SlotsReadAtMost(w.log, 0) && HeldAtMost(w.log, hold) && hold <= SHORTEST_MONTH
    ensures Tally(w.log, CallsDuring(MonthAfter(p))) <= 2 * c.limit
  {
    var m := MonthAfter(p);
    OwnCallsWithinLimit(c, w, m);
    ReachableBills(c, w, m);
    forall i | 0 <= i < |w.log| && Is(HeldOver(m), w.log[i]) ensures Is(CallsPaidBy(p), w.log[i]) {
      assert EntryDated(w.log[i]);
      HeldFromMonthBefore(w.log[i], p, hold);
    }
    TallyImplied(w.log, HeldOver(m), CallsPaidBy(p));
    AtomicReadingsKeepLimit(c, w, p);
  }
}
