/** The promises about time, and exactly when they hold. The clock is read before the store call it is used in, so a
    reading may be old when the update takes effect, and a slot may be held for a while before the call it pays for. */
module Timing {
  import opened Basics
  import opened Calendar
  import opened CanonicalJson
  import opened Store
  import opened Confirmation
  import opened Quota
  import opened Work
  import opened Protocol
  import opened Ledger
  import opened SharedQuota
  import opened Safety
  import opened Billing
  import opened Witnesses

  // ---------------------------------------------------------------- slots and the monthly limit

  /** Reading the clock and updating the counter are two steps in the code. As soon as a month has ended, be it by one
      microsecond, readings from that month take any number of its slots, whatever the limit, because TTL may remove
      its counter in between. */
  lemma StaleReadingsExceedLimit(c: Config, caller: Caller, work: Work, now: Clock, clock: int, n: nat)
    returns (w: World)
    requires c.limit > 0 && c.ttl > 0 && HasNextMonth(MonthOf(now)) && MonthEnd(MonthOf(now)) <= clock
    requires work.CostCall? && Storable(work)
    ensures Reachable(c, w) && w.clock == clock && Tally(w.log, Slots(MonthOf(now))) == n
    ensures Instant(now) <= clock && SlotsReadAtMost(w.log, clock - Instant(now))
  {
    InsideMonth(now);
    w := ReachStaleSlots(c, caller, work, now, clock, n);
  }

  /** The limit of a month can be relied on exactly while the month lasts. Only the last month of the calendar, in which
      every acquire raises, never gives a slot. */
  lemma LimitHoldsExactly(c: Config, caller: Caller, work: Work, m: Month, clock: int)
    requires c.limit > 0 && c.ttl > 0 && ValidMonth(m)
    requires work.CostCall? && Storable(work)
    ensures (forall w :: Reachable(c, w) && w.clock == clock ==> Tally(w.log, Slots(m)) <= c.limit)
            <==> clock < MonthEnd(m) || !HasNextMonth(m)
  {
    if clock < MonthEnd(m) || !HasNextMonth(m) {
      forall w | Reachable(c, w) && w.clock == clock ensures Tally(w.log, Slots(m)) <= c.limit {
        if HasNextMonth(m) { MonthlyBound(c, w, m); } else { NoSlotWithoutNextMonth(c, w, m); }
      }
    } else {
      var w := StaleReadingsExceedLimit(c, caller, work, FirstInstant(m), clock, c.limit + 1);
    }
  }

  /** With slots taken on readings up to `age` old, the limit of a month holds for good exactly if readings are
      current. */
  lemma SlotsWithinLimitExactly(c: Config, caller: Caller, work: Work, m: Month, age: nat)
    requires c.limit > 0 && c.ttl > 0 && ValidMonth(m)
    requires work.CostCall? && Storable(work)
    ensures (forall w :: Reachable(c, w) && SlotsReadAtMost(w.log, age) ==> Tally(w.log, Slots(m)) <= c.limit)
            <==> age == 0 || !HasNextMonth(m)
  {
    if age == 0 || !HasNextMonth(m) {
      forall w | Reachable(c, w) && SlotsReadAtMost(w.log, age) ensures Tally(w.log, Slots(m)) <= c.limit {
        if age == 0 { AtomicReadingsKeepLimit(c, w, m); } else { NoSlotWithoutNextMonth(c, w, m); }
      }
    } else {
      var w := StaleReadingsExceedLimit(c, caller, work, LastInstant(m), MonthEnd(m), c.limit + 1);
      assert SlotsReadAtMost(w.log, 1);
    }
  }

  // ---------------------------------------------------------------- calls and the monthly limit

  /** Any number of jobs may hold slots of a month over its end, and call one microsecond after reading the clock. */
  lemma HeldCallsExceedLimit(c: Config, caller: Caller, work: Work, p: Month, n: nat) returns (w: World)
    requires c.limit > 0 && c.ttl > 0 && ValidMonth(p) && ValidMonth(MonthAfter(p))
    requires work.CostCall? && Storable(work)
    ensures Reachable(c, w) && HeldAtMost(w.log, 1) && Tally(w.log, CallsDuring(MonthAfter(p))) == n
  {
    var m, now := MonthAfter(p), LastInstant(p);
    MonthLength(m);
    w := ReachStaleSlots(c, caller, work, now, MonthEnd(p), n);
    TallyNone(w.log, CallsDuring(m));
    w := ReachCalls(c, w, m, 1, 1, n);
  }

  const FIRST_MONTH: Month := Month(1, 1)

  lemma NothingHeldIntoFirstMonth(c: Config, w: World)
    requires Reachable(c, w)
    ensures Tally(w.log, CallsDuring(FIRST_MONTH)) <= c.limit
  {
    OwnCallsWithinLimit(c, w, FIRST_MONTH);
    ReachableBills(c, w, FIRST_MONTH);
    forall i | 0 <= i < |w.log| ensures !Is(HeldOver(FIRST_MONTH), w.log[i]) { assert EntryDated(w.log[i]); }
    TallyNone(w.log, HeldOver(FIRST_MONTH));
  }

  function Preceding(m: Month): (p: Month)
    requires ValidMonth(m) && m != FIRST_MONTH
    ensures ValidMonth(p) && MonthAfter(p) == m
  {
    if m.month == 1 then Month(m.year - 1, 12) else Month(m.year, m.month - 1)
  }

  /** With slots held for up to `hold` from their reading to their call, the calls made while a month lasts stay within
      the limit exactly if nothing is held. Only the first month of the calendar has no month before it. */
  lemma CallsWithinLimitExactly(c: Config, caller: Caller, work: Work, m: Month, hold: nat)
    requires c.limit > 0 && c.ttl > 0 && ValidMonth(m)
    requires work.CostCall? && Storable(work)
    ensures (forall w :: Reachable(c, w) && HeldAtMost(w.log, hold) ==> Tally(w.log, CallsDuring(m)) <= c.limit)
            <==> hold == 0 || m == FIRST_MONTH
  {
    if hold == 0 {
      forall w | Reachable(c, w) && HeldAtMost(w.log, hold) ensures Tally(w.log, CallsDuring(m)) <= c.limit {
        PromptCallsWithinLimit(c, w, m);
      }
    } else if m == FIRST_MONTH {
      forall w | Reachable(c, w) ensures Tally(w.log, CallsDuring(m)) <= c.limit { NothingHeldIntoFirstMonth(c, w); }
    } else {
      var w := HeldCallsExceedLimit(c, caller, work, Preceding(m), c.limit + 1);
      assert HeldAtMost(w.log, hold);
    }
  }

  /** Current readings do not help: with all of them current, nothing removed and no slot held for longer than one
      microsecond, a month can still see twice as many calls as its limit. `AtMostTwiceTheLimit` says it sees no
      more. */
  lemma TwiceTheLimitHappens(c: Config, caller: Caller, work: Work, p: Month) returns (w: World)
    requires c.limit > 0 && c.ttl > 0 && ValidMonth(p) && ValidMonth(MonthAfter(p)) && HasNextMonth(MonthAfter(p))
    requires work.CostCall? && Storable(work)
    ensures Reachable(c, w) && SlotsReadAtMost(w.log, 0) && Unswept(w.log) && HeldAtMost(w.log, 1)
    ensures Tally(w.log, CallsDuring(MonthAfter(p))) == 2 * c.limit
  {
    var m := MonthAfter(p);
    MonthLength(m);
    w := ReachTwoMonths(c, caller, work, p);
    TallyNone(w.log, CallsDuring(m));
    w := ReachCalls(c, w, m, 1, 0, 2 * c.limit);
  }

  /** So the exact condition is the same when all slots are taken on current readings. */
  lemma CallsOnCurrentReadingsExactly(c: Config, caller: Caller, work: Work, m: Month, hold: nat)
    requires c.limit > 0 && c.ttl > 0 && ValidMonth(m) && HasNextMonth(m)
    requires work.CostCall? && Storable(work)
    ensures (forall w :: Reachable(c, w) && SlotsReadAtMost(w.log, 0) && HeldAtMost(w.log, hold) ==>
               Tally(w.log, CallsDuring(m)) <= c.limit)
            <==> hold == 0 || m == FIRST_MONTH
  {
    if hold == 0 || m == FIRST_MONTH {
      CallsWithinLimitExactly(c, caller, work, m, hold);
    } else {
      var w := TwiceTheLimitHappens(c, caller, work, Preceding(m));
      assert HeldAtMost(w.log, hold);
    }
  }

  // ---------------------------------------------------------------- spends and expiry

  /** No spend used a reading older than `age`. */
  predicate AgedAtMost(w: World, age: nat)
  {
    forall i :: 0 <= i < |w.log| && w.log[i].Spent? ==>
      w.log[i].job in w.jobs && ReadingAge(w, i) <= age
  }

  /** Every spend came before the expiry of its confirmation. */
  predicate AllInTime(w: World)
  {
    forall p, i :: 0 <= p < |w.log| && 0 <= i < |w.log| && w.log[p].Stored? && w.log[i].Spent?
                   && w.log[p].token == w.log[i].token ==>
      w.log[i].when < w.log[p].expires * MICROS_PER_SECOND
  }

  lemma CurrentReadingsAreInTime(c: Config, w: World)
    requires Reachable(c, w) && AgedAtMost(w, 0)
    ensures AllInTime(w)
  {
    forall p, i | 0 <= p < |w.log| && 0 <= i < |w.log| && w.log[p].Stored? && w.log[i].Spent?
                  && w.log[p].token == w.log[i].token
      ensures w.log[i].when < w.log[p].expires * MICROS_PER_SECOND
    {
      var q := EverySpendWasPrepared(c, w, i);
    }
  }

  lemma WholeExpiry(ttl: int) returns (start: int, expires: int)
    requires ttl > 0
    ensures expires == Epoch(start + ttl) && start + ttl == expires * MICROS_PER_SECOND
    ensures start <= expires * MICROS_PER_SECOND - 1 && Epoch(expires * MICROS_PER_SECOND - 1) < expires
  {
    start := MICROS_PER_SECOND - ttl % MICROS_PER_SECOND;
    expires := (start + ttl) / MICROS_PER_SECOND;
  }

  /** A confirmation spent at its expiry or `late` microseconds after it: prepared, its clock read in the last
      microsecond, and updated before TTL removes the item. */
  lemma SpentAfterExpiry(c: Config, caller: Caller, work: Work, late: nat) returns (w: World, p: nat, i: nat)
    requires c.limit > 0 && c.ttl > 0 && Storable(work)
    ensures Reachable(c, w) && AgedAtMost(w, late + 1)
    ensures p < i < |w.log| && w.log[p].Stored? && w.log[i].Spent? && w.log[p].token == w.log[i].token
    ensures w.log[i].when == w.log[p].expires * MICROS_PER_SECOND + late
  {
    var start, expires := WholeExpiry(c.ttl);
    var at := expires * MICROS_PER_SECOND - 1;
    var u := ReachReady(c, caller, work, start, expires * MICROS_PER_SECOND + late, at);
    ReachSpent(c, u, 0, "t", at);
    w, p, i := Spend(u, 0, Job(AttemptOn("t", u.issued["t"], at), work, Cleared)), 0, 1;
  }

  /** With readings up to `age` old, every spend comes before its expiry exactly if readings are current. */
  lemma SpendsInTimeExactly(c: Config, caller: Caller, work: Work, age: nat)
    requires c.limit > 0 && c.ttl > 0 && Storable(work)
    ensures (forall w :: Reachable(c, w) && AgedAtMost(w, age) ==> AllInTime(w)) <==> age == 0
  {
    if age == 0 {
      forall w | Reachable(c, w) && AgedAtMost(w, age) ensures AllInTime(w) { CurrentReadingsAreInTime(c, w); }
    } else {
      var w, p, i := SpentAfterExpiry(c, caller, work, age - 1);
      assert !AllInTime(w);
    }
  }
}
