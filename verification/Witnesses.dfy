/** Runs that can happen, step by step. They show that a promise fails where it is not proved. */
module Witnesses {
  import opened Basics
  import opened Calendar
  import opened CanonicalJson
  import opened Store
  import opened Confirmation
  import opened Quota
  import opened Work
  import opened Protocol
  import opened Ledger
  import opened SharedQuota
  import opened Safety
  import opened Billing

  // ---------------------------------------------------------------- clearing jobs

  /** The payload of the work is not too large for a confirmation. */
  predicate Storable(work: Work)
  {
    PayloadDigest(PayloadOf(work)).Digested?
  }

  lemma ReachPrepared(c: Config, w: World, token: string, caller: Caller, work: Work) returns (g: Grant)
    requires Reachable(c, w) && token !in w.known && UrlSafe(token) && Storable(work)
    ensures g == Grant(caller, work, ActionOf(work), PayloadOf(work), PayloadDigest(PayloadOf(work)).digest,
                       Epoch(w.clock + c.ttl), |w.log|)
    ensures Reachable(c, PutGrant(w, token, g)) && token !in w.spent
  {
    ReachableIsGood(c, w);
    NoRowYet(w, token);
    var s := Prepare(token, caller, work, ActionOf(work), PayloadOf(work), w.clock, NoFault);
    g := Grant(caller, work, s.action, s.payload, PayloadDigest(s.payload).digest, Epoch(w.clock + c.ttl), |w.log|);
    assert Apply(w, s) == PutGrant(w, token, g);
    ReachStep(c, w, s);
  }

  /** The attempt that presents a grant with a clock reading. */
  function AttemptOn(token: string, g: Grant, at: int): Attempt
  {
    Attempt(token, g.caller, g.action, g.payload, at)
  }

  /** An unspent confirmation in the table, for which an attempt with this reading comes in time. */
  ghost predicate Ready(w: World, token: string, at: int)
  {
    && token in w.issued && token !in w.spent && TokenDigest(token) in w.table
    && !IsQuotaKey(w.config, TokenDigest(token))
    && var g := w.issued[token]; Bound(g.work, g.action, g.payload) && Epoch(at) < g.expires
  }

  lemma ReadyApplies(c: Config, w: World, token: string, at: int)
    requires Reachable(c, w) && Ready(w, token, at)
    ensures Applies(w.table, AttemptOn(token, w.issued[token], at), NoFault)
  {
    ReachableToken(c, w, token);
    RowAllows(w.issued[token], false, AttemptOn(token, w.issued[token], at), w.issued[token].digest);
  }

  /** A stored token is spent with a reading from before its expiry, however late it is by now. */
  lemma ReachSpent(c: Config, w: World, job: nat, token: string, at: int)
    requires Reachable(c, w) && job !in w.jobs && Ready(w, token, at) && at <= w.clock
    ensures var g := w.issued[token];
            Reachable(c, Spend(w, job, Job(AttemptOn(token, g, at), g.work, Cleared)))
  {
    var g := w.issued[token];
    var s := Consume(job, AttemptOn(token, g, at), g.work, NoFault);
    ReachableToken(c, w, token);
    ReadyApplies(c, w, token, at);
    ConsumeApplied(w, s);
    ReachStep(c, w, s);
  }

  lemma ReachTick(c: Config, w: World, to: int) returns (v: World)
    requires Reachable(c, w) && w.clock <= to
    ensures Reachable(c, v) && v == w.(clock := to)
  {
    v := Apply(w, Tick(to));
    ReachStep(c, w, Tick(to));
  }

  /** A confirmation is prepared, and time passes. */
  lemma ReachReady(c: Config, caller: Caller, work: Work, start: int, to: int, at: int) returns (w: World)
    requires c.limit > 0 && Storable(work) && start <= to && Epoch(at) < Epoch(start + c.ttl)
    ensures Reachable(c, w) && w.clock == to && w.jobs == map[] && Ready(w, "t", at) && w.issued["t"].work == work
    ensures w.log == [Stored("t", caller, work, Epoch(start + c.ttl))]
  {
    var w0 := Initial(c, start);
    assert Runs(c, start, [], w0);
    var g := ReachPrepared(c, w0, "t", caller, work);
    w := ReachTick(c, PutGrant(w0, "t", g), to);
    TokensAreNotQuotaKeys(c, "t");
  }

  ghost predicate AllNeutral(log: seq<Event>)
  {
    forall i :: 0 <= i < |log| ==> Neutral(log[i])
  }

  /** Prepare and consume one token for some work, at the clock. */
  lemma ReachCleared(c: Config, w: World, job: nat, token: string, caller: Caller, work: Work) returns (v: World)
    requires Reachable(c, w) && job !in w.jobs && token !in w.known && UrlSafe(token) && AllNeutral(w.log)
    requires Storable(work) && Epoch(w.clock) < Epoch(w.clock + c.ttl)
    ensures Reachable(c, v) && v.clock == w.clock && v.known == w.known + {token} && AllNeutral(v.log)
    ensures job in v.jobs && v.jobs == w.jobs[job := v.jobs[job]]
    ensures v.jobs[job].phase.Cleared? && v.jobs[job].work == work
  {
    var g := ReachPrepared(c, w, token, caller, work);
    var u := PutGrant(w, token, g);
    ReachableToken(c, u, token);
    TokensAreNotQuotaKeys(u.config, token);
    ReachSpent(c, u, job, token, w.clock);
    v := Spend(u, job, Job(AttemptOn(token, g, w.clock), work, Cleared));
  }

  /** A token of `n` letters. */
  function Letters(n: nat): (t: string)
    ensures |t| == n && UrlSafe(t)
  {
    seq(n, i => 'a')
  }

  predicate ShortTokens(tokens: set<string>, n: nat)
  {
    forall token :: token in tokens ==> |token| <= n
  }

  lemma ShortMore(tokens: set<string>, token: string, n: nat)
    requires ShortTokens(tokens, n) && |token| == n + 1
    ensures token !in tokens && ShortTokens(tokens + {token}, n + 1)
  {
  }

  /** Jobs from `first` up to `end` are cleared for billable work. */
  ghost predicate Waiting(jobs: map<nat, Job>, first: nat, end: nat)
  {
    forall job: nat :: first <= job < end ==> job in jobs && jobs[job].phase.Cleared? && jobs[job].work.CostCall?
  }

  ghost predicate OnlyFirst(jobs: map<nat, Job>, n: nat)
  {
    Waiting(jobs, 0, n) && forall job :: job in jobs ==> job < n
  }

  lemma FirstMore(jobs: map<nat, Job>, more: map<nat, Job>, n: nat)
    requires OnlyFirst(jobs, n) && n in more && more == jobs[n := more[n]]
    requires more[n].phase.Cleared? && more[n].work.CostCall?
    ensures OnlyFirst(more, n + 1)
  {
  }

  /** Nothing has happened but that jobs 0 to `n - 1` were cleared for billable work. */
  ghost predicate ManyCleared(c: Config, w: World, clock: int, n: nat)
  {
    && Reachable(c, w) && w.clock == clock && AllNeutral(w.log) && ShortTokens(w.known, n)
    && OnlyFirst(w.jobs, n)
  }

  lemma OneMoreCleared(c: Config, w: World, caller: Caller, work: Work, clock: int, n: nat) returns (v: World)
    requires ManyCleared(c, w, clock, n) && Epoch(clock) < Epoch(clock + c.ttl)
    requires work.CostCall? && Storable(work)
    ensures ManyCleared(c, v, clock, n + 1)
  {
    var token := Letters(n + 1);
    ShortMore(w.known, token, n);
    v := ReachCleared(c, w, n, token, caller, work);
    FirstMore(w.jobs, v.jobs, n);
  }

  lemma {:induction false} ReachManyCleared(c: Config, caller: Caller, work: Work, clock: int, n: nat)
    returns (w: World)
    requires c.limit > 0 && Epoch(clock) < Epoch(clock + c.ttl)
    requires work.CostCall? && Storable(work)
    ensures ManyCleared(c, w, clock, n)
  {
    if n == 0 {
      w := Initial(c, clock);
      assert Runs(c, clock, [], w);
    } else {
      w := ReachManyCleared(c, caller, work, clock, n - 1);
      w := OneMoreCleared(c, w, caller, work, clock, n - 1);
    }
  }

  /** Some time up to `before` at which a confirmation of any lifetime outlives its own second. */
  lemma StartTime(before: int, ttl: int) returns (p: int)
    requires ttl > 0
    ensures p <= before && Epoch(p) < Epoch(p + ttl)
  {
    if before >= MICROS_PER_SECOND {
      var k := before / MICROS_PER_SECOND;
      p := k * MICROS_PER_SECOND - 1;
      EpochMonotone(k * MICROS_PER_SECOND, p + ttl);
      assert Epoch(p) == k - 1 && Epoch(k * MICROS_PER_SECOND) == k;
    } else {
      var k := if before < 0 then 1 - before else 1;
      p := -k * MICROS_PER_SECOND;
      EpochMonotone(p + 1, p + ttl);
      assert Epoch(p) == -k && Epoch(p + 1) == 1 - k;
    }
  }

  /** At any time, any number of jobs may just have been cleared, and nothing else have happened. */
  lemma ReachWaiting(c: Config, caller: Caller, work: Work, clock: int, n: nat) returns (w: World)
    requires c.limit > 0 && c.ttl > 0 && work.CostCall? && Storable(work)
    ensures Reachable(c, w) && w.clock == clock && AllNeutral(w.log) && Waiting(w.jobs, 0, n)
  {
    var start := StartTime(clock, c.ttl);
    w := ReachManyCleared(c, caller, work, start, n);
    w := ReachTick(c, w, clock);
  }

  // ---------------------------------------------------------------- slots and calls

  /** A cleared job takes a slot of a month whose counter is below the limit. */
  lemma ReachSlot(c: Config, w: World, job: nat, now: Clock) returns (v: World)
    requires Reachable(c, w) && Waiting(w.jobs, job, job + 1) && Instant(now) <= w.clock
    requires HasNextMonth(MonthOf(now)) && RowCount(w.table, c.quotaAction, MonthOf(now)) < c.limit
    ensures Reachable(c, v) && v.clock == w.clock
    ensures v.jobs == SetPhase(w.jobs, job, Funded(MonthOf(now), Instant(now)))
    ensures v.log == w.log + [SlotEntry(w, Acquire(job, now, NoFault))]
  {
    ReachableQuota(c, w, MonthOf(now));
    var s := Acquire(job, now, NoFault);
    v := Apply(w, s);
    ReachStep(c, w, s);
    AcquireLog(w, s);
  }

  /** Once the month is over, its counter can be removed. */
  lemma ReachSwept(c: Config, w: World, m: Month) returns (v: World)
    requires Reachable(c, w) && ValidMonth(m) && MonthEnd(m) <= w.clock
    ensures Reachable(c, v) && v.clock == w.clock && v.jobs == w.jobs && RowCount(v.table, c.quotaAction, m) == 0
    ensures v.log == w.log || v.log == w.log + [Swept(QuotaKey(c.quotaAction, m))]
  {
    ReachableQuota(c, w, m);
    var key := QuotaKey(c.quotaAction, m);
    v := w;
    if key in w.table {
      MonthEndIsWhole(m);
      assert Sweepable(w.table, key, w.clock);
      v := Apply(w, SweepItem(key));
      ReachStep(c, w, SweepItem(key));
    }
  }

  /** A job that holds a slot calls. */
  lemma ReachCall(c: Config, w: World, job: nat) returns (v: World)
    requires Reachable(c, w) && job in w.jobs && w.jobs[job].phase.Funded?
    ensures Reachable(c, v) && v.clock == w.clock && v.jobs == SetPhase(w.jobs, job, Finished)
    ensures v.log == w.log + [Called(job, w.jobs[job].work, PaymentOf(w.jobs[job].phase), w.clock)]
  {
    v := Apply(w, CallProvider(job));
    ReachStep(c, w, CallProvider(job));
  }

  /** Jobs from `first` up to `end` hold a slot of the month of the reading. */
  ghost predicate Holding(jobs: map<nat, Job>, first: nat, end: nat, now: Clock)
  {
    forall job: nat :: first <= job < end ==> job in jobs && jobs[job].phase == Funded(MonthOf(now), Instant(now))
  }

  /** No provider has been called, and no slot was taken with a reading older than `age`. */
  ghost predicate Uncalled(log: seq<Event>, age: nat)
  {
    SlotsReadAtMost(log, age) && forall i :: 0 <= i < |log| ==> !log[i].Called?
  }

  /** Nothing was ever removed. */
  ghost predicate Unswept(log: seq<Event>)
  {
    forall i :: 0 <= i < |log| ==> !log[i].Swept?
  }

  lemma NextHolds(jobs: map<nat, Job>, first: nat, k: nat, n: nat, now: Clock)
    requires first <= k < n && Holding(jobs, first, k, now) && Waiting(jobs, k, n)
    ensures var more := SetPhase(jobs, k, Funded(MonthOf(now), Instant(now)));
            Holding(more, first, k + 1, now) && Waiting(more, k + 1, n)
  {
  }

  // ---------------------------------------------------------------- slots with old readings

  /** Jobs up to `k` hold slots of the month of the reading, jobs from `k` to `n` may take one. */
  ghost predicate StaleSlots(c: Config, w: World, now: Clock, clock: int, k: nat, n: nat)
  {
    && Reachable(c, w) && w.clock == clock && Tally(w.log, Slots(MonthOf(now))) == k
    && Uncalled(w.log, if Instant(now) <= clock then clock - Instant(now) else 0)
    && Holding(w.jobs, 0, k, now) && Waiting(w.jobs, k, n)
  }

  /** With an old reading of the clock and the counter out of the way, one more slot of the old month. */
  lemma OneMoreSlot(c: Config, w: World, now: Clock, clock: int, k: nat, n: nat) returns (v: World)
    requires StaleSlots(c, w, now, clock, k, n) && k < n
    requires MonthEnd(MonthOf(now)) <= clock && HasNextMonth(MonthOf(now))
    ensures StaleSlots(c, v, now, clock, k + 1, n)
  {
    var m := MonthOf(now);
    InsideMonth(now);
    var u := ReachSwept(c, w, m);
    v := ReachSlot(c, u, k, now);
    TallyAppend(w.log, Swept(QuotaKey(c.quotaAction, m)), Slots(m));
    TallyAppend(u.log, SlotEntry(u, Acquire(k, now, NoFault)), Slots(m));
    NextHolds(u.jobs, 0, k, n, now);
  }

  /** Any number of jobs may hold slots of a month that has ended, be it by one microsecond, with a reading from that
      month. */
  lemma ReachStaleSlots(c: Config, caller: Caller, work: Work, now: Clock, clock: int, n: nat) returns (w: World)
    requires c.limit > 0 && c.ttl > 0 && HasNextMonth(MonthOf(now)) && MonthEnd(MonthOf(now)) <= clock
    requires work.CostCall? && Storable(work)
    ensures StaleSlots(c, w, now, clock, n, n)
  {
    w := ReachWaiting(c, caller, work, clock, n);
    TallyNone(w.log, Slots(MonthOf(now)));
    var k := 0;
    while k < n
      invariant k <= n && StaleSlots(c, w, now, clock, k, n)
    {
      w := OneMoreSlot(c, w, now, clock, k, n);
      k := k + 1;
    }
  }

  // ---------------------------------------------------------------- slots with current readings

  /** Jobs up to `first` hold slots of an earlier month, those up to `k` of the current one, those up to `n` none
      yet. */
  ghost predicate FreshJobs(jobs: map<nat, Job>, before: Clock, now: Clock, first: nat, k: nat, n: nat)
  {
    first <= k <= n && Holding(jobs, 0, first, before) && Holding(jobs, first, k, now) && Waiting(jobs, k, n)
  }

  ghost predicate FreshLog(log: seq<Event>)
  {
    Uncalled(log, 0) && Unswept(log)
  }

  ghost predicate FreshSlots(c: Config, w: World, before: Clock, now: Clock, first: nat, k: nat, n: nat)
  {
    && Reachable(c, w) && w.clock == Instant(now) && FreshLog(w.log) && FreshJobs(w.jobs, before, now, first, k, n)
    && Tally(w.log, Slots(MonthOf(now))) == k - first
  }

  lemma NextFresh(jobs: map<nat, Job>, before: Clock, now: Clock, first: nat, k: nat, n: nat)
    requires FreshJobs(jobs, before, now, first, k, n) && k < n
    ensures FreshJobs(SetPhase(jobs, k, Funded(MonthOf(now), Instant(now))), before, now, first, k + 1, n)
  {
    NextHolds(jobs, first, k, n, now);
  }

  lemma CurrentSlot(log: seq<Event>, e: Event)
    requires FreshLog(log) && e.SlotTaken? && e.age <= 0
    ensures FreshLog(log + [e])
    ensures forall m :: Tally(log + [e], Slots(m)) == Tally(log, Slots(m)) + if m == e.month then 1 else 0
  {
    forall m ensures Tally(log + [e], Slots(m)) == Tally(log, Slots(m)) + if m == e.month then 1 else 0 {
      TallyAppend(log, e, Slots(m));
    }
  }

  /** While the month lasts and has given fewer slots than the limit, one more of it. */
  lemma ReachFreshSlot(c: Config, w: World, job: nat, now: Clock) returns (v: World)
    requires Reachable(c, w) && Waiting(w.jobs, job, job + 1) && w.clock == Instant(now)
    requires HasNextMonth(MonthOf(now)) && Tally(w.log, Slots(MonthOf(now))) < c.limit
    ensures Reachable(c, v) && v.clock == w.clock
    ensures v.jobs == SetPhase(w.jobs, job, Funded(MonthOf(now), Instant(now)))
    ensures v.log == w.log + [SlotEntry(w, Acquire(job, now, NoFault))]
  {
    InsideMonth(now);
    ReachableQuota(c, w, MonthOf(now));
    v := ReachSlot(c, w, job, now);
  }

  lemma OneFreshSlot(c: Config, w: World, before: Clock, now: Clock, first: nat, k: nat, n: nat) returns (v: World)
    requires FreshSlots(c, w, before, now, first, k, n) && k < n && k - first < c.limit && HasNextMonth(MonthOf(now))
    ensures FreshSlots(c, v, before, now, first, k + 1, n)
    ensures forall m :: m != MonthOf(now) ==> Tally(v.log, Slots(m)) == Tally(w.log, Slots(m))
  {
    v := ReachFreshSlot(c, w, k, now);
    CurrentSlot(w.log, SlotEntry(w, Acquire(k, now, NoFault)));
    NextFresh(w.jobs, before, now, first, k, n);
  }

  /** Up to `limit` more jobs take slots of the current month. */
  lemma ReachFreshSlots(c: Config, w0: World, before: Clock, now: Clock, first: nat, end: nat, n: nat)
    returns (w: World)
    requires FreshSlots(c, w0, before, now, first, first, n) && first <= end <= n && end - first <= c.limit
    requires HasNextMonth(MonthOf(now))
    ensures FreshSlots(c, w, before, now, first, end, n)
    ensures forall m :: m != MonthOf(now) ==> Tally(w.log, Slots(m)) == Tally(w0.log, Slots(m))
  {
    w := w0;
    var k := first;
    while k < end
      invariant first <= k <= end && FreshSlots(c, w, before, now, first, k, n)
      invariant forall m :: m != MonthOf(now) ==> Tally(w.log, Slots(m)) == Tally(w0.log, Slots(m))
    {
      w := OneFreshSlot(c, w, before, now, first, k, n);
      k := k + 1;
    }
  }

  /** Around the end of a month: `limit` jobs take its slots in its last microsecond, as many take slots of the next
      month one microsecond later. All readings are current. */
  lemma ReachTwoMonths(c: Config, caller: Caller, work: Work, p: Month) returns (w: World)
    requires c.limit > 0 && c.ttl > 0 && ValidMonth(p) && HasNextMonth(p) && HasNextMonth(MonthAfter(p))
    requires work.CostCall? && Storable(work)
    ensures FreshSlots(c, w, LastInstant(p), FirstInstant(MonthAfter(p)), c.limit, 2 * c.limit, 2 * c.limit)
  {
    var n, last, first := 2 * c.limit, LastInstant(p), FirstInstant(MonthAfter(p));
    w := ReachWaiting(c, caller, work, Instant(last), n);
    TallyNone(w.log, Slots(p));
    TallyNone(w.log, Slots(MonthAfter(p)));
    w := ReachFreshSlots(c, w, last, last, 0, c.limit, n);
    w := ReachTick(c, w, Instant(first));
    w := ReachFreshSlots(c, w, last, first, c.limit, n, n);
  }

  // ---------------------------------------------------------------- calls

  /** Jobs from `k` up to `n` hold slots they read at most `hold` ago, and `k` calls were made while the month lasts. */
  ghost predicate Calling(c: Config, w: World, m: Month, hold: nat, k: nat, n: nat)
  {
    && Reachable(c, w) && ValidMonth(m) && During(m, w.clock) && HeldAtMost(w.log, hold)
    && Tally(w.log, CallsDuring(m)) == k
    && forall job: nat :: k <= job < n ==>
         job in w.jobs && w.jobs[job].phase.Funded? && w.clock - w.jobs[job].phase.read <= hold
  }

  lemma OneMoreCall(c: Config, w: World, m: Month, hold: nat, k: nat, n: nat) returns (v: World)
    requires Calling(c, w, m, hold, k, n) && k < n
    ensures Calling(c, v, m, hold, k + 1, n)
    ensures |v.log| == |w.log| + 1 && v.log[..|w.log|] == w.log && v.log[|w.log|].Called?
  {
    v := ReachCall(c, w, k);
    TallyAppend(w.log, v.log[|w.log|], CallsDuring(m));
  }

  /** Whoever holds a slot may call now. */
  lemma ReachCalls(c: Config, w0: World, m: Month, hold: nat, age: nat, n: nat) returns (w: World)
    requires Calling(c, w0, m, hold, 0, n) && SlotsReadAtMost(w0.log, age)
    ensures Reachable(c, w) && HeldAtMost(w.log, hold) && Tally(w.log, CallsDuring(m)) == n
    ensures SlotsReadAtMost(w.log, age) && (Unswept(w0.log) ==> Unswept(w.log))
  {
    w := w0;
    var k := 0;
    while k < n
      invariant k <= n && Calling(c, w, m, hold, k, n)
      invariant SlotsReadAtMost(w.log, age) && (Unswept(w0.log) ==> Unswept(w.log))
    {
      w := OneMoreCall(c, w, m, hold, k, n);
      k := k + 1;
    }
  }

  // ---------------------------------------------------------------- a lost answer

  /** An update that is applied while its answer is lost: the consume fails for an unavailable store, and yet the table
      has changed and the token is spent. */
  lemma LostAnswerHappens(c: Config, caller: Caller, work: Work) returns (w: World, s: Step)
    requires c.limit > 0 && c.ttl > 0 && Storable(work)
    ensures Reachable(c, w) && Enabled(w, s) && Reachable(c, Apply(w, s)) && s.Consume? && s.fault.ReplyLost?
    ensures ConsumeOutcome(w.table, s.attempt, s.fault, false) == Refused(StoreUnavailable)
    ensures Apply(w, s).table != w.table && s.attempt.token !in w.spent && s.attempt.token in Apply(w, s).spent
    ensures var log := Apply(w, s).log; log != [] && log[|log| - 1] == Refusal(s.job, StoreUnavailable)
  {
    var start := StartTime(0, c.ttl);
    w := ReachReady(c, caller, work, start, start, start);
    ReadyApplies(c, w, "t", start);
    ReachableToken(c, w, "t");
    s := Consume(0, AttemptOn("t", w.issued["t"], start), work, ReplyLost);
    ConsumeApplied(w, s);
    FailureChangesNothing(w.table, s.attempt, ReplyLost, false);
    ReachStep(c, w, s);
  }
}
