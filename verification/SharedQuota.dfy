/** The monthly quota under every interleaving, in the table it shares with confirmations. */
module SharedQuota {
  import opened Basics
  import opened Calendar
  import opened CanonicalJson
  import opened Store
  import opened Confirmation
  import opened Quota
  import opened Work
  import opened Protocol
  import opened Ledger

  /** Kinds of log entries to count. A billable call can be seen under the month that paid for it or the month it is
      made in: `OwnCalls` are paid by the month and made before its end, `HeldOver` made in the month and paid by
      another. */
  datatype Kind =
    | Slots(m: Month) | SlotsInMonth(m: Month) | SweepsOf(key: Digest)
    | CallsPaidBy(m: Month) | CallsDuring(m: Month) | OwnCalls(m: Month) | HeldOver(m: Month)

  predicate Billable(e: Event)
  {
    e.Called? && e.paidBy.Some?
  }

  predicate PaidBy(m: Month, e: Event)
  {
    Billable(e) && e.paidBy.value.month == m
  }

  predicate MadeDuring(m: Month, e: Event)
  {
    Billable(e) && ValidMonth(m) && During(m, e.when)
  }

  predicate Is(k: Kind, e: Event)
  {
    match k
    case Slots(m) => e.SlotTaken? && e.month == m
    case SlotsInMonth(m) => e.SlotTaken? && e.month == m && e.inMonth
    case SweepsOf(key) => e == Swept(key)
    case CallsPaidBy(m) => PaidBy(m, e)
    case CallsDuring(m) => MadeDuring(m, e)
    case OwnCalls(m) => PaidBy(m, e) && ValidMonth(m) && e.when < MonthEnd(m)
    case HeldOver(m) => MadeDuring(m, e) && !PaidBy(m, e)
  }

  function Tally(log: seq<Event>, k: Kind): nat
  {
    if log == [] then 0 else Tally(log[..|log| - 1], k) + if Is(k, log[|log| - 1]) then 1 else 0
  }

  lemma TallyAppend(log: seq<Event>, e: Event, k: Kind)
    ensures Tally(log + [e], k) == Tally(log, k) + if Is(k, e) then 1 else 0
  {
    assert (log + [e])[..|log|] == log;
  }

  function Key(w: World, m: Month): Digest
    requires ValidMonth(m)
  {
    QuotaKey(w.config.quotaAction, m)
  }

  /** Jobs holding a slot of a month they have not used yet. */
  function Holders(jobs: map<nat, Job>, m: Month): set<nat>
  {
    set job | job in jobs && jobs[job].phase.Funded? && jobs[job].phase.paid == m
  }

  ghost predicate QuotaOk(w: World, m: Month)
    requires ValidMonth(m)
  {
    var n := RowCount(w.table, w.config.quotaAction, m);
    && CounterRow(w.table, w.config.quotaAction, m)
    && 0 <= n <= w.config.limit && n <= Tally(w.log, Slots(m))
    && (w.clock < MonthEnd(m) ==> n == Tally(w.log, Slots(m)) == Tally(w.log, SlotsInMonth(m)))
    && Tally(w.log, SlotsInMonth(m)) <= w.config.limit
    && Tally(w.log, Slots(m)) <= n + w.config.limit * Tally(w.log, SweepsOf(Key(w, m)))
    && Tally(w.log, CallsPaidBy(m)) + |Holders(w.jobs, m)| <= Tally(w.log, Slots(m))
  }

  /** The part of the world a month's quota depends on. */
  ghost predicate SameForMonth(w: World, v: World, m: Month)
    requires ValidMonth(m)
  {
    && v.config == w.config && w.clock <= v.clock
    && Lookup(v.table, Key(w, m)) == Lookup(w.table, Key(w, m))
    && Tally(v.log, Slots(m)) == Tally(w.log, Slots(m))
    && Tally(v.log, SlotsInMonth(m)) == Tally(w.log, SlotsInMonth(m))
    && Tally(v.log, SweepsOf(Key(w, m))) == Tally(w.log, SweepsOf(Key(w, m)))
    && Tally(v.log, CallsPaidBy(m)) == Tally(w.log, CallsPaidBy(m))
    && Holders(v.jobs, m) == Holders(w.jobs, m)
  }

  lemma SameKeeps(w: World, v: World, m: Month)
    requires ValidMonth(m) && QuotaOk(w, m) && SameForMonth(w, v, m)
    ensures QuotaOk(v, m)
  {
    var key := Key(w, m);
    assert key in v.table <==> key in w.table;
  }

  predicate Neutral(e: Event)
  {
    !e.SlotTaken? && !e.Swept? && !e.Called?
  }

  lemma {:induction false} NeutralTally(log: seq<Event>, more: seq<Event>, k: Kind)
    requires forall i :: 0 <= i < |more| ==> Neutral(more[i])
    ensures Tally(log + more, k) == Tally(log, k)
  {
    if more == [] {
      assert log + more == log;
    } else {
      var n := |more| - 1;
      NeutralTally(log, more[..n], k);
      TallyAppend(log + more[..n], more[n], k);
      assert log + more == (log + more[..n]) + [more[n]];
    }
  }

  lemma NeutralMonth(w: World, v: World, m: Month, more: seq<Event>)
    requires ValidMonth(m) && v.log == w.log + more && (forall i :: 0 <= i < |more| ==> Neutral(more[i]))
    requires v.config == w.config && w.clock <= v.clock && Holders(v.jobs, m) == Holders(w.jobs, m)
    requires Lookup(v.table, Key(w, m)) == Lookup(w.table, Key(w, m))
    ensures SameForMonth(w, v, m)
  {
    NeutralTally(w.log, more, Slots(m));
    NeutralTally(w.log, more, SlotsInMonth(m));
    NeutralTally(w.log, more, SweepsOf(Key(w, m)));
    NeutralTally(w.log, more, CallsPaidBy(m));
  }

  lemma KeyIsQuotaKey(w: World, m: Month)
    requires ValidMonth(m)
    ensures IsQuotaKey(w.config, Key(w, m))
  {
  }

  // ---------------------------------------------------------------- no interference

  /** Preparing or consuming never changes a counter item, whatever token string is presented. */
  lemma ConfirmationsLeaveCounters(w: World, s: Step, key: Digest)
    requires LedgerOk(w) && Enabled(w, s) && (s.Prepare? || s.Consume?) && IsQuotaKey(w.config, key)
    ensures Lookup(Apply(w, s).table, key) == Lookup(w.table, key)
  {
    if s.Prepare? {
      TokensAreNotQuotaKeys(w.config, s.token);
    } else {
      assert TokenDigest(s.attempt.token) in w.table ==> RowOk(w, TokenDigest(s.attempt.token));
      if Applies(w.table, s.attempt, s.fault) { ConsumeApplied(w, s); } else { ConsumeNotApplied(w, s); }
    }
  }

  /** An acquire never changes a confirmation item. */
  lemma AcquireLeavesConfirmations(w: World, s: Step, key: Digest)
    requires Enabled(w, s) && s.Acquire? && !IsQuotaKey(w.config, key)
    ensures Lookup(Apply(w, s).table, key) == Lookup(w.table, key)
  {
    KeyIsQuotaKey(w, MonthOf(s.now));
  }

  /** A token string that hashes to a stored counter never clears, and its diagnosis says that the
      stored state is no confirmation. */
  lemma CounterIsStoreInvalid(w: World, a: Attempt)
    requires LedgerOk(w) && IsQuotaKey(w.config, TokenDigest(a.token)) && TokenDigest(a.token) in w.table
    ensures !Applies(w.table, a, NoFault) && Diagnose(Lookup(w.table, TokenDigest(a.token)), a) == StoreInvalid
  {
    assert RowOk(w, TokenDigest(a.token));
  }

  // ---------------------------------------------------------------- steps

  lemma QuotaSweep(w: World, s: Step, m: Month)
    requires ValidMonth(m) && QuotaOk(w, m) && Enabled(w, s) && s.SweepItem?
    ensures QuotaOk(Apply(w, s), m)
  {
    var v := Apply(w, s);
    var key := Key(w, m);
    TallyAppend(w.log, Swept(s.key), Slots(m));
    TallyAppend(w.log, Swept(s.key), SlotsInMonth(m));
    TallyAppend(w.log, Swept(s.key), SweepsOf(key));
    TallyAppend(w.log, Swept(s.key), CallsPaidBy(m));
    if s.key == key {
      MonthEndIsWhole(m);
      assert MonthEnd(m) <= w.clock;
      SweepBound(w.config.limit, Tally(w.log, SweepsOf(key)));
    } else {
      assert Lookup(v.table, key) == Lookup(w.table, key);
      assert Holders(v.jobs, m) == Holders(w.jobs, m);
      SameKeeps(w, v, m);
    }
  }

  lemma SweepBound(limit: nat, sweeps: nat)
    ensures limit * (sweeps + 1) == limit * sweeps + limit
    ensures limit * (1 + sweeps) == limit * sweeps + limit
  {
  }

  lemma QuotaConfirmation(w: World, s: Step, m: Month)
    requires LedgerOk(w) && ValidMonth(m) && QuotaOk(w, m) && Enabled(w, s) && (s.Prepare? || s.Consume? || s.Read?)
    ensures QuotaOk(Apply(w, s), m)
  {
    var v := Apply(w, s);
    KeyIsQuotaKey(w, m);
    if !s.Read? { ConfirmationsLeaveCounters(w, s, Key(w, m)); }
    var more := v.log[|w.log|..];
    NeutralStep(w, s);
    assert Holders(v.jobs, m) == Holders(w.jobs, m) by { HoldersStay(w, s, m); }
    NeutralMonth(w, v, m, more);
    SameKeeps(w, v, m);
  }

  /** What the three kinds of confirmation step do to clock, log and the jobs that hold slots. */
  ghost predicate OnlyNeutral(w: World, v: World)
  {
    && v.config == w.config && v.clock == w.clock && |w.log| <= |v.log|
    && v.log == w.log + v.log[|w.log|..]
    && forall i :: 0 <= i < |v.log[|w.log|..]| ==> Neutral(v.log[|w.log|..][i])
  }

  lemma NeutralPrepare(w: World, s: Step)
    requires Enabled(w, s) && s.Prepare?
    ensures OnlyNeutral(w, Apply(w, s))
  {
    var g := PrepareCases(w, s);
  }

  lemma NeutralConsume(w: World, s: Step)
    requires Enabled(w, s) && s.Consume?
    ensures OnlyNeutral(w, Apply(w, s))
  {
  }

  lemma NeutralRead(w: World, s: Step)
    requires Enabled(w, s) && s.Read?
    ensures OnlyNeutral(w, Apply(w, s))
  {
  }

  lemma NeutralStep(w: World, s: Step)
    requires Enabled(w, s) && (s.Prepare? || s.Consume? || s.Read?)
    ensures OnlyNeutral(w, Apply(w, s))
  {
    match s
    case Prepare(_, _, _, _, _, _, _) => NeutralPrepare(w, s);
    case Consume(_, _, _, _) => NeutralConsume(w, s);
    case Read(_, _) => NeutralRead(w, s);
  }

  lemma HoldersUnfunded(jobs: map<nat, Job>, job: nat, j: Job, m: Month)
    requires !j.phase.Funded? && (job in jobs ==> !jobs[job].phase.Funded?)
    ensures Holders(jobs[job := j], m) == Holders(jobs, m)
  {
  }

  lemma ConsumeStartsJob(w: World, s: Step)
    requires Enabled(w, s) && s.Consume?
    ensures var v := Apply(w, s);
            && s.job in v.jobs && v.jobs == w.jobs[s.job := v.jobs[s.job]] && !v.jobs[s.job].phase.Funded?
            && v.jobs[s.job].attempt == s.attempt
  {
  }

  lemma HoldersOfConsume(w: World, s: Step, m: Month)
    requires Enabled(w, s) && s.Consume?
    ensures Holders(Apply(w, s).jobs, m) == Holders(w.jobs, m)
  {
    ConsumeStartsJob(w, s);
    HoldersUnfunded(w.jobs, s.job, Apply(w, s).jobs[s.job], m);
  }

  lemma HoldersOfRead(w: World, s: Step, m: Month)
    requires Enabled(w, s) && s.Read?
    ensures Holders(Apply(w, s).jobs, m) == Holders(w.jobs, m)
  {
  }

  lemma HoldersStay(w: World, s: Step, m: Month)
    requires Enabled(w, s) && (s.Prepare? || s.Consume? || s.Read?)
    ensures Holders(Apply(w, s).jobs, m) == Holders(w.jobs, m)
  {
    match s
    case Prepare(_, _, _, _, _, _, _) => assert Apply(w, s).jobs == w.jobs;
    case Consume(_, _, _, _) => HoldersOfConsume(w, s, m);
    case Read(_, _) => HoldersOfRead(w, s, m);
  }

  lemma QuotaCall(w: World, s: Step, m: Month)
    requires ValidMonth(m) && QuotaOk(w, m) && Enabled(w, s) && s.CallProvider?
    ensures QuotaOk(Apply(w, s), m)
  {
    var v := Apply(w, s);
    var e := v.log[|w.log|];
    TallyAppend(w.log, e, Slots(m));
    TallyAppend(w.log, e, SlotsInMonth(m));
    TallyAppend(w.log, e, SweepsOf(Key(w, m)));
    TallyAppend(w.log, e, CallsPaidBy(m));
    assert Holders(v.jobs, m) == Holders(w.jobs, m) - {s.job};
  }

  /** What an acquire does to the log, besides writing the counter. */
  lemma AcquireLog(w: World, s: Step)
    requires Enabled(w, s) && s.Acquire?
    ensures var v := Apply(w, s);
            && v.config == w.config && v.clock == w.clock
            && v.log == (if TakesSlot(w.config, w.table, s.now, s.fault) then w.log + [SlotEntry(w, s)] else w.log)
            && (!TakesSlot(w.config, w.table, s.now, s.fault) ==> v.table == w.table)
  {
    var phase, row := AcquireCases(w, s);
  }

  lemma AcquireJob(w: World, s: Step)
    requires Enabled(w, s) && s.Acquire?
    ensures var v, n := Apply(w, s), MonthOf(s.now);
            && s.job in v.jobs && v.jobs == w.jobs[s.job := v.jobs[s.job]] && w.jobs[s.job].phase.Cleared?
            && (v.jobs[s.job].phase == Funded(n, Instant(s.now)) || v.jobs[s.job].phase == Finished)
            && (v.jobs[s.job].phase.Funded? ==> TakesSlot(w.config, w.table, s.now, s.fault))
            && v.jobs[s.job].attempt == w.jobs[s.job].attempt
  {
    var phase, row := AcquireCases(w, s);
  }

  lemma TallySlot(log: seq<Event>, e: Event, m: Month, key: Digest)
    requires e.SlotTaken?
    ensures var more := log + [e];
            && Tally(more, Slots(m)) == Tally(log, Slots(m)) + (if e.month == m then 1 else 0)
            && Tally(more, SlotsInMonth(m))
               == Tally(log, SlotsInMonth(m)) + (if e.month == m && e.inMonth then 1 else 0)
            && Tally(more, SweepsOf(key)) == Tally(log, SweepsOf(key))
            && Tally(more, CallsPaidBy(m)) == Tally(log, CallsPaidBy(m))
  {
    TallyAppend(log, e, Slots(m));
    TallyAppend(log, e, SlotsInMonth(m));
    TallyAppend(log, e, SweepsOf(key));
    TallyAppend(log, e, CallsPaidBy(m));
  }

  lemma HoldersAfter(jobs: map<nat, Job>, job: nat, j: Job, m: Month)
    requires job in jobs && !jobs[job].phase.Funded?
    ensures Holders(jobs[job := j], m) == Holders(jobs, m) + if j.phase.Funded? && j.phase.paid == m then {job} else {}
    ensures job !in Holders(jobs, m)
  {
  }

  lemma QuotaAcquireElsewhere(w: World, s: Step, m: Month)
    requires ValidMonth(m) && QuotaOk(w, m) && Enabled(w, s) && s.Acquire? && m != MonthOf(s.now)
    ensures QuotaOk(Apply(w, s), m)
  {
    var v := Apply(w, s);
    AcquireElsewhere(w.table, w.config.quotaAction, w.config.limit, s.now, s.fault, m);
    AcquireLog(w, s);
    AcquireJob(w, s);
    HoldersAfter(w.jobs, s.job, v.jobs[s.job], m);
    TallySlot(w.log, SlotEntry(w, s), m, Key(w, m));
    SameKeeps(w, v, m);
  }

  /** An acquire that takes a slot of the month. */
  lemma QuotaSlot(w: World, s: Step, m: Month)
    requires w.config.limit > 0
    requires ValidMonth(m) && QuotaOk(w, m) && Enabled(w, s) && s.Acquire? && m == MonthOf(s.now)
    requires TakesSlot(w.config, w.table, s.now, s.fault)
    ensures QuotaOk(Apply(w, s), m)
  {
    var v := Apply(w, s);
    CounterGoesUp(w, s, m);
    AcquireLog(w, s);
    TallySlot(w.log, SlotEntry(w, s), m, Key(w, m));
    HoldersGainOne(w, s, m);
    assert v.log == w.log + [SlotEntry(w, s)];
  }

  lemma HoldersGainOne(w: World, s: Step, m: Month)
    requires Enabled(w, s) && s.Acquire?
    ensures |Holders(Apply(w, s).jobs, m)| <= |Holders(w.jobs, m)| + 1
  {
    AcquireJob(w, s);
    HoldersAfter(w.jobs, s.job, Apply(w, s).jobs[s.job], m);
  }

  /** An acquire that takes none. */
  lemma QuotaNoSlot(w: World, s: Step, m: Month)
    requires ValidMonth(m) && QuotaOk(w, m) && Enabled(w, s) && s.Acquire?
    requires !TakesSlot(w.config, w.table, s.now, s.fault)
    ensures QuotaOk(Apply(w, s), m)
  {
    AcquireLog(w, s);
    AcquireJob(w, s);
    HoldersAfter(w.jobs, s.job, Apply(w, s).jobs[s.job], m);
    SameKeeps(w, Apply(w, s), m);
  }

  lemma QuotaAcquireHere(w: World, s: Step, m: Month)
    requires w.config.limit > 0
    requires ValidMonth(m) && QuotaOk(w, m) && Enabled(w, s) && s.Acquire? && m == MonthOf(s.now)
    ensures QuotaOk(Apply(w, s), m)
  {
    if TakesSlot(w.config, w.table, s.now, s.fault) { QuotaSlot(w, s, m); } else { QuotaNoSlot(w, s, m); }
  }

  lemma CounterGoesUp(w: World, s: Step, m: Month)
    requires w.config.limit > 0
    requires ValidMonth(m) && QuotaOk(w, m) && Enabled(w, s) && s.Acquire? && m == MonthOf(s.now)
    requires TakesSlot(w.config, w.table, s.now, s.fault)
    ensures var v := Apply(w, s);
            && CounterRow(v.table, w.config.quotaAction, m)
            && RowCount(v.table, w.config.quotaAction, m) == RowCount(w.table, w.config.quotaAction, m) + 1
            && RowCount(w.table, w.config.quotaAction, m) < w.config.limit
  {
  }

  lemma QuotaStep(w: World, s: Step, m: Month)
    requires w.config.limit > 0 && LedgerOk(w) && ValidMonth(m) && QuotaOk(w, m) && Enabled(w, s)
    ensures QuotaOk(Apply(w, s), m)
  {
    match s
    case Tick(_) => SameKeeps(w, Apply(w, s), m);
    case SweepItem(_) => QuotaSweep(w, s, m);
    case Acquire(_, now, _) =>
      if m == MonthOf(now) { QuotaAcquireHere(w, s, m); } else { QuotaAcquireElsewhere(w, s, m); }
    case CallProvider(_) => QuotaCall(w, s, m);
    case _ => QuotaConfirmation(w, s, m);
  }

  lemma {:induction false} QuotaRun(w: World, run: seq<Step>, m: Month)
    requires w.config.limit > 0 && LedgerOk(w) && ValidMonth(m) && QuotaOk(w, m) && Legal(w, run)
    ensures QuotaOk(Final(w, run), m)
    decreases |run|
  {
    if run != [] {
      QuotaStep(w, run[0], m);
      StepKeeps(w, run[0]);
      QuotaRun(Apply(w, run[0]), run[1..], m);
    }
  }
}
