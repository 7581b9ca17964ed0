/** What holds in every reachable world: single use, matching confirmations, sound refusals,
    provider calls backed by confirmations, and the monthly bound. */
module Safety {
  import opened Basics
  import opened Calendar
  import opened CanonicalJson
  import opened Store
  import opened Confirmation
  import opened Quota
  import opened Work
  import opened Protocol
  import opened Ledger
  import opened SharedQuota

  /** Action and payload are those the service builds for the work. */
  predicate Bound(w: Work, action: string, payload: Payload)
  {
    action == ActionOf(w) && payload == PayloadOf(w)
  }

  predicate StepBound(s: Step)
  {
    (s.Prepare? ==> Bound(s.work, s.action, s.payload))
    && (s.Consume? ==> Bound(s.work, s.attempt.action, s.attempt.payload))
  }

  /** `run` is a run of service instances from an empty table to `w`. */
  predicate Runs(c: Config, clock: int, run: seq<Step>, w: World)
  {
    && c.limit > 0
    && (forall i :: 0 <= i < |run| ==> StepBound(run[i]))
    && Legal(Initial(c, clock), run) && Final(Initial(c, clock), run) == w
  }

  ghost predicate Reachable(c: Config, w: World)
  {
    exists clock, run :: Runs(c, clock, run, w)
  }

  // ---------------------------------------------------------------- the indices are the log's

  ghost predicate GrantLogged(w: World, t: string)
    requires t in w.issued
  {
    var g := w.issued[t];
    g.place < |w.log| && w.log[g.place] == Stored(t, g.caller, g.work, g.expires) && Bound(g.work, g.action, g.payload)
  }

  ghost predicate UseLogged(w: World, t: string)
    requires t in w.spent
  {
    && w.spent[t].place < |w.log|
    && var e := w.log[w.spent[t].place]; e.Spent? && e.job == w.spent[t].job && e.token == t
  }

  ghost predicate IndexOk(w: World)
  {
    && (forall t :: t in w.issued ==> GrantLogged(w, t))
    && (forall t :: t in w.spent ==> UseLogged(w, t))
    && (forall key :: key in w.swept ==> Swept(key) in w.log)
    && (forall job :: job in w.jobs ==>
          Bound(w.jobs[job].work, w.jobs[job].attempt.action, w.jobs[job].attempt.payload))
  }

  lemma IndexGrants(w: World, s: Step)
    requires IndexOk(w) && Enabled(w, s) && StepBound(s) && Grows(w, Apply(w, s))
    ensures var v := Apply(w, s); forall t :: t in v.issued ==> GrantLogged(v, t)
  {
    var v := Apply(w, s);
    forall t | t in v.issued ensures GrantLogged(v, t) { if t in w.issued { assert GrantLogged(w, t); } }
  }

  lemma IndexUses(w: World, s: Step)
    requires IndexOk(w) && Enabled(w, s) && Grows(w, Apply(w, s))
    ensures var v := Apply(w, s); forall t :: t in v.spent ==> UseLogged(v, t)
  {
    var v := Apply(w, s);
    forall t | t in v.spent ensures UseLogged(v, t) { if t in w.spent { assert UseLogged(w, t); } }
  }

  lemma IndexSwept(w: World, s: Step)
    requires IndexOk(w) && Enabled(w, s) && Grows(w, Apply(w, s))
    ensures var v := Apply(w, s); forall key :: key in v.swept ==> Swept(key) in v.log
  {
    var v := Apply(w, s);
    forall key | key in v.swept ensures Swept(key) in v.log {
      if key in w.swept {
        var i :| 0 <= i < |w.log| && w.log[i] == Swept(key);
        assert v.log[i] == Swept(key);
      } else {
        assert v.log[|w.log|] == Swept(key);
      }
    }
  }

  lemma IndexJobs(w: World, s: Step)
    requires IndexOk(w) && Enabled(w, s) && StepBound(s) && Grows(w, Apply(w, s))
    ensures var v := Apply(w, s);
            forall job :: job in v.jobs ==>
              Bound(v.jobs[job].work, v.jobs[job].attempt.action, v.jobs[job].attempt.payload)
  {
  }

  lemma {:induction false} RunIsGood(w: World, run: seq<Step>)
    requires LedgerOk(w) && IndexOk(w) && Legal(w, run)
    requires forall i :: 0 <= i < |run| ==> StepBound(run[i])
    ensures LedgerOk(Final(w, run)) && IndexOk(Final(w, run)) && Final(w, run).config == w.config
    decreases |run|
  {
    if run != [] {
      StepKeeps(w, run[0]);
      IndexGrants(w, run[0]);
      IndexUses(w, run[0]);
      IndexSwept(w, run[0]);
      IndexJobs(w, run[0]);
      RunIsGood(Apply(w, run[0]), run[1..]);
    }
  }

  lemma InitialIsGood(c: Config, clock: int)
    ensures LedgerOk(Initial(c, clock)) && IndexOk(Initial(c, clock))
  {
  }

  lemma InitialQuota(c: Config, clock: int, m: Month)
    requires ValidMonth(m)
    ensures QuotaOk(Initial(c, clock), m)
  {
    var w := Initial(c, clock);
    assert w.log == [] && w.table == map[] && Holders(w.jobs, m) == {};
  }

  lemma ReachableIsGood(c: Config, w: World)
    requires Reachable(c, w)
    ensures LedgerOk(w) && IndexOk(w) && w.config == c
  {
    var clock, run :| Runs(c, clock, run, w);
    InitialIsGood(c, clock);
    RunIsGood(Initial(c, clock), run);
  }

  lemma ReachableQuota(c: Config, w: World, m: Month)
    requires Reachable(c, w) && ValidMonth(m)
    ensures QuotaOk(w, m) && w.config == c
  {
    var clock, run :| Runs(c, clock, run, w);
    InitialIsGood(c, clock);
    InitialQuota(c, clock, m);
    RunIsGood(Initial(c, clock), run);
    QuotaRun(Initial(c, clock), run, m);
  }

  lemma ReachableToken(c: Config, w: World, token: string)
    requires Reachable(c, w)
    ensures w.config == c
    ensures TokenDigest(token) in w.table ==> RowOk(w, TokenDigest(token))
    ensures token in w.issued ==> GrantOk(w, token)
  {
    ReachableIsGood(c, w);
  }

  // ---------------------------------------------------------------- main results

  /** Each token is spent at most once, however many instances try. */
  lemma SingleUse(c: Config, w: World, i: nat, k: nat)
    requires Reachable(c, w) && i < k < |w.log| && w.log[i].Spent? && w.log[k].Spent?
    ensures w.log[i].token != w.log[k].token
  {
    ReachableIsGood(c, w);
    assert EventOk(w, i) && EventOk(w, k);
  }

  /** Entry `p` stored the confirmation that job `job` presents: same fingerprint, same work with the same arguments,
      not yet expired at the job's clock reading. */
  predicate PreparedFor(w: World, p: nat, job: nat)
    requires job in w.jobs
  {
    var j := w.jobs[job];
    p < |w.log| && w.log[p].Stored? && w.log[p].token == j.attempt.token
    && Fingerprint(w.log[p].caller) == Fingerprint(j.attempt.caller)
    && w.log[p].work == j.work && Epoch(j.attempt.at) < w.log[p].expires
  }

  /** How old the clock reading of a spend was when its update took effect. */
  function ReadingAge(w: World, i: nat): int
    requires i < |w.log| && w.log[i].Spent? && w.log[i].job in w.jobs
  {
    w.log[i].when - w.jobs[w.log[i].job].attempt.at
  }

  /** The spend came before the expiry of the confirmation stored by entry `p`, or after it by less than the age of the
      reading. So it came before if the reading was current. */
  predicate InTimeForItsReading(w: World, p: nat, i: nat)
    requires p < |w.log| && w.log[p].Stored?
    requires i < |w.log| && w.log[i].Spent? && w.log[i].job in w.jobs
  {
    0 <= ReadingAge(w, i) && w.log[i].when < w.log[p].expires * MICROS_PER_SECOND + ReadingAge(w, i)
  }

  /** The same person, if fingerprints can tell: callers of one issuer, or one of them free of NUL. */
  predicate SamePerson(c: Caller, d: Caller)
  {
    Fingerprint(c) == Fingerprint(d) && (c.issuer == d.issuer || NulFree(c) || NulFree(d) ==> SameIdentity(c, d))
  }

  lemma PersonOf(c: Caller, d: Caller)
    requires Fingerprint(c) == Fingerprint(d)
    ensures SamePerson(c, d)
  {
    if c.issuer == d.issuer || NulFree(c) || NulFree(d) { SameFingerprint(c, d); }
  }

  /** Every spend has exactly one earlier prepare of its token, and that prepare was for it. */
  lemma EverySpendWasPrepared(c: Config, w: World, i: nat) returns (p: nat)
    requires Reachable(c, w) && i < |w.log| && w.log[i].Spent?
    ensures p < i && w.log[i].job in w.jobs && w.jobs[w.log[i].job].attempt.token == w.log[i].token
    ensures PreparedFor(w, p, w.log[i].job) && InTimeForItsReading(w, p, i)
    ensures SamePerson(w.log[p].caller, w.jobs[w.log[i].job].attempt.caller)
    ensures forall q :: 0 <= q < |w.log| && w.log[q].Stored? && w.log[q].token == w.log[i].token ==> q == p
  {
    ReachableIsGood(c, w);
    assert EventOk(w, i);
    var t := w.log[i].token;
    assert UseOk(w, t) && GrantOk(w, t) && GrantLogged(w, t);
    var g, j := w.issued[t], w.jobs[w.log[i].job];
    p := g.place;
    MatchingWork(g, j);
    EpochBelow(j.attempt.at, g.expires);
    PersonOf(g.caller, j.attempt.caller);
    forall q | 0 <= q < |w.log| && w.log[q].Stored? && w.log[q].token == t ensures q == p { assert EventOk(w, q); }
  }

  lemma MatchingWork(g: Grant, j: Job)
    requires Matches(g, j.attempt) && PayloadDigest(g.payload) == Digested(g.digest)
    requires Bound(g.work, g.action, g.payload) && Bound(j.work, j.attempt.action, j.attempt.payload)
    ensures g.work == j.work
  {
    DigestBindsPayload(g.payload, j.attempt.payload);
    PayloadBindsWork(g.work, j.work);
  }

  /** Entry `i` is the spend by which `job` used the token it presented. */
  predicate SpendOf(w: World, i: nat, job: nat)
    requires job in w.jobs
  {
    i < |w.log| && w.log[i].Spent? && w.log[i].job == job && w.log[i].token == w.jobs[job].attempt.token
  }

  /** Every provider call was confirmed: its own token was spent for it before, after being
      prepared by the same person for the same work with the same arguments. */
  lemma EveryCallWasConfirmed(c: Config, w: World, k: nat) returns (p: nat, i: nat)
    requires Reachable(c, w) && k < |w.log| && w.log[k].Called?
    ensures p < i < k && w.log[k].job in w.jobs && SpendOf(w, i, w.log[k].job)
    ensures PreparedFor(w, p, w.log[k].job) && w.log[p].work == w.log[k].work
    ensures InTimeForItsReading(w, p, i)
    ensures SamePerson(w.log[p].caller, w.jobs[w.log[k].job].attempt.caller)
  {
    ReachableIsGood(c, w);
    assert EventOk(w, k);
    var t := w.jobs[w.log[k].job].attempt.token;
    assert UseLogged(w, t);
    i := w.spent[t].place;
    p := EverySpendWasPrepared(c, w, i);
  }

  /** Different provider calls spent different tokens. */
  lemma CallsSpendDifferentTokens(c: Config, w: World, k: nat, l: nat)
    requires Reachable(c, w) && k < l < |w.log| && w.log[k].Called? && w.log[l].Called?
    ensures w.log[k].job in w.jobs && w.log[l].job in w.jobs
    ensures w.jobs[w.log[k].job].attempt.token != w.jobs[w.log[l].job].attempt.token
  {
    ReachableIsGood(c, w);
    assert EventOk(w, k) && EventOk(w, l);
  }

  predicate StoredAt(w: World, p: int, token: string)
  {
    0 <= p < |w.log| && w.log[p].Stored? && w.log[p].token == token
  }

  predicate SpentAt(w: World, k: int, token: string)
  {
    0 <= k < |w.log| && w.log[k].Spent? && w.log[k].token == token
  }

  /** What a refusal proves, in terms of the log alone. In particular a reported payload mismatch
      means the payload presented differs from the one stored, whatever other instances did
      between the failed update and the read. */
  ghost predicate Justified(w: World, j: Job, code: Code, i: nat)
  {
    var a := j.attempt;
    match code
    case Invalid => (forall p :: !StoredAt(w, p, a.token)) || Swept(TokenDigest(a.token)) in w.log
    case Replayed => exists k :: k < i && SpentAt(w, k, a.token)
    case Expired => exists p :: StoredAt(w, p, a.token) && w.log[p].expires <= Epoch(a.at)
    case CallerMismatch =>
      exists p :: StoredAt(w, p, a.token) && Fingerprint(w.log[p].caller) != Fingerprint(a.caller)
    case ActionMismatch => exists p :: StoredAt(w, p, a.token) && ActionOf(w.log[p].work) != ActionOf(j.work)
    case PayloadMismatch =>
      exists p :: StoredAt(w, p, a.token) && Fingerprint(w.log[p].caller) == Fingerprint(a.caller)
                  && ActionOf(w.log[p].work) == ActionOf(j.work) && w.log[p].work != j.work
                  && Meaning(PayloadOf(w.log[p].work)) != Meaning(PayloadOf(j.work))
    case StoreInvalid => IsQuotaKey(w.config, TokenDigest(a.token))
    case StoreUnavailable => true
    case PayloadTooLarge => false
  }

  lemma NeverStored(w: World, token: string)
    requires LogOk(w) && token !in w.issued
    ensures forall p :: !StoredAt(w, p, token)
  {
    forall p: int ensures !StoredAt(w, p, token) {
      assert 0 <= p < |w.log| ==> EventOk(w, p);
    }
  }

  lemma MismatchedWork(g: Grant, j: Job)
    requires PayloadDigest(j.attempt.payload) != Digested(g.digest) && PayloadDigest(g.payload) == Digested(g.digest)
    requires Bound(g.work, g.action, g.payload) && Bound(j.work, j.attempt.action, j.attempt.payload)
    ensures Meaning(PayloadOf(g.work)) != Meaning(PayloadOf(j.work)) && g.work != j.work
  {
    DigestBindsPayload(g.payload, j.attempt.payload);
  }

  lemma RefusalsAreJustified(c: Config, w: World, i: nat)
    requires Reachable(c, w) && i < |w.log| && w.log[i].Refusal?
    ensures w.log[i].job in w.jobs && Justified(w, w.jobs[w.log[i].job], w.log[i].code, i)
  {
    ReachableIsGood(c, w);
    assert EventOk(w, i);
    var j := w.jobs[w.log[i].job];
    var t := j.attempt.token;
    if t in w.issued {
      var g := w.issued[t];
      assert GrantLogged(w, t) && GrantOk(w, t);
      assert StoredAt(w, g.place, t);
      if w.log[i].code == PayloadMismatch { MismatchedWork(g, j); }
    } else {
      NeverStored(w, t);
    }
    if t in w.spent { assert UseLogged(w, t) && SpentAt(w, w.spent[t].place, t); }
  }

  /** For every month: the calls its slots paid for do not outnumber them, slots taken while the month lasted do not
      exceed the limit, and each removal of the month's counter (which TTL can only do once the month is over) allows at
      most `limit` late slots. */
  lemma MonthlyBound(c: Config, w: World, m: Month)
    requires Reachable(c, w) && ValidMonth(m)
    ensures Tally(w.log, CallsPaidBy(m)) <= Tally(w.log, Slots(m))
    ensures Tally(w.log, SlotsInMonth(m)) <= c.limit
    ensures Tally(w.log, Slots(m)) <= c.limit * (1 + Tally(w.log, SweepsOf(QuotaKey(c.quotaAction, m))))
    ensures w.clock < MonthEnd(m) ==> Tally(w.log, Slots(m)) <= c.limit
  {
    ReachableQuota(c, w, m);
    var sweeps := Tally(w.log, SweepsOf(Key(w, m)));
    SweepBound(c.limit, sweeps);
    assert Tally(w.log, Slots(m)) <= c.limit + c.limit * sweeps;
  }

  /** No slot of the month was taken after its end: reading the clock and updating the counter were
      one step as far as the month's end is concerned. */
  predicate NoLateSlot(log: seq<Event>, m: Month)
  {
    forall i :: 0 <= i < |log| && log[i].SlotTaken? && log[i].month == m ==> log[i].inMonth
  }

  lemma {:induction false} NoLateTally(log: seq<Event>, m: Month)
    requires NoLateSlot(log, m)
    ensures Tally(log, Slots(m)) == Tally(log, SlotsInMonth(m))
  {
    if log != [] {
      NoLateTally(log[..|log| - 1], m);
    }
  }

  /** The calls that the slots of a month paid for do not outnumber them, and these stay within the limit while the
      month lasts, and for good if no slot of it was taken after its end or its counter was never removed. */
  lemma CallsWithinLimit(c: Config, w: World, m: Month)
    requires Reachable(c, w) && ValidMonth(m)
    ensures Tally(w.log, CallsPaidBy(m)) <= Tally(w.log, Slots(m))
    ensures w.clock < MonthEnd(m) || NoLateSlot(w.log, m) || Tally(w.log, SweepsOf(QuotaKey(c.quotaAction, m))) == 0 ==>
              Tally(w.log, Slots(m)) <= c.limit
  {
    MonthlyBound(c, w, m);
    var sweeps := Tally(w.log, SweepsOf(QuotaKey(c.quotaAction, m)));
    if sweeps == 0 { WithoutRemovals(c.limit, Tally(w.log, Slots(m)), sweeps); }
    if NoLateSlot(w.log, m) { NoLateTally(w.log, m); }
  }

  lemma WithoutRemovals(limit: nat, slots: nat, sweeps: nat)
    requires slots <= limit * (1 + sweeps) && sweeps == 0
    ensures slots <= limit
  {
  }

  // ---------------------------------------------------------------- longer runs

  lemma {:induction false} RunAppend(w: World, run: seq<Step>, s: Step)
    requires Legal(w, run) && Enabled(Final(w, run), s)
    ensures Legal(w, run + [s]) && Final(w, run + [s]) == Apply(Final(w, run), s)
    decreases |run|
  {
    if run == [] {
      assert run + [s] == [s];
    } else {
      RunAppend(Apply(w, run[0]), run[1..], s);
      assert (run + [s])[1..] == run[1..] + [s];
    }
  }

  lemma ReachStep(c: Config, w: World, s: Step)
    requires Reachable(c, w) && Enabled(w, s) && StepBound(s)
    ensures Reachable(c, Apply(w, s))
  {
    var clock, run :| Runs(c, clock, run, w);
    RunAppend(Initial(c, clock), run, s);
    assert Runs(c, clock, run + [s], Apply(w, s));
  }

  // ---------------------------------------------------------------- callers of one issuer

  /** As deployed, every caller is built with the configured issuer. */
  predicate FromIssuer(s: Step, issuer: string)
  {
    (s.Prepare? ==> s.caller.issuer == issuer) && (s.Consume? ==> s.attempt.caller.issuer == issuer)
  }

  predicate OneIssuer(w: World, issuer: string)
  {
    && (forall t :: t in w.issued ==> w.issued[t].caller.issuer == issuer)
    && (forall job :: job in w.jobs ==> w.jobs[job].attempt.caller.issuer == issuer)
  }

  lemma GrantIssuers(w: World, s: Step, issuer: string)
    requires OneIssuer(w, issuer) && Enabled(w, s) && FromIssuer(s, issuer)
    ensures var v := Apply(w, s); forall t :: t in v.issued ==> v.issued[t].caller.issuer == issuer
  {
  }

  lemma JobIssuers(w: World, s: Step, issuer: string)
    requires OneIssuer(w, issuer) && Enabled(w, s) && FromIssuer(s, issuer)
    ensures var v := Apply(w, s); forall job :: job in v.jobs ==> v.jobs[job].attempt.caller.issuer == issuer
  {
    match s
    case Consume(_, _, _, _) => ConsumeStartsJob(w, s);
    case Acquire(_, _, _) => AcquireJob(w, s);
    case _ =>
  }

  lemma {:induction false} IssuerStays(w: World, run: seq<Step>, issuer: string)
    requires OneIssuer(w, issuer) && Legal(w, run)
    requires forall i :: 0 <= i < |run| ==> FromIssuer(run[i], issuer)
    ensures OneIssuer(Final(w, run), issuer)
    decreases |run|
  {
    if run != [] {
      GrantIssuers(w, run[0], issuer);
      JobIssuers(w, run[0], issuer);
      IssuerStays(Apply(w, run[0]), run[1..], issuer);
    }
  }

  /** Then every spend is by the issuer and subject its confirmation was prepared for. */
  lemma SpendsAreByTheSamePerson(c: Config, clock: int, run: seq<Step>, w: World, issuer: string, i: nat)
    returns (p: nat)
    requires Runs(c, clock, run, w) && (forall k :: 0 <= k < |run| ==> FromIssuer(run[k], issuer))
    requires i < |w.log| && w.log[i].Spent?
    ensures p < i && w.log[i].job in w.jobs && PreparedFor(w, p, w.log[i].job)
    ensures SameIdentity(w.log[p].caller, w.jobs[w.log[i].job].attempt.caller)
  {
    IssuerStays(Initial(c, clock), run, issuer);
    p := EverySpendWasPrepared(c, w, i);
    ReachableIsGood(c, w);
    assert EventOk(w, p);
  }
}
