/** Every step of the protocol keeps the ledger of tokens, items, jobs and provider calls. */
module Ledger {
  import opened Basics
  import opened Calendar
  import opened CanonicalJson
  import opened Store
  import opened Confirmation
  import opened Quota
  import opened Work
  import opened Protocol

  /** What steps may change: the indices only grow, a token is stored only if nobody knew it,
      and jobs keep what they were started with. */
  ghost predicate Grows(w: World, v: World)
  {
    && |w.log| <= |v.log| && (forall i :: 0 <= i < |w.log| ==> v.log[i] == w.log[i])
    && v.config == w.config && w.known <= v.known && w.swept <= v.swept
    && (forall t :: t in w.issued ==> t in v.issued && v.issued[t] == w.issued[t])
    && (forall t :: t in v.issued && t !in w.issued ==> t !in w.known)
    && (forall t :: t in w.spent ==> t in v.spent && v.spent[t] == w.spent[t])
    && (forall job :: job in w.jobs ==> job in v.jobs && v.jobs[job] == w.jobs[job].(phase := v.jobs[job].phase))
    && (forall job :: job in w.jobs && w.jobs[job].phase.Finished? ==> v.jobs[job].phase.Finished?)
  }

  lemma VerdictStays(w: World, v: World, a: Attempt, code: Code, i: nat)
    requires Grows(w, v) && a.token in w.known && VerdictSound(w, a, code, i)
    ensures VerdictSound(v, a, code, i)
  {
  }

  /** What an old log entry stands for never changes. */
  lemma EventStays(w: World, v: World, i: nat)
    requires Grows(w, v) && i < |w.log| && EventOk(w, i)
    requires w.log[i].Refusal? ==> JobOk(w, w.log[i].job)
    ensures EventOk(v, i)
  {
    assert v.log[i] == w.log[i];
    match w.log[i] {
      case Refusal(job, code) => VerdictStays(w, v, w.jobs[job].attempt, code, i);
      case _ =>
    }
  }

  lemma EventsStay(w: World, v: World)
    requires LedgerOk(w) && Grows(w, v) && |v.log| <= |w.log| + 1
    requires |v.log| > |w.log| ==> EventOk(v, |w.log|)
    ensures forall i :: 0 <= i < |v.log| ==> EventOk(v, i)
  {
    forall i | 0 <= i < |v.log| ensures EventOk(v, i) {
      if i < |w.log| {
        assert EventOk(w, i);
        if w.log[i].Refusal? { assert JobOk(w, w.log[i].job); }
        EventStays(w, v, i);
      }
    }
  }

  /** If the step adds a provider call, it is its job's first. */
  predicate FirstCall(w: World, v: World)
  {
    |v.log| > |w.log| && v.log[|w.log|].Called? ==>
      forall i :: 0 <= i < |w.log| && w.log[i].Called? ==> w.log[i].job != v.log[|w.log|].job
  }

  /** The log stays right if the step answers for the entry it adds. */
  lemma LogStays(w: World, v: World)
    requires LedgerOk(w) && Grows(w, v) && |v.log| <= |w.log| + 1 && FirstCall(w, v)
    requires |v.log| > |w.log| ==> EventOk(v, |w.log|)
    ensures LogOk(v)
  {
    EventsStay(w, v);
  }

  // ---------------------------------------------------------------- clock, TTL, prepare

  /** Books that mention neither the clock nor the log's length survive a change of both. */
  lemma SameBooks(w: World, v: World)
    requires BooksOk(w) && Grows(w, v)
    requires v.table == w.table && v.jobs == w.jobs && v.issued == w.issued && v.spent == w.spent
    ensures BooksOk(v)
  {
    forall t | t in v.issued ensures GrantOk(v, t) { assert GrantOk(w, t); }
    forall t | t in v.spent ensures UseOk(v, t) { assert UseOk(w, t); }
    forall key | key in v.table ensures RowOk(v, key) { assert RowOk(w, key); }
    forall job | job in v.jobs ensures JobOk(v, job) { assert JobOk(w, job); }
  }

  lemma TickKeeps(w: World, to: int)
    requires LedgerOk(w)
    ensures LedgerOk(w.(clock := to)) && Grows(w, w.(clock := to))
  {
    SameBooks(w, w.(clock := to));
    LogStays(w, w.(clock := to));
  }

  lemma KnownKeeps(w: World, token: string)
    requires LedgerOk(w)
    ensures var v := w.(known := w.known + {token}); LedgerOk(v) && Grows(w, v)
  {
    SameBooks(w, w.(known := w.known + {token}));
    LogStays(w, w.(known := w.known + {token}));
  }

  function Remove(w: World, key: Digest): World
  {
    w.(table := Sweep(w.table, key), swept := w.swept + {key}, log := w.log + [Swept(key)])
  }

  lemma RemoveBooks(w: World, key: Digest)
    requires BooksOk(w)
    ensures BooksOk(Remove(w, key)) && Grows(w, Remove(w, key))
  {
    var v := Remove(w, key);
    forall t | t in v.issued ensures GrantOk(v, t) { assert GrantOk(w, t); }
    forall t | t in v.spent ensures UseOk(v, t) { assert UseOk(w, t); }
    forall k | k in v.table ensures RowOk(v, k) { assert RowOk(w, k); }
    forall job | job in v.jobs ensures JobOk(v, job) { assert JobOk(w, job); }
  }

  lemma SweepKeeps(w: World, key: Digest)
    requires LedgerOk(w)
    ensures LedgerOk(Remove(w, key)) && Grows(w, Remove(w, key))
  {
    RemoveBooks(w, key);
    LogStays(w, Remove(w, key));
  }

  lemma NoRowYet(w: World, token: string)
    requires BooksOk(w) && token !in w.known && UrlSafe(token)
    ensures token !in w.issued && token !in w.spent && TokenDigest(token) !in w.table
  {
    TokensAreNotQuotaKeys(w.config, token);
    assert token in w.issued ==> GrantOk(w, token);
    assert token in w.spent ==> UseOk(w, token);
    assert TokenDigest(token) in w.table ==> RowOk(w, TokenDigest(token));
  }

  lemma PutJobs(w: World, token: string, g: Grant)
    requires BooksOk(w) && token !in w.known
    ensures var v := PutGrant(w, token, g); forall job :: job in v.jobs ==> JobOk(v, job)
  {
    var v := PutGrant(w, token, g);
    forall job | job in v.jobs ensures JobOk(v, job) {
      assert JobOk(w, job);
      var a := w.jobs[job].attempt;
      assert Lookup(v.table, TokenDigest(a.token)) == Lookup(w.table, TokenDigest(a.token));
    }
  }

  lemma PutRows(w: World, token: string, g: Grant)
    requires BooksOk(w) && token !in w.known && UrlSafe(token)
    ensures var v := PutGrant(w, token, g); forall k :: k in v.table ==> RowOk(v, k)
  {
    var v := PutGrant(w, token, g);
    NoRowYet(w, token);
    TokensAreNotQuotaKeys(w.config, token);
    forall k | k in v.table ensures RowOk(v, k) { if k != TokenDigest(token) { assert RowOk(w, k); } }
  }

  lemma PutBooks(w: World, token: string, g: Grant)
    requires BooksOk(w) && token !in w.known && UrlSafe(token)
    requires PayloadDigest(g.payload) == Digested(g.digest) && g.place == |w.log|
    ensures BooksOk(PutGrant(w, token, g))
  {
    var v := PutGrant(w, token, g);
    NoRowYet(w, token);
    forall t | t in v.issued ensures GrantOk(v, t) { if t in w.issued { assert GrantOk(w, t); } }
    forall t | t in v.spent ensures UseOk(v, t) { assert UseOk(w, t); }
    PutRows(w, token, g);
    PutJobs(w, token, g);
  }

  lemma PutGrows(w: World, token: string, g: Grant)
    requires token !in w.known && token !in w.issued
    ensures Grows(w, PutGrant(w, token, g))
  {
  }

  lemma PutKeeps(w: World, token: string, g: Grant)
    requires LedgerOk(w) && token !in w.known && UrlSafe(token)
    requires PayloadDigest(g.payload) == Digested(g.digest) && g.place == |w.log|
    ensures LedgerOk(PutGrant(w, token, g)) && Grows(w, PutGrant(w, token, g))
  {
    NoRowYet(w, token);
    PutBooks(w, token, g);
    PutGrows(w, token, g);
    LogStays(w, PutGrant(w, token, g));
  }

  lemma PrepareCases(w: World, s: Step) returns (g: Grant)
    requires s.Prepare?
    ensures DoPrepare(w, s) == w.(known := w.known + {s.token})
            || (DoPrepare(w, s) == PutGrant(w, s.token, g)
                && PayloadDigest(g.payload) == Digested(g.digest) && g.place == |w.log|)
  {
    var digest := match PayloadDigest(s.payload) case Digested(d) => d case TooLarge => Sha256("");
    g := Grant(s.caller, s.work, s.action, s.payload, digest, Epoch(s.at + w.config.ttl), |w.log|);
  }

  lemma PrepareKeeps(w: World, s: Step)
    requires LedgerOk(w) && Enabled(w, s) && s.Prepare?
    ensures LedgerOk(DoPrepare(w, s)) && Grows(w, DoPrepare(w, s))
  {
    var g := PrepareCases(w, s);
    if DoPrepare(w, s) == w.(known := w.known + {s.token}) {
      KnownKeeps(w, s.token);
    } else {
      PutKeeps(w, s.token, g);
    }
  }

  // ---------------------------------------------------------------- consume

  lemma RowAllows(g: Grant, consumed: bool, a: Attempt, digest: Digest)
    ensures ConsumeAllowed(Some(GrantRow(g, consumed)), a, digest)
            <==> !consumed && Epoch(a.at) < g.expires && Fingerprint(g.caller) == Fingerprint(a.caller)
                 && g.action == a.action && g.digest == digest
    ensures MarkedRow(Some(GrantRow(g, consumed))) == GrantRow(g, true)
  {
    var row := GrantRow(g, consumed);
    assert row[IsConsumed] == BOOL(consumed) && row[ExpiresAt] == N(g.expires) && row[PayloadHash] == S(Hash(g.digest));
    assert row[CallerFingerprint] == S(Hash(Fingerprint(g.caller))) && row[Action] == S(Plain(g.action));
  }

  lemma RowDiagnosis(g: Grant, consumed: bool, a: Attempt)
    ensures Diagnose(Some(GrantRow(g, consumed)), a)
         == if consumed then Replayed
            else if g.expires <= Epoch(a.at) then Expired
            else if Fingerprint(g.caller) != Fingerprint(a.caller) then CallerMismatch
            else if g.action != a.action then ActionMismatch
            else PayloadMismatch
  {
    var row := GrantRow(g, consumed);
    assert row[IsConsumed] == BOOL(consumed) && row[ExpiresAt] == N(g.expires);
    assert row[CallerFingerprint] == S(Hash(Fingerprint(g.caller))) && row[Action] == S(Plain(g.action));
  }

  /** An update only takes effect on the unspent grant it was meant for. */
  lemma AppliedMatches(w: World, a: Attempt)
    requires TokenDigest(a.token) in w.table ==> RowOk(w, TokenDigest(a.token))
    requires Applies(w.table, a, NoFault)
    ensures a.token in w.issued && a.token !in w.spent && Matches(w.issued[a.token], a)
    ensures !IsQuotaKey(w.config, TokenDigest(a.token))
    ensures MarkedRow(Lookup(w.table, TokenDigest(a.token))) == GrantRow(w.issued[a.token], true)
  {
    RowAllows(w.issued[a.token], a.token in w.spent, a, PayloadDigest(a.payload).digest);
  }

  lemma DiagnosisSound(w: World, a: Attempt)
    requires TokenDigest(a.token) in w.table ==> RowOk(w, TokenDigest(a.token))
    requires a.token in w.issued ==> GrantOk(w, a.token)
    requires a.token in w.spent ==> w.spent[a.token].place < |w.log|
    requires PayloadDigest(a.payload).Digested? && !Applies(w.table, a, NoFault)
    ensures VerdictSound(w, a, Diagnose(Lookup(w.table, TokenDigest(a.token)), a), |w.log|)
  {
    var key := TokenDigest(a.token);
    if key in w.table && !IsQuotaKey(w.config, key) {
      RowAllows(w.issued[a.token], a.token in w.spent, a, PayloadDigest(a.payload).digest);
      RowDiagnosis(w.issued[a.token], a.token in w.spent, a);
    }
  }

  /** A job is started; this touches no token. */
  function Start(w: World, job: nat, j: Job): World
  {
    w.(jobs := w.jobs[job := j], known := w.known + {j.attempt.token})
  }

  /** A job is started and its update takes effect: the token's item is marked. */
  function Spend(w: World, job: nat, j: Job): World
    requires j.attempt.token in w.issued
  {
    var t := j.attempt.token;
    Start(w, job, j).(table := w.table[TokenDigest(t) := GrantRow(w.issued[t], true)],
                      spent := w.spent[t := Use(job, |w.log|)], log := w.log + [Spent(job, t, w.clock)])
  }

  function Refuse(w: World, job: nat, code: Code): World
  {
    w.(log := w.log + [Refusal(job, code)])
  }

  lemma ConsumeApplied(w: World, s: Step)
    requires s.Consume? && (TokenDigest(s.attempt.token) in w.table ==> RowOk(w, TokenDigest(s.attempt.token)))
    requires Applies(w.table, s.attempt, s.fault)
    ensures var a := s.attempt;
            && a.token in w.issued && a.token !in w.spent && Matches(w.issued[a.token], a)
            && !IsQuotaKey(w.config, TokenDigest(a.token))
            && DoConsume(w, s) == if s.fault.NoFault? then Spend(w, s.job, Job(a, s.work, Cleared))
                                  else Refuse(Spend(w, s.job, Job(a, s.work, Finished)), s.job, StoreUnavailable)
  {
    AppliedMatches(w, s.attempt);
  }

  lemma ConsumeNotApplied(w: World, s: Step)
    requires s.Consume? && !Applies(w.table, s.attempt, s.fault)
    ensures var a := s.attempt;
            if PayloadDigest(a.payload).Digested? && s.fault.NoFault? then
              !Applies(w.table, a, NoFault) && DoConsume(w, s) == Start(w, s.job, Job(a, s.work, Diagnosing))
            else DoConsume(w, s) == Refuse(Start(w, s.job, Job(a, s.work, Finished)), s.job, StoreUnavailable)
  {
  }

  lemma StartBooks(w: World, job: nat, j: Job)
    requires BooksOk(w) && job !in w.jobs
    requires j.phase.Finished?
             || (j.phase.Diagnosing? && PayloadDigest(j.attempt.payload).Digested?
                 && !Applies(w.table, j.attempt, NoFault))
    ensures BooksOk(Start(w, job, j)) && Grows(w, Start(w, job, j))
  {
    var v := Start(w, job, j);
    forall t | t in v.issued ensures GrantOk(v, t) { assert GrantOk(w, t); }
    forall t | t in v.spent ensures UseOk(v, t) { assert UseOk(w, t); }
    forall k | k in v.table ensures RowOk(v, k) { assert RowOk(w, k); }
    forall i | i in v.jobs ensures JobOk(v, i) { if i != job { assert JobOk(w, i); } }
  }

  lemma MarkedStaysRefused(w: World, job: nat, j: Job, a: Attempt)
    requires j.attempt.token in w.issued && !Applies(w.table, a, NoFault)
    ensures !Applies(Spend(w, job, j).table, a, NoFault)
  {
    if a.token == j.attempt.token && PayloadDigest(a.payload).Digested? {
      RowAllows(w.issued[a.token], true, a, PayloadDigest(a.payload).digest);
    }
  }

  lemma SpendJobs(w: World, job: nat, j: Job)
    requires BooksOk(w) && job !in w.jobs && (j.phase.Cleared? || j.phase.Finished?)
    requires j.attempt.token in w.issued && j.attempt.token !in w.spent
    ensures var v := Spend(w, job, j); forall i :: i in v.jobs ==> JobOk(v, i)
  {
    var v := Spend(w, job, j);
    forall i | i in v.jobs ensures JobOk(v, i) {
      if i != job {
        assert JobOk(w, i);
        if w.jobs[i].phase.Diagnosing? { MarkedStaysRefused(w, job, j, w.jobs[i].attempt); }
      }
    }
  }

  lemma SpendRows(w: World, job: nat, j: Job)
    requires BooksOk(w) && j.attempt.token in w.issued && !IsQuotaKey(w.config, TokenDigest(j.attempt.token))
    ensures var v := Spend(w, job, j); forall k :: k in v.table ==> RowOk(v, k)
  {
    var v := Spend(w, job, j);
    forall k | k in v.table ensures RowOk(v, k) { if k != TokenDigest(j.attempt.token) { assert RowOk(w, k); } }
  }

  lemma SpendUses(w: World, job: nat, j: Job)
    requires BooksOk(w) && job !in w.jobs && j.attempt.token in w.issued
    requires Matches(w.issued[j.attempt.token], j.attempt)
    ensures var v := Spend(w, job, j); forall t :: t in v.spent ==> UseOk(v, t) && v.spent[t].place < |v.log|
  {
    var v := Spend(w, job, j);
    forall t | t in v.spent ensures UseOk(v, t) && v.spent[t].place < |v.log| {
      if t != j.attempt.token { assert UseOk(w, t); }
    }
  }

  lemma SpendBooks(w: World, job: nat, j: Job)
    requires BooksOk(w) && job !in w.jobs && (j.phase.Cleared? || j.phase.Finished?)
    requires j.attempt.token in w.issued && j.attempt.token !in w.spent && Matches(w.issued[j.attempt.token], j.attempt)
    requires !IsQuotaKey(w.config, TokenDigest(j.attempt.token))
    ensures BooksOk(Spend(w, job, j))
  {
    var v := Spend(w, job, j);
    forall t | t in v.issued ensures GrantOk(v, t) { assert GrantOk(w, t); }
    SpendUses(w, job, j);
    SpendRows(w, job, j);
    SpendJobs(w, job, j);
  }

  lemma SpendGrows(w: World, job: nat, j: Job)
    requires job !in w.jobs && j.attempt.token in w.issued && j.attempt.token !in w.spent
    ensures Grows(w, Spend(w, job, j))
  {
  }

  lemma RefuseKeeps(w: World, job: nat, code: Code)
    requires LedgerOk(w) && job in w.jobs && VerdictSound(w, w.jobs[job].attempt, code, |w.log|)
    ensures LedgerOk(Refuse(w, job, code)) && Grows(w, Refuse(w, job, code))
  {
    SameBooks(w, Refuse(w, job, code));
    LogStays(w, Refuse(w, job, code));
  }

  lemma SpendKeeps(w: World, job: nat, j: Job)
    requires LedgerOk(w) && job !in w.jobs && (j.phase.Cleared? || j.phase.Finished?) && j.attempt.at <= w.clock
    requires j.attempt.token in w.issued && j.attempt.token !in w.spent && Matches(w.issued[j.attempt.token], j.attempt)
    requires !IsQuotaKey(w.config, TokenDigest(j.attempt.token))
    ensures LedgerOk(Spend(w, job, j)) && Grows(w, Spend(w, job, j))
  {
    SpendBooks(w, job, j);
    SpendGrows(w, job, j);
    LogStays(w, Spend(w, job, j));
  }

  lemma StartKeeps(w: World, job: nat, j: Job)
    requires LedgerOk(w) && job !in w.jobs
    requires j.phase.Finished?
             || (j.phase.Diagnosing? && PayloadDigest(j.attempt.payload).Digested?
                 && !Applies(w.table, j.attempt, NoFault))
    ensures LedgerOk(Start(w, job, j)) && Grows(w, Start(w, job, j))
  {
    StartBooks(w, job, j);
    LogStays(w, Start(w, job, j));
  }

  lemma StartAndRefuse(w: World, job: nat, j: Job)
    requires LedgerOk(w) && job !in w.jobs && j.phase.Finished?
    ensures var v := Refuse(Start(w, job, j), job, StoreUnavailable); LedgerOk(v) && Grows(w, v)
  {
    StartKeeps(w, job, j);
    RefuseKeeps(Start(w, job, j), job, StoreUnavailable);
  }

  lemma SpendAndRefuse(w: World, job: nat, j: Job)
    requires LedgerOk(w) && job !in w.jobs && j.phase.Finished? && j.attempt.at <= w.clock
    requires j.attempt.token in w.issued && j.attempt.token !in w.spent && Matches(w.issued[j.attempt.token], j.attempt)
    requires !IsQuotaKey(w.config, TokenDigest(j.attempt.token))
    ensures var v := Refuse(Spend(w, job, j), job, StoreUnavailable); LedgerOk(v) && Grows(w, v)
  {
    SpendKeeps(w, job, j);
    RefuseKeeps(Spend(w, job, j), job, StoreUnavailable);
  }

  lemma ConsumeKeeps(w: World, s: Step)
    requires LedgerOk(w) && Enabled(w, s) && s.Consume?
    ensures LedgerOk(DoConsume(w, s)) && Grows(w, DoConsume(w, s))
  {
    var a := s.attempt;
    if Applies(w.table, a, s.fault) {
      ConsumeApplied(w, s);
      if s.fault.NoFault? {
        SpendKeeps(w, s.job, Job(a, s.work, Cleared));
      } else {
        SpendAndRefuse(w, s.job, Job(a, s.work, Finished));
      }
    } else {
      ConsumeNotApplied(w, s);
      if PayloadDigest(a.payload).Digested? && s.fault.NoFault? {
        StartKeeps(w, s.job, Job(a, s.work, Diagnosing));
      } else {
        StartAndRefuse(w, s.job, Job(a, s.work, Finished));
      }
    }
  }

  // ---------------------------------------------------------------- read, acquire, call

  /** A job moves on. */
  function Rephase(w: World, job: nat, phase: Phase): World
    requires job in w.jobs
  {
    w.(jobs := SetPhase(w.jobs, job, phase))
  }

  lemma RephaseKeeps(w: World, job: nat, phase: Phase)
    requires LedgerOk(w) && job in w.jobs && !w.jobs[job].phase.Finished?
    requires phase.Finished?
             || (phase.Funded? && w.jobs[job].phase.Cleared? && w.jobs[job].work.CostCall? && ValidMonth(phase.paid))
    ensures LedgerOk(Rephase(w, job, phase)) && Grows(w, Rephase(w, job, phase))
  {
    var v := Rephase(w, job, phase);
    RephaseBooks(w, job, phase);
    LogStays(w, v);
  }

  lemma RephaseJobs(w: World, job: nat, phase: Phase)
    requires BooksOk(w) && job in w.jobs
    requires phase.Finished?
             || (phase.Funded? && w.jobs[job].phase.Cleared? && w.jobs[job].work.CostCall? && ValidMonth(phase.paid))
    ensures var v := Rephase(w, job, phase); forall i :: i in v.jobs ==> JobOk(v, i)
  {
    var v := Rephase(w, job, phase);
    forall i | i in v.jobs ensures JobOk(v, i) { assert JobOk(w, i); }
  }

  lemma RephaseBooks(w: World, job: nat, phase: Phase)
    requires BooksOk(w) && job in w.jobs && !w.jobs[job].phase.Finished?
    requires phase.Finished?
             || (phase.Funded? && w.jobs[job].phase.Cleared? && w.jobs[job].work.CostCall? && ValidMonth(phase.paid))
    ensures BooksOk(Rephase(w, job, phase)) && Grows(w, Rephase(w, job, phase))
  {
    var v := Rephase(w, job, phase);
    forall t | t in v.issued ensures GrantOk(v, t) { assert GrantOk(w, t); }
    forall t | t in v.spent ensures UseOk(v, t) { assert UseOk(w, t); }
    forall k | k in v.table ensures RowOk(v, k) { assert RowOk(w, k); }
    RephaseJobs(w, job, phase);
  }

  lemma ReadKeeps(w: World, s: Step)
    requires LedgerOk(w) && Enabled(w, s) && s.Read?
    ensures LedgerOk(DoRead(w, s)) && Grows(w, DoRead(w, s))
  {
    var a := w.jobs[s.job].attempt;
    var u := Rephase(w, s.job, Finished);
    assert JobOk(w, s.job);
    RephaseKeeps(w, s.job, Finished);
    DiagnosisSound(u, a);
    var code := if s.readFails then StoreUnavailable else Diagnose(Lookup(w.table, TokenDigest(a.token)), a);
    RefuseKeeps(u, s.job, code);
    assert DoRead(w, s) == Refuse(u, s.job, code);
  }

  /** The counter of a month is written, and the slot logged. */
  function WriteCounter(w: World, e: Event, row: Item): World
    requires e.SlotTaken? && ValidMonth(e.month)
  {
    w.(table := w.table[QuotaKey(w.config.quotaAction, e.month) := row], log := w.log + [e])
  }

  lemma CounterBooks(w: World, e: Event, row: Item)
    requires BooksOk(w) && e.SlotTaken? && ValidMonth(e.month) && IsConsumed !in row
    ensures BooksOk(WriteCounter(w, e, row)) && Grows(w, WriteCounter(w, e, row))
  {
    var v := WriteCounter(w, e, row);
    var key := QuotaKey(w.config.quotaAction, e.month);
    assert IsQuotaKey(w.config, key);
    forall t | t in v.issued ensures GrantOk(v, t) { assert GrantOk(w, t); }
    forall t | t in v.spent ensures UseOk(v, t) { assert UseOk(w, t); }
    forall k | k in v.table ensures RowOk(v, k) { if k != key { assert RowOk(w, k); } }
    forall i | i in v.jobs ensures JobOk(v, i) {
      assert JobOk(w, i);
      CounterRefuses(w, v, w.jobs[i].attempt, key);
    }
  }

  /** An attempt on a counter's key is refused before and after the counter changes. */
  lemma CounterRefuses(w: World, v: World, a: Attempt, key: Digest)
    requires IsQuotaKey(w.config, key) && key in v.table && IsConsumed !in v.table[key]
    requires forall k :: k != key ==> Lookup(v.table, k) == Lookup(w.table, k)
    ensures !Applies(w.table, a, NoFault) ==> !Applies(v.table, a, NoFault)
  {
    if TokenDigest(a.token) != key {
      assert Lookup(v.table, TokenDigest(a.token)) == Lookup(w.table, TokenDigest(a.token));
    }
  }

  lemma CounterKeeps(w: World, e: Event, row: Item)
    requires LedgerOk(w) && e.SlotTaken? && ValidMonth(e.month) && IsConsumed !in row && e.job in w.jobs
    ensures LedgerOk(WriteCounter(w, e, row)) && Grows(w, WriteCounter(w, e, row))
  {
    CounterBooks(w, e, row);
    LogStays(w, WriteCounter(w, e, row));
  }

  lemma CounterIsNoConfirmation(w: World, m: Month)
    requires BooksOk(w) && ValidMonth(m)
    ensures var row := Lookup(w.table, QuotaKey(w.config.quotaAction, m)); row.Some? ==> IsConsumed !in row.value
  {
    var key := QuotaKey(w.config.quotaAction, m);
    assert IsQuotaKey(w.config, key);
    assert key in w.table ==> RowOk(w, key);
  }

  lemma CountedIsNoConfirmation(w: World, s: Step, row: Item)
    requires BooksOk(w) && s.Acquire?
    requires var m := MonthOf(s.now);
             row == CountedRow(Lookup(w.table, QuotaKey(w.config.quotaAction, m)), Epoch(MonthEnd(m)))
    ensures IsConsumed !in row
  {
    CounterIsNoConfirmation(w, MonthOf(s.now));
  }

  /** The job of an acquire moves on, and the counter is written if the update takes effect. */
  lemma AcquireCases(w: World, s: Step) returns (phase: Phase, row: Item)
    requires s.Acquire? && s.job in w.jobs
    ensures phase == Finished || phase == Funded(MonthOf(s.now), Instant(s.now))
    ensures phase.Funded? ==> TakesSlot(w.config, w.table, s.now, s.fault)
    ensures var m := MonthOf(s.now);
            row == CountedRow(Lookup(w.table, QuotaKey(w.config.quotaAction, m)), Epoch(MonthEnd(m)))
    ensures var u := Rephase(w, s.job, phase);
            if TakesSlot(w.config, w.table, s.now, s.fault)
            then DoAcquire(w, s) == WriteCounter(u, SlotEntry(w, s), row)
            else DoAcquire(w, s) == u
  {
    var m := MonthOf(s.now);
    var slot := SlotOf(AcquireUpdate(w.table, w.config.quotaAction, w.config.limit, s.now, s.fault).reply, m);
    phase := if slot == Acquired then Funded(m, Instant(s.now)) else Finished;
    row := CountedRow(Lookup(w.table, QuotaKey(w.config.quotaAction, m)), Epoch(MonthEnd(m)));
  }

  lemma AcquireKeeps(w: World, s: Step)
    requires LedgerOk(w) && Enabled(w, s) && s.Acquire?
    ensures LedgerOk(DoAcquire(w, s)) && Grows(w, DoAcquire(w, s))
  {
    var phase, row := AcquireCases(w, s);
    CountedIsNoConfirmation(w, s, row);
    RephaseKeeps(w, s.job, phase);
    if TakesSlot(w.config, w.table, s.now, s.fault) {
      CounterKeeps(Rephase(w, s.job, phase), SlotEntry(w, s), row);
    }
  }

  /** Only a job that has not called yet can call. */
  lemma NotCalledYet(w: World, job: nat, i: nat)
    requires LogOk(w) && job in w.jobs && !w.jobs[job].phase.Finished? && i < |w.log| && w.log[i].Called?
    ensures w.log[i].job != job
  {
    assert EventOk(w, i);
  }

  function LogCall(w: World, job: nat, paidBy: Option<Payment>): World
    requires job in w.jobs
  {
    w.(log := w.log + [Called(job, w.jobs[job].work, paidBy, w.clock)])
  }

  lemma LogCallEvent(w: World, job: nat, paidBy: Option<Payment>)
    requires BooksOk(w) && job in w.jobs && w.jobs[job].phase.Finished?
    requires w.jobs[job].attempt.token in w.spent && w.spent[w.jobs[job].attempt.token].job == job
    requires paidBy.Some? <==> w.jobs[job].work.CostCall?
    ensures EventOk(LogCall(w, job, paidBy), |w.log|)
  {
    assert UseOk(w, w.jobs[job].attempt.token);
  }

  lemma LogCallKeeps(w: World, job: nat, paidBy: Option<Payment>)
    requires LedgerOk(w) && job in w.jobs && EventOk(LogCall(w, job, paidBy), |w.log|)
    requires forall i :: 0 <= i < |w.log| && w.log[i].Called? ==> w.log[i].job != job
    ensures LedgerOk(LogCall(w, job, paidBy)) && Grows(w, LogCall(w, job, paidBy))
  {
    SameBooks(w, LogCall(w, job, paidBy));
    LogStays(w, LogCall(w, job, paidBy));
  }

  lemma CallKeeps(w: World, s: Step)
    requires LedgerOk(w) && Enabled(w, s) && s.CallProvider?
    ensures LedgerOk(DoCall(w, s)) && Grows(w, DoCall(w, s))
  {
    var j := w.jobs[s.job];
    var paidBy := PaymentOf(j.phase);
    assert JobOk(w, s.job);
    forall i | 0 <= i < |w.log| && w.log[i].Called? ensures w.log[i].job != s.job { NotCalledYet(w, s.job, i); }
    RephaseKeeps(w, s.job, Finished);
    LogCallEvent(Rephase(w, s.job, Finished), s.job, paidBy);
    LogCallKeeps(Rephase(w, s.job, Finished), s.job, paidBy);
    assert DoCall(w, s) == LogCall(Rephase(w, s.job, Finished), s.job, paidBy);
  }

  // ---------------------------------------------------------------- whole runs

  lemma StepKeeps(w: World, s: Step)
    requires LedgerOk(w) && Enabled(w, s)
    ensures LedgerOk(Apply(w, s)) && Grows(w, Apply(w, s))
  {
    match s
    case Tick(to) => TickKeeps(w, to);
    case SweepItem(key) => SweepKeeps(w, key);
    case Prepare(_, _, _, _, _, _, _) => PrepareKeeps(w, s);
    case Consume(_, _, _, _) => ConsumeKeeps(w, s);
    case Read(_, _) => ReadKeeps(w, s);
    case Acquire(_, _, _) => AcquireKeeps(w, s);
    case CallProvider(_) => CallKeeps(w, s);
  }

  lemma {:induction false} RunKeeps(w: World, run: seq<Step>)
    requires LedgerOk(w) && Legal(w, run)
    ensures LedgerOk(Final(w, run)) && Grows(w, Final(w, run))
    decreases |run|
  {
    if run != [] {
      StepKeeps(w, run[0]);
      RunKeeps(Apply(w, run[0]), run[1..]);
    }
  }
}
