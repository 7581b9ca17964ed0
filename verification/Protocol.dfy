/** Every interleaving of any number of instances over the one shared table.

    A step is one atomic action of some instance, of TTL or of the clock. A job is one `execute_*`
    call: it presents a token (one conditional update), may have to read the item to diagnose a
    failure, takes a monthly slot if it is a billable query, and finally calls its provider. Each
    clock reading `at` was taken no later than the store call it is used in. */
module Protocol {
  import opened Basics
  import opened Calendar
  import opened CanonicalJson
  import opened Store
  import opened Confirmation
  import opened Quota
  import opened Work

  /** What all instances are configured with: the confirmation lifetime and the monthly quota. */
  datatype Config = Config(ttl: int, limit: nat, quotaAction: string)

  /** A funded job keeps the month of its slot and the clock reading it was taken with. */
  datatype Phase = Diagnosing | Cleared | Funded(paid: Month, read: int) | Finished

  datatype Job = Job(attempt: Attempt, work: Work, phase: Phase)

  datatype Payment = Payment(month: Month, read: int)

  /** `when` is the clock when the entry is made, `age` how old the reading of a slot was then. */
  datatype Event =
    | Stored(token: string, caller: Caller, work: Work, expires: int)
    | Spent(job: nat, token: string, when: int)
    | Refusal(job: nat, code: Code)
    | SlotTaken(job: nat, month: Month, inMonth: bool, age: int)
    | Called(job: nat, work: Work, paidBy: Option<Payment>, when: int)
    | Swept(key: Digest)

  /** A stored confirmation and its place in the log. */
  datatype Grant = Grant(caller: Caller, work: Work, action: string, payload: Payload, digest: Digest, expires: int,
                         place: nat)

  /** The job that spent a token, and where in the log. */
  datatype Use = Use(job: nat, place: nat)

  /** `known` are the tokens that have been generated or presented; `issued`, `spent` and `swept`
      index the log. */
  datatype World = World(
    config: Config, table: Table, clock: int, jobs: map<nat, Job>, known: set<string>,
    issued: map<string, Grant>, spent: map<string, Use>, swept: set<Digest>, log: seq<Event>)

  datatype Step =
    | Tick(to: int)
    | SweepItem(key: Digest)
    | Prepare(token: string, caller: Caller, work: Work, action: string, payload: Payload, at: int, fault: Fault)
    | Consume(job: nat, attempt: Attempt, work: Work, fault: Fault)
    | Read(job: nat, readFails: bool)
    | Acquire(job: nat, now: Clock, fault: Fault)
    | CallProvider(job: nat)

  /** What `token_urlsafe` is made of. */
  predicate UrlSafe(token: string)
  {
    forall i :: 0 <= i < |token| ==> Alphanumeric(token[i]) || token[i] == '_' || token[i] == '-'
  }

  predicate Enabled(w: World, s: Step)
  {
    match s
    case Tick(to) => w.clock <= to
    case SweepItem(key) => Sweepable(w.table, key, w.clock)
    case Prepare(token, _, _, _, _, at, _) => UrlSafe(token) && token !in w.known && at <= w.clock
    case Consume(job, attempt, _, _) => job !in w.jobs && attempt.at <= w.clock
    case Read(job, _) => job in w.jobs && w.jobs[job].phase.Diagnosing?
    case Acquire(job, now, _) =>
      job in w.jobs && w.jobs[job].phase.Cleared? && w.jobs[job].work.CostCall? && Instant(now) <= w.clock
    case CallProvider(job) =>
      job in w.jobs
      && (w.jobs[job].phase.Funded? || (w.jobs[job].phase.Cleared? && !w.jobs[job].work.CostCall?))
  }

  function GrantRow(g: Grant, consumed: bool): Item
  {
    ConfirmationRow(Fingerprint(g.caller), g.action, g.digest, g.expires, consumed)
  }

  /** The confirmation reaches the table. */
  function PutGrant(w: World, token: string, g: Grant): World
  {
    w.(known := w.known + {token}, table := w.table[TokenDigest(token) := GrantRow(g, false)],
       issued := w.issued[token := g], log := w.log + [Stored(token, g.caller, g.work, g.expires)])
  }

  function DoPrepare(w: World, s: Step): World
    requires s.Prepare?
  {
    match PayloadDigest(s.payload)
    case TooLarge => w.(known := w.known + {s.token})
    case Digested(digest) =>
      var g := Grant(s.caller, s.work, s.action, s.payload, digest, Epoch(s.at + w.config.ttl), |w.log|);
      if TokenDigest(s.token) in w.table || s.fault.RequestLost? then w.(known := w.known + {s.token})
      else PutGrant(w, s.token, g)
  }

  /** The table after a prepare is what its conditional put leaves. */
  lemma PrepareIsOnePut(w: World, s: Step)
    requires s.Prepare? && PayloadDigest(s.payload).Digested?
    ensures var key := TokenDigest(s.token);
            var row := ConfirmationRow(Fingerprint(s.caller), s.action, PayloadDigest(s.payload).digest,
                                       Epoch(s.at + w.config.ttl), false);
            DoPrepare(w, s).table == ConditionalWrite(w.table, key, key !in w.table, row, s.fault).table
  {
  }

  /** The update of an attempt takes effect. */
  predicate Applies(t: Table, a: Attempt, fault: Fault)
  {
    && !fault.RequestLost? && PayloadDigest(a.payload).Digested?
    && ConsumeAllowed(Lookup(t, TokenDigest(a.token)), a, PayloadDigest(a.payload).digest)
  }

  function DoConsume(w: World, s: Step): World
    requires s.Consume?
  {
    var a := s.attempt;
    var r := ConsumeUpdate(w.table, a, s.fault);
    var phase := match r.reply case Done => Cleared case ConditionFailed => Diagnosing case NoAnswer => Finished;
    var told := if r.reply.NoAnswer? then [Refusal(s.job, StoreUnavailable)] else [];
    var v := w.(table := r.table, jobs := w.jobs[s.job := Job(a, s.work, phase)], known := w.known + {a.token});
    if Applies(w.table, a, s.fault) then
      v.(spent := w.spent[a.token := Use(s.job, |w.log|)], log := w.log + [Spent(s.job, a.token, w.clock)] + told)
    else v.(log := w.log + told)
  }

  function SetPhase(jobs: map<nat, Job>, job: nat, phase: Phase): map<nat, Job>
    requires job in jobs
  {
    jobs[job := jobs[job].(phase := phase)]
  }

  function DoRead(w: World, s: Step): World
    requires s.Read? && s.job in w.jobs
  {
    var a := w.jobs[s.job].attempt;
    var code := if s.readFails then StoreUnavailable else Diagnose(Lookup(w.table, TokenDigest(a.token)), a);
    w.(jobs := SetPhase(w.jobs, s.job, Finished), log := w.log + [Refusal(s.job, code)])
  }

  /** The counter update of an acquire takes effect. */
  predicate TakesSlot(c: Config, t: Table, now: Clock, fault: Fault)
  {
    HasNextMonth(MonthOf(now)) && !fault.RequestLost?
    && CountAllows(Lookup(t, QuotaKey(c.quotaAction, MonthOf(now))), c.limit)
  }

  /** The entry of an acquire that takes a slot. */
  function SlotEntry(w: World, s: Step): (e: Event)
    requires s.Acquire?
    ensures e.SlotTaken? && e.month == MonthOf(s.now)
  {
    var m := MonthOf(s.now);
    SlotTaken(s.job, m, w.clock < MonthEnd(m), w.clock - Instant(s.now))
  }

  function DoAcquire(w: World, s: Step): World
    requires s.Acquire? && s.job in w.jobs
  {
    var m := MonthOf(s.now);
    var r := AcquireUpdate(w.table, w.config.quotaAction, w.config.limit, s.now, s.fault);
    var v := w.(table := r.table,
                jobs := SetPhase(w.jobs, s.job,
                                 if SlotOf(r.reply, m) == Acquired then Funded(m, Instant(s.now)) else Finished));
    if TakesSlot(w.config, w.table, s.now, s.fault) then v.(log := w.log + [SlotEntry(w, s)]) else v
  }

  function PaymentOf(phase: Phase): Option<Payment>
  {
    if phase.Funded? then Some(Payment(phase.paid, phase.read)) else None
  }

  function DoCall(w: World, s: Step): World
    requires s.CallProvider? && s.job in w.jobs
  {
    w.(jobs := SetPhase(w.jobs, s.job, Finished),
       log := w.log + [Called(s.job, w.jobs[s.job].work, PaymentOf(w.jobs[s.job].phase), w.clock)])
  }

  function Apply(w: World, s: Step): World
    requires Enabled(w, s)
  {
    match s
    case Tick(to) => w.(clock := to)
    case SweepItem(key) => w.(table := Sweep(w.table, key), swept := w.swept + {key}, log := w.log + [Swept(key)])
    case Prepare(_, _, _, _, _, _, _) => DoPrepare(w, s)
    case Consume(_, _, _, _) => DoConsume(w, s)
    case Read(_, _) => DoRead(w, s)
    case Acquire(_, _, _) => DoAcquire(w, s)
    case CallProvider(_) => DoCall(w, s)
  }

  function Initial(config: Config, clock: int): World
  {
    World(config, map[], clock, map[], {}, map[], map[], {}, [])
  }

  predicate Legal(w: World, run: seq<Step>)
    decreases |run|
  {
    run == [] || (Enabled(w, run[0]) && Legal(Apply(w, run[0]), run[1..]))
  }

  function Final(w: World, run: seq<Step>): World
    requires Legal(w, run)
    decreases |run|
  {
    if run == [] then w else Final(Apply(w, run[0]), run[1..])
  }

  // ---------------------------------------------------------------- what every step keeps

  ghost predicate IsQuotaKey(c: Config, key: Digest)
  {
    exists m: Month :: ValidMonth(m) && key == QuotaKey(c.quotaAction, m)
  }

  lemma TokensAreNotQuotaKeys(c: Config, token: string)
    requires UrlSafe(token)
    ensures !IsQuotaKey(c, TokenDigest(token))
  {
    forall m: Month | ValidMonth(m) ensures TokenDigest(token) != QuotaKey(c.quotaAction, m) {
      var text := c.quotaAction + ":" + PeriodText(m);
      assert text[|c.quotaAction|] == ':' && !UrlSafe(text);
    }
  }

  ghost predicate GrantOk(w: World, t: string)
    requires t in w.issued
  {
    var g := w.issued[t];
    && t in w.known && UrlSafe(t) && PayloadDigest(g.payload) == Digested(g.digest)
    && (TokenDigest(t) in w.table || TokenDigest(t) in w.swept)
  }

  /** The attempt is the one the grant was made for, and the grant had not expired. */
  predicate Matches(g: Grant, a: Attempt)
  {
    && Fingerprint(g.caller) == Fingerprint(a.caller) && g.action == a.action
    && PayloadDigest(a.payload) == Digested(g.digest) && Epoch(a.at) < g.expires
  }

  ghost predicate UseOk(w: World, t: string)
    requires t in w.spent
  {
    var job := w.spent[t].job;
    && t in w.issued && job in w.jobs && w.jobs[job].attempt.token == t
    && Matches(w.issued[t], w.jobs[job].attempt)
  }

  ghost predicate RowOk(w: World, key: Digest)
    requires key in w.table
  {
    if IsQuotaKey(w.config, key) then IsConsumed !in w.table[key]
    else key.preimage in w.issued && w.table[key] == GrantRow(w.issued[key.preimage], key.preimage in w.spent)
  }

  ghost predicate JobOk(w: World, job: nat)
    requires job in w.jobs
  {
    var j := w.jobs[job];
    && j.attempt.token in w.known
    && (j.phase.Diagnosing? ==> PayloadDigest(j.attempt.payload).Digested? && !Applies(w.table, j.attempt, NoFault))
    && (j.phase.Cleared? || j.phase.Funded? ==> j.attempt.token in w.spent && w.spent[j.attempt.token].job == job)
    && (j.phase.Funded? ==> j.work.CostCall? && ValidMonth(j.phase.paid))
  }

  /** What a refusal says about the token's history, `i` being the refusal's place in the log. */
  ghost predicate VerdictSound(w: World, a: Attempt, code: Code, i: nat)
  {
    var stored := a.token in w.issued;
    match code
    case Invalid => !stored || TokenDigest(a.token) in w.swept
    case Replayed => a.token in w.spent && w.spent[a.token].place < i
    case Expired => stored && w.issued[a.token].expires <= Epoch(a.at)
    case CallerMismatch => stored && Fingerprint(w.issued[a.token].caller) != Fingerprint(a.caller)
    case ActionMismatch => stored && w.issued[a.token].action != a.action
    case PayloadMismatch =>
      && stored && Epoch(a.at) < w.issued[a.token].expires
      && Fingerprint(w.issued[a.token].caller) == Fingerprint(a.caller) && w.issued[a.token].action == a.action
      && PayloadDigest(a.payload) != Digested(w.issued[a.token].digest)
    case StoreInvalid => IsQuotaKey(w.config, TokenDigest(a.token))
    case StoreUnavailable => true
    case PayloadTooLarge => false
  }

  /** What each entry of the log stands for. */
  ghost predicate EventOk(w: World, i: nat)
    requires i < |w.log|
  {
    match w.log[i]
    case Stored(token, caller, work, expires) =>
      token in w.issued
      && var g := w.issued[token]; g.place == i && g.caller == caller && g.work == work && g.expires == expires
    case Spent(job, token, when) =>
      && token in w.spent && w.spent[token] == Use(job, i) && token in w.issued && w.issued[token].place < i
      && job in w.jobs && w.jobs[job].attempt.at <= when
    case Refusal(job, code) => job in w.jobs && VerdictSound(w, w.jobs[job].attempt, code, i)
    case Called(job, work, paidBy, _) =>
      job in w.jobs
      && var j := w.jobs[job];
         && j.phase.Finished? && work == j.work && (paidBy.Some? <==> work.CostCall?)
         && j.attempt.token in w.spent && w.spent[j.attempt.token].job == job && w.spent[j.attempt.token].place < i
    case SlotTaken(job, month, _, _) => job in w.jobs && ValidMonth(month)
    case Swept(key) => key in w.swept
  }

  /** No job calls its provider twice. */
  ghost predicate CallsDiffer(w: World)
  {
    forall i, k :: 0 <= i < k < |w.log| && w.log[i].Called? && w.log[k].Called? ==> w.log[i].job != w.log[k].job
  }

  /** Grants, uses, items and jobs agree with each other. */
  ghost predicate BooksOk(w: World)
  {
    && (forall t :: t in w.issued ==> GrantOk(w, t) && w.issued[t].place < |w.log|)
    && (forall t :: t in w.spent ==> UseOk(w, t) && w.spent[t].place < |w.log|)
    && (forall key :: key in w.table ==> RowOk(w, key))
    && (forall job :: job in w.jobs ==> JobOk(w, job))
  }

  ghost predicate LogOk(w: World)
  {
    (forall i :: 0 <= i < |w.log| ==> EventOk(w, i)) && CallsDiffer(w)
  }

  ghost predicate LedgerOk(w: World)
  {
    BooksOk(w) && LogOk(w)
  }
}
