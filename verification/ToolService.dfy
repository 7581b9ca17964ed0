/** The tool service: validate, consume a confirmation, take a slot, call the provider, bound the result. */
module ToolService {
  import opened Basics
  import opened Calendar
  import opened CanonicalJson
  import CostQuery
  import opened Adapter
  import opened Store
  import opened Confirmation
  import opened Quota
  import opened Work
  import opened Protocol
  import Ledger
  import opened SharedQuota
  import opened Safety
  import opened Billing
  import opened Deployment

  const MAX_MESSAGE_CHARS: nat := 4096
  const MAX_CARD_TITLE_CHARS: nat := 256
  const MAX_CARD_DESCRIPTION_CHARS: nat := 5000

  // ---------------------------------------------------------------- providers

  /** A write adapter returns data or raises an AdapterError. */
  datatype Answer = Returned(data: Json) | FailedWith(code: string, retryable: bool)

  datatype AwsIssue = AwsIssue(code: string, retryable: bool)

  type AwsResult = AdapterResult<Json, AwsIssue>

  /** The Cost Explorer adapter may raise anything. */
  datatype CostAnswer = Usage(result: AwsResult) | CostFailed(code: string, retryable: bool) | CostRaised

  datatype Call = Wrote(work: Work, answer: Answer) | Queried(work: Work, reply: CostAnswer)

  /** The Telegram, Trello and Cost Explorer ports, with one log of their calls. */
  class Providers {
    const answers: nat -> Answer
    const costAnswers: nat -> CostAnswer
    var calls: seq<Call>

    constructor (answers: nat -> Answer, costAnswers: nat -> CostAnswer)
      ensures calls == []
    {
      this.answers := answers;
      this.costAnswers := costAnswers;
      calls := [];
    }

    method SendMessage(destination: string, message: string) returns (answer: Answer)
      modifies this
      ensures calls == old(calls) + [Wrote(Telegram(destination, message), answer)]
    {
      answer := answers(|calls|);
      calls := calls + [Wrote(Telegram(destination, message), answer)];
    }

    method CreateCard(board: string, list: string, title: string, description: string) returns (answer: Answer)
      modifies this
      ensures calls == old(calls) + [Wrote(Trello(board, list, title, description), answer)]
    {
      answer := answers(|calls|);
      calls := calls + [Wrote(Trello(board, list, title, description), answer)];
    }

    method GetCostAndUsage(query: CostQuery.Query, billingView: string) returns (reply: CostAnswer)
      modifies this
      ensures calls == old(calls) + [Queried(CostCall(query, billingView), reply)]
    {
      reply := costAnswers(|calls|);
      calls := calls + [Queried(CostCall(query, billingView), reply)];
    }
  }

  // ---------------------------------------------------------------- results

  datatype Issue =
    | OperationBlocked | DestinationNotAllowed | InvalidMessage | InvalidTitle | InvalidDescription
    | InvalidCostQuery(query: CostQuery.Code) | CostExplorerUnavailable | Unconfirmed(reason: Code)
    | QuotaExceeded | QuotaNotAvailable | CostQueryUnavailable | FromAdapter(code: string, retryable: bool)
    | ResultTooLarge

  datatype Counters = Counters(sdkRequests: int, resources: int, attempted: nat, succeeded: nat)

  const NOTHING_DONE: Counters := Counters(0, 0, 0, 0)

  datatype ToolStatus = ToolOk | ToolPartial | ToolError | ConfirmationRequired

  datatype ToolResult = ToolResult(
    status: ToolStatus, data: Json, warnings: seq<Issue>, errors: seq<Issue>, counters: Counters,
    confirmation: Option<Metadata>)

  const NO_DATA: Json := Obj([])

  /** `_cost_quota_data`. */
  const QUOTA_DATA: Json :=
    Obj([Field("read_only", Bool(true)), Field("monthly_request_limit", Int(3)),
         Field("monthly_max_api_cost_usd", Str("0.03"))])

  /** The object says what the quota is: three requests a month, for three cents. */
  predicate QuotaLimits(data: Json)
  {
    && data.Obj? && |data.fields| == 3 && Field("read_only", Bool(true)) in data.fields
    && Field("monthly_request_limit", Int(3)) in data.fields
    && Field("monthly_max_api_cost_usd", Str("0.03")) in data.fields
  }

  /** The one error told. */
  predicate Fails(r: ToolResult, issue: Issue)
  {
    |r.errors| == 1 && r.errors[0] == issue
  }

  function Failure(issue: Issue, counters: Counters): (r: ToolResult)
    ensures r.status == ToolError && Fails(r, issue) && r.counters == counters
    ensures r.data == Obj([]) && r.warnings == [] && r.confirmation.None?
  {
    ToolResult(ToolError, NO_DATA, [], [issue], counters, None)
  }

  /** Failures of a billable query, once its confirmation is consumed. */
  function QuotaFailure(issue: Issue, counters: Counters): (r: ToolResult)
    ensures r.status == ToolError && Fails(r, issue) && r.counters == counters
    ensures r.warnings == [] && r.confirmation.None? && QuotaLimits(r.data)
  {
    ToolResult(ToolError, QUOTA_DATA, [], [issue], counters, None)
  }

  /** Size of `json.dumps(data)` in UTF-8, without sorting. */
  function ResultBytes(data: Json): (n: nat)
    ensures n == |Utf8Text(Write(data))|
  {
    Utf8Decodes(Write(data));
    Utf8Length(Write(data))
  }

  /** `_bounded_result`. */
  function Bounded(data: Json, counters: Counters, status: Status, issues: seq<Issue>, maxBytes: nat): (r: ToolResult)
    ensures r.counters == counters
    ensures if ResultBytes(data) <= maxBytes then r.data == data else r == Failure(ResultTooLarge, counters)
    ensures r.confirmation.None?
    ensures ResultBytes(data) <= maxBytes ==>
              && (status.Ok? ==> r.status == ToolOk && r.warnings == [] && r.errors == [])
              && (status.Partial? ==> r.status == ToolPartial && r.warnings == issues && r.errors == [])
              && (status.Error? ==> r.status == ToolError && r.warnings == [] && r.errors == issues)
  {
    if ResultBytes(data) > maxBytes then Failure(ResultTooLarge, counters)
    else match status
      case Partial => ToolResult(ToolPartial, data, issues, [], counters, None)
      case Error => ToolResult(ToolError, data, [], issues, counters, None)
      case Ok => ToolResult(ToolOk, data, [], [], counters, None)
  }

  function FromAdapterIssues(issues: seq<AwsIssue>): (r: seq<Issue>)
    ensures |r| == |issues|
    ensures forall i :: 0 <= i < |r| ==> r[i] == FromAdapter(issues[i].code, issues[i].retryable)
  {
    seq(|issues|, i requires 0 <= i < |issues| => FromAdapter(issues[i].code, issues[i].retryable))
  }

  /** The result of a write whose adapter was called. */
  function WriteResult(answer: Answer, maxBytes: nat): ToolResult
  {
    match answer
    case Returned(data) => Bounded(data, Counters(0, 0, 1, 1), Status.Ok, [], maxBytes)
    case FailedWith(code, retryable) => Failure(FromAdapter(code, retryable), Counters(0, 0, 1, 0))
  }

  /** The result of a billable query that was sent. */
  function CostResult(reply: CostAnswer, maxBytes: nat): ToolResult
  {
    match reply
    case CostFailed(code, retryable) => QuotaFailure(FromAdapter(code, retryable), Counters(1, 0, 0, 0))
    case CostRaised => QuotaFailure(CostQueryUnavailable, Counters(1, 0, 0, 0))
    case Usage(result) =>
      Bounded(result.data, Counters(1, result.resources, 0, 0), result.status, FromAdapterIssues(result.issues),
              maxBytes)
  }

  datatype AwsAnswer = AwsGave(result: AwsResult) | AwsFailed(code: string, retryable: bool)

  /** The result of an allowed automatic read. */
  function AwsOutcome(reply: AwsAnswer, maxBytes: nat): ToolResult
  {
    match reply
    case AwsFailed(code, retryable) => Failure(FromAdapter(code, retryable), NOTHING_DONE)
    case AwsGave(result) =>
      Bounded(result.data, Counters(result.sdkRequests, result.resources, 0, 0), result.status,
              FromAdapterIssues(result.issues), maxBytes)
  }

  /** What a write whose adapter was called tells: its data, unless it is too large, or the adapter's error; one attempt
      either way. */
  lemma WriteResultMeans(answer: Answer, maxBytes: nat)
    ensures var r := WriteResult(answer, maxBytes);
            && r.counters.sdkRequests == r.counters.resources == 0 && r.counters.attempted == 1 && r.warnings == []
            && (answer.FailedWith? ==>
                  r.status == ToolError && r.errors == [FromAdapter(answer.code, answer.retryable)]
                  && r.data == Obj([]) && r.counters.succeeded == 0)
            && (answer.Returned? ==>
                  r.counters.succeeded == 1
                  && if |Utf8Text(Write(answer.data))| <= maxBytes
                     then r.status == ToolOk && r.data == answer.data && r.errors == []
                     else r.status == ToolError && r.data == Obj([]) && Fails(r, ResultTooLarge))
  {
  }

  /** What is told of an adapter's result. */
  predicate Told(r: ToolResult, result: AwsResult, maxBytes: nat)
  {
    && r.counters.resources == result.resources && r.counters.attempted == r.counters.succeeded == 0
    && if |Utf8Text(Write(result.data))| > maxBytes
       then r.status == ToolError && r.data == Obj([]) && r.warnings == [] && Fails(r, ResultTooLarge)
       else
         && r.data == result.data
         && (result.status.Ok? ==> r.status == ToolOk && r.warnings == [] && r.errors == [])
         && (result.status.Partial? ==>
               r.status == ToolPartial && SameIssues(r.warnings, result.issues) && r.errors == [])
         && (result.status.Error? ==> r.status == ToolError && SameIssues(r.errors, result.issues) && r.warnings == [])
  }

  predicate SameIssues(told: seq<Issue>, issues: seq<AwsIssue>)
  {
    && |told| == |issues|
    && forall i :: 0 <= i < |told| ==> told[i] == FromAdapter(issues[i].code, issues[i].retryable)
  }

  /** What a billable query that was sent tells: one request in any case. */
  lemma CostResultMeans(reply: CostAnswer, maxBytes: nat)
    ensures var r := CostResult(reply, maxBytes);
            && r.counters.sdkRequests == 1
            && (reply.Usage? ==> Told(r, reply.result, maxBytes))
            && (!reply.Usage? ==>
                  && r.status == ToolError && QuotaLimits(r.data) && r.warnings == [] && r.counters.resources == 0
                  && r.counters.attempted == r.counters.succeeded == 0
                  && r.errors == [if reply.CostRaised? then CostQueryUnavailable
                                  else FromAdapter(reply.code, reply.retryable)])
  {
  }

  /** What an allowed automatic read tells. */
  lemma AwsOutcomeMeans(reply: AwsAnswer, maxBytes: nat)
    ensures var r := AwsOutcome(reply, maxBytes);
            && (reply.AwsGave? ==>
                  Told(r, reply.result, maxBytes) && r.counters.sdkRequests == reply.result.sdkRequests)
            && (reply.AwsFailed? ==>
                  && r.status == ToolError && r.data == Obj([]) && r.warnings == []
                  && r.errors == [FromAdapter(reply.code, reply.retryable)] && r.counters == Counters(0, 0, 0, 0))
  {
  }

  // ---------------------------------------------------------------- counts over all results

  function Attempts(results: seq<ToolResult>): nat
  {
    if results == [] then 0
    else Attempts(results[..|results| - 1]) + results[|results| - 1].counters.attempted
  }

  function Successes(results: seq<ToolResult>): nat
  {
    if results == [] then 0
    else Successes(results[..|results| - 1]) + results[|results| - 1].counters.succeeded
  }

  function Writes(calls: seq<Call>): nat
  {
    if calls == [] then 0 else Writes(calls[..|calls| - 1]) + if calls[|calls| - 1].Wrote? then 1 else 0
  }

  function WritesReturned(calls: seq<Call>): nat
  {
    if calls == [] then 0
    else
      var last := calls[|calls| - 1];
      WritesReturned(calls[..|calls| - 1]) + if last.Wrote? && last.answer.Returned? then 1 else 0
  }

  /** Writes attempted and succeeded, summed over the results, are the calls made and the calls that returned. */
  ghost predicate CountsAgree(results: seq<ToolResult>, calls: seq<Call>)
  {
    && Attempts(results) == Writes(calls) && Successes(results) == WritesReturned(calls)
    && forall i :: 0 <= i < |results| ==> results[i].counters.succeeded <= results[i].counters.attempted <= 1
  }

  lemma ResultAdded(results: seq<ToolResult>, r: ToolResult)
    ensures Attempts(results + [r]) == Attempts(results) + r.counters.attempted
    ensures Successes(results + [r]) == Successes(results) + r.counters.succeeded
  {
    assert (results + [r])[..|results|] == results;
  }

  lemma CallAdded(calls: seq<Call>, call: Call)
    ensures Writes(calls + [call]) == Writes(calls) + if call.Wrote? then 1 else 0
    ensures WritesReturned(calls + [call])
         == WritesReturned(calls) + if call.Wrote? && call.answer.Returned? then 1 else 0
  {
    assert (calls + [call])[..|calls|] == calls;
  }

  /** A result that counts no write, beside no call. */
  lemma QuietResult(results: seq<ToolResult>, calls: seq<Call>, r: ToolResult)
    requires CountsAgree(results, calls) && r.counters.attempted == 0 && r.counters.succeeded == 0
    ensures CountsAgree(results + [r], calls)
  {
    ResultAdded(results, r);
  }

  /** A result beside its call. */
  lemma CallResult(results: seq<ToolResult>, calls: seq<Call>, r: ToolResult, call: Call)
    requires CountsAgree(results, calls)
    requires r.counters.attempted == if call.Wrote? then 1 else 0
    requires r.counters.succeeded == if call.Wrote? && call.answer.Returned? then 1 else 0
    ensures CountsAgree(results + [r], calls + [call])
  {
    ResultAdded(results, r);
    CallAdded(calls, call);
  }

  // ---------------------------------------------------------------- calls and the log of the deployment

  /** For a provider call: its place in the log, the job, who made it, what paid for it, and when it was made. */
  datatype Served = Served(place: nat, job: nat, caller: Caller, token: string, paidBy: Option<Payment>, when: int)

  /** The entry of a call in the log of the deployment. */
  function Entry(call: Call, s: Served): Event
  {
    Called(s.job, call.work, s.paidBy, s.when)
  }

  predicate ServedIn(w: World, call: Call, s: Served)
  {
    && s.place < |w.log| && w.log[s.place] == Entry(call, s) && (call.Queried? <==> s.paidBy.Some?)
    && s.job in w.jobs && w.jobs[s.job].attempt.token == s.token && w.jobs[s.job].attempt.caller == s.caller
  }

  /** Each provider call is an entry of its own in the log, in order. */
  ghost predicate AllServed(w: World, calls: seq<Call>, served: seq<Served>)
  {
    && |served| == |calls|
    && (forall i :: 0 <= i < |calls| ==> ServedIn(w, calls[i], served[i]))
    && (forall i, k :: 0 <= i < k < |served| ==> served[i].place < served[k].place)
  }

  lemma ServedLater(w: World, v: World, calls: seq<Call>, served: seq<Served>)
    requires AllServed(w, calls, served) && Later(w, v)
    ensures AllServed(v, calls, served)
  {
  }

  lemma ServedMore(w: World, v: World, calls: seq<Call>, served: seq<Served>, call: Call, s: Served)
    requires AllServed(w, calls, served) && Later(w, v) && ServedIn(v, call, s) && s.place == |w.log|
    ensures AllServed(v, calls + [call], served + [s])
  {
    ServedLater(w, v, calls, served);
  }

  /** Every provider call spent a confirmation that was prepared before, by the same person, for the same operation with
      the same arguments, and in time as far as its clock reading was current. */
  lemma CallWasConfirmed(c: Config, w: World, calls: seq<Call>, served: seq<Served>, i: nat) returns (p: nat, s: nat)
    requires Reachable(c, w) && AllServed(w, calls, served) && i < |calls|
    ensures p < s < served[i].place && served[i].job in w.jobs && SpendOf(w, s, served[i].job)
    ensures w.log[s].token == served[i].token
    ensures w.log[p].Stored? && w.log[p].token == served[i].token && w.log[p].work == calls[i].work
    ensures SamePerson(w.log[p].caller, served[i].caller) && InTimeForItsReading(w, p, s)
  {
    assert ServedIn(w, calls[i], served[i]);
    p, s := EveryCallWasConfirmed(c, w, served[i].place);
  }

  /** No two provider calls spent the same token. */
  lemma CallsSpendTheirOwn(c: Config, w: World, calls: seq<Call>, served: seq<Served>, i: nat, k: nat)
    requires Reachable(c, w) && AllServed(w, calls, served) && i < k < |calls|
    ensures served[i].token != served[k].token
  {
    assert ServedIn(w, calls[i], served[i]) && ServedIn(w, calls[k], served[k]);
    CallsSpendDifferentTokens(c, w, served[i].place, served[k].place);
  }

  /** A spent token is of no use to anyone, whatever became of the call it paid for. */
  lemma SpentForGood(c: Config, w: World, token: string, a: Attempt, fault: Fault)
    requires Reachable(c, w) && token in w.spent && a.token == token
    ensures !Applies(w.table, a, fault)
  {
    ReachableToken(c, w, token);
    ReachableIsGood(c, w);
    assert UseOk(w, token);
    TokensAreNotQuotaKeys(c, token);
  }

  /** The code a caller is told is borne out by the log. */
  lemma ToldReasonHolds(c: Config, w: World, r: ToolResult, job: nat, a: Attempt, work: Work)
    requires Reachable(c, w) && RefusedResult(r, w, job, a, work)
    ensures job in w.jobs && Justified(w, w.jobs[job], r.errors[0].reason, |w.log| - 1)
  {
    RefusalsAreJustified(c, w, |w.log| - 1);
  }

  /** How many of this instance's calls are of a kind. */
  function Sent(calls: seq<Call>, served: seq<Served>, k: Kind): nat
    requires |calls| == |served|
  {
    if calls == [] then 0
    else
      var n := |calls| - 1;
      Sent(calls[..n], served[..n], k) + if Is(k, Entry(calls[n], served[n])) then 1 else 0
  }

  /** The calls are entries of the log at strictly increasing places. */
  ghost predicate InOrder(log: seq<Event>, calls: seq<Call>, served: seq<Served>)
  {
    && |calls| == |served|
    && (forall i :: 0 <= i < |served| ==>
          served[i].place < |log| && log[served[i].place] == Entry(calls[i], served[i]))
    && (forall i, k :: 0 <= i < k < |served| ==> served[i].place < served[k].place)
  }

  lemma {:induction false} TallyPrefix(log: seq<Event>, n: nat, k: Kind)
    requires n <= |log|
    ensures Tally(log[..n], k) <= Tally(log, k)
  {
    if n == |log| {
      assert log[..n] == log;
    } else {
      TallyPrefix(log[..|log| - 1], n, k);
      assert log[..|log| - 1][..n] == log[..n];
    }
  }

  lemma {:induction false} SentAreTallied(log: seq<Event>, calls: seq<Call>, served: seq<Served>, k: Kind)
    requires InOrder(log, calls, served)
    ensures Sent(calls, served, k) <= Tally(log, k)
  {
    if calls != [] {
      var n := |calls| - 1;
      var place := served[n].place;
      SentAreTallied(log[..place], calls[..n], served[..n], k);
      assert log[..place + 1][..place] == log[..place];
      TallyPrefix(log, place + 1, k);
    }
  }

  lemma SentInWorld(w: World, calls: seq<Call>, served: seq<Served>, k: Kind)
    requires AllServed(w, calls, served)
    ensures Sent(calls, served, k) <= Tally(w.log, k)
  {
    forall i | 0 <= i < |served| ensures w.log[served[i].place] == Entry(calls[i], served[i]) {
      assert ServedIn(w, calls[i], served[i]);
    }
    SentAreTallied(w.log, calls, served, k);
  }

  /** Queries paid by a month's slots do not outnumber them, whatever the other instances do, and stay within the limit
      while the month lasts, and for good if no slot of it was taken after its end or its counter was never removed. */
  lemma QueriesWithinLimit(c: Config, w: World, calls: seq<Call>, served: seq<Served>, m: Month)
    requires Reachable(c, w) && AllServed(w, calls, served) && ValidMonth(m)
    ensures Sent(calls, served, CallsPaidBy(m)) <= Tally(w.log, Slots(m))
    ensures w.clock < MonthEnd(m) || NoLateSlot(w.log, m) || Tally(w.log, SweepsOf(QuotaKey(c.quotaAction, m))) == 0 ==>
              Sent(calls, served, CallsPaidBy(m)) <= c.limit
  {
    SentInWorld(w, calls, served, CallsPaidBy(m));
    CallsWithinLimit(c, w, m);
  }

  /** Queries sent in the month that pays for them always stay within the limit. All queries sent in a month do, too, if
      calls come at the instant their slots were read, and otherwise they exceed it at most by those that earlier months
      paid for. */
  lemma QueriesOfTheMonth(c: Config, w: World, calls: seq<Call>, served: seq<Served>, m: Month)
    requires Reachable(c, w) && AllServed(w, calls, served) && ValidMonth(m)
    ensures Sent(calls, served, OwnCalls(m)) <= c.limit
    ensures Sent(calls, served, CallsDuring(m)) <= c.limit + Tally(w.log, HeldOver(m))
    ensures HeldAtMost(w.log, 0) ==> Sent(calls, served, CallsDuring(m)) <= c.limit
  {
    SentInWorld(w, calls, served, OwnCalls(m));
    SentInWorld(w, calls, served, CallsDuring(m));
    OwnCallsWithinLimit(c, w, m);
    if HeldAtMost(w.log, 0) { PromptCallsWithinLimit(c, w, m); }
  }

  // ---------------------------------------------------------------- what decides a confirmation and a slot

  /** What the store answers to the conditional update of an attempt. */
  function UpdateReply(w: World, a: Attempt, fault: Fault): Reply
  {
    ConsumeUpdate(w.table, a, fault).reply
  }

  /** It succeeds exactly if the store answers and holds the token's unspent confirmation, prepared for this attempt and
      not expired at its reading; it answers at all exactly if nothing is lost and the payload is not too large. */
  lemma UpdateSucceedsExactly(c: Config, w: World, a: Attempt, fault: Fault)
    requires Reachable(c, w)
    ensures UpdateReply(w, a, fault).Done?
            <==> fault.NoFault? && TokenDigest(a.token) in w.table && a.token in w.issued && a.token !in w.spent
                 && Matches(w.issued[a.token], a)
    ensures UpdateReply(w, a, fault).NoAnswer? <==> !fault.NoFault? || PayloadDigest(a.payload).TooLarge?
  {
    ReachableToken(c, w, a.token);
    ReachableIsGood(c, w);
    if TokenDigest(a.token) in w.table && PayloadDigest(a.payload).Digested? {
      RowDecides(w, a, PayloadDigest(a.payload).digest);
    }
  }

  lemma RowDecides(w: World, a: Attempt, digest: Digest)
    requires TokenDigest(a.token) in w.table && RowOk(w, TokenDigest(a.token))
    requires a.token in w.issued ==> UrlSafe(a.token)
    ensures ConsumeAllowed(Lookup(w.table, TokenDigest(a.token)), a, digest)
            <==> a.token in w.issued && a.token !in w.spent && Epoch(a.at) < w.issued[a.token].expires
                 && Fingerprint(w.issued[a.token].caller) == Fingerprint(a.caller)
                 && w.issued[a.token].action == a.action && w.issued[a.token].digest == digest
  {
    if a.token in w.issued {
      TokensAreNotQuotaKeys(w.config, a.token);
      Ledger.RowAllows(w.issued[a.token], a.token in w.spent, a, digest);
    }
  }

  /** The outcome of an acquire on the counter of the reading's month. */
  function SlotFound(w: World, now: Clock, fault: Fault): Slot
  {
    SlotOf(AcquireUpdate(w.table, w.config.quotaAction, w.config.limit, now, fault).reply, MonthOf(now))
  }

  /** A slot is given exactly if the store answers and the counter is below the limit; the limit is reported exactly if
      it is not, and then as many slots of the month have been taken. */
  lemma SlotFoundExactly(c: Config, w: World, now: Clock, fault: Fault)
    requires Reachable(c, w)
    ensures var m, slot := MonthOf(now), SlotFound(w, now, fault);
            var asked := HasNextMonth(m) && fault.NoFault?;
            && (slot == Acquired <==> asked && RowCount(w.table, c.quotaAction, m) < c.limit)
            && (slot == LimitExceeded <==> asked && RowCount(w.table, c.quotaAction, m) >= c.limit)
            && (slot == LimitExceeded ==> Tally(w.log, Slots(m)) >= c.limit)
  {
    ReachableQuota(c, w, MonthOf(now));
    LimitIsPositive(c, w);
    CountDecides(w, now, fault);
  }

  lemma CountDecides(w: World, now: Clock, fault: Fault)
    requires w.config.limit > 0 && CounterRow(w.table, w.config.quotaAction, MonthOf(now))
    ensures var m, slot := MonthOf(now), SlotFound(w, now, fault);
            var asked := HasNextMonth(m) && fault.NoFault?;
            && (slot == Acquired <==> asked && RowCount(w.table, w.config.quotaAction, m) < w.config.limit)
            && (slot == LimitExceeded <==> asked && RowCount(w.table, w.config.quotaAction, m) >= w.config.limit)
  {
  }

  lemma LimitIsPositive(c: Config, w: World)
    requires Reachable(c, w)
    ensures c.limit > 0
  {
    var clock, run :| Runs(c, clock, run, w);
  }

  // ---------------------------------------------------------------- the consume step in the deployment

  function AttemptFor(work: Work, caller: Caller, token: string, at: int): (a: Attempt)
    ensures a.token == token && a.caller == caller && a.at == at && Bound(work, a.action, a.payload)
  {
    Attempt(token, caller, ActionOf(work), PayloadOf(work), at)
  }

  /** The last entry of the log is the refusal of this attempt. */
  predicate LastRefuses(w: World, job: nat, a: Attempt, work: Work, code: Code)
  {
    && w.log != [] && w.log[|w.log| - 1] == Refusal(job, code)
    && job in w.jobs && w.jobs[job].attempt == a && w.jobs[job].work == work
  }

  /** One more call was served, for the job of this attempt. */
  ghost predicate SentFor(before: seq<Served>, after: seq<Served>, job: nat, a: Attempt, paidBy: Option<Payment>)
  {
    && |after| == |before| + 1 && before <= after
    && var s := after[|before|]; s.job == job && s.caller == a.caller && s.token == a.token && s.paidBy == paidBy
  }

  /** The result tells the code of a refusal that the log ends with. */
  predicate RefusedResult(r: ToolResult, w: World, job: nat, a: Attempt, work: Work)
  {
    && |r.errors| == 1 && r.errors[0].Unconfirmed? && r == Failure(r.errors[0], NOTHING_DONE)
    && LastRefuses(w, job, a, work, r.errors[0].reason)
  }

  function MadeCall(work: Work, answer: Option<Answer>): seq<Call>
  {
    if answer.Some? then [Wrote(work, answer.value)] else []
  }

  /** The update at `seen` decides: the work was sent once, for the confirmation presented, or the refusal is told, and
      an unavailable store only if the update or the read got no answer. */
  ghost predicate WriteOutcome(before: seq<Served>, after: seq<Served>, seen: World, w: World, job: nat, a: Attempt,
                               work: Work, fault: Fault, readFails: bool, answer: Option<Answer>, r: ToolResult,
                               maxBytes: nat)
  {
    if UpdateReply(seen, a, fault).Done? then
      answer.Some? && r == WriteResult(answer.value, maxBytes) && SentFor(before, after, job, a, None)
    else
      answer.None? && after == before && RefusedResult(r, w, job, a, work) && Explained(r, seen, a, fault, readFails)
  }

  /** The errors of checks made before anything is touched. */
  predicate IsCheck(issue: Issue)
  {
    || issue.OperationBlocked? || issue.DestinationNotAllowed? || issue.InvalidMessage? || issue.InvalidTitle?
    || issue.InvalidDescription? || issue.InvalidCostQuery? || issue.CostExplorerUnavailable?
  }

  predicate PastChecks(r: ToolResult)
  {
    |r.errors| == 1 ==> !IsCheck(r.errors[0])
  }

  lemma WritePastChecks(answer: Answer, maxBytes: nat)
    ensures PastChecks(WriteResult(answer, maxBytes))
  {
    WriteResultMeans(answer, maxBytes);
  }

  lemma CostPastChecks(reply: CostAnswer, maxBytes: nat)
    ensures PastChecks(CostResult(reply, maxBytes))
  {
    CostResultMeans(reply, maxBytes);
  }

  /** The store is called unavailable only if one of its two answers is missing. */
  predicate Explained(r: ToolResult, seen: World, a: Attempt, fault: Fault, readFails: bool)
    requires |r.errors| == 1 && r.errors[0].Unconfirmed?
  {
    r.errors[0].reason == StoreUnavailable ==> UpdateReply(seen, a, fault).NoAnswer? || readFails
  }

  function MadeQuery(work: Work, reply: Option<CostAnswer>): seq<Call>
  {
    if reply.Some? then [Queried(work, reply.value)] else []
  }

  /** A slot taken with this clock reading. */
  function PaymentFor(now: Clock): Payment
  {
    Payment(MonthOf(now), Instant(now))
  }

  /** What a query that got no slot is told. */
  function SlotIssue(slot: Slot): (issue: Issue)
    ensures issue == QuotaExceeded <==> slot == LimitExceeded
    ensures issue == QuotaNotAvailable <==> slot != LimitExceeded
  {
    if slot.LimitExceeded? then QuotaExceeded else QuotaNotAvailable
  }

  /** The counter at `counted` decides: a confirmed query was sent once, paid by a slot of the month of the clock
      reading, or is told why it got none. */
  ghost predicate SlotOutcome(before: seq<Served>, after: seq<Served>, counted: World, limited: bool, job: nat,
                              a: Attempt, now: Clock, slotFault: Fault, reply: Option<CostAnswer>, r: ToolResult,
                              maxBytes: nat)
  {
    if limited && SlotFound(counted, now, slotFault) == Acquired then
      reply.Some? && r == CostResult(reply.value, maxBytes) && SentFor(before, after, job, a, Some(PaymentFor(now)))
    else
      && reply.None? && after == before
      && r == QuotaFailure(if limited then SlotIssue(SlotFound(counted, now, slotFault)) else QuotaNotAvailable,
                           NOTHING_DONE)
  }

  lemma PrepareStep(w: World, token: string, caller: Caller, work: Work, at: int, fault: Fault)
    requires UrlSafe(token) && token !in w.known && at <= w.clock
    ensures var v := Apply(w, Prepare(token, caller, work, ActionOf(work), PayloadOf(work), at, fault));
            match PayloadDigest(PayloadOf(work))
            case TooLarge => v.table == w.table
            case Digested(d) =>
              var key, expires := TokenDigest(token), Epoch(at + w.config.ttl);
              var row := ConfirmationRow(Fingerprint(caller), ActionOf(work), d, expires, false);
              var r := ConditionalWrite(w.table, key, key !in w.table, row, fault);
              && v.table == r.table
              && (r.reply.Done? ==> IssuedFor(v, token, caller, work, expires))
  {
    var s := Prepare(token, caller, work, ActionOf(work), PayloadOf(work), at, fault);
    if PayloadDigest(PayloadOf(work)).Digested? { PrepareIsOnePut(w, s); }
  }

  /** The deployment holds a confirmation for this caller and this work. */
  predicate IssuedFor(w: World, token: string, caller: Caller, work: Work, expires: int)
  {
    token in w.issued && w.issued[token].caller == caller && w.issued[token].work == work
    && w.issued[token].expires == expires
  }

  lemma NewTokenHasNoRow(c: Config, w: World, token: string)
    requires Reachable(c, w) && UrlSafe(token) && token !in w.known
    ensures TokenDigest(token) !in w.table
  {
    ReachableIsGood(c, w);
    Ledger.NoRowYet(w, token);
  }

  /** The metadata of the confirmation stored for this caller and this work. */
  predicate MetadataFor(w: World, token: string, caller: Caller, work: Work, m: Metadata)
  {
    && m.token == token && m.action == ActionOf(work) && PayloadDigest(PayloadOf(work)) == Digested(m.payloadDigest)
    && token in w.issued && IssuedFor(w, token, caller, work, w.issued[token].expires)
    && m.expiresAt == w.issued[token].expires * MICROS_PER_SECOND
  }

  /** What `prepare` gives for a new token. */
  predicate IssueOutcome(w: World, token: string, caller: Caller, work: Work, fault: Fault, outcome: PrepareOutcome)
  {
    if fault.NoFault? && PayloadDigest(PayloadOf(work)).Digested? then
      outcome.Issued? && outcome.metadata.token == token && MetadataFor(w, token, caller, work, outcome.metadata)
    else
      outcome == NotIssued(if PayloadDigest(PayloadOf(work)).TooLarge? then PayloadTooLarge else StoreUnavailable)
  }

  /** A prepare hands out the stored confirmation, under a new token, exactly if the store answers and the payload is
      not too large, and otherwise tells which of these failed. */
  predicate PrepareOutcomeOk(before: World, w: World, caller: Caller, work: Work, preview: Json, fault: Fault,
                             r: ToolResult)
  {
    if fault.NoFault? && PayloadDigest(PayloadOf(work)).Digested? then
      && r.confirmation.Some?
      && r == ToolResult(ConfirmationRequired, Obj([Field("preview", preview)]), [], [], NOTHING_DONE, r.confirmation)
      && MetadataFor(w, r.confirmation.value.token, caller, work, r.confirmation.value)
      && r.confirmation.value.token !in before.known
    else
      var code := if PayloadDigest(PayloadOf(work)).TooLarge? then PayloadTooLarge else StoreUnavailable;
      r == Failure(Unconfirmed(code), NOTHING_DONE)
  }

  /** What `token_urlsafe` is taken to be: whatever has happened, a url-safe string nobody has seen yet. */
  ghost predicate Fresh(generate: World -> string)
  {
    forall w: World :: UrlSafe(generate(w)) && generate(w) !in w.known
  }

  /** `_cost_query_preview`: the query under its names, and its price. */
  function CostPreview(query: CostQuery.Query): (preview: Json)
    ensures preview.Obj? && |preview.fields| == 10
    ensures var start, end := Field("start", Str(query.startDate)), Field("end", Str(query.endDate));
            Field("time_period", Obj([start, end])) in preview.fields
    ensures Field("granularity", Str(query.granularity)) in preview.fields
    ensures Field("group_by", Str(query.groupBy)) in preview.fields
    ensures Field("metric", Str("UnblendedCost")) in preview.fields && Field("currency", Str("USD")) in preview.fields
    ensures Field("max_cost_usd", Str("0.01")) in preview.fields && Field("max_api_requests", Int(1)) in preview.fields
    ensures Field("monthly_request_limit", Int(3)) in preview.fields
    ensures Field("monthly_max_api_cost_usd", Str("0.03")) in preview.fields
    ensures Field("read_only", Bool(true)) in preview.fields
  {
    Obj([Field("time_period", Obj([Field("start", Str(query.startDate)), Field("end", Str(query.endDate))])),
         Field("granularity", Str(query.granularity)), Field("group_by", Str(query.groupBy)),
         Field("metric", Str("UnblendedCost")), Field("currency", Str("USD")), Field("max_cost_usd", Str("0.01")),
         Field("max_api_requests", Int(1)), Field("monthly_request_limit", Int(3)),
         Field("monthly_max_api_cost_usd", Str("0.03")), Field("read_only", Bool(true))])
  }

  /** The update at `seen` decides whether the query is confirmed, and then the counter at `counted` about its slot. */
  ghost predicate QueryOutcome(before: seq<Served>, after: seq<Served>, seen: World, counted: World, w: World,
                               limited: bool, job: nat, a: Attempt, work: Work, fault: Fault, readFails: bool,
                               now: Clock, slotFault: Fault, reply: Option<CostAnswer>, r: ToolResult, maxBytes: nat)
  {
    if UpdateReply(seen, a, fault).Done? then
      SlotOutcome(before, after, counted, limited, job, a, now, slotFault, reply, r, maxBytes)
    else
      reply.None? && after == before && RefusedResult(r, w, job, a, work) && Explained(r, seen, a, fault, readFails)
  }

  lemma QueryPastChecks(before: seq<Served>, after: seq<Served>, seen: World, counted: World, w: World, limited: bool,
                        job: nat, a: Attempt, work: Work, fault: Fault, readFails: bool, now: Clock, slotFault: Fault,
                        reply: Option<CostAnswer>, r: ToolResult, maxBytes: nat)
    requires QueryOutcome(before, after, seen, counted, w, limited, job, a, work, fault, readFails, now, slotFault,
                          reply, r, maxBytes)
    ensures PastChecks(r)
  {
    if reply.Some? { CostPastChecks(reply.value, maxBytes); }
  }

  lemma ConsumeStep(w: World, job: nat, a: Attempt, work: Work, fault: Fault)
    requires job !in w.jobs && a.at <= w.clock
    ensures var v := Apply(w, Consume(job, a, work, fault));
            var r := ConsumeUpdate(w.table, a, fault);
            && v.table == r.table && job in v.jobs && v.jobs[job].attempt == a && v.jobs[job].work == work
            && (r.reply.Done? ==> v.jobs[job].phase == Cleared)
            && (r.reply.ConditionFailed? ==> v.jobs[job].phase == Diagnosing)
            && (r.reply.NoAnswer? ==> v.log != [] && v.log[|v.log| - 1] == Refusal(job, StoreUnavailable))
  {
    if Applies(w.table, a, fault) {
    } else {
      Ledger.ConsumeNotApplied(w, Consume(job, a, work, fault));
    }
  }

  lemma ReadStep(w: World, job: nat, readFails: bool)
    requires job in w.jobs && w.jobs[job].phase == Diagnosing
    ensures var v := Apply(w, Read(job, readFails));
            var a := w.jobs[job].attempt;
            var code := if readFails then StoreUnavailable else Diagnose(Lookup(w.table, TokenDigest(a.token)), a);
            && v.table == w.table && job in v.jobs && v.jobs[job].attempt == a && v.jobs[job].work == w.jobs[job].work
            && v.log != [] && v.log[|v.log| - 1] == Refusal(job, code)
  {
  }

  lemma AcquireStep(w: World, job: nat, now: Clock, fault: Fault)
    requires Enabled(w, Acquire(job, now, fault))
    ensures var v := Apply(w, Acquire(job, now, fault));
            var r := AcquireUpdate(w.table, w.config.quotaAction, w.config.limit, now, fault);
            && v.table == r.table && job in v.jobs && v.jobs[job].attempt == w.jobs[job].attempt
            && v.jobs[job].work == w.jobs[job].work
            && SlotOf(r.reply, MonthOf(now)) == SlotFound(w, now, fault)
            && (SlotOf(r.reply, MonthOf(now)) == Acquired ==> v.jobs[job].phase == Funded(MonthOf(now), Instant(now)))
  {
  }

  lemma CallStep(w: World, job: nat)
    requires Enabled(w, CallProvider(job))
    ensures var v, j := Apply(w, CallProvider(job)), w.jobs[job];
            && v.table == w.table && job in v.jobs && v.jobs[job].attempt == j.attempt
            && |v.log| == |w.log| + 1 && v.log[|w.log|] == Called(job, j.work, PaymentOf(j.phase), w.clock)
  {
  }

  /** A job makes its call: the entry it adds to the log is the call's own. */
  lemma CallIsServed(start: World, w: World, calls: seq<Call>, served: seq<Served>, call: Call, job: nat)
    returns (s: Served)
    requires AllServed(start, calls, served) && Later(start, w) && Enabled(w, CallProvider(job))
    requires call.work == w.jobs[job].work && (call.Queried? <==> w.jobs[job].phase.Funded?)
    ensures var v := Apply(w, CallProvider(job));
            v.table == w.table && AllServed(v, calls + [call], served + [s])
    ensures var a := w.jobs[job].attempt;
            s == Served(|w.log|, job, a.caller, a.token, PaymentOf(w.jobs[job].phase), w.clock)
  {
    var a := w.jobs[job].attempt;
    s := Served(|w.log|, job, a.caller, a.token, PaymentOf(w.jobs[job].phase), w.clock);
    CallStep(w, job);
    StepLater(w, CallProvider(job));
    ServedLater(start, w, calls, served);
    ServedMore(w, Apply(w, CallProvider(job)), calls, served, call, s);
  }

  // ---------------------------------------------------------------- the service

  /** What an instance is configured with: the allowed destinations, the billing view if Cost Explorer is
      configured, whether the registry lets the query be confirmed, and the size limit. */
  datatype Settings = Settings(
    telegram: set<string>, trello: set<(string, string)>, billingView: Option<string>, costAllowed: bool, maxBytes: nat)

  /** What may be sent: to the listed destinations, with texts of the right lengths, and accepted queries for the
      configured billing view. */
  predicate Allowed(settings: Settings, w: Work)
  {
    match w
    case Telegram(destination, message) => destination in settings.telegram && 1 <= |message| <= 4096
    case Trello(board, list, title, description) =>
      (board, list) in settings.trello && 1 <= |title| <= 256 && |description| <= 5000
    case CostCall(query, billingView) =>
      settings.costAllowed && settings.billingView == Some(billingView) && CostQuery.Revalidate(query).Accepted?
  }

  predicate AllAllowed(settings: Settings, calls: seq<Call>)
  {
    forall i :: 0 <= i < |calls| ==> Allowed(settings, calls[i].work)
  }

  lemma AllowedMore(settings: Settings, calls: seq<Call>, call: Call)
    requires AllAllowed(settings, calls) && Allowed(settings, call.work)
    ensures AllAllowed(settings, calls + [call])
  {
  }

  class ToolService {
    const settings: Settings
    const deployment: Deployment
    const guard: DynamoDbConfirmationGuard
    const limiter: DynamoDbCostRequestLimiter?
    const providers: Providers
    ghost var served: seq<Served>
    ghost var results: seq<ToolResult>

    /** Everything is wired to the one table, and the provider calls are those in the deployment's log. */
    ghost predicate Wired()
      reads `served, deployment, deployment.table, providers
    {
      && deployment.Valid()
      && guard.table == deployment.table && guard.ttl == deployment.config.ttl
      && (limiter != null ==>
            limiter.table == deployment.table && limiter.action == deployment.config.quotaAction
            && limiter.limit == deployment.config.limit)
      && AllServed(deployment.world, providers.calls, served) && AllAllowed(settings, providers.calls)
    }

    ghost predicate Valid()
      reads this, deployment, deployment.table, providers
    {
      Wired() && CountsAgree(results, providers.calls)
    }

    constructor (settings: Settings, deployment: Deployment, guard: DynamoDbConfirmationGuard,
                 limiter: DynamoDbCostRequestLimiter?, providers: Providers)
      requires deployment.Valid() && guard.table == deployment.table && guard.ttl == deployment.config.ttl
      requires limiter != null ==>
                 limiter.table == deployment.table && limiter.action == deployment.config.quotaAction
                 && limiter.limit == deployment.config.limit
      requires providers.calls == []
      ensures Valid() && results == [] && served == []
    {
      this.settings, this.deployment, this.guard := settings, deployment, guard;
      this.limiter, this.providers := limiter, providers;
      served, results := [], [];
    }

    /** The conditional update, with the others running before; `seen` is the world it meets. */
    method UpdateConfirmation(job: nat, a: Attempt, work: Work, fault: Fault) returns (reply: Reply, ghost seen: World)
      requires Wired() && job !in deployment.world.jobs && Bound(work, a.action, a.payload)
      modifies deployment, deployment.table
      ensures Wired() && Later(old(deployment.world), seen) && Later(seen, deployment.world)
      ensures reply == UpdateReply(seen, a, fault)
      ensures var w := deployment.world;
              && job in w.jobs && w.jobs[job].attempt == a && w.jobs[job].work == work
              && (reply.Done? ==> w.jobs[job].phase == Cleared)
              && (reply.ConditionFailed? ==> w.jobs[job].phase == Diagnosing)
              && (reply.NoAnswer? ==> LastRefuses(w, job, a, work, StoreUnavailable))
    {
      ghost var start := deployment.world;
      deployment.Interleave(job);
      ghost var middle := deployment.world;
      deployment.See(a.at);
      seen := deployment.world;
      LaterLater(start, middle, seen);
      ConsumeStep(seen, job, a, work, fault);
      reply := guard.TryUpdate(a, fault);
      deployment.Take(Consume(job, a, work, fault));
      LaterLater(start, seen, deployment.world);
      ServedLater(start, deployment.world, providers.calls, served);
    }

    /** The diagnosing read after a failed condition, with the others running before it. */
    method ReadForDiagnosis(job: nat, a: Attempt, readFails: bool) returns (code: Code)
      requires Wired() && job in deployment.world.jobs && deployment.world.jobs[job].attempt == a
      requires deployment.world.jobs[job].phase == Diagnosing
      modifies deployment, deployment.table
      ensures Wired() && Later(old(deployment.world), deployment.world)
      ensures LastRefuses(deployment.world, job, a, old(deployment.world.jobs[job].work), code)
      ensures code == StoreUnavailable <==> readFails
    {
      ghost var start := deployment.world;
      deployment.Interleave(job);
      ReadStep(deployment.world, job, readFails);
      code := guard.ReadAndDiagnose(a, readFails);
      deployment.Take(Read(job, readFails));
      ServedLater(start, deployment.world, providers.calls, served);
    }

    /** `_consume_confirmation`: the conditional update, and the read if its condition failed. */
    method ConsumeConfirmation(work: Work, caller: Caller, token: string, at: int, fault: Fault, readFails: bool)
      returns (refused: Option<Code>, job: nat, ghost seen: World)
      requires Wired()
      modifies deployment, deployment.table
      ensures Wired() && Later(old(deployment.world), seen) && Later(seen, deployment.world)
      ensures refused.None? <==> UpdateReply(seen, AttemptFor(work, caller, token, at), fault).Done?
      ensures refused == Some(StoreUnavailable) ==>
                UpdateReply(seen, AttemptFor(work, caller, token, at), fault).NoAnswer? || readFails
      ensures refused.None? ==>
                job in deployment.world.jobs
                && deployment.world.jobs[job] == Job(AttemptFor(work, caller, token, at), work, Cleared)
      ensures refused.Some? ==>
                LastRefuses(deployment.world, job, AttemptFor(work, caller, token, at), work, refused.value)
    {
      var a := AttemptFor(work, caller, token, at);
      job := deployment.NewJob();
      var reply: Reply;
      reply, seen := UpdateConfirmation(job, a, work, fault);
      match reply {
        case Done => refused := None;
        case NoAnswer => refused := Some(StoreUnavailable);
        case ConditionFailed =>
          ghost var updated := deployment.world;
          var code := ReadForDiagnosis(job, a, readFails);
          refused := Some(code);
          LaterLater(seen, updated, deployment.world);
      }
    }

    /** The monthly slot of a confirmed query, with the others running before; `counted` is the world it meets. */
    method TakeSlot(job: nat, now: Clock, fault: Fault) returns (slot: Slot, ghost counted: World)
      requires Wired() && limiter != null
      requires job in deployment.world.jobs
      requires deployment.world.jobs[job].phase == Cleared && deployment.world.jobs[job].work.CostCall?
      modifies deployment, deployment.table
      ensures Wired() && Later(old(deployment.world), counted) && Later(counted, deployment.world)
      ensures slot == SlotFound(counted, now, fault)
      ensures job in deployment.world.jobs && deployment.world.jobs[job].work == old(deployment.world.jobs[job].work)
      ensures slot == Acquired ==> deployment.world.jobs[job].phase == Funded(MonthOf(now), Instant(now))
    {
      ghost var start := deployment.world;
      deployment.Interleave(job);
      ghost var middle := deployment.world;
      deployment.See(Instant(now));
      counted := deployment.world;
      LaterLater(start, middle, counted);
      AcquireStep(counted, job, now, fault);
      slot := limiter.Acquire(now, fault);
      deployment.Take(Acquire(job, now, fault));
      LaterLater(start, counted, deployment.world);
      ServedLater(start, deployment.world, providers.calls, served);
    }

    /** The write adapter's call for a confirmed job, with the others running before. */
    method SendWork(job: nat, work: Work) returns (answer: Answer)
      requires Wired() && !work.CostCall? && Allowed(settings, work)
      requires job in deployment.world.jobs
      requires deployment.world.jobs[job].phase == Cleared && deployment.world.jobs[job].work == work
      modifies `served, deployment, deployment.table, providers
      ensures Wired() && Later(old(deployment.world), deployment.world)
      ensures providers.calls == old(providers.calls) + [Wrote(work, answer)]
      ensures SentFor(old(served), served, job, old(deployment.world.jobs[job].attempt), None)
    {
      ghost var start := deployment.world;
      deployment.Interleave(job);
      ghost var before, calls := deployment.world, providers.calls;
      match work {
        case Telegram(destination, message) => answer := providers.SendMessage(destination, message);
        case Trello(board, list, title, description) =>
          answer := providers.CreateCard(board, list, title, description);
      }
      ghost var s := CallIsServed(start, before, calls, served, Wrote(work, answer), job);
      AllowedMore(settings, calls, Wrote(work, answer));
      deployment.Take(CallProvider(job));
      served := served + [s];
    }

    /** The billable call of a funded job, with the others running before. */
    method SendQuery(job: nat, query: CostQuery.Query, billingView: string, ghost paid: Payment)
      returns (reply: CostAnswer)
      requires Wired() && Allowed(settings, CostCall(query, billingView))
      requires job in deployment.world.jobs && deployment.world.jobs[job].phase == Funded(paid.month, paid.read)
      requires deployment.world.jobs[job].work == CostCall(query, billingView)
      modifies `served, deployment, deployment.table, providers
      ensures Wired() && Later(old(deployment.world), deployment.world)
      ensures providers.calls == old(providers.calls) + [Queried(CostCall(query, billingView), reply)]
      ensures SentFor(old(served), served, job, old(deployment.world.jobs[job].attempt), Some(paid))
    {
      ghost var start := deployment.world;
      deployment.Interleave(job);
      ghost var before, calls := deployment.world, providers.calls;
      reply := providers.GetCostAndUsage(query, billingView);
      ghost var s :=
        CallIsServed(start, before, calls, served, Queried(CostCall(query, billingView), reply), job);
      AllowedMore(settings, calls, Queried(CostCall(query, billingView), reply));
      deployment.Take(CallProvider(job));
      served := served + [s];
    }

    // ---------------------------------------------------------------- the writes

    /** A confirmed write: one attempt is counted, and one success if the adapter returned. */
    method PerformWrite(job: nat, work: Work) returns (r: ToolResult, ghost answer: Answer)
      requires Valid() && !work.CostCall? && Allowed(settings, work)
      requires job in deployment.world.jobs
      requires deployment.world.jobs[job].phase == Cleared && deployment.world.jobs[job].work == work
      modifies this, deployment, deployment.table, providers
      ensures Valid() && Later(old(deployment.world), deployment.world) && results == old(results) + [r]
      ensures providers.calls == old(providers.calls) + [Wrote(work, answer)]
      ensures r == WriteResult(answer, settings.maxBytes) && PastChecks(r)
      ensures SentFor(old(served), served, job, old(deployment.world.jobs[job].attempt), None)
    {
      ghost var calls := providers.calls;
      var counters := NOTHING_DONE.(attempted := 1);
      var response := SendWork(job, work);
      answer := response;
      match response {
        case FailedWith(code, retryable) => r := Failure(FromAdapter(code, retryable), counters);
        case Returned(data) =>
          counters := counters.(succeeded := counters.succeeded + 1);
          r := Bounded(data, counters, Status.Ok, [], settings.maxBytes);
      }
      WritePastChecks(response, settings.maxBytes);
      CallResult(results, calls, r, Wrote(work, response));
      results := results + [r];
    }

    /** A result without a provider call. */
    method Report(r: ToolResult)
      requires Valid() && r.counters.attempted == 0 && r.counters.succeeded == 0
      modifies `results
      ensures Valid() && results == old(results) + [r]
    {
      QuietResult(results, providers.calls, r);
      results := results + [r];
    }

    method ReportIssue(issue: Issue) returns (r: ToolResult)
      requires Valid()
      modifies `results
      ensures Valid() && results == old(results) + [r] && r == Failure(issue, NOTHING_DONE)
    {
      r := Failure(issue, NOTHING_DONE);
      Report(r);
    }

    method ReportQuota(issue: Issue) returns (r: ToolResult)
      requires Valid()
      modifies `results
      ensures Valid() && results == old(results) + [r] && r == QuotaFailure(issue, NOTHING_DONE)
    {
      r := QuotaFailure(issue, NOTHING_DONE);
      Report(r);
    }

    /** A cleared write is performed, a refused one told why. */
    method FinishWrite(job: nat, work: Work, refused: Option<Code>)
      returns (r: ToolResult, ghost answer: Option<Answer>)
      requires Valid() && !work.CostCall? && Allowed(settings, work)
      requires refused.None? ==>
                 job in deployment.world.jobs
                 && deployment.world.jobs[job].phase == Cleared && deployment.world.jobs[job].work == work
      modifies this, deployment, deployment.table, providers
      ensures Valid() && Later(old(deployment.world), deployment.world) && results == old(results) + [r]
      ensures providers.calls == old(providers.calls) + MadeCall(work, answer) && PastChecks(r)
      ensures if refused.None? then
                answer.Some? && r == WriteResult(answer.value, settings.maxBytes)
                && SentFor(old(served), served, job, old(deployment.world.jobs[job].attempt), None)
              else
                answer.None? && r == Failure(Unconfirmed(refused.value), NOTHING_DONE)
                && served == old(served) && deployment.world == old(deployment.world)
    {
      if refused.Some? {
        answer := None;
        r := ReportIssue(Unconfirmed(refused.value));
        return;
      }
      ghost var response := Returned(Null);
      r, response := PerformWrite(job, work);
      answer := Some(response);
    }

    /** From the confirmation to the result: the part the two write tools share. */
    method ExecuteWrite(work: Work, caller: Caller, token: string, at: int, fault: Fault, readFails: bool)
      returns (r: ToolResult, ghost answer: Option<Answer>, ghost job: nat, ghost seen: World)
      requires Valid() && !work.CostCall? && Allowed(settings, work)
      modifies this, deployment, deployment.table, providers
      ensures Valid() && Later(old(deployment.world), seen) && Later(seen, deployment.world)
      ensures results == old(results) + [r] && providers.calls == old(providers.calls) + MadeCall(work, answer)
      ensures PastChecks(r)
      ensures WriteOutcome(old(served), served, seen, deployment.world, job, AttemptFor(work, caller, token, at), work,
                           fault, readFails, answer, r, settings.maxBytes)
    {
      var refused, id;
      refused, id, seen := ConsumeConfirmation(work, caller, token, at, fault, readFails);
      job := id;
      ghost var middle := deployment.world;
      r, answer := FinishWrite(id, work, refused);
      LaterLater(seen, middle, deployment.world);
    }

    /** `_validate_telegram`. */
    function TelegramIssue(destination: string, message: string): Option<Issue>
    {
      if destination !in settings.telegram then Some(DestinationNotAllowed)
      else if message == "" || |message| > MAX_MESSAGE_CHARS then Some(InvalidMessage)
      else None
    }

    /** `_validate_trello`. */
    function TrelloIssue(board: string, list: string, title: string, description: string): Option<Issue>
    {
      if (board, list) !in settings.trello then Some(DestinationNotAllowed)
      else if title == "" || |title| > MAX_CARD_TITLE_CHARS then Some(InvalidTitle)
      else if |description| > MAX_CARD_DESCRIPTION_CHARS then Some(InvalidDescription)
      else None
    }

    method ExecuteTelegramMessage(caller: Caller, token: string, destination: string, message: string, at: int,
                                  fault: Fault, readFails: bool)
      returns (r: ToolResult, ghost answer: Option<Answer>, ghost job: nat, ghost seen: World)
      requires Valid()
      modifies this, deployment, deployment.table, providers
      ensures Valid() && Later(old(deployment.world), seen) && Later(seen, deployment.world)
      ensures results == old(results) + [r]
      ensures providers.calls == old(providers.calls) + MadeCall(Telegram(destination, message), answer)
      ensures var work := Telegram(destination, message);
              if Allowed(settings, work)
              then WriteOutcome(old(served), served, seen, deployment.world, job, AttemptFor(work, caller, token, at),
                                work, fault, readFails, answer, r, settings.maxBytes)
              else answer.None? && |r.errors| == 1 && r == Failure(r.errors[0], NOTHING_DONE)
                   && deployment.world == old(deployment.world) && served == old(served)
      ensures Fails(r, DestinationNotAllowed) <==> destination !in settings.telegram
      ensures Fails(r, InvalidMessage) <==> destination in settings.telegram && !(1 <= |message| <= 4096)
    {
      var issue := TelegramIssue(destination, message);
      if issue.Some? {
        answer, job, seen := None, 0, deployment.world;
        r := ReportIssue(issue.value);
        return;
      }
      r, answer, job, seen := ExecuteWrite(Telegram(destination, message), caller, token, at, fault, readFails);
    }

    method ExecuteTrelloCard(caller: Caller, token: string, board: string, list: string, title: string,
                             description: string, at: int, fault: Fault, readFails: bool)
      returns (r: ToolResult, ghost answer: Option<Answer>, ghost job: nat, ghost seen: World)
      requires Valid()
      modifies this, deployment, deployment.table, providers
      ensures Valid() && Later(old(deployment.world), seen) && Later(seen, deployment.world)
      ensures results == old(results) + [r]
      ensures providers.calls == old(providers.calls) + MadeCall(Trello(board, list, title, description), answer)
      ensures var work := Trello(board, list, title, description);
              if Allowed(settings, work)
              then WriteOutcome(old(served), served, seen, deployment.world, job, AttemptFor(work, caller, token, at),
                                work, fault, readFails, answer, r, settings.maxBytes)
              else answer.None? && |r.errors| == 1 && r == Failure(r.errors[0], NOTHING_DONE)
                   && deployment.world == old(deployment.world) && served == old(served)
      ensures var listed, titled := (board, list) in settings.trello, 1 <= |title| <= 256;
              && (Fails(r, DestinationNotAllowed) <==> !listed)
              && (Fails(r, InvalidTitle) <==> listed && !titled)
              && (Fails(r, InvalidDescription) <==> listed && titled && |description| > 5000)
    {
      var issue := TrelloIssue(board, list, title, description);
      if issue.Some? {
        answer, job, seen := None, 0, deployment.world;
        r := ReportIssue(issue.value);
        return;
      }
      r, answer, job, seen :=
        ExecuteWrite(Trello(board, list, title, description), caller, token, at, fault, readFails);
    }

    // ---------------------------------------------------------------- the billable query

    /** A confirmed query with its slot. */
    method PerformQuery(job: nat, query: CostQuery.Query, billingView: string, ghost paid: Payment)
      returns (r: ToolResult, ghost reply: CostAnswer)
      requires Valid() && Allowed(settings, CostCall(query, billingView))
      requires job in deployment.world.jobs && deployment.world.jobs[job].phase == Funded(paid.month, paid.read)
      requires deployment.world.jobs[job].work == CostCall(query, billingView)
      modifies this, deployment, deployment.table, providers
      ensures Valid() && Later(old(deployment.world), deployment.world) && results == old(results) + [r]
      ensures providers.calls == old(providers.calls) + [Queried(CostCall(query, billingView), reply)]
      ensures r == CostResult(reply, settings.maxBytes)
      ensures SentFor(old(served), served, job, old(deployment.world.jobs[job].attempt), Some(paid))
    {
      ghost var calls := providers.calls;
      var response := SendQuery(job, query, billingView, paid);
      reply := response;
      r := CostResult(response, settings.maxBytes);
      CallResult(results, calls, r, Queried(CostCall(query, billingView), response));
      results := results + [r];
    }

    /** A query with its slot is sent, one without is told why. */
    method SpendSlot(job: nat, query: CostQuery.Query, billingView: string, slot: Slot, ghost paid: Payment)
      returns (r: ToolResult, ghost reply: Option<CostAnswer>)
      requires Valid() && Allowed(settings, CostCall(query, billingView))
      requires slot == Acquired ==>
                 job in deployment.world.jobs && deployment.world.jobs[job].phase == Funded(paid.month, paid.read)
                 && deployment.world.jobs[job].work == CostCall(query, billingView)
      modifies this, deployment, deployment.table, providers
      ensures Valid() && Later(old(deployment.world), deployment.world) && results == old(results) + [r]
      ensures providers.calls == old(providers.calls) + MadeQuery(CostCall(query, billingView), reply)
      ensures if slot == Acquired then
                reply.Some? && r == CostResult(reply.value, settings.maxBytes)
                && SentFor(old(served), served, job, old(deployment.world.jobs[job].attempt), Some(paid))
              else
                reply.None? && r == QuotaFailure(SlotIssue(slot), NOTHING_DONE) && served == old(served)
    {
      if slot != Acquired {
        reply := None;
        r := ReportQuota(SlotIssue(slot));
        return;
      }
      ghost var answer := CostRaised;
      r, answer := PerformQuery(job, query, billingView, paid);
      reply := Some(answer);
    }

    /** From the consumed confirmation to the result: without a limiter there is no slot. */
    method FundQuery(job: nat, query: CostQuery.Query, billingView: string, now: Clock, fault: Fault)
      returns (r: ToolResult, ghost reply: Option<CostAnswer>, ghost counted: World)
      requires Valid() && Allowed(settings, CostCall(query, billingView))
      requires job in deployment.world.jobs && deployment.world.jobs[job].phase == Cleared
      requires deployment.world.jobs[job].work == CostCall(query, billingView)
      modifies this, deployment, deployment.table, providers
      ensures Valid() && Later(old(deployment.world), counted) && Later(counted, deployment.world)
      ensures results == old(results) + [r]
      ensures providers.calls == old(providers.calls) + MadeQuery(CostCall(query, billingView), reply)
      ensures SlotOutcome(old(served), served, counted, limiter != null, job, old(deployment.world.jobs[job].attempt),
                          now, fault, reply, r, settings.maxBytes)
    {
      reply, counted := None, deployment.world;
      if limiter == null {
        r := ReportQuota(QuotaNotAvailable);
        return;
      }
      var slot;
      slot, counted := TakeSlot(job, now, fault);
      ghost var middle := deployment.world;
      r, reply := SpendSlot(job, query, billingView, slot, PaymentFor(now));
      LaterLater(counted, middle, deployment.world);
    }

    /** A confirmed query is funded, a refused one told why. */
    method FinishQuery(job: nat, query: CostQuery.Query, billingView: string, refused: Option<Code>, now: Clock,
                       fault: Fault)
      returns (r: ToolResult, ghost reply: Option<CostAnswer>, ghost counted: World)
      requires Valid() && Allowed(settings, CostCall(query, billingView))
      requires refused.None? ==>
                 job in deployment.world.jobs && deployment.world.jobs[job].phase == Cleared
                 && deployment.world.jobs[job].work == CostCall(query, billingView)
      modifies this, deployment, deployment.table, providers
      ensures Valid() && Later(old(deployment.world), counted) && Later(counted, deployment.world)
      ensures results == old(results) + [r]
      ensures providers.calls == old(providers.calls) + MadeQuery(CostCall(query, billingView), reply)
      ensures if refused.None? then
                SlotOutcome(old(served), served, counted, limiter != null, job,
                            old(deployment.world.jobs[job].attempt), now, fault, reply, r, settings.maxBytes)
              else
                reply.None? && r == Failure(Unconfirmed(refused.value), NOTHING_DONE)
                && served == old(served) && deployment.world == old(deployment.world)
    {
      if refused.Some? {
        reply, counted := None, deployment.world;
        r := ReportIssue(Unconfirmed(refused.value));
        return;
      }
      r, reply, counted := FundQuery(job, query, billingView, now, fault);
    }

    /** First the confirmation, then the slot. */
    method ConfirmAndFund(query: CostQuery.Query, billingView: string, caller: Caller, token: string, at: int,
                          fault: Fault, readFails: bool, now: Clock, slotFault: Fault)
      returns (r: ToolResult, ghost reply: Option<CostAnswer>, ghost job: nat, ghost seen: World, ghost counted: World)
      requires Valid() && Allowed(settings, CostCall(query, billingView))
      modifies this, deployment, deployment.table, providers
      ensures Valid() && Later(old(deployment.world), seen) && Later(seen, counted) && Later(counted, deployment.world)
      ensures results == old(results) + [r] && PastChecks(r)
      ensures providers.calls == old(providers.calls) + MadeQuery(CostCall(query, billingView), reply)
      ensures QueryOutcome(old(served), served, seen, counted, deployment.world, limiter != null, job,
                           AttemptFor(CostCall(query, billingView), caller, token, at), CostCall(query, billingView),
                           fault, readFails, now, slotFault, reply, r, settings.maxBytes)
    {
      var refused, id;
      refused, id, seen := ConsumeConfirmation(CostCall(query, billingView), caller, token, at, fault, readFails);
      job := id;
      ghost var before, middle := served, deployment.world;
      r, reply, counted := FinishQuery(id, query, billingView, refused, now, slotFault);
      LaterLater(seen, middle, counted);
      QueryPastChecks(before, served, seen, counted, deployment.world, limiter != null, id,
                      AttemptFor(CostCall(query, billingView), caller, token, at), CostCall(query, billingView), fault,
                      readFails, now, slotFault, reply, r, settings.maxBytes);
    }

    /** What is checked before a confirmation is touched. */
    function CostIssue(checked: CostQuery.Checked): Option<Issue>
    {
      if !settings.costAllowed then Some(OperationBlocked)
      else if checked.Rejected? then Some(InvalidCostQuery(checked.code))
      else if settings.billingView.None? then Some(CostExplorerUnavailable)
      else None
    }

    method ExecuteCostQuery(caller: Caller, token: string, startDate: CostQuery.Argument, endDate: CostQuery.Argument,
                            granularity: CostQuery.Argument, groupBy: CostQuery.Argument, at: int, fault: Fault,
                            readFails: bool, now: Clock, slotFault: Fault)
      returns (r: ToolResult, ghost reply: Option<CostAnswer>, ghost job: nat, ghost seen: World, ghost counted: World)
      requires Valid()
      modifies this, deployment, deployment.table, providers
      ensures Valid() && Later(old(deployment.world), seen) && Later(seen, counted) && Later(counted, deployment.world)
      ensures results == old(results) + [r]
      ensures var checked := CostQuery.Validate(startDate, endDate, granularity, groupBy);
              && (Fails(r, OperationBlocked) <==> !settings.costAllowed)
              && (forall code :: Fails(r, InvalidCostQuery(code)) <==>
                                   settings.costAllowed && checked == CostQuery.Rejected(code))
              && (Fails(r, CostExplorerUnavailable) <==>
                    settings.costAllowed && checked.Accepted? && settings.billingView.None?)
      ensures var checked := CostQuery.Validate(startDate, endDate, granularity, groupBy);
              if !settings.costAllowed || checked.Rejected? || settings.billingView.None?
              then reply.None? && |r.errors| == 1 && r == Failure(r.errors[0], NOTHING_DONE)
                   && deployment.world == old(deployment.world)
                   && providers.calls == old(providers.calls) && served == old(served)
              else
                var work := CostCall(checked.query, settings.billingView.value);
                && providers.calls == old(providers.calls) + MadeQuery(work, reply)
                && QueryOutcome(old(served), served, seen, counted, deployment.world, limiter != null, job,
                                AttemptFor(work, caller, token, at), work, fault, readFails, now, slotFault, reply, r,
                                settings.maxBytes)
    {
      var checked := CostQuery.Validate(startDate, endDate, granularity, groupBy);
      var issue := CostIssue(checked);
      if issue.Some? {
        reply, job, seen, counted := None, 0, deployment.world, deployment.world;
        r := ReportIssue(issue.value);
        return;
      }
      CostQuery.AcceptedIsStable(startDate, endDate, granularity, groupBy);
      r, reply, job, seen, counted :=
        ConfirmAndFund(checked.query, settings.billingView.value, caller, token, at, fault, readFails, now, slotFault);
    }

    // ---------------------------------------------------------------- preparing, and the automatic reads

    /** `prepare` in the deployment, at a clock reading. */
    method IssueNow(work: Work, caller: Caller, at: int, token: string, fault: Fault)
      returns (outcome: PrepareOutcome)
      requires Wired() && UrlSafe(token) && token !in deployment.world.known && at <= deployment.world.clock
      requires TokenDigest(token) !in deployment.table.items
      modifies deployment, deployment.table
      ensures deployment.Valid() && Later(old(deployment.world), deployment.world)
      ensures IssueOutcome(deployment.world, token, caller, work, fault, outcome)
    {
      PrepareStep(deployment.world, token, caller, work, at, fault);
      outcome := guard.Prepare(caller, ActionOf(work), PayloadOf(work), at, token, fault);
      deployment.Take(Prepare(token, caller, work, ActionOf(work), PayloadOf(work), at, fault));
    }

    /** `prepare`, with its clock reading and its new token, and the others running before. */
    method IssueConfirmation(work: Work, caller: Caller, at: int, generate: World -> string, fault: Fault)
      returns (outcome: PrepareOutcome, ghost token: string)
      requires Wired() && Fresh(generate)
      modifies deployment, deployment.table
      ensures Wired() && Later(old(deployment.world), deployment.world) && token !in old(deployment.world).known
      ensures IssueOutcome(deployment.world, token, caller, work, fault, outcome)
    {
      ghost var start := deployment.world;
      var job := deployment.NewJob();
      deployment.Interleave(job);
      ghost var middle := deployment.world;
      deployment.See(at);
      ghost var seen := deployment.world;
      LaterLater(start, middle, seen);
      ServedLater(start, seen, providers.calls, served);
      var generated := generate(deployment.world);
      token := generated;
      NewTokenHasNoRow(deployment.config, seen, token);
      outcome := IssueNow(work, caller, at, generated, fault);
      ServedLater(seen, deployment.world, providers.calls, served);
      LaterLater(start, seen, deployment.world);
    }

    /** From the checked arguments to the confirmation. */
    method PrepareWork(work: Work, caller: Caller, preview: Json, at: int, generate: World -> string, fault: Fault)
      returns (r: ToolResult)
      requires Valid() && Fresh(generate)
      modifies deployment, deployment.table, `results
      ensures Valid() && Later(old(deployment.world), deployment.world) && results == old(results) + [r]
      ensures PrepareOutcomeOk(old(deployment.world), deployment.world, caller, work, preview, fault, r)
    {
      var outcome;
      ghost var token;
      outcome, token := IssueConfirmation(work, caller, at, generate, fault);
      r := match outcome
        case NotIssued(code) => Failure(Unconfirmed(code), NOTHING_DONE)
        case Issued(m) =>
          ToolResult(ConfirmationRequired, Obj([Field("preview", preview)]), [], [], NOTHING_DONE, Some(m));
      Report(r);
    }

    method PrepareTelegramMessage(caller: Caller, destination: string, message: string, at: int,
                                  generate: World -> string, fault: Fault)
      returns (r: ToolResult)
      requires Valid() && Fresh(generate)
      modifies deployment, deployment.table, `results
      ensures Valid() && Later(old(deployment.world), deployment.world) && results == old(results) + [r]
      ensures var work := Telegram(destination, message);
              var preview := Obj([Field("destination", Str(destination)), Field("message", Str(message))]);
              if Allowed(settings, work)
              then PrepareOutcomeOk(old(deployment.world), deployment.world, caller, work, preview, fault, r)
              else |r.errors| == 1 && r == Failure(r.errors[0], NOTHING_DONE)
                   && deployment.world == old(deployment.world)
      ensures Fails(r, DestinationNotAllowed) <==> destination !in settings.telegram
      ensures Fails(r, InvalidMessage) <==> destination in settings.telegram && !(1 <= |message| <= 4096)
    {
      var issue, work := TelegramIssue(destination, message), Telegram(destination, message);
      if issue.Some? {
        r := ReportIssue(issue.value);
        return;
      }
      r := PrepareWork(work, caller, PayloadOf(work), at, generate, fault);
    }

    method PrepareTrelloCard(caller: Caller, board: string, list: string, title: string, description: string, at: int,
                             generate: World -> string, fault: Fault)
      returns (r: ToolResult)
      requires Valid() && Fresh(generate)
      modifies deployment, deployment.table, `results
      ensures Valid() && Later(old(deployment.world), deployment.world) && results == old(results) + [r]
      ensures var work := Trello(board, list, title, description);
              var preview := Obj([Field("board", Str(board)), Field("list", Str(list)), Field("title", Str(title)),
                                  Field("description", Str(description))]);
              if Allowed(settings, work)
              then PrepareOutcomeOk(old(deployment.world), deployment.world, caller, work, preview, fault, r)
              else |r.errors| == 1 && r == Failure(r.errors[0], NOTHING_DONE)
                   && deployment.world == old(deployment.world)
      ensures var listed, titled := (board, list) in settings.trello, 1 <= |title| <= 256;
              && (Fails(r, DestinationNotAllowed) <==> !listed)
              && (Fails(r, InvalidTitle) <==> listed && !titled)
              && (Fails(r, InvalidDescription) <==> listed && titled && |description| > 5000)
    {
      var issue, work := TrelloIssue(board, list, title, description), Trello(board, list, title, description);
      if issue.Some? {
        r := ReportIssue(issue.value);
        return;
      }
      r := PrepareWork(work, caller, PayloadOf(work), at, generate, fault);
    }

    method PrepareCostQuery(caller: Caller, startDate: CostQuery.Argument, endDate: CostQuery.Argument,
                            granularity: CostQuery.Argument, groupBy: CostQuery.Argument, at: int,
                            generate: World -> string, fault: Fault)
      returns (r: ToolResult)
      requires Valid() && Fresh(generate)
      modifies deployment, deployment.table, `results
      ensures Valid() && Later(old(deployment.world), deployment.world) && results == old(results) + [r]
      ensures var checked := CostQuery.Validate(startDate, endDate, granularity, groupBy);
              && (Fails(r, OperationBlocked) <==> !settings.costAllowed)
              && (forall code :: Fails(r, InvalidCostQuery(code)) <==>
                                   settings.costAllowed && checked == CostQuery.Rejected(code))
              && (Fails(r, CostExplorerUnavailable) <==>
                    settings.costAllowed && checked.Accepted? && settings.billingView.None?)
      ensures var checked := CostQuery.Validate(startDate, endDate, granularity, groupBy);
              if !settings.costAllowed || checked.Rejected? || settings.billingView.None?
              then |r.errors| == 1 && r == Failure(r.errors[0], NOTHING_DONE)
                   && deployment.world == old(deployment.world)
              else PrepareOutcomeOk(old(deployment.world), deployment.world, caller,
                                    CostCall(checked.query, settings.billingView.value), CostPreview(checked.query),
                                    fault, r)
    {
      var checked := CostQuery.Validate(startDate, endDate, granularity, groupBy);
      var issue := CostIssue(checked);
      if issue.Some? {
        r := ReportIssue(issue.value);
        return;
      }
      r := PrepareWork(CostCall(checked.query, settings.billingView.value), caller, CostPreview(checked.query), at,
                       generate, fault);
    }

    /** `run_aws_operation`: `allowed` is the registry's answer, `reply` the adapter's. */
    method RunAwsOperation(allowed: bool, reply: AwsAnswer) returns (r: ToolResult)
      requires Valid()
      modifies `results
      ensures Valid() && results == old(results) + [r]
      ensures r.counters.attempted == r.counters.succeeded == 0
      ensures r == if !allowed then Failure(OperationBlocked, NOTHING_DONE) else AwsOutcome(reply, settings.maxBytes)
    {
      if !allowed {
        r := ReportIssue(OperationBlocked);
        return;
      }
      var counters := NOTHING_DONE;
      match reply {
        case AwsFailed(code, retryable) => r := Failure(FromAdapter(code, retryable), counters);
        case AwsGave(result) =>
          counters := counters.(sdkRequests := result.sdkRequests, resources := result.resources);
          r := Bounded(result.data, counters, result.status, FromAdapterIssues(result.issues), settings.maxBytes);
      }
      Report(r);
    }
  }
}
