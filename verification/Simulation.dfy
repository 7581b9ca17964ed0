/** The DynamoDB guard is simulated by the in-memory guard.

    Both guards go through the same run of prepares and consumes at a clock that never goes back;
    TTL removes items of the table on the way. Expiry in the table is in whole seconds, in memory
    in microseconds. */
module Simulation {
  import opened Basics
  import opened Calendar
  import opened CanonicalJson
  import opened Store
  import opened Confirmation

  datatype Op =
    | Issue(token: string, caller: Caller, action: string, payload: Payload, at: int)
    | Present(attempt: Attempt)
    | Expire(key: Digest, at: int)

  function TimeOf(op: Op): int
  {
    match op case Issue(_, _, _, _, at) => at case Present(a) => a.at case Expire(_, at) => at
  }

  function TableAfter(t: Table, ttl: int, op: Op): Table
  {
    match op
    case Issue(token, caller, action, payload, at) =>
      (match PayloadDigest(payload)
       case TooLarge => t
       case Digested(d) =>
         var key := TokenDigest(token);
         var row := ConfirmationRow(Fingerprint(caller), action, d, Epoch(at + ttl), false);
         ConditionalWrite(t, key, key !in t, row, NoFault).table)
    case Present(a) => ConsumeUpdate(t, a, NoFault).table
    case Expire(key, at) => if Sweepable(t, key, at) then Sweep(t, key) else t
  }

  function RecordsAfter(rs: Records, ttl: int, op: Op): Records
  {
    match op
    case Issue(token, caller, action, payload, at) =>
      (match PayloadDigest(payload)
       case TooLarge => rs
       case Digested(d) => rs[TokenDigest(token) := Record(Fingerprint(caller), action, d, at + ttl, false)])
    case Present(a) => AfterConsume(rs, a)
    case Expire(_, _) => rs
  }

  function TableAnswer(t: Table, op: Op): Option<Outcome>
  {
    if op.Present? then Some(ConsumeOutcome(t, op.attempt, NoFault, false)) else None
  }

  function RecordsAnswer(rs: Records, op: Op): Option<Outcome>
  {
    if op.Present? then Some(CheckRecord(FindRecord(rs, op.attempt.token), op.attempt)) else None
  }

  /** One operation on the two guards themselves; no store call fails. */
  method Perform(op: Op, inTable: DynamoDbConfirmationGuard, inMemory: ConfirmationGuard)
    returns (tableAnswer: Option<Outcome>, memoryAnswer: Option<Outcome>)
    requires inTable.ttl == inMemory.ttl
    modifies inTable.table, inMemory
    ensures inTable.table.items == TableAfter(old(inTable.table.items), inTable.ttl, op)
    ensures inMemory.records == RecordsAfter(old(inMemory.records), inMemory.ttl, op)
    ensures tableAnswer == TableAnswer(old(inTable.table.items), op)
    ensures memoryAnswer == RecordsAnswer(old(inMemory.records), op)
  {
    tableAnswer, memoryAnswer := None, None;
    match op {
      case Issue(token, caller, action, payload, at) =>
        var _ := inTable.Prepare(caller, action, payload, at, token, NoFault);
        var _ := inMemory.Prepare(caller, action, payload, at, token);
      case Present(attempt) =>
        var first := inTable.Consume(attempt, NoFault, false);
        var second := inMemory.Consume(attempt);
        tableAnswer, memoryAnswer := Some(first), Some(second);
      case Expire(key, at) =>
        if Sweepable(inTable.table.items, key, at) { inTable.table.items := Sweep(inTable.table.items, key); }
    }
  }

  function TableAnswers(t: Table, ttl: int, run: seq<Op>): (answers: seq<Option<Outcome>>)
    ensures |answers| == |run|
    decreases |run|
  {
    if run == [] then [] else [TableAnswer(t, run[0])] + TableAnswers(TableAfter(t, ttl, run[0]), ttl, run[1..])
  }

  function RecordsAnswers(rs: Records, ttl: int, run: seq<Op>): (answers: seq<Option<Outcome>>)
    ensures |answers| == |run|
    decreases |run|
  {
    if run == [] then [] else [RecordsAnswer(rs, run[0])] + RecordsAnswers(RecordsAfter(rs, ttl, run[0]), ttl, run[1..])
  }

  /** Issued tokens are new to both guards, and the clock never goes back. */
  predicate Proper(t: Table, rs: Records, ttl: int, now: int, run: seq<Op>)
    decreases |run|
  {
    run == [] ||
    (var op := run[0];
     && now <= TimeOf(op)
     && (op.Issue? ==> TokenDigest(op.token) !in t && TokenDigest(op.token) !in rs)
     && Proper(TableAfter(t, ttl, op), RecordsAfter(rs, ttl, op), ttl, TimeOf(op), run[1..]))
  }

  // ---------------------------------------------------------------- the simulation relation

  /** The stored row of a record. */
  function RowOf(r: Record, consumed: bool): Item
  {
    ConfirmationRow(r.caller, r.action, r.payload, Epoch(r.expiresAt), consumed)
  }

  /** A row agrees with its record, except that the record may be consumed alone once the whole
      second of its expiry has begun. */
  predicate RowAgrees(row: Item, r: Record, now: int)
  {
    || row == RowOf(r, r.consumed)
    || (r.consumed && row == RowOf(r, false) && Epoch(r.expiresAt) <= Epoch(now))
  }

  ghost predicate Related(t: Table, rs: Records, now: int)
  {
    && (forall key :: key in t && key in rs ==> RowAgrees(t[key], rs[key], now))
    && (forall key :: key in t && key !in rs ==> IsConsumed !in t[key])
    && (forall key :: key in rs && key !in t ==> Epoch(rs[key].expiresAt) <= Epoch(now))
  }

  /** The last, partial second before expiry: in memory not expired, in the table expired. */
  predicate LastSecond(r: Record, at: int)
  {
    at < r.expiresAt && Epoch(r.expiresAt) <= Epoch(at)
  }

  lemma RowMembers(r: Record, consumed: bool)
    ensures var row := RowOf(r, consumed);
            && row[IsConsumed] == BOOL(consumed) && row[ExpiresAt] == N(Epoch(r.expiresAt))
            && row[CallerFingerprint] == S(Hash(r.caller)) && row[Action] == S(Plain(r.action))
            && row[PayloadHash] == S(Hash(r.payload))
  {
  }

  /** The table's verdict on a row of a record. */
  lemma RowVerdict(t: Table, r: Record, consumed: bool, a: Attempt)
    requires TokenDigest(a.token) in t && t[TokenDigest(a.token)] == RowOf(r, consumed)
    requires PayloadDigest(a.payload).Digested?
    ensures ConsumeOutcome(t, a, NoFault, false)
         == if consumed then Refused(Replayed)
            else if Epoch(r.expiresAt) <= Epoch(a.at) then Refused(Expired)
            else if r.caller != Fingerprint(a.caller) then Refused(CallerMismatch)
            else if r.action != a.action then Refused(ActionMismatch)
            else if r.payload != PayloadDigest(a.payload).digest then Refused(PayloadMismatch)
            else Confirmed
  {
    RowMembers(r, consumed);
  }

  lemma ExpiryRounds(expiresAt: int, at: int)
    ensures at >= expiresAt ==> Epoch(expiresAt) <= Epoch(at)
  {
    if at >= expiresAt { EpochMonotone(expiresAt, at); }
  }

  /** The memory's verdict on a record. */
  lemma RecordVerdict(rs: Records, r: Record, a: Attempt)
    requires TokenDigest(a.token) in rs && rs[TokenDigest(a.token)] == r && PayloadDigest(a.payload).Digested?
    ensures CheckRecord(FindRecord(rs, a.token), a)
         == if r.consumed then Refused(Replayed)
            else if r.expiresAt <= a.at then Refused(Expired)
            else if r.caller != Fingerprint(a.caller) then Refused(CallerMismatch)
            else if r.action != a.action then Refused(ActionMismatch)
            else if r.payload != PayloadDigest(a.payload).digest then Refused(PayloadMismatch)
            else Confirmed
  {
  }

  /** A token both guards know. */
  lemma KnownCompare(t: Table, rs: Records, a: Attempt, now: int)
    requires Related(t, rs, now) && now <= a.at && PayloadDigest(a.payload).Digested?
    requires TokenDigest(a.token) in t && TokenDigest(a.token) in rs
    ensures var r := rs[TokenDigest(a.token)];
            var inTable, inMemory := ConsumeOutcome(t, a, NoFault, false), CheckRecord(FindRecord(rs, a.token), a);
            && (inTable == Confirmed ==> inMemory == Confirmed)
            && (inTable != inMemory <==>
                  t[TokenDigest(a.token)] == RowOf(r, false) && (r.consumed || LastSecond(r, a.at)))
  {
    var key := TokenDigest(a.token);
    var r := rs[key];
    EpochMonotone(now, a.at);
    ExpiryRounds(r.expiresAt, a.at);
    RowMembers(r, true);
    RowMembers(r, false);
    RecordVerdict(rs, r, a);
    RowVerdict(t, r, t[key] == RowOf(r, true), a);
  }

  /** A token only one guard knows, or none. */
  lemma UnknownCompare(t: Table, rs: Records, a: Attempt, now: int)
    requires Related(t, rs, now) && now <= a.at && PayloadDigest(a.payload).Digested?
    requires TokenDigest(a.token) !in t || TokenDigest(a.token) !in rs
    ensures var key := TokenDigest(a.token);
            var inTable, inMemory := ConsumeOutcome(t, a, NoFault, false), CheckRecord(FindRecord(rs, a.token), a);
            inTable != Confirmed && (inTable != inMemory <==> (key in t) != (key in rs))
  {
    if TokenDigest(a.token) in rs { RecordVerdict(rs, rs[TokenDigest(a.token)], a); }
  }

  /** In memory the payload is looked at last, and then reported as too large. */
  lemma TooLargeRecord(record: Option<Record>, a: Attempt)
    requires PayloadDigest(a.payload).TooLarge?
    ensures CheckRecord(record, a)
         == if record.None? then Refused(Invalid)
            else if record.value.consumed then Refused(Replayed)
            else if record.value.expiresAt <= a.at then Refused(Expired)
            else if record.value.caller != Fingerprint(a.caller) then Refused(CallerMismatch)
            else if record.value.action != a.action then Refused(ActionMismatch)
            else Refused(PayloadTooLarge)
  {
  }

  /** A payload that is too large. */
  lemma TooLargeCompare(t: Table, rs: Records, a: Attempt)
    requires PayloadDigest(a.payload).TooLarge?
    ensures ConsumeOutcome(t, a, NoFault, false) == Refused(StoreUnavailable)
    ensures var inMemory := CheckRecord(FindRecord(rs, a.token), a);
            inMemory != Confirmed && inMemory != Refused(StoreUnavailable)
  {
    TooLargeRecord(FindRecord(rs, a.token), a);
  }

  /** From related states, one presented token: a success in the table is a success in memory, and
      the answers differ exactly when the payload is too large, the token's item is a counter, the
      item has been removed, or the attempt falls into the last second of an unspent record or
      follows one that did. */
  lemma AnswersCompare(t: Table, rs: Records, a: Attempt, now: int)
    requires Related(t, rs, now) && now <= a.at
    ensures var key := TokenDigest(a.token);
            var inTable, inMemory := ConsumeOutcome(t, a, NoFault, false), CheckRecord(FindRecord(rs, a.token), a);
            && (inTable == Confirmed ==> inMemory == Confirmed)
            && (inTable != inMemory <==>
                  || PayloadDigest(a.payload).TooLarge?
                  || (key in t) != (key in rs)
                  || (key in t && key in rs && t[key] == RowOf(rs[key], false)
                      && (rs[key].consumed || LastSecond(rs[key], a.at))))
  {
    if PayloadDigest(a.payload).TooLarge? {
      TooLargeCompare(t, rs, a);
    } else if TokenDigest(a.token) in t && TokenDigest(a.token) in rs {
      KnownCompare(t, rs, a, now);
    } else {
      UnknownCompare(t, rs, a, now);
    }
  }

  lemma RelatedLater(t: Table, rs: Records, now: int, later: int)
    requires Related(t, rs, now) && now <= later
    ensures Related(t, rs, later)
  {
    EpochMonotone(now, later);
  }

  lemma IssueKeeps(t: Table, rs: Records, ttl: int, op: Op)
    requires op.Issue? && Related(t, rs, op.at)
    requires TokenDigest(op.token) !in t && TokenDigest(op.token) !in rs
    ensures Related(TableAfter(t, ttl, op), RecordsAfter(rs, ttl, op), op.at)
  {
  }

  lemma ExpireKeeps(t: Table, rs: Records, ttl: int, op: Op)
    requires op.Expire? && Related(t, rs, op.at)
    ensures Related(TableAfter(t, ttl, op), RecordsAfter(rs, ttl, op), op.at)
  {
    if Sweepable(t, op.key, op.at) && op.key in rs {
      var r := rs[op.key];
      RowMembers(r, true);
      RowMembers(r, false);
      assert t[op.key][ExpiresAt] == N(Epoch(r.expiresAt));
      EpochMonotone(Epoch(r.expiresAt) * MICROS_PER_SECOND, op.at);
      assert Epoch(Epoch(r.expiresAt) * MICROS_PER_SECOND) == Epoch(r.expiresAt);
    }
  }

  lemma MarkedRowOf(r: Record)
    ensures MarkedRow(Some(RowOf(r, false))) == RowOf(r, true)
  {
    RowMembers(r, true);
    RowMembers(r, false);
  }

  /** A success marks the item and the record. */
  lemma SuccessChanges(t: Table, rs: Records, a: Attempt)
    requires Related(t, rs, a.at) && ConsumeOutcome(t, a, NoFault, false) == Confirmed
    ensures var key := TokenDigest(a.token);
            && key in t && key in rs && CheckRecord(FindRecord(rs, a.token), a) == Confirmed
            && ConsumeUpdate(t, a, NoFault).table == t[key := RowOf(rs[key], true)]
            && AfterConsume(rs, a) == MarkRecord(rs, a.token)
  {
    var key := TokenDigest(a.token);
    AnswersCompare(t, rs, a, a.at);
    RowMembers(rs[key], true);
    assert t[key] == RowOf(rs[key], false);
    MarkedRowOf(rs[key]);
  }

  lemma LateChanges(t: Table, rs: Records, a: Attempt)
    requires Related(t, rs, a.at) && ConsumeOutcome(t, a, NoFault, false) != Confirmed
    requires CheckRecord(FindRecord(rs, a.token), a) == Confirmed
    ensures var key := TokenDigest(a.token);
            key in rs && Epoch(rs[key].expiresAt) <= Epoch(a.at) && !rs[key].consumed
  {
    AnswersCompare(t, rs, a, a.at);
  }

  /** The item a presented token changes, if any, is marked like its record. */
  lemma PresentChanges(t: Table, rs: Records, a: Attempt)
    requires Related(t, rs, a.at)
    ensures var key := TokenDigest(a.token);
            var t', rs' := ConsumeUpdate(t, a, NoFault).table, AfterConsume(rs, a);
            if ConsumeOutcome(t, a, NoFault, false) == Confirmed then
              key in t && key in rs && t' == t[key := RowOf(rs[key], true)] && rs' == MarkRecord(rs, a.token)
            else if CheckRecord(FindRecord(rs, a.token), a) == Confirmed then
              key in rs && t' == t && rs' == MarkRecord(rs, a.token)
              && Epoch(rs[key].expiresAt) <= Epoch(a.at) && !rs[key].consumed
            else t' == t && rs' == rs
  {
    if ConsumeOutcome(t, a, NoFault, false) == Confirmed {
      SuccessChanges(t, rs, a);
    } else {
      FailureChangesNothing(t, a, NoFault, false);
      if CheckRecord(FindRecord(rs, a.token), a) == Confirmed { LateChanges(t, rs, a); }
    }
  }

  lemma PresentKeeps(t: Table, rs: Records, ttl: int, op: Op)
    requires op.Present? && Related(t, rs, op.attempt.at)
    ensures Related(TableAfter(t, ttl, op), RecordsAfter(rs, ttl, op), op.attempt.at)
  {
    PresentChanges(t, rs, op.attempt);
  }

  lemma OpKeeps(t: Table, rs: Records, ttl: int, op: Op, now: int)
    requires Related(t, rs, now) && now <= TimeOf(op)
    requires op.Issue? ==> TokenDigest(op.token) !in t && TokenDigest(op.token) !in rs
    ensures Related(TableAfter(t, ttl, op), RecordsAfter(rs, ttl, op), TimeOf(op))
  {
    RelatedLater(t, rs, now, TimeOf(op));
    match op
    case Issue(_, _, _, _, _) => IssueKeeps(t, rs, ttl, op);
    case Present(_) => PresentKeeps(t, rs, ttl, op);
    case Expire(_, _) => ExpireKeeps(t, rs, ttl, op);
  }

  // ---------------------------------------------------------------- whole runs

  /** Every success of the DynamoDB guard is a success of the in-memory guard at the same step,
      removals by TTL included. */
  lemma {:induction false} SuccessesAreSimulated(t: Table, rs: Records, ttl: int, now: int, run: seq<Op>, i: nat)
    requires Related(t, rs, now) && Proper(t, rs, ttl, now, run) && i < |run|
    ensures TableAnswers(t, ttl, run)[i] == Some(Confirmed) ==> RecordsAnswers(rs, ttl, run)[i] == Some(Confirmed)
    decreases |run|
  {
    var op := run[0];
    if i == 0 {
      if op.Present? { AnswersCompare(t, rs, op.attempt, now); }
    } else {
      OpKeeps(t, rs, ttl, op, now);
      SuccessesAreSimulated(TableAfter(t, ttl, op), RecordsAfter(rs, ttl, op), ttl, TimeOf(op), run[1..], i - 1);
    }
  }

  /** The presented payload is not too large, both guards or neither know the token (which a counter's key or a removal
      by TTL would break), and the attempt does not fall into the last, partial second of an unspent record. */
  predicate CalmAttempt(t: Table, rs: Records, a: Attempt)
  {
    var key := TokenDigest(a.token);
    && PayloadDigest(a.payload).Digested?
    && (key in t <==> key in rs)
    && (key in rs && !rs[key].consumed ==> !LastSecond(rs[key], a.at))
  }

  /** Every attempt of the run is calm when it is made. */
  predicate Calm(t: Table, rs: Records, ttl: int, run: seq<Op>)
    decreases |run|
  {
    run == [] ||
    (var op := run[0];
     && (op.Present? ==> CalmAttempt(t, rs, op.attempt))
     && Calm(TableAfter(t, ttl, op), RecordsAfter(rs, ttl, op), ttl, run[1..]))
  }

  /** Rows and records that are both there agree. */
  ghost predicate InStep(t: Table, rs: Records)
  {
    forall key :: key in t && key in rs ==> t[key] == RowOf(rs[key], rs[key].consumed)
  }

  lemma RowsDiffer(r: Record)
    ensures RowOf(r, true) != RowOf(r, false)
  {
    RowMembers(r, true);
    RowMembers(r, false);
  }

  /** In step, the answers to an attempt agree exactly if it is calm. */
  lemma CalmExactly(t: Table, rs: Records, a: Attempt, now: int)
    requires Related(t, rs, now) && now <= a.at && InStep(t, rs)
    ensures ConsumeOutcome(t, a, NoFault, false) == CheckRecord(FindRecord(rs, a.token), a) <==> CalmAttempt(t, rs, a)
  {
    var key := TokenDigest(a.token);
    AnswersCompare(t, rs, a, now);
    if key in rs { RowsDiffer(rs[key]); }
  }

  /** A calm attempt keeps the guards in step. */
  lemma CalmKeeps(t: Table, rs: Records, a: Attempt)
    requires Related(t, rs, a.at) && InStep(t, rs) && CalmAttempt(t, rs, a)
    ensures InStep(ConsumeUpdate(t, a, NoFault).table, AfterConsume(rs, a))
  {
    CalmExactly(t, rs, a, a.at);
    PresentChanges(t, rs, a);
  }

  lemma OthersKeep(t: Table, rs: Records, ttl: int, op: Op)
    requires InStep(t, rs) && !op.Present?
    requires op.Issue? ==> TokenDigest(op.token) !in t && TokenDigest(op.token) !in rs
    ensures InStep(TableAfter(t, ttl, op), RecordsAfter(rs, ttl, op))
  {
  }

  /** Over any run with removals by TTL, both guards give the same answers, error codes included, at every step
      exactly if every attempt is calm. */
  lemma {:induction false} CalmRunsAgree(t: Table, rs: Records, ttl: int, now: int, run: seq<Op>)
    requires Related(t, rs, now) && InStep(t, rs) && Proper(t, rs, ttl, now, run)
    ensures TableAnswers(t, ttl, run) == RecordsAnswers(rs, ttl, run) <==> Calm(t, rs, ttl, run)
    decreases |run|
  {
    if run != [] {
      var op := run[0];
      if op.Present? { CalmExactly(t, rs, op.attempt, now); }
      if op.Present? && !CalmAttempt(t, rs, op.attempt) {
        assert TableAnswers(t, ttl, run)[0] != RecordsAnswers(rs, ttl, run)[0];
      } else {
        OpKeeps(t, rs, ttl, op, now);
        RelatedLater(t, rs, now, TimeOf(op));
        if op.Present? { CalmKeeps(t, rs, op.attempt); } else { OthersKeep(t, rs, ttl, op); }
        CalmRunsAgree(TableAfter(t, ttl, op), RecordsAfter(rs, ttl, op), ttl, TimeOf(op), run[1..]);
        assert TableAnswers(t, ttl, run)[1..] == TableAnswers(TableAfter(t, ttl, op), ttl, run[1..]);
        assert RecordsAnswers(rs, ttl, run)[1..] == RecordsAnswers(RecordsAfter(rs, ttl, op), ttl, run[1..]);
      }
    }
  }

  /** In particular from the start, where neither guard knows a token. */
  lemma FreshRunsAgree(t: Table, ttl: int, now: int, run: seq<Op>)
    requires forall key :: key in t ==> IsConsumed !in t[key]
    requires Proper(t, map[], ttl, now, run)
    ensures TableAnswers(t, ttl, run) == RecordsAnswers(map[], ttl, run) <==> Calm(t, map[], ttl, run)
  {
    CalmRunsAgree(t, map[], ttl, now, run);
  }
}
