/** Caller-bound, expiring, single-use confirmations: the in-memory guard and the DynamoDB guard. */
module Confirmation {
  import opened Basics
  import opened Calendar
  import opened CanonicalJson
  import opened Store

  datatype Caller = Caller(issuer: string, subject: string, scopes: set<string>)

  const NUL: char := 0 as char

  /** SHA-256 of issuer, NUL, subject; the truncation to 24 digits is taken as injective too. */
  function Fingerprint(c: Caller): Digest
  {
    Sha256(c.issuer + [NUL] + c.subject)
  }

  function TokenDigest(token: string): Digest { Sha256(token) }

  datatype Code =
    | Invalid | Replayed | Expired | CallerMismatch | ActionMismatch | PayloadMismatch
    | PayloadTooLarge | StoreUnavailable | StoreInvalid

  datatype Outcome = Confirmed | Refused(code: Code)

  datatype Metadata = Metadata(token: string, action: string, payloadDigest: Digest, expiresAt: int)

  datatype PrepareOutcome = Issued(metadata: Metadata) | NotIssued(code: Code)

  /** One call of `consume`, with the one clock reading it takes (microseconds since the epoch). */
  datatype Attempt = Attempt(token: string, caller: Caller, action: string, payload: Payload, at: int)

  // ---------------------------------------------------------------- who a fingerprint names

  predicate NulFree(c: Caller)
  {
    NUL !in c.issuer && NUL !in c.subject
  }

  predicate SameIdentity(c: Caller, d: Caller)
  {
    c.issuer == d.issuer && c.subject == d.subject
  }

  /** Equal fingerprints mean the same identity if both callers come from one issuer, as all callers of a deployment do,
      or if one of them is free of NUL. */
  lemma SameFingerprint(c: Caller, d: Caller)
    requires Fingerprint(c) == Fingerprint(d)
    requires c.issuer == d.issuer || NulFree(c) || NulFree(d)
    ensures SameIdentity(c, d)
  {
    if c.issuer == d.issuer {
      var k := |c.issuer + [NUL]|;
      assert (c.issuer + [NUL] + c.subject)[k..] == c.subject && (d.issuer + [NUL] + d.subject)[k..] == d.subject;
    } else if NulFree(c) {
      SplitAtNul(d.issuer, d.subject, c.issuer, c.subject);
    } else {
      SplitAtNul(c.issuer, c.subject, d.issuer, d.subject);
    }
  }

  /** Over callers of any issuers, a fingerprint names one identity exactly if that identity is free of NUL. */
  lemma FingerprintNames(c: Caller)
    ensures (forall d: Caller :: Fingerprint(d) == Fingerprint(c) ==> SameIdentity(d, c)) <==> NulFree(c)
  {
    if NulFree(c) {
      forall d: Caller | Fingerprint(d) == Fingerprint(c) ensures SameIdentity(d, c) { SameFingerprint(c, d); }
    } else if NUL in c.issuer {
      var i :| 0 <= i < |c.issuer| && c.issuer[i] == NUL;
      var d := Caller(c.issuer[..i], c.issuer[i + 1..] + [NUL] + c.subject, {});
      assert c.issuer == c.issuer[..i] + [NUL] + c.issuer[i + 1..];
      assert d.issuer + [NUL] + d.subject == c.issuer + [NUL] + c.subject;
      assert Fingerprint(d) == Fingerprint(c) && |d.issuer| != |c.issuer|;
    } else {
      var i :| 0 <= i < |c.subject| && c.subject[i] == NUL;
      var d := Caller(c.issuer + [NUL] + c.subject[..i], c.subject[i + 1..], {});
      assert c.subject == c.subject[..i] + [NUL] + c.subject[i + 1..];
      assert d.issuer + [NUL] + d.subject == c.issuer + [NUL] + c.subject;
      assert Fingerprint(d) == Fingerprint(c) && |d.issuer| != |c.issuer|;
    }
  }

  lemma NulAt(x: string, y: string, k: nat)
    requires k < |x| + 1 + |y| && (x + [NUL] + y)[k] == NUL
    ensures k == |x| || NUL in x || NUL in y
  {
    if k < |x| {
      assert x[k] == NUL;
    } else if k > |x| {
      assert y[k - |x| - 1] == NUL;
    }
  }

  lemma SplitAtNul(a: string, b: string, x: string, y: string)
    requires a + [NUL] + b == x + [NUL] + y && NUL !in x && NUL !in y
    ensures a == x && b == y
  {
    var t := x + [NUL] + y;
    assert t[|a|] == NUL;
    forall k | 0 <= k < |t| && t[k] == NUL ensures k == |x| {
      NulAt(x, y, k);
    }
    assert a == t[..|x|] && b == t[|x| + 1..];
  }

  // ---------------------------------------------------------------- in memory

  datatype Record = Record(caller: Digest, action: string, payload: Digest, expiresAt: int, consumed: bool)

  type Records = map<Digest, Record>

  /** `ConfirmationGuard.consume` on the record under the token's digest, checks in source order. */
  function CheckRecord(record: Option<Record>, a: Attempt): Outcome
  {
    match record
    case None => Refused(Invalid)
    case Some(r) =>
      if r.consumed then Refused(Replayed)
      else if a.at >= r.expiresAt then Refused(Expired)
      else if r.caller != Fingerprint(a.caller) then Refused(CallerMismatch)
      else if r.action != a.action then Refused(ActionMismatch)
      else
        match PayloadDigest(a.payload)
        case TooLarge => Refused(PayloadTooLarge)
        case Digested(d) => if r.payload != d then Refused(PayloadMismatch) else Confirmed
  }

  function FindRecord(rs: Records, token: string): Option<Record>
  {
    if TokenDigest(token) in rs then Some(rs[TokenDigest(token)]) else None
  }

  function MarkRecord(rs: Records, token: string): Records
    requires TokenDigest(token) in rs
  {
    rs[TokenDigest(token) := rs[TokenDigest(token)].(consumed := true)]
  }

  function AfterConsume(rs: Records, a: Attempt): Records
  {
    if CheckRecord(FindRecord(rs, a.token), a).Confirmed? then MarkRecord(rs, a.token) else rs
  }

  class ConfirmationGuard {
    const ttl: int
    var records: Records

    constructor (ttl: int)
      requires ttl > 0
      ensures this.ttl == ttl && records == map[]
    {
      this.ttl := ttl;
      records := map[];
    }

    /** `token` is what `secrets.token_urlsafe` returned. */
    method Prepare(caller: Caller, action: string, payload: Payload, now: int, token: string)
      returns (r: PrepareOutcome)
      modifies this
      ensures PayloadDigest(payload).TooLarge? ==> r == NotIssued(PayloadTooLarge) && records == old(records)
      ensures PayloadDigest(payload).Digested? ==>
                var d := PayloadDigest(payload).digest;
                && r == Issued(Metadata(token, action, d, now + ttl))
                && records == old(records)[TokenDigest(token) :=
                     Record(Fingerprint(caller), action, d, now + ttl, false)]
    {
      var expiresAt := now + ttl;
      match PayloadDigest(payload) {
        case TooLarge => return NotIssued(PayloadTooLarge);
        case Digested(d) =>
          records := records[TokenDigest(token) := Record(Fingerprint(caller), action, d, expiresAt, false)];
          return Issued(Metadata(token, action, d, expiresAt));
      }
    }

    method Consume(a: Attempt) returns (o: Outcome)
      modifies this
      ensures o == CheckRecord(FindRecord(old(records), a.token), a)
      ensures records == AfterConsume(old(records), a)
    {
      var record := FindRecord(records, a.token);
      if record.None? { return Refused(Invalid); }
      var r := record.value;
      if r.consumed { return Refused(Replayed); }
      if a.at >= r.expiresAt { return Refused(Expired); }
      if r.caller != Fingerprint(a.caller) { return Refused(CallerMismatch); }
      if r.action != a.action { return Refused(ActionMismatch); }
      var digest := PayloadDigest(a.payload);
      if digest.TooLarge? { return Refused(PayloadTooLarge); }
      if r.payload != digest.digest { return Refused(PayloadMismatch); }
      records := records[TokenDigest(a.token) := r.(consumed := true)];
      return Confirmed;
    }
  }

  // ---------------------------------------------------------------- DynamoDB

  /** The item `prepare` stores. */
  function ConfirmationRow(caller: Digest, action: string, payload: Digest, expires: int, consumed: bool): Item
  {
    map[CallerFingerprint := S(Hash(caller)), Action := S(Plain(action)), PayloadHash := S(Hash(payload)),
        ExpiresAt := N(expires), IsConsumed := BOOL(consumed)]
  }

  /** The condition expression of `consume`: a comparison on a missing or differently typed
      attribute is false. */
  predicate ConsumeAllowed(row: Option<Item>, a: Attempt, digest: Digest)
  {
    && row.Some?
    && Has(row.value, IsConsumed, BOOL(false))
    && ExpiresAt in row.value && row.value[ExpiresAt].N? && row.value[ExpiresAt].number > Epoch(a.at)
    && Has(row.value, CallerFingerprint, S(Hash(Fingerprint(a.caller))))
    && Has(row.value, Action, S(Plain(a.action)))
    && Has(row.value, PayloadHash, S(Hash(digest)))
  }

  function MarkedRow(row: Option<Item>): Item
  {
    (if row.Some? then row.value else map[])[IsConsumed := BOOL(true)]
  }

  /** The conditional update. The payload digest is computed inside the `try`, so an oversized
      payload looks like an unavailable store. */
  function ConsumeUpdate(t: Table, a: Attempt, fault: Fault): Written
  {
    match PayloadDigest(a.payload)
    case TooLarge => Written(t, NoAnswer)
    case Digested(d) =>
      var row := Lookup(t, TokenDigest(a.token));
      ConditionalWrite(t, TokenDigest(a.token), ConsumeAllowed(row, a, d), MarkedRow(row), fault)
  }

  /** The diagnosis of a failed update from the item read afterwards. */
  function Diagnose(row: Option<Item>, a: Attempt): Code
  {
    if row.None? then Invalid
    else
      var item := row.value;
      if !(IsConsumed in item && item[IsConsumed].BOOL?) then StoreInvalid
      else if item[IsConsumed].flag then Replayed
      else if !(ExpiresAt in item && item[ExpiresAt].N?) then StoreInvalid
      else if item[ExpiresAt].number <= Epoch(a.at) then Expired
      else if !(CallerFingerprint in item && item[CallerFingerprint].S?) then StoreInvalid
      else if item[CallerFingerprint] != S(Hash(Fingerprint(a.caller))) then CallerMismatch
      else if !(Action in item && item[Action].S?) then StoreInvalid
      else if item[Action] != S(Plain(a.action)) then ActionMismatch
      else PayloadMismatch
  }

  /** A whole `consume` when nothing runs between the update and the read. */
  function ConsumeOutcome(t: Table, a: Attempt, fault: Fault, readFails: bool): Outcome
  {
    match ConsumeUpdate(t, a, fault).reply
    case Done => Confirmed
    case NoAnswer => Refused(StoreUnavailable)
    case ConditionFailed =>
      if readFails then Refused(StoreUnavailable) else Refused(Diagnose(Lookup(t, TokenDigest(a.token)), a))
  }

  /** A failing `consume` leaves the table as it was exactly unless the store applied the update
      and only its answer was lost. */
  lemma FailureChangesNothing(t: Table, a: Attempt, fault: Fault, readFails: bool)
    requires ConsumeOutcome(t, a, fault, readFails).Refused?
    ensures ConsumeUpdate(t, a, fault).table == t
            <==> !(fault.ReplyLost? && PayloadDigest(a.payload).Digested?
                   && ConsumeAllowed(Lookup(t, TokenDigest(a.token)), a, PayloadDigest(a.payload).digest))
    ensures ConsumeUpdate(t, a, fault).table != t ==>
              ConsumeOutcome(t, a, fault, readFails) == Refused(StoreUnavailable)
  {
    var key := TokenDigest(a.token);
    if PayloadDigest(a.payload).Digested? && ConsumeAllowed(Lookup(t, key), a, PayloadDigest(a.payload).digest) {
      var marked := t[key := MarkedRow(Lookup(t, key))];
      assert marked[key][IsConsumed] != t[key][IsConsumed];
    }
  }

  class DynamoDbConfirmationGuard {
    const ttl: int
    const table: SharedTable

    constructor (table: SharedTable, ttl: int)
      requires ttl > 0
      ensures this.ttl == ttl && this.table == table
    {
      this.ttl := ttl;
      this.table := table;
    }

    method Prepare(caller: Caller, action: string, payload: Payload, now: int, token: string, fault: Fault)
      returns (r: PrepareOutcome)
      modifies table
      ensures PayloadDigest(payload).TooLarge? ==> r == NotIssued(PayloadTooLarge) && table.items == old(table.items)
      ensures PayloadDigest(payload).Digested? ==>
                var d := PayloadDigest(payload).digest;
                var expires := Epoch(now + ttl);
                var row := ConfirmationRow(Fingerprint(caller), action, d, expires, false);
                var key := TokenDigest(token);
                var w := ConditionalWrite(old(table.items), key, key !in old(table.items), row, fault);
                && table.items == w.table
                && r == if w.reply.Done? then Issued(Metadata(token, action, d, expires * MICROS_PER_SECOND))
                        else NotIssued(StoreUnavailable)
    {
      var expires := Epoch(now + ttl);
      match PayloadDigest(payload) {
        case TooLarge => return NotIssued(PayloadTooLarge);
        case Digested(d) =>
          var row := ConfirmationRow(Fingerprint(caller), action, d, expires, false);
          var reply := table.PutItem(TokenDigest(token), row, fault);
          if reply != Done { return NotIssued(StoreUnavailable); }
          return Issued(Metadata(token, action, d, expires * MICROS_PER_SECOND));
      }
    }

    /** The first store call of `consume`. */
    method TryUpdate(a: Attempt, fault: Fault) returns (reply: Reply)
      modifies table
      ensures Written(table.items, reply) == ConsumeUpdate(old(table.items), a, fault)
    {
      var digest := PayloadDigest(a.payload);
      if digest.TooLarge? { return NoAnswer; }
      reply := table.UpdateItem(TokenDigest(a.token), row => ConsumeAllowed(row, a, digest.digest), MarkedRow, fault);
    }

    /** The second store call, made only after a failed condition. */
    method ReadAndDiagnose(a: Attempt, readFails: bool) returns (code: Code)
      ensures code == if readFails then StoreUnavailable else Diagnose(Lookup(table.items, TokenDigest(a.token)), a)
    {
      if readFails { return StoreUnavailable; }
      var row := table.GetItem(TokenDigest(a.token));
      if row.None? { return Invalid; }
      var item := row.value;
      if !(IsConsumed in item && item[IsConsumed].BOOL?) { return StoreInvalid; }
      if item[IsConsumed].flag { return Replayed; }
      if !(ExpiresAt in item && item[ExpiresAt].N?) { return StoreInvalid; }
      if item[ExpiresAt].number <= Epoch(a.at) { return Expired; }
      if !(CallerFingerprint in item && item[CallerFingerprint].S?) { return StoreInvalid; }
      if item[CallerFingerprint] != S(Hash(Fingerprint(a.caller))) { return CallerMismatch; }
      if !(Action in item && item[Action].S?) { return StoreInvalid; }
      if item[Action] != S(Plain(a.action)) { return ActionMismatch; }
      return PayloadMismatch;
    }

    method Consume(a: Attempt, fault: Fault, readFails: bool) returns (o: Outcome)
      modifies table
      ensures table.items == ConsumeUpdate(old(table.items), a, fault).table
      ensures o == ConsumeOutcome(old(table.items), a, fault, readFails)
    {
      var reply := TryUpdate(a, fault);
      if reply.Done? { return Confirmed; }
      if reply.NoAnswer? { return Refused(StoreUnavailable); }
      var code := ReadAndDiagnose(a, readFails);
      return Refused(code);
    }
  }
}
