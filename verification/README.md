# Verification of the AWS remote MCP service

`aws_remote_mcp` lets a remote caller send a Telegram message, create a Trello card or run a billable Cost Explorer
query, but only after the same caller has confirmed exactly that operation. Many stateless Lambda instances issue and
consume these confirmations, and count the month's billable queries, in one DynamoDB table whose items may be removed
by TTL. Around this protocol the service reads untrusted AWS replies with hard limits.

This project models that behaviour in Dafny and proves what the rest of the service relies on:

* **The protocol over one shared table** (`Store`, `Confirmation`, `Quota`, `Work`, `Protocol`, `Ledger`,
  `SharedQuota`, `Safety`, `Billing`, `Witnesses`, `Timing`). `Confirmation` and `Quota` are the four guard and limiter
  classes, method by method. `Protocol` is a state machine that interleaves, for any number of instances, the store
  calls these methods make: conditional put, conditional update, diagnosing read, counter update, provider call, TTL
  removal, clock tick. A store call may also never arrive, or take effect while its answer is lost, and each clock
  reading may be older than the store call it is used in. `Ledger` proves the invariant step by step, `SharedQuota` the
  counting part, and `Safety` draws the conclusions for every reachable state: single use, each spend and each provider
  call backed by its own earlier prepare by the same person with the same arguments, error codes borne out by the log,
  and the monthly bound on what the slots of a month pay for. `Billing` counts billable calls by the month they are
  made in. `Timing` says exactly when the promises about time hold, with the runs of `Witnesses` where they do not.
* **The simple forms these refine** (`Simulation`, `Quota`). The DynamoDB guard is compared with the in-memory guard,
  and the keyed counter with the single in-memory counter, over whole runs.
* **The tool service** (`Deployment`, `ToolService`). The service's methods run against the shared table while all other
  instances take any steps before and between their store calls. Each method is tied to the state machine, so the log of
  actual provider calls inherits the protocol's theorems.
* **The bounded readers** (`Inventory`, `CostExplorer`, `ResourceExplorer`, with `Adapter` and `Filtering`): paginated
  loops over arbitrary replies, with exact conditions for their `complete`, `truncated` and `status` flags and for each
  issue they report.
* **The pure foundations** (`CanonicalJson`, `Calendar`, `CostQuery`, `QueryGrammar`): canonical JSON is undone by a
  parser, its UTF-8 bytes decode again, ISO dates print back, days and epoch seconds count from 1 January 1970, the
  query grammar is declarative.
* **The patterns** (`Regex`, `Patterns`): what regular expressions match, the patterns of the source as it writes them,
  and proofs that the checks used everywhere else match exactly these.

## Promises with a condition

Five promises turn out to hold only under a condition, and the exact condition is proved:

* A failing `consume` leaves the table unchanged except when the store applied the update and only its answer was lost
  (`FailureChangesNothing`); such a run is `LostAnswerHappens`.
* Spends can be relied on to come before expiry exactly if clock readings are current. The clock is read before the
  update, so with readings up to any positive age a spend can come at the expiry or after it, by less than that age
  (`SpendsInTimeExactly`, `SpentAfterExpiry`, and `EverySpendWasPrepared` for the bound on each spend).
* The slots of a month can be relied on to stay within the limit exactly while the month lasts
  (`LimitHoldsExactly`): from its end on, even by a microsecond, readings from the month can take any number of its
  slots, because TTL may remove the counter in between (`StaleReadingsExceedLimit`). With slots taken on readings up to
  some age, the limit holds for good exactly if that age is zero, so that reading the clock and updating the counter are
  one step (`SlotsWithinLimitExactly`, `AtomicReadingsKeepLimit`).
* The documentation caps requests at three per UTC month (the repository's README.md:22-23 and
  docs/cost-safety.md:91-95). The code caps what the slots of a month pay for: a query may take its slot at the end of
  one month and be sent in the next. With slots held for up to some time between clock reading and call, the calls made
  while a month lasts stay within the limit exactly if that time is zero, or if no month comes before
  (`CallsWithinLimitExactly`), even if every slot is taken on a current reading (`CallsOnCurrentReadingsExactly`). What
  always stays within the limit is the calls made in the month that pays for them, and all others are paid by earlier
  months (`OwnCallsWithinLimit`). With current readings and slots held for at most 28 days, a month sees at most twice
  the limit (`AtMostTwiceTheLimit`), and twice the limit, six requests as configured, can happen
  (`TwiceTheLimitHappens`).
* The `truncated` flag of a Cost Explorer result is up exactly if there is a next page, something was not examined, or
  the last period fills the list of groups after an earlier period was dropped (`GetCostAndUsage`). In the last case
  everything was examined and the flag is a false alarm (`FalseAlarmHappens`).

A caller is compared by a fingerprint of issuer and subject. Callers of one issuer, as every deployment has, share a
fingerprint only if they are the same (`SameFingerprint`); over several issuers this needs identities without NUL
(`FingerprintNames`).

`dafny verify dfyconfig.toml` checks everything.

## Main results

* Every run of every instance keeps the ledger: `Ledger.RunKeeps`. From it, in every reachable state:
  `Safety.SingleUse`, `Safety.EverySpendWasPrepared`, `Safety.EveryCallWasConfirmed`,
  `Safety.CallsSpendDifferentTokens`, `Safety.RefusalsAreJustified`, and with one issuer
  `Safety.SpendsAreByTheSamePerson`.
* The quota in the same table: `SharedQuota.QuotaRun`, `Safety.MonthlyBound`, `Billing.OwnCallsWithinLimit`,
  `Billing.AtMostTwiceTheLimit`; confirmations and counters do not interfere:
  `SharedQuota.ConfirmationsLeaveCounters`, `SharedQuota.CounterIsStoreInvalid`.
* The exact conditions: `Confirmation.FailureChangesNothing`, `Timing.LimitHoldsExactly`,
  `Timing.SlotsWithinLimitExactly`, `Timing.CallsWithinLimitExactly`, `Timing.SpendsInTimeExactly`,
  `CostExplorer.GetCostAndUsage`.
* Simple forms and the forms that replace them: `Simulation.SuccessesAreSimulated`, `Simulation.CalmRunsAgree`,
  `Quota.LimitersAgree`, `Quota.ExpectedIsCounter`.
* The service inherits the protocol: `ToolService.CallWasConfirmed`, `ToolService.CallsSpendTheirOwn`,
  `ToolService.QueriesWithinLimit`, `ToolService.QueriesOfTheMonth`, `ToolService.UpdateSucceedsExactly`,
  `ToolService.SlotFoundExactly`, `ToolService.ToolService.ExecuteWrite`, `ToolService.ToolService.ExecuteCostQuery`.
* Canonical JSON binds payloads: `CanonicalJson.DecodeEncode`, `CanonicalJson.EncodeInjective`,
  `CanonicalJson.DigestBindsPayload`, `Work.PayloadBindsWork`.
* Readers of untrusted replies: `Inventory.ListProjectResources` with the exact condition of every issue,
  `Inventory.EveryResourceWasReceived`, `CostExplorer.GetCostAndUsage` with `CostExplorer.ReportCarries`,
  `ResourceExplorer.SearchResources` with `ResourceExplorer.SanitizedIsSafe`.
* Validation: `CostQuery.AcceptedExactly`, `QueryGrammar.ValidateQuery`, `QueryGrammar.NormalizedIsStable`,
  `Calendar.OrdinalOrder`, `Calendar.ParsePrint`, `Patterns.TokenForms`, `Patterns.RegionPattern`.
* Time: `Calendar.DaysBetween`, `Calendar.EpochIs1970` and `Quota.CounterExpires` fix where time starts and when the
  counter of a month expires.

The other members of the next section are the steps on the way, and the operations themselves.

## Model

| member | source | states |
|---|---|---|
| CanonicalJson.SortCorrect | src/aws_remote_mcp/core/confirmation.py:55-61 | sorting the keys of every object, nested ones included, keeps the meaning and leaves every object sorted |
| CanonicalJson.SortedUnique | src/aws_remote_mcp/core/confirmation.py:55-61 | two key-sorted values with the same meaning are the same value, so insertion order is gone |
| CanonicalJson.BeforeMeans | src/aws_remote_mcp/core/confirmation.py:55-61 | one key sorts before another exactly if it is a proper beginning of it, or has the smaller character where they first differ |
| CanonicalJson.ReadWrite | src/aws_remote_mcp/core/confirmation.py:55-61 | the parser reads back any written value and stops exactly where it ends, whatever text follows; only after a number no digit may follow |
| CanonicalJson.EscapeTable | src/aws_remote_mcp/core/confirmation.py:55-61 | how each character of a string is written, the short escapes and the four hexadecimal digits of the other control characters included |
| CanonicalJson.CanonicalSample | src/aws_remote_mcp/core/confirmation.py:55-61 | a payload with nested keys out of order, written out as its canonical text |
| CanonicalJson.DecodeEncode | src/aws_remote_mcp/core/confirmation.py:53-61 | decoding the canonical text gives the key-sorted payload, of the same meaning |
| CanonicalJson.EncodeInjective | src/aws_remote_mcp/core/confirmation.py:53-61 | two payloads have the same canonical text exactly when they mean the same |
| CanonicalJson.DigestBindsPayload | src/aws_remote_mcp/core/confirmation.py:53-70 | payloads within the size limit have equal digests exactly when they mean the same |
| CanonicalJson.DigestOfText | src/aws_remote_mcp/core/confirmation.py:62-70 | a payload is refused exactly if its canonical text takes more than 16 KiB in UTF-8; otherwise the digest is that of the text |
| CanonicalJson.Utf8Decodes | src/aws_remote_mcp/core/confirmation.py:62-66 | decoding the UTF-8 bytes of a text gives its characters back, and the length that is limited is the number of these bytes |
| Calendar.OrdinalOrder | src/aws_remote_mcp/core/cost_query.py:44-48 | comparing dates field by field agrees with comparing day ordinals, across leap years and month ends |
| Calendar.OrdinalCountsDays | src/aws_remote_mcp/core/cost_query.py:48-48 | each next day, over month ends, leap days and year ends, has the next ordinal, so their differences are spans in days |
| Calendar.MonthLengths | src/aws_remote_mcp/core/cost_query.py:78-80 | the lengths of the twelve months, with 29 days in February of leap years |
| Calendar.LeapYears | src/aws_remote_mcp/core/cost_query.py:78-80 | a year is a leap year if four divides it, but of the century years only every fourth |
| Calendar.DaysBetween | src/aws_remote_mcp/core/cost_query.py:48-48 | ordinals of two dates differ by exactly the number of next days that lead from one to the other |
| Calendar.ParsePrint | src/aws_remote_mcp/core/cost_query.py:70-80 | a text parses to a date exactly when it is that date printed |
| Calendar.IsoCharacters | src/aws_remote_mcp/core/cost_query.py:70-80 | the ten characters of a printed date |
| Calendar.EpochMonotone | src/aws_remote_mcp/core/confirmation.py:220-220 | truncating instants to epoch seconds keeps their order, negative instants included |
| Calendar.EpochTruncates | src/aws_remote_mcp/core/confirmation.py:220-220 | epoch seconds are the instant truncated toward zero |
| Calendar.EpochIs1970 | src/aws_remote_mcp/core/cost_quota.py:121-128 | an instant is the days from 1 January 1970 to its date, counted one by one, and the time of the day |
| Calendar.PeriodTextInjective | src/aws_remote_mcp/core/cost_quota.py:121-122 | different months print differently |
| Calendar.PeriodCharacters | src/aws_remote_mcp/core/cost_quota.py:121-122 | the seven characters of a printed month |
| Calendar.InsideMonth | src/aws_remote_mcp/core/cost_quota.py:125-128 | the start of the next month is later than every instant of the month, December included |
| Calendar.MonthEndIsWhole | src/aws_remote_mcp/core/cost_quota.py:84-84 | the end of a month is a whole second, so writing it in epoch seconds loses nothing |
| Calendar.MonthEndInDays | src/aws_remote_mcp/core/cost_quota.py:125-128 | the expiry is 86400 seconds for each day from 1 January 1970 to the first day of the next month, counted one by one, also before 1970 |
| Calendar.MonthsFollowTime | src/aws_remote_mcp/core/cost_quota.py:121-128 | a later instant is in the same or a later month |
| Calendar.MonthsDivideTime | src/aws_remote_mcp/core/cost_quota.py:121-128 | an instant lies in its own month and in no other |
| CostQuery.SpanOf | src/aws_remote_mcp/core/cost_query.py:42-48 | a query has one span in days if both dates parse, and none otherwise |
| CostQuery.AcceptedExactly | src/aws_remote_mcp/core/cost_query.py:34-67 | a query is accepted exactly if both dates print calendar dates 1 to 31 days apart and the dimensions are the fixed ones; nothing is rewritten |
| CostQuery.AcceptedIsStable | src/aws_remote_mcp/adapters/aws_cost_explorer.py:69-80 | accepted arguments validate again to the same query, so the adapter's path without a request cannot be reached from the tool service |
| CostQuery.RejectionMeans | src/aws_remote_mcp/core/cost_query.py:42-61 | what each of the five error codes says about the one span in days and the dimensions |
| CostQuery.DailyRowsFit | src/aws_remote_mcp/adapters/aws_cost_explorer.py:120-123 | one row per day of an accepted query never exceeds the 31-period limit |
| Store.SharedTable.PutItem | tests/test_confirmation.py:35-40 | an atomic put that succeeds only if the key is absent, under any fault |
| Store.SharedTable.UpdateItem | tests/test_confirmation.py:42-58 | an atomic conditional update of one item, under any fault |
| Store.SharedTable.GetItem | tests/test_confirmation.py:60-64 | a consistent read |
| Confirmation.FingerprintNames | src/aws_remote_mcp/core/models.py:22-25 | over callers of any issuers, no other issuer and subject share a caller's fingerprint exactly if neither of its own contains NUL |
| Confirmation.SameFingerprint | src/aws_remote_mcp/lambda_handler.py:129-142 | equal fingerprints mean the same issuer and subject if both callers come from one issuer, as deployed, or one of them is free of NUL |
| Confirmation.ConfirmationGuard.Prepare | src/aws_remote_mcp/core/confirmation.py:88-109 | exactly one record is stored, under the token's digest, bound to caller, action, payload and expiry; nothing if the payload is too large |
| Confirmation.ConfirmationGuard.Consume | src/aws_remote_mcp/core/confirmation.py:111-142 | outcome and new records are the specification's: only a success marks a record, and nothing else changes |
| Confirmation.DynamoDbConfirmationGuard.Prepare | src/aws_remote_mcp/core/confirmation.py:177-211 | the table is the result of one conditional put, and metadata is returned only if the store answered |
| Confirmation.DynamoDbConfirmationGuard.TryUpdate | src/aws_remote_mcp/core/confirmation.py:220-251 | one conditional update on all six conditions; a payload that is too large looks like an unavailable store |
| Confirmation.DynamoDbConfirmationGuard.ReadAndDiagnose | src/aws_remote_mcp/core/confirmation.py:253-291 | the code the item read afterwards gives, in the order of the checks, malformed attributes included |
| Confirmation.DynamoDbConfirmationGuard.Consume | src/aws_remote_mcp/core/confirmation.py:213-276 | outcome and new table of a whole consume with nothing in between |
| Confirmation.FailureChangesNothing | src/aws_remote_mcp/core/confirmation.py:222-251 | a failing consume leaves the table unchanged exactly unless the update was applied and only its answer lost, which is reported as an unavailable store |
| Quota.InMemoryCostRequestLimiter.Acquire | src/aws_remote_mcp/core/cost_quota.py:44-55 | rolls over to a new month, then accepts below the limit and rejects without counting at it |
| Quota.DynamoDbCostRequestLimiter.Acquire | src/aws_remote_mcp/core/cost_quota.py:80-111 | one conditional increment of the month's own item; answers and faults map to the three outcomes |
| Quota.QuotaKeyInjective | src/aws_remote_mcp/core/cost_quota.py:82-83 | different months have different keys |
| Quota.AcquireHere | src/aws_remote_mcp/core/cost_quota.py:86-101 | an acquire below the limit raises the month's count by one, and at the limit changes nothing |
| Quota.AcquireElsewhere | src/aws_remote_mcp/core/cost_quota.py:83-88 | no acquire touches another month's item |
| Quota.CounterExpires | src/aws_remote_mcp/core/cost_quota.py:80-111 | whatever an acquire stores, under any fault, is the month's own item with a count one higher and the expiry at the first day of the next month in whole days from 1 January 1970 |
| Quota.SweptMonthIsOver | src/aws_remote_mcp/core/cost_quota.py:84-84 | TTL can remove a month's counter only once the month is over |
| Quota.LimitersAgree | src/aws_remote_mcp/core/cost_quota.py:44-111 | with a monotone clock and an answering store, the keyed rows give in every run with TTL removals the slots expected of the single counter, and only raise in December 9999 |
| Quota.FreshLimitersAgree | src/aws_remote_mcp/core/cost_quota.py:44-111 | the same from a table without counters and a fresh in-memory limiter |
| Quota.ExpectedIsCounter | src/aws_remote_mcp/core/cost_quota.py:44-111 | what is expected is what the in-memory limiter does, exactly if the run makes no acquire in December 9999 |
| Quota.LastMonthDiffers | src/aws_remote_mcp/core/cost_quota.py:125-127 | the keyed limiter raises for lack of a next month exactly in December 9999, the in-memory one never |
| Work.FieldsWellFormed | src/aws_remote_mcp/services/tools.py:456-483 | the payloads the service builds have distinct keys |
| Work.TelegramFields | src/aws_remote_mcp/services/tools.py:276-288 | the action and both fields of the payload a message is confirmed under |
| Work.TrelloFields | src/aws_remote_mcp/services/tools.py:332-344 | the action and the four fields of the payload a card is confirmed under |
| Work.CostFields | src/aws_remote_mcp/services/tools.py:135-150 | the action and all eleven fields of the payload a query is confirmed under |
| Work.PayloadBindsWork | src/aws_remote_mcp/services/tools.py:456-483 | action and payload together determine the operation and every argument of it |
| Protocol.PrepareIsOnePut | src/aws_remote_mcp/core/confirmation.py:188-200 | the prepare step leaves the table its one conditional put leaves |
| Protocol.TokensAreNotQuotaKeys | src/aws_remote_mcp/core/cost_quota.py:83-83 | no generated token hashes to the key of a counter |
| Ledger.AppliedMatches | src/aws_remote_mcp/core/confirmation.py:227-242 | an update takes effect only on an issued, unspent confirmation for the same caller, action and payload, before its expiry |
| Ledger.DiagnosisSound | src/aws_remote_mcp/core/confirmation.py:253-276 | the code read from the current item is true of the token's history, given that the update has failed |
| Ledger.ConsumeKeeps | src/aws_remote_mcp/core/confirmation.py:220-251 | the conditional update keeps the whole invariant of grants, uses, items, jobs and log |
| Ledger.ReadKeeps | src/aws_remote_mcp/core/confirmation.py:253-276 | the later read keeps it too, with its refusal justified, whatever happened in between |
| Ledger.StepKeeps | src/aws_remote_mcp/core/confirmation.py:177-276 | every step of every instance, TTL and the clock keeps the invariant, and the indices only grow |
| Ledger.RunKeeps | src/aws_remote_mcp/core/confirmation.py:177-276 | the same for every run |
| SharedQuota.ConfirmationsLeaveCounters | src/aws_remote_mcp/core/confirmation.py:189-244 | no prepare or consume changes a counter item, whatever token is presented |
| SharedQuota.AcquireLeavesConfirmations | src/aws_remote_mcp/core/cost_quota.py:83-101 | no acquire changes a confirmation item |
| SharedQuota.CounterIsStoreInvalid | src/aws_remote_mcp/core/confirmation.py:256-318 | a token that hashes to a stored counter never clears and is diagnosed as invalid stored state |
| SharedQuota.QuotaStep | src/aws_remote_mcp/core/cost_quota.py:80-101 | every step keeps the month's accounting of slots, counter, holders, calls and removals |
| SharedQuota.QuotaRun | src/aws_remote_mcp/core/cost_quota.py:80-101 | the same for every run |
| Safety.SingleUse | src/aws_remote_mcp/core/confirmation.py:222-245 | in every reachable state, no token has been spent twice |
| Safety.EverySpendWasPrepared | src/aws_remote_mcp/core/confirmation.py:177-245 | each spend has exactly one earlier prepare of its token, by the same person, for the same work; it came before the expiry, or later by less than the age of its clock reading |
| Safety.SpendsAreByTheSamePerson | src/aws_remote_mcp/lambda_handler.py:129-142 | if all callers are built with one issuer, each spend is by the issuer and subject its confirmation was prepared for |
| Safety.EveryCallWasConfirmed | src/aws_remote_mcp/services/tools.py:153-264 | each provider call follows the spend of its own token, which follows the matching prepare by the same person, and before the expiry, or later by less than the age of the reading |
| Safety.CallsSpendDifferentTokens | src/aws_remote_mcp/services/tools.py:153-264 | different provider calls spent different tokens |
| Safety.RefusalsAreJustified | src/aws_remote_mcp/core/confirmation.py:246-276 | every reported code is borne out by the log; a payload mismatch means the presented payload differs from the stored one |
| Safety.MonthlyBound | src/aws_remote_mcp/core/cost_quota.py:80-111 | calls paid by a month do not outnumber its slots; slots taken within the month stay within the limit; each removal allows at most the limit of late ones |
| Safety.CallsWithinLimit | src/aws_remote_mcp/core/cost_quota.py:80-111 | calls paid by a month do not outnumber its slots, and these stay within the limit while the month lasts, without late slots, or without removals |
| Billing.OwnCallsWithinLimit | src/aws_remote_mcp/services/tools.py:205-237 | in every reachable state, calls made before the end of the month that pays for them are within the limit, and all other calls made in a month are paid by earlier ones |
| Billing.PromptCallsWithinLimit | src/aws_remote_mcp/services/tools.py:213-237 | if every call comes at the instant its slot was read, the calls made in a month are within the limit |
| Billing.AtomicReadingsKeepLimit | src/aws_remote_mcp/core/cost_quota.py:80-101 | if reading the clock and updating the counter are one step, no month gives more slots than the limit or pays for more calls, whatever TTL removes |
| Billing.AtMostTwiceTheLimit | src/aws_remote_mcp/services/tools.py:213-237 | with current readings and slots held for at most 28 days, the calls made in a month are at most twice the limit |
| Witnesses.LostAnswerHappens | src/aws_remote_mcp/core/confirmation.py:222-251 | a run in which a consume fails as an unavailable store and yet has spent the token in the table |
| Timing.LimitHoldsExactly | src/aws_remote_mcp/core/cost_quota.py:80-101 | at a given clock, the month's slots are within the limit in every reachable state exactly if the month lasts or is the last of the calendar |
| Timing.StaleReadingsExceedLimit | src/aws_remote_mcp/core/cost_quota.py:81-101 | once a month has ended, be it by a microsecond, any number of its slots can be taken |
| Timing.SlotsWithinLimitExactly | src/aws_remote_mcp/core/cost_quota.py:80-101 | with slots taken on readings up to a given age, the month's slots are within the limit in every reachable state exactly if that age is zero or the month is the last of the calendar |
| Timing.HeldCallsExceedLimit | src/aws_remote_mcp/services/tools.py:213-237 | any number of calls can be made in a month with slots of the month before, one microsecond after their readings |
| Timing.CallsWithinLimitExactly | src/aws_remote_mcp/services/tools.py:213-237 | with slots held for up to a given time from reading to call, the calls made while a month lasts are within the limit in every reachable state exactly if that time is zero or no month comes before |
| Timing.TwiceTheLimitHappens | src/aws_remote_mcp/services/tools.py:213-237 | a run with current readings and nothing removed that makes twice as many calls in one month as its limit |
| Timing.CallsOnCurrentReadingsExactly | src/aws_remote_mcp/services/tools.py:213-237 | the same exact condition when every slot is taken on a current reading |
| Timing.SpendsInTimeExactly | src/aws_remote_mcp/core/confirmation.py:220-251 | with readings up to a given age, every spend comes before its expiry exactly if that age is zero |
| Timing.SpentAfterExpiry | src/aws_remote_mcp/core/confirmation.py:220-251 | a run that spends a confirmation at its expiry, or any time after it, with a reading from the microsecond before |
| Timing.CurrentReadingsAreInTime | src/aws_remote_mcp/core/confirmation.py:220-251 | with current readings every spend comes before its expiry |
| Simulation.Perform | src/aws_remote_mcp/core/confirmation.py:73-291 | one operation of a run, on the two guard objects themselves, gives the states and answers compared here |
| Simulation.AnswersCompare | src/aws_remote_mcp/core/confirmation.py:118-276 | from related states, a success in the table is one in memory, and the answers differ exactly in the listed cases |
| Simulation.PresentChanges | src/aws_remote_mcp/core/confirmation.py:118-245 | a presented token marks the item and the record alike, except for the last partial second before expiry |
| Simulation.SuccessesAreSimulated | src/aws_remote_mcp/core/confirmation.py:94-276 | in every run with TTL removals, each success of the DynamoDB guard is a success of the in-memory guard at the same step |
| Simulation.CalmRunsAgree | src/aws_remote_mcp/core/confirmation.py:94-276 | over any run with TTL removals, outcome and code agree at every step exactly if every attempt is calm: payload not too large, token known to both guards or neither, and not in the last partial second of an unspent record |
| Simulation.FreshRunsAgree | src/aws_remote_mcp/core/confirmation.py:94-276 | the same from the start |
| QueryGrammar.Spaces | src/aws_remote_mcp/adapters/aws_inventory.py:629-629 | the 29 white space characters a query is split at |
| QueryGrammar.WordsAtSpace | src/aws_remote_mcp/adapters/aws_inventory.py:629-629 | the words of a text are those before and those after any white space in it |
| QueryGrammar.WordsOfJoin | src/aws_remote_mcp/adapters/aws_inventory.py:629-629 | splitting the joined words at whitespace gives the words back |
| QueryGrammar.SplitOfJoin | src/aws_remote_mcp/adapters/aws_inventory.py:629-639 | so does splitting at single spaces |
| QueryGrammar.GlueOfSplit | src/aws_remote_mcp/adapters/aws_inventory.py:639-639 | the parts of a text split at a character, with it between them, are the text, and none holds it |
| QueryGrammar.SplitOfGlue | src/aws_remote_mcp/adapters/aws_inventory.py:639-639 | and parts without the character come back from the text glued of them |
| QueryGrammar.Operators | src/aws_remote_mcp/adapters/aws_inventory.py:640-644 | the two operators that are refused, in any mixture of cases |
| QueryGrammar.ValidFilterCorrect | src/aws_remote_mcp/adapters/aws_inventory.py:660-672 | the check of a filter value, with its split at the first colon, decides the declarative condition |
| QueryGrammar.ClassifyCorrect | src/aws_remote_mcp/adapters/aws_inventory.py:639-677 | a token passes exactly if it is a keyword or an allowed filter and no operator |
| QueryGrammar.CheckTokens | src/aws_remote_mcp/adapters/aws_inventory.py:638-677 | the loop accepts exactly the token lists of the grammar, with no filter used twice |
| QueryGrammar.ValidateQuery | src/aws_remote_mcp/adapters/aws_inventory.py:623-678 | a query is accepted exactly by the grammar, and then normalised |
| QueryGrammar.ValidateResourceExplorerQuery | src/aws_remote_mcp/adapters/aws_inventory.py:623-678 | the same for the fixed set of services |
| QueryGrammar.NormalizedIsStable | src/aws_remote_mcp/adapters/aws_inventory.py:629-678 | the normalised query is never longer, is accepted again and is its own normal form |
| Patterns.KeywordPattern | src/aws_remote_mcp/adapters/aws_inventory.py:63-63 | a keyword matches its pattern |
| Patterns.RegionPattern | src/aws_remote_mcp/adapters/aws_inventory.py:60-60 | a text is a region, by its parts between dashes, exactly if it matches the pattern of regions |
| Patterns.ServicePattern | src/aws_remote_mcp/adapters/aws_inventory.py:61-61 | a service name matches its pattern |
| Patterns.TypePatterns | src/aws_remote_mcp/adapters/aws_inventory.py:62-62 | the two parts of a resource type match the two groups of its pattern |
| Patterns.TokenForms | src/aws_remote_mcp/adapters/aws_inventory.py:639-677 | the accepted tokens written out: no operator, and a keyword, a listed service, a region or global, or a type of a listed service |
| Patterns.LogicalIdPattern | src/aws_remote_mcp/adapters/aws_inventory.py:571-571 | a logical id matches its pattern |
| Patterns.ResourceTypePattern | src/aws_remote_mcp/adapters/aws_inventory.py:572-572 | a CloudFormation type matches its pattern |
| Patterns.StatusPattern | src/aws_remote_mcp/adapters/aws_inventory.py:573-573 | a status matches its pattern |
| Patterns.AccountPattern | src/aws_remote_mcp/adapters/aws_inventory.py:696-696 | an account number is twelve digits |
| Patterns.IsoPattern | src/aws_remote_mcp/core/cost_query.py:13-13 | the shape required of a date is that of its pattern |
| Patterns.KeptCharacters | src/aws_remote_mcp/adapters/aws_inventory.py:64-64 | the characters kept in an identifier and in a key are those their patterns do not replace |
| CostExplorer.SaneImageIsWhole | src/aws_remote_mcp/adapters/aws_cost_explorer.py:123-171 | the sanitised image of a reply without malformed parts has every period and every group, in order |
| CostExplorer.SaneGroupIsSafe | src/aws_remote_mcp/adapters/aws_cost_explorer.py:228-264 | a sanitised group has a short key of safe characters and the short notation of a USD amount, and its original key held no account id |
| CostExplorer.SaneGroupExactly | src/aws_remote_mcp/adapters/aws_cost_explorer.py:246-264 | which groups are kept, with the first 128 characters of the key, each kept or replaced in its place, and the plain amount |
| CostExplorer.AccountIdIsRun | src/aws_remote_mcp/adapters/aws_cost_explorer.py:252-253 | an account id in a key is one whole run of twelve digits |
| CostExplorer.SanePeriodExactly | src/aws_remote_mcp/adapters/aws_cost_explorer.py:124-165 | a period is kept exactly if it has two ISO dates; it keeps them under their own names, its total exactly if that is a plain USD amount, and the sanitised groups |
| CostExplorer.PeriodSaneExactly | src/aws_remote_mcp/adapters/aws_cost_explorer.py:124-165 | a period counts no malformed part exactly if its dates, its total, its list of groups and each group are as required |
| CostExplorer.SanitizeGroups | src/aws_remote_mcp/adapters/aws_cost_explorer.py:149-155 | the groups left are the in-order sanitised image, and none is counted malformed exactly if all sanitise |
| CostExplorer.SanitizePeriod | src/aws_remote_mcp/adapters/aws_cost_explorer.py:124-165 | what is left of one period with the room there is, and exactly when it was cut or malformed; dates and total are those of `SanePeriodExactly` |
| CostExplorer.TakePeriod | src/aws_remote_mcp/adapters/aws_cost_explorer.py:123-171 | one turn of the loop examines one more period, and when it breaks the loop |
| CostExplorer.ExaminedTrims | src/aws_remote_mcp/adapters/aws_cost_explorer.py:120-171 | what is examined gives the beginning of the reply's image with beginnings of its group lists, and is sane if the reply is |
| CostExplorer.FittingIsWhole | src/aws_remote_mcp/adapters/aws_cost_explorer.py:117-171 | a reply with few enough periods and groups is examined as a whole and raises no false alarm |
| CostExplorer.FalseAlarmHappens | src/aws_remote_mcp/adapters/aws_cost_explorer.py:166-170 | a dropped period and then a day with as many sane groups as allowed is examined to its end, and yet reported as truncated |
| CostExplorer.ExaminedMeans | src/aws_remote_mcp/adapters/aws_cost_explorer.py:117-171 | without the flag, the whole reply was examined and returned |
| CostExplorer.SanitizePeriods | src/aws_remote_mcp/adapters/aws_cost_explorer.py:117-171 | for any caps: exactly the sanitised image of the examined part, an exact malformed flag for it, and the clipped flag as an equivalence |
| CostExplorer.ReportExamined | src/aws_remote_mcp/adapters/aws_cost_explorer.py:117-171 | what is returned of a reply, said of the reply alone: of each period read its own start, end, total and first groups, a flag for anything wrong in what was read, and why reading stopped |
| CostExplorer.ReportCarries | src/aws_remote_mcp/adapters/aws_cost_explorer.py:117-171 | each returned period carries the dates and the total of a period that was read, in the order of the reply |
| CostExplorer.GetCostAndUsage | src/aws_remote_mcp/adapters/aws_cost_explorer.py:69-212 | for every reply: bounds, counters equal to what is returned, each returned period with the dates, total and first groups of the period read, `status` and the one issue exact, `truncated` as an equivalence with its false alarm, result constructible |
| Inventory.CloudFormationClient.ListStackResources | src/aws_remote_mcp/adapters/aws_inventory.py:261-268 | any reply; the call is logged |
| Inventory.SanitizedIsSafe | src/aws_remote_mcp/adapters/aws_inventory.py:592-620 | a sanitised resource names its stack, keeps the item's texts and has no control character |
| Inventory.SanitizedExactly | src/aws_remote_mcp/adapters/aws_inventory.py:592-612 | which items are kept: a mapping with three well-formed texts and no control character in a physical identifier |
| Inventory.AddIssue | src/aws_remote_mcp/adapters/aws_inventory.py:223-226 | each issue is kept once and none is lost |
| Inventory.TakeItem | src/aws_remote_mcp/adapters/aws_inventory.py:299-332 | one item is dropped as malformed or repeated, stops at the cap, or is kept; the flag is up exactly while there is no issue |
| Inventory.ReadPage | src/aws_remote_mcp/adapters/aws_inventory.py:299-340 | after a page nothing is lost unnoticed, and a full list ends it with an issue |
| Inventory.TakePage | src/aws_remote_mcp/adapters/aws_inventory.py:299-363 | page and token: the chain ends, breaks, or goes on with a new non-empty token |
| Inventory.ReadNext | src/aws_remote_mcp/adapters/aws_inventory.py:258-363 | one request, any reply: a failed call breaks the chain as an unavailable stack, a reply without a list as an invalid response, and a page is read |
| Inventory.ReadStack | src/aws_remote_mcp/adapters/aws_inventory.py:243-363 | at most the page cap of requests, all linked by tokens, stopped only for a reason; complete exactly if the chain is whole and everything was good |
| Inventory.ReadStacks | src/aws_remote_mcp/adapters/aws_inventory.py:243-355 | the same over all stacks, with every request counted |
| Inventory.UnreadableStacks | src/aws_remote_mcp/adapters/aws_inventory.py:263-291 | a stack is reported unavailable exactly if a call raised, and a response invalid exactly if a reply was no mapping or had no list |
| Inventory.ProjectInventoryResult | src/aws_remote_mcp/adapters/aws_inventory.py:537-568 | if the flag is up exactly when there is no issue, the result can be constructed |
| Inventory.ListProjectResources | src/aws_remote_mcp/adapters/aws_inventory.py:200-363 | `complete` exactly if every chain is whole, every item sanitises, nothing repeats and the total is below the cap, and then all items in order; always distinct, in order, counted and bounded; no chain is cut short while there is room; every issue exactly if the log of calls gives rise to it: failed calls, replies of no use, bad and repeated tokens, the page cap, a full list, malformed and repeated items |
| Inventory.ListProjectInventory | src/aws_remote_mcp/adapters/aws_inventory.py:26-33 | with the four fixed stacks and the limits: at most 80 requests and 100 resources, `status` and every issue exact, no client alone if it is unavailable |
| Inventory.EveryResourceWasReceived | src/aws_remote_mcp/adapters/aws_inventory.py:592-620 | even in an incomplete inventory, each resource is the sanitised form of an item received from the stack it names |
| ResourceExplorer.GlueOfMost | src/aws_remote_mcp/adapters/aws_inventory.py:689-689 | the parts of a text split a few times, with the separator between them, are the text, and only the last may hold it |
| ResourceExplorer.MostOfGlue | src/aws_remote_mcp/adapters/aws_inventory.py:689-689 | and parts of which only the last holds it come back |
| ResourceExplorer.ArnExactly | src/aws_remote_mcp/adapters/aws_inventory.py:689-700 | an ARN is exactly `arn`, `aws`, a service, a region or nothing, an account or nothing, and a rest in which colons are allowed |
| ResourceExplorer.TypeExactly | src/aws_remote_mcp/adapters/aws_inventory.py:704-716 | a type is exactly its service, a colon and a name |
| ResourceExplorer.SanitizedExactly | src/aws_remote_mcp/adapters/aws_inventory.py:681-729 | which items are kept |
| ResourceExplorer.ResourceId | src/aws_remote_mcp/adapters/aws_inventory.py:721-723 | the first 128 characters, each in its place, kept if it is allowed and replaced by an underscore if not |
| ResourceExplorer.SanitizedIsSafe | src/aws_remote_mcp/adapters/aws_inventory.py:681-729 | a sanitised resource has a type of its own service and a known form of region; its identifier is the beginning of what follows the fifth colon of the ARN, allowed characters kept in place |
| ResourceExplorer.SanitizeItems | src/aws_remote_mcp/adapters/aws_inventory.py:431-438 | the in-order sanitised image, with an exact malformed flag |
| ResourceExplorer.ReadReply | src/aws_remote_mcp/adapters/aws_inventory.py:399-484 | for every reply: resources, `truncated` and `status` exact, result constructible |
| ResourceExplorer.SearchResources | src/aws_remote_mcp/adapters/aws_inventory.py:365-484 | which arguments are refused with which error, and the result of the others with exact resources, issue, `truncated` and `status`; one request exactly if a view is configured |
| ResourceExplorer.ListServices | src/aws_remote_mcp/adapters/aws_inventory.py:127-198 | two requests; the status tells how many listings succeeded, the issues which failed |
| Deployment.ForeignKeeps | src/aws_remote_mcp/lambda_handler.py:184-195 | whatever other instances do keeps the world reachable, extends the log and leaves this instance's job alone |
| Deployment.Deployment.Interleave | src/aws_remote_mcp/lambda_handler.py:184-195 | the other instances change the one table by any run of legal steps |
| ToolService.Bounded | src/aws_remote_mcp/services/tools.py:375-403 | data within the limit is returned under the status given, its issues as warnings of a partial and errors of a failed result; larger data is replaced by an error; the counters survive either way |
| ToolService.CostPreview | src/aws_remote_mcp/services/tools.py:486-501 | the preview of a query has its own start and end, its dimensions and the fixed limits |
| ToolService.QuotaFailure | src/aws_remote_mcp/services/tools.py:504-510 | a failed query tells the three requests and three cents of the quota beside its error |
| ToolService.WriteResultMeans | src/aws_remote_mcp/services/tools.py:304-318 | what is told of a write by the adapter's answer: its data, the size error or the adapter's error, with one attempt, and one success if it returned |
| ToolService.CostResultMeans | src/aws_remote_mcp/services/tools.py:231-264 | what is told of a query that was sent: one request in any case, and the adapter's result or error |
| ToolService.AwsOutcomeMeans | src/aws_remote_mcp/services/tools.py:87-100 | what is told of an automatic read: the adapter's data, status, issues and counters, or its error |
| ToolService.CallResult | src/aws_remote_mcp/core/models.py:42-45 | a result beside its provider call keeps the sums of attempts and successes equal to the calls made and the calls that returned |
| ToolService.ServedMore | src/aws_remote_mcp/services/tools.py:304-316 | one more provider call has one more entry in the deployment's log |
| ToolService.AllowedMore | src/aws_remote_mcp/services/tools.py:432-454 | with one more allowed call, all provider calls made are still allowed, as they are between any two operations: to a listed destination with texts of allowed lengths, or an accepted query while queries are allowed |
| ToolService.CallWasConfirmed | src/aws_remote_mcp/services/tools.py:153-373 | every actual provider call spent a confirmation prepared before, by the same person, for the same arguments, in time as far as its reading was current |
| ToolService.CallsSpendTheirOwn | src/aws_remote_mcp/services/tools.py:153-373 | no two actual provider calls spent the same token |
| ToolService.SpentForGood | src/aws_remote_mcp/services/tools.py:310-314 | a spent token is of no use again, whatever became of its call |
| ToolService.ToldReasonHolds | src/aws_remote_mcp/services/tools.py:419-430 | the code a caller is told is borne out by the log |
| ToolService.QueriesWithinLimit | src/aws_remote_mcp/services/tools.py:202-239 | actual queries paid by a month do not outnumber its slots, and stay within the limit while the month lasts, without late slots, or without removals |
| ToolService.QueriesOfTheMonth | src/aws_remote_mcp/services/tools.py:202-239 | actual queries sent before the end of the month that pays for them stay within the limit; all queries sent in a month do if calls come at the instant of their readings, and exceed it otherwise at most by those earlier months paid for |
| ToolService.UpdateSucceedsExactly | src/aws_remote_mcp/core/confirmation.py:222-251 | in every reachable state, the conditional update succeeds exactly if the store answers and holds the token's unspent confirmation, prepared for this attempt and not expired at its reading |
| ToolService.SlotFoundExactly | src/aws_remote_mcp/core/cost_quota.py:86-111 | in every reachable state, a slot is given exactly below the limit, and the limit is reported exactly for a full counter, when that many slots have been taken |
| ToolService.ToolService.UpdateConfirmation | src/aws_remote_mcp/core/confirmation.py:222-251 | the answer of the store to the update in the state it meets, and what becomes of the job |
| ToolService.ToolService.ConsumeConfirmation | src/aws_remote_mcp/services/tools.py:419-430 | cleared exactly if the update succeeds in the state it meets; otherwise the refusal is the last entry of the log, an unavailable store only for a missing answer |
| ToolService.ToolService.TakeSlot | src/aws_remote_mcp/services/tools.py:207-239 | the slot is the one the counter gives in the state it meets; success means the job holds a slot of the month of the reading |
| ToolService.ToolService.SendWork | src/aws_remote_mcp/services/tools.py:310-316 | one call of the right adapter with the confirmed arguments, recorded in the deployment's log |
| ToolService.ToolService.SendQuery | src/aws_remote_mcp/services/tools.py:232-239 | one billable call of a job that holds a slot |
| ToolService.ToolService.PerformWrite | src/aws_remote_mcp/services/tools.py:310-318 | one attempt is counted and one success if the adapter returned, also if the reply is too large |
| ToolService.ToolService.ExecuteWrite | src/aws_remote_mcp/services/tools.py:304-318 | the update decides between one call for the confirmation presented, and none with the reason told |
| ToolService.ToolService.ExecuteTelegramMessage | src/aws_remote_mcp/services/tools.py:290-318 | refused for its destination exactly if that is not on the allow list, for its message exactly if the destination is listed and the message has not 1 to 4096 characters, and then no confirmation is touched; otherwise the outcome of the write, and the sums over all results stay right |
| ToolService.ToolService.ExecuteTrelloCard | src/aws_remote_mcp/services/tools.py:346-373 | the same for cards: each of the three refusals exactly for its own reason |
| ToolService.ToolService.FundQuery | src/aws_remote_mcp/services/tools.py:202-264 | after the confirmation, the counter decides between one call paid by a slot of the reading's month, and none with the error that fits; without a limiter the quota is unavailable |
| ToolService.ToolService.PerformQuery | src/aws_remote_mcp/services/tools.py:231-264 | one billable call and its result |
| ToolService.ToolService.ExecuteCostQuery | src/aws_remote_mcp/services/tools.py:153-264 | gate, validation and configuration, each refusing exactly for its own reason, come before the confirmation, the confirmation before the slot, the slot before the one call |
| ToolService.ToolService.PrepareWork | src/aws_remote_mcp/services/tools.py:276-288 | the confirmation handed out is stored for this caller and this work under a new token, exactly if the store answers and the payload is not too large; otherwise which of these failed |
| ToolService.ToolService.PrepareTelegramMessage | src/aws_remote_mcp/services/tools.py:266-288 | the same, after a validation with the same exact refusals |
| ToolService.ToolService.PrepareTrelloCard | src/aws_remote_mcp/services/tools.py:320-344 | the same for cards |
| ToolService.ToolService.PrepareCostQuery | src/aws_remote_mcp/services/tools.py:102-151 | the same for queries, with the query's own preview |
| ToolService.ToolService.RunAwsOperation | src/aws_remote_mcp/services/tools.py:74-100 | a blocked or failed read has no counters, and no read counts a write |

## Left out

- SHA-256 is taken as injective, including the truncation of the caller fingerprint to 24 hexadecimal digits.
- Tokens from `secrets.token_urlsafe` are taken as fresh strings of letters, digits, `_` and `-`, never presented before
  they are issued. Their randomness is not part of this model.
- Store failures, lost answers, adapter replies and clock readings are parameters; boto3 and the AWS services behind
  them are not part of this model.
- Floats and NaN in JSON, lone surrogates, integers of more than 4300 digits, Unicode digits and the invalid-payload
  error they lead to: payloads are strings, integers, booleans, null, lists and objects.
- Overflow of `datetime` when the lifetime is added, `strftime` for years below 1000 and the rounding of
  `timestamp()` in floating point for distant years.
- Records of the in-memory guard and entries of its dictionary are values, so aliasing of a record object is not
  modelled.
- Inventory.SanitizedIsSafe: does not model the shortening and redaction of physical identifiers, which are kept as
  received.
- SaneGroupIsSafe: takes the plain notation of an amount as part of the reply; parsing and formatting decimals is left
  to the library.
- Write adapters fail only by `AdapterError`; any other exception of Telegram or Trello leaves the service unhandled.
- `\d` of a pattern is taken as the ASCII digits; Unicode digits in regions and account numbers are left out.
- Scopes are not part of the fingerprint in the code, so a confirmation does not depend on them.
- The operation registry is one boolean; its classification table is a dictionary lookup.
- Texts of messages, fields of the two-service inventory and the fixed descriptive fields of adapter results.
- HTTP, Lambda and MCP wiring, token validation and authorization scopes, audit logging, the external integrations, the
  safety shutdown handler and the enrolment scripts: plumbing, library calls and short command sequences.
