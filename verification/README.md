# Payment gateway: a verified model of its money core

The gateway authorizes, captures, refunds and voids card payments at an acquirer, keeps a transactions table, an
append-only double-entry journal and a webhook outbox, and settles a day's captures once the table and the journal
agree. This project models that core in Dafny and proves what its parts promise together.

The centre is a state machine (`Protocol`) over the three tables, the operations in flight, the acquirer's own log and
the reconciliation jobs. Each client call is three steps: an unlocked read with a pre-check, the acquirer's answer with
nothing held, and one database transaction that locks, re-checks, writes and commits, or leaves no trace. Steps of any
number of clients and jobs interleave, the clock is arbitrary, the acquirer may approve, decline, refuse or never
answer, and any database transaction may fail. `Runs` proves one inductive invariant over every such run; `Theorems`
states what follows for the state after an arbitrary run. `Gateway` is the same service as an object whose methods update
tables in place. Each of its atomic sections takes exactly one step of the machine and records it in a ghost history, so
every object is where some run leads and all that is proved of runs is true of it.

Modules, from the bottom up:

- `Sums`: sums of a function over a sequence, the language of all ledger statements.
- `Money`: the fee in 64-bit arithmetic. `Domain`: the transaction, its rules and its methods.
- `Ledger`: entries, groups, balances, and the journal's view of one transaction.
- `Reconciliation`: the two aggregations and their comparison.
- `Protocol`, `Books`, `Agreement`, `Runs`, `Operations`, `Laws`, `Theorems`, `Jobs`, `Days`, `Witness`, `Gateway`: the
  payment core. `Laws` says what each operation does in terms of row fields and times alone.
- `Json`: what storing a JSON text inside another does to it. `Idempotency`, `Webhooks`, `Breaker`, `RateLimit`, `Pagination`, `Luhn`: the protocols beside it.

Four places where the code and its own comments differ; the model follows the code.

- The two sides of a reconciliation are said to agree (internal/service/reconciliation_service.go:103-106). They need
  not: fees are truncated per capture in the journal and on the total in the report. `PartialCapturesFailTheGate` is a run
  that fails, `DayReconcilesIff` the exact condition.
- A response that could not be stored is said to make a retry run the handler again
  (internal/transport/http/middleware_idem.go:119-121). The claim stays in progress, so nothing runs before it expires:
  `UnstoredResponseIsNotRerun` is such a run, `RetryRunsIff` the exact condition for a retry to run.
- A stored response is said to be replayed byte for byte (internal/transport/http/middleware_idem.go:38). The body is
  kept as JSON inside JSON and so compacted: `ReplayIsVerbatimIff` is the exact condition, and
  `EncodedResponseLosesNewline` shows that no body the JSON encoder wrote meets it, since each ends with a newline. The
  JSON it spells is unchanged: `ReplayKeepsMeaning`.
- A platform fee of 10000 basis points passes configuration (internal/config/config.go:153), yet every capture is then
  refused: `CaptureGroupAtRate`.

Also, settlement counts a listed row that changed since the scan as settled without moving it
(internal/service/reconciliation_service.go:247-277); jobs therefore carry both the rows counted and the rows moved, and
`SettledCountIff` says when the two agree. `SecondJobOvercounts` is a run in which they do not.

## Model

| member | source | states |
|---|---|---|
| Theorems.RowsMatchJournal | internal/service/payment_service.go:193-333 | After every run each row meets the table's constraints, its status, amounts and timestamps agree (captured_at set iff captured > 0 iff captured, settled or refunded; refunded iff all captured money is refunded), and captured and refunded are the journal's capture debits and refund credits |
| Theorems.AtMostOnePayout | internal/service/reconciliation_service.go:236-280 | Over any number of concurrent jobs a transaction gets at most one settlement group |
| Theorems.JournalStaysBalanced | internal/repository/ledger_repo.go:54-74 | After every run no group is unbalanced, every currency nets to zero, and the balance query (merchant and account) gives the same debits and credits as the in-memory fold (account only) |
| Theorems.HistoryIsChain | internal/service/payment_service.go:414-421 | The outbox holds one event per committed update; the announced states form one chain of single lifecycle rules from the inserted row to the current one; version is their number and at most 2 * amount + 4 |
| Theorems.RunsAdvance | internal/repository/transaction_repo.go:93-131 | Over any continuation of any run rows only move forward, and a row whose version did not change is unchanged together with its journal |
| Theorems.NoLostUpdate | internal/repository/transaction_repo.go:93-131 | An update built from a row read at any earlier point, locked or not, fails its version guard iff the row changed since |
| Theorems.AcquirerConservation | internal/service/payment_service.go:193-333 | Per transaction, what the acquirer captured (refunded) equals booked + in flight + orphaned + unknown; so booked never exceeds it |
| Laws.CaptureCommitsIff | internal/service/payment_service.go:220-257 | A capture commits iff the payment is authorized or captured, 0 < amount <= what is left, at most seven days passed since the authorization and 0 <= fee < amount; each refusal has its error; the row, the journal lines and the event it leaves, with captured_at the time of the first capture |
| Laws.RefundCommitsIff | internal/service/payment_service.go:291-323 | A refund commits iff the payment is captured or settled and 0 < amount <= captured - refunded; each refusal has its error; the row, lines and event it leaves |
| Laws.VoidCommitsIff | internal/service/payment_service.go:353-372 | A void commits iff the payment is authorized, and books nothing |
| Laws.AuthorizeCommitsIff | internal/service/payment_service.go:139-159 | An approval is recorded iff the payment is created, with its reference, card and time |
| Laws.FailCommitsIff | internal/service/payment_service.go:393-410 | A failure is recorded with its code; refused once the payment is past authorized |
| Laws.SettleCommitsIff | internal/service/reconciliation_service.go:242-273 | A settlement commits iff the payment is captured, stamps its time and pays out captured - Fee(captured) - refunded if positive |
| Laws.PreCaptureIff | internal/service/payment_service.go:193-216 | The pre-check of a capture on the row's fields, an amount of 0 meaning all that is left, with each error |
| Laws.PreRefundIff | internal/service/payment_service.go:272-287 | The same for a refund |
| Laws.PreVoidIff | internal/service/payment_service.go:338-349 | The same for a void |
| Laws.NewPaymentStarts | internal/domain/transaction.go:84-115 | Under a free reference a well-formed request (reference of 1 to 128 characters, positive amount, known currency) inserts a created row and asks the acquirer; any other is refused |
| Laws.RetryResumesIff | internal/service/payment_service.go:82-102 | A reference in use is resumed iff its payment is still created and asks for the same money, and is a duplicate otherwise |
| Laws.DeclineIsRecorded | internal/service/payment_service.go:117-121 | A declined authorization of a created payment ends failed with the code, announced as failed; of a resolved one it changes nothing |
| Laws.ApprovalWritesBack | internal/service/payment_service.go:139-379 | An approval is written back as the operation that asked for it, with its amount, reference and card, on the row as it is then, or not at all |
| Laws.OtherAnswersWriteNothing | internal/service/payment_service.go:123-136 | A malformed request, an answer that never came, or a refused capture, refund or void changes no table |
| Theorems.CaptureBooksIff | internal/service/payment_service.go:220-257 | An approved capture ends booked iff the row as it is now can be captured by that amount within seven days of its authorization and 0 <= fee < amount |
| Theorems.UnchangedCommits | internal/service/payment_service.go:193-379 | A write-back whose row is still as it was read commits, for each of the four operations |
| Theorems.OrphanNeedsChange | internal/service/payment_service.go:225-239 | In every run, without a database failure, an approved operation is orphaned only if its row changed after the pre-check or, for a capture, the window closed or the fee is out of range |
| Theorems.AuthorizedOnce | internal/service/payment_service.go:82-159 | One row per (merchant, reference); it leaves created at most once, to authorized with the ref of a call in the acquirer's log or to failed with the code of one decline, however many approvals there were |
| Operations.ApprovalsAreLogged | internal/service/payment_service.go:105-159 | After every run each approved or booked operation is a call in the acquirer's log: same kind, transaction, amount and reference |
| Operations.OutcomesAreFinal | internal/service/payment_service.go:112-136 | However a run goes on, a booked, recorded, orphaned, superseded, refused or unanswered operation stays so: it writes at most once, and one of unknown outcome never |
| Theorems.BookedFeesDrift | internal/service/reconciliation_service.go:126-185 | With n booked captures, fees F satisfy F <= Fee(captured) <= F + n - 1, with equality iff the dropped fractions sum to less than a unit |
| Theorems.DayReconcilesIff | internal/service/reconciliation_service.go:101-216 | In every run a day's report is clean iff no transaction captured in it lost a whole unit to truncation; only the amounts captured that day need exact fees, whatever else is stored |
| Theorems.FailedDayNeverSettles | internal/service/reconciliation_service.go:202-216 | A day that fails its gate fails it after every continuation of the run, so no later scan of it opens a settlement |
| Theorems.SettlesExactly | internal/service/reconciliation_service.go:242-277 | Settling a row with no capture since a clean scan moves it, counts it and leaves its payable at min(net, 0) |
| Theorems.SettlingPaysExactly | internal/service/reconciliation_service.go:236-280 | The same after any run, refunds and other jobs between scan and lock included; only the amounts scanned for the row's own merchant and currency need exact fees |
| Theorems.CountedAndMovedIff | internal/service/reconciliation_service.go:236-280 | In every run a turn of the loop counts a row iff the scan saw it captured and moves it iff it still is |
| Theorems.CountedRowsAreSettled | internal/service/reconciliation_service.go:236-280 | Every row a job counted is settled or refunded since; it counts at least the rows it moved |
| Jobs.JobAccounts | internal/service/reconciliation_service.go:236-280 | After any run a job's count exceeds its moves by exactly its disturbed visits, and unless interrupted it has counted the captured rows it has passed |
| Jobs.SettledCountIff | internal/service/reconciliation_service.go:236-280 | A job moved every row it counted iff each row it visited as captured still was, whatever else ran; a job that got through counted exactly the rows its scan saw captured |
| Theorems.BalanceFromTransactions | internal/repository/ledger_repo.go:54-74 | After any run a merchant's balance is the sum over its transactions of captured - booked fees - refunded - paid out |
| Witness.PartialCapturesFailTheGate | internal/service/reconciliation_service.go:101-106 | The run authorizing 100 and capturing 49 and 51 at 200 basis points ends in a day that does not reconcile |
| Witness.SecondJobOvercounts | internal/service/reconciliation_service.go:247-277 | After any run, two jobs over one captured row both count it and only the first moves it |
| Witness.OvercountedRun | internal/service/reconciliation_service.go:247-277 | A run that reaches such a day: the payment captured whole |
| Witness.UndisturbedCapture | internal/service/payment_service.go:193-268 | A capture with nothing in between its sections commits exactly one database transaction and one acquirer call |
| Witness.UndisturbedAuthorization | internal/service/payment_service.go:74-159 | The same for the first authorization of a new reference |
| Runs.StepKeeps | internal/service/payment_service.go:74-421 | Every step keeps the whole invariant over tables, operations, acquirer log and jobs, and only moves rows forward |
| Runs.RunsKeepInv | internal/service/payment_service.go:74-421 | The invariant holds after every run |
| Runs.CommitKeeps | internal/repository/postgres.go:64-87 | A committed transaction keeps the books, advances the database and has the effect of its own rule on its own row only |
| Runs.FinishKeeps | internal/service/payment_service.go:139-159 | A write-back, committed or refused, keeps the invariant |
| Runs.AuthorizeKeeps | internal/service/payment_service.go:74-107 | Inserting a new payment or resuming an unfinished one keeps the invariant |
| Runs.SettleKeeps | internal/service/reconciliation_service.go:236-280 | One turn of a settlement loop keeps the invariant |
| Books.OneMoveForward | internal/domain/transaction.go:131-267 | One rule and one write give a row within the constraints, one version on, that strictly decreases the lifecycle measure; it is sound iff the move is one the services make, and then only moves forward |
| Books.ChecksAreRedundant | migrations/00002_create_transactions.sql:25-29 | The CHECK constraints never refuse a write the domain rules accept |
| Books.TransactPosts | internal/service/payment_service.go:220-257 | A commit replaces one row by its successor, books a balanced group of that transaction in step with it, and queues one event |
| Books.ViewOfMove | internal/domain/ledger.go:124-265 | What each rule's group adds to the transaction's captured, refunded, fees, lost fractions, payouts and payable |
| Books.PostKeepsBooks | internal/service/payment_service.go:220-257 | Such a commit keeps rows, references, entries, tallies, groups, histories and outbox sound |
| Books.InsertKeepsBooks | internal/repository/transaction_repo.go:31-57 | So does inserting a row under a free reference |
| Books.BooksBalance | internal/repository/ledger_repo.go:175-202 | In sound books the unbalanced-group query is empty and each currency nets to zero |
| Books.FeeDrift | internal/money/money.go:65-73 | Booked fees against the fee on the total: at most n - 1 apart, equal iff less than one unit was lost, equal for one capture |
| Agreement.SumByTransaction | internal/repository/ledger_repo.go:221-259 | A journal aggregate over a set of transactions is the sum of their own aggregates |
| Agreement.LedgerTotalsByRow | internal/repository/ledger_repo.go:221-259 | The joined, grouped journal totals are the sums over the listed rows |
| Agreement.TotalsReconcile | internal/service/reconciliation_service.go:126-185 | Captured and refunded totals always agree; fee totals of a key whose listed amounts have exact fees differ one way, by at most one unit per extra capture |
| Agreement.AgreementIsPerTransaction | internal/service/reconciliation_service.go:160-185 | Agreement of a key's totals forces agreement of the fees of every single transaction of the key |
| Agreement.AgreesIff | internal/service/reconciliation_service.go:101-216 | In sound books the sides agree iff every listed transaction lost less than a unit |
| Agreement.SingleCapturesReconcile | internal/service/reconciliation_service.go:101-106 | A day of single captures always reconciles |
| Agreement.SettleCommits | internal/service/reconciliation_service.go:242-273 | A captured row can always be settled |
| Agreement.SettledRow | internal/service/reconciliation_service.go:242-273 | It ends settled with its money untouched; no other row changes |
| Agreement.SettlementDischarges | internal/domain/transaction.go:269-273 | Settling a row whose own fee is exact leaves the payable at min(net, 0) plus the fee drift, with a payout iff net > 0 |
| Agreement.BalancesAgree | internal/repository/ledger_repo.go:54-74 | The query's debits and credits equal the fold's |
| Agreement.BalanceIsSumOfTransactions | internal/domain/ledger.go:280-293 | The account's credits less debits are what its transactions leave payable |
| Gateway.Service.constructor | internal/service/payment_service.go:33-55 | A new service is the machine's initial state, with an empty history |
| Gateway.Service.ValidAdmits | internal/service/payment_service.go:74-421 | Being where its history leads, the object has sound rows and unique references, and every operation and job is about a stored row |
| Gateway.Service.Create | internal/repository/transaction_repo.go:31-57 | Insert, or the error of the first violated constraint (CHECK, primary key, unique reference) with the table unchanged |
| Gateway.Service.Update | internal/repository/transaction_repo.go:93-131 | The version-guarded write, its error cases, and the version written back into the object |
| Gateway.Service.InsertGroup | internal/repository/ledger_repo.go:28-50 | A valid group is appended entry by entry; an invalid one leaves the journal alone |
| Gateway.Service.AuthorizeTx | internal/service/payment_service.go:139-159 | The locked section of Authorize is one protocol transaction |
| Gateway.Service.FailTx | internal/service/payment_service.go:393-410 | The same for a recorded decline |
| Gateway.Service.CaptureTx | internal/service/payment_service.go:220-257 | The same for Capture |
| Gateway.Service.RefundTx | internal/service/payment_service.go:291-323 | The same for Refund |
| Gateway.Service.VoidTx | internal/service/payment_service.go:353-372 | The same for Void |
| Gateway.Service.SettleTx | internal/service/reconciliation_service.go:242-273 | The same for settlement, leaving a row that is no longer captured alone |
| Gateway.Service.Finish | internal/repository/postgres.go:64-87 | A write-back in place, with rollback on error, is exactly one protocol step; the caller is told the reason nothing was committed, if so |
| Gateway.Service.FinishFault | internal/repository/postgres.go:64-87 | A database failure in the last section is one step and leaves every table alone |
| Gateway.Service.Answer | internal/service/payment_service.go:104-137 | An acquirer answer, or none, is one step and touches no table |
| Gateway.Service.BeginAuthorize | internal/service/payment_service.go:74-107 | The first section of Authorize, insert or resume, is one step; its error is the protocol's |
| Gateway.Service.BeginCapture | internal/service/payment_service.go:193-216 | The pre-check of Capture is one step, touches no table and refuses with the protocol's error |
| Gateway.Service.BeginRefund | internal/service/payment_service.go:272-287 | The pre-check of Refund is one step, touches no table and refuses with the protocol's error |
| Gateway.Service.BeginVoid | internal/service/payment_service.go:338-349 | The pre-check of Void is one step, touches no table and refuses with the protocol's error |
| Gateway.Service.Scan | internal/service/reconciliation_service.go:107-216 | The report of a day is one step: it opens a job over the listed rows iff both sides agree, and touches no table |
| Gateway.Service.SettleNext | internal/service/reconciliation_service.go:236-280 | One turn of the settlement loop is one step |
| Gateway.Service.SettleFault | internal/service/reconciliation_service.go:274-276 | A failed settlement transaction ends the job and leaves every table alone |
| Gateway.Service.Reconcile | internal/service/reconciliation_service.go:107-233 | A whole run, queries included, is one scan step and, if clean, one settlement step with a fresh group per listed row; not clean, it changes nothing; clean, it settles exactly the captured rows with from <= captured_at < to and counts them; no row outside the period changes |
| Gateway.Service.ReconcileTwice | internal/service/reconciliation_service.go:107-233 | A second run straight after the first changes no table, whatever order the rows come back in, and fails if the first failed |
| Gateway.Service.SettleAll | internal/service/reconciliation_service.go:236-280 | The loop is one settlement step per listed row; with no interference the count is the number of captured rows listed, all of them end settled and no other row changes |
| Gateway.SecondRunIsIdle | internal/service/reconciliation_service.go:202-280 | For any two listings, the tables after a second run equal those after the first, clean or not; a run that was not clean stays so |
| Gateway.OutcomeWithin | internal/service/reconciliation_service.go:107-233 | A reconciliation of a period changes no row captured before its start or at its end or later; a clean one settles every captured row of the period |
| Days.StepChange | internal/repository/postgres.go:64-87 | Every step leaves the tables alone, inserts one row or commits one rule on one row |
| Days.CapturedWhenFirstBooked | internal/domain/transaction.go:224-226 | After any run captured_at is the time of the first capture debit in the journal |
| Days.ListedIffCapturedWithin | internal/repository/transaction_repo.go:199-226 | After any run a payment is listed for a period iff its first capture was booked at or after the start and before the end |
| Days.ListedIffWithin | internal/repository/transaction_repo.go:203-204 | The same on captured_at |
| Days.ListingsTile | internal/repository/transaction_repo.go:199-226 | Listings of two periods in a row share no payment and together list the joint period |
| Days.TotalsAreWithin | internal/repository/ledger_repo.go:221-259 | The journal totals of a period are the capture debits, refund credits and fee credits of the payments captured in it |
| Days.TotalsTile | internal/repository/ledger_repo.go:233-234 | The totals of two periods in a row add up to those of the joint period |
| Reconciliation.SumRows | internal/service/reconciliation_service.go:123-142 | The transaction side: one line per (merchant, currency), each the sums over its rows |
| Reconciliation.AddTotals | internal/service/reconciliation_service.go:144-159 | The journal side is put beside the rows of its key, or on a line of its own |
| Reconciliation.Compare | internal/service/reconciliation_service.go:160-186 | The discrepancies are exactly the fields that differ |
| Reconciliation.BuildReport | internal/service/reconciliation_service.go:123-209 | Lines for exactly the keys with rows or journal activity, each beside the journal's totals; each field reported iff the sides differ, rows as expected and journal as actual; clean iff all balance |
| Reconciliation.Run | internal/service/reconciliation_service.go:107-216 | The report is clean iff the two sides agree on every key and no group is unbalanced |
| Reconciliation.VerdictIgnoresOrder | internal/repository/transaction_repo.go:199-226 | The verdict is the same for any two listings of the same rows, ties in any order, amounts of any size |
| Reconciliation.ListCapturedBetween | internal/repository/transaction_repo.go:199-226 | Every row with from <= captured_at < to that is captured, settled or refunded, once |
| Reconciliation.AggregateByMerchant | internal/repository/ledger_repo.go:221-259 | One line per (merchant, currency) with journal activity in the window, with its captured, refunded and fee totals |
| Reconciliation.SettlementReport | internal/service/reconciliation_service.go:365-406 | For a merchant with one currency that day the report is the line the reconciliation compares, balanced iff that line is |
| Domain.MoveKeepsRow | internal/domain/transaction.go:131-267 | Each rule keeps amounts in range, keeps the identity and decreases the measure; the row stays sound iff the rule is not a failure of an authorized row, which the transition table allows and no service makes |
| Domain.Transaction.TransitionTo | internal/domain/transaction.go:131-137 | Moves along the transition table or changes nothing |
| Domain.Transaction.Authorize | internal/domain/transaction.go:166-176 | The rule applied whole, or an error and the object unchanged |
| Domain.Transaction.Fail | internal/domain/transaction.go:179-186 | Likewise |
| Domain.Transaction.Void | internal/domain/transaction.go:189-198 | Likewise |
| Domain.Transaction.Capture | internal/domain/transaction.go:204-229 | Likewise, with each refusal's own error |
| Domain.Transaction.Refund | internal/domain/transaction.go:237-256 | Likewise; raising the amount before the transition never leaves it raised after an error |
| Domain.Transaction.Settle | internal/domain/transaction.go:260-267 | Likewise |
| Ledger.Validate | internal/domain/ledger.go:79-105 | The scan accepts a group iff it is a double entry (two or more positive legs, one currency, known directions, net zero), and returns the first fault's error |
| Ledger.GroupErrorNoneIff | internal/domain/ledger.go:79-105 | The scan's verdict against the double-entry rule, both ways |
| Ledger.CaptureGroupIff | internal/domain/ledger.go:124-175 | A capture group is accepted iff 0 <= fee < amount and amount > 0; at fee = amount it is refused |
| Ledger.TwoLegGroupsOk | internal/domain/ledger.go:185-265 | Refund and settlement groups are accepted iff the amount is positive |
| Ledger.CaptureGroupAtRate | internal/config/config.go:153 | For rates 0..9999 every capture group validates; at 10000 none does |
| Ledger.ComputeBalance | internal/domain/ledger.go:280-293 | The fold gives the sums of the account's debits and of everything else on it |
| Ledger.ViewIsSums | internal/repository/ledger_repo.go:221-259 | One pass over the journal gives all eight aggregates of a transaction |
| Ledger.GroupNetSplits | internal/repository/ledger_repo.go:175-202 | A group's debits equal its credits iff its signed sum is zero |
| Ledger.UnbalancedIff | internal/repository/ledger_repo.go:175-202 | The query reports a group iff it has lines and they do not cancel |
| Money.FeeIsFloor | internal/money/money.go:65-73 | While the product fits 64 bits the fee is the exact floor, non-negative, below the amount for rates under 100% |
| Money.FeeExactIff | internal/money/money.go:68-73 | For positive inputs the fee is the floor iff the product is below 2^63 |
| Money.FeeOfTotal | internal/money/money.go:68-73 | The fee on a total is the fees of its parts plus the whole units in their remainders |
| Money.PartialCaptureFeesDiffer | internal/service/payment_service.go:244 | 49 and 51 at 200 basis points book 1 where the total books 2 |
| Idempotency.KeysAreScoped | internal/idempotency/store.go:64-68 | Equal store keys mean equal merchant and equal header, for ids of one length |
| Idempotency.StepKeepsIff | internal/transport/http/middleware_idem.go:76-134 | A step keeps the store equal to what each key's latest handler left, and handlers of a key in turn, iff it does not claim a key that expired under a handler at work; store faults included |
| Idempotency.RunsKeepInv | internal/transport/http/middleware_idem.go:76-134 | That holds after every run without such a claim |
| Idempotency.PunctualRunsAreTimely | internal/idempotency/store.go:57-92 | A run in which every handler ends before its claim expires has no such claim |
| Idempotency.OneRunPerKey | internal/idempotency/store.go:70-110 | At most one handler holds a key at any time |
| Idempotency.NewRunNeedsReleaseOrExpiry | internal/transport/http/middleware_idem.go:98-123 | A later run of a key starts only after a release or an expiry, store faults included |
| Idempotency.RetryRunsIff | internal/transport/http/middleware_idem.go:98-123 | However the last handler of a key ended, a retry runs iff it released the key or its stored response or claim has expired |
| Idempotency.StandingClaimAnswers | internal/idempotency/store.go:94-109 | While a claim stands every other request is told in flight (same body) or key reuse (another) |
| Idempotency.UnstoredResponseIsNotRerun | internal/transport/http/middleware_idem.go:117-123 | After a response that could not be stored a retry runs the handler again iff the claim has expired by then |
| Idempotency.StoredResponseIsReplayed | internal/idempotency/store.go:128-146 | From storing until expiry every request gets the compacted response (same fingerprint) or is refused, and none starts a run |
| Idempotency.ReplayIsVerbatimIff | internal/transport/http/middleware_idem.go:83-93 | The replay is the response itself iff its body has no white space between tokens and nothing to escape, and its content type was set |
| Idempotency.EncodedResponseLosesNewline | internal/transport/http/response.go:44-55 | No response the JSON encoder wrote is replayed verbatim; an otherwise tight one loses its final newline and nothing else |
| Idempotency.ReplayKeepsMeaning | internal/idempotency/store.go:128-146 | A replay spells the same JSON with the same status, and a second round changes nothing more |
| Json.VerbatimIff | internal/idempotency/store.go:130-138 | Compaction leaves a text alone iff it has no white space between tokens and nothing to escape |
| Json.CompactIsIdempotent | internal/idempotency/store.go:130-138 | Compacting twice is compacting once, and its result is tight |
| Json.CompactKeepsMeaning | internal/idempotency/store.go:130-138 | The symbols of every JSON text, its structure and the characters of its literals, survive compaction |
| Json.NewlineIsLost | internal/transport/http/response.go:51 | A newline after a complete text is always dropped |
| Json.NextCharacter | internal/idempotency/store.go:130-138 | Between tokens exactly four space characters are dropped; in a literal exactly five characters become escapes |
| Idempotency.OverlapIff | internal/idempotency/store.go:86-92 | A second run can join an active one iff its claim has expired |
| Idempotency.LateHandlerOverlaps | internal/idempotency/store.go:57-92 | For every ttl, a run where two handlers of one key are active |
| Idempotency.Store.constructor | internal/idempotency/store.go:57-62 | An empty store with an empty history, with 24 hours for a ttl that is not positive |
| Idempotency.Store.Begin | internal/idempotency/store.go:75-110 | One claiming step decides; a loser is told key reuse, in flight (also when the record expired meanwhile) or the stored record; a claim whose answer was lost may stand, and nobody runs under it |
| Idempotency.Store.Complete | internal/idempotency/store.go:129-146 | One step: the record is replaced by the compacted response with a new ttl; a body that is not JSON, or a dropped command, changes nothing |
| Idempotency.Store.Release | internal/idempotency/store.go:153-158 | One step: the key is dropped, or nothing changes if the command is |
| Idempotency.Store.Serve | internal/transport/http/middleware_idem.go:76-134 | The handler runs iff the claim is won, as one claim, one wait and one ending step; below status 500 its compacted response is stored, on 500 or above or panic the key is released, on a fault or a body that is not JSON the claim stands; a loser is sent the stored response; no other key changes |
| Idempotency.Store.ServeTwice | internal/transport/http/middleware_idem.go:105-123 | A retry of a request answered below 500 is replayed (same body) or refused (another) until the ttl has passed and then runs; after 500 or above or a panic it runs |
| Webhooks.BackoffBounds | internal/domain/webhook.go:69-82 | Attempt n waits between 0.8 * 2^n and 1.2 * 2^n seconds |
| Webhooks.BackoffGrows | internal/domain/webhook.go:69-82 | Waits strictly grow over attempts 1..16 whatever the jitter |
| Webhooks.TotalWaitBound | internal/domain/webhook.go:84-96 | All waits before giving up after m <= 17 attempts total at most 1.2 * (2^m - 2) seconds |
| Webhooks.AttemptLeaves | internal/webhook/dispatcher.go:168-246 | The row each outcome leaves: delivered, parked, failed with attempts left or dead without |
| Webhooks.FailureReschedules | internal/domain/webhook.go:86-96 | After the n-th failed attempt, not the last, the row cannot be claimed for 0.8 * 2^n seconds and can from 1.2 * 2^n seconds on |
| Webhooks.RetriesAreSpaced | internal/webhook/dispatcher.go:122-246 | Over any timely run every later claim of a delivery comes at least 0.8 * 2^n seconds after its n-th attempt failed |
| Webhooks.ScheduledWaitsAreBounded | internal/domain/webhook.go:84-96 | Over any timely run the waits scheduled for a delivery total at most 1.2 * (2^m - 2) seconds for m attempts allowed |
| Webhooks.FreshRowsAreClaimable | internal/webhook/dispatcher.go:255-264 | A new delivery, and one handed back on shutdown, can be claimed at once |
| Webhooks.Delivery.RecordFailure | internal/domain/webhook.go:86-96 | One more attempt: dead at the limit, otherwise failed and rescheduled |
| Webhooks.Delivery.RecordSuccess | internal/domain/webhook.go:99-104 | One more attempt, delivered, error cleared |
| Webhooks.Delivery.Park | internal/webhook/dispatcher.go:180-188 | A merchant without an endpoint is parked at once |
| Webhooks.AttemptsAreBounded | internal/webhook/dispatcher.go:234-246 | In every run, crashes and late writers included, claimable and claimed rows have attempts left and finished ones used at most the limit |
| Webhooks.NothingIsLost | internal/repository/webhook_repo.go:109-124 | After any run, crashes, shutdowns and late writers included, an unfinished row can be claimed again after one later stale pass, with its attempts unchanged and below the limit |
| Webhooks.LeaseStepIff | internal/repository/webhook_repo.go:52-124 | A step keeps rows owned by their holders and attempts counted iff it is not a stale pass over a held claim older than the timeout |
| Webhooks.LeaseStep | internal/repository/webhook_repo.go:52-124 | Such a step also leaves finished rows alone |
| Webhooks.LeasesHoldIff | internal/webhook/dispatcher.go:122-264 | Over a whole run the leases hold throughout iff no stale pass comes upon a held claim older than the timeout |
| Webhooks.RunsKeepLeases | internal/webhook/dispatcher.go:122-264 | They hold after every such run |
| Webhooks.OneHolderPerDelivery | internal/repository/webhook_repo.go:52-85 | No delivery has two holders, a held row is delivering, and every row's attempt count is the attempts recorded |
| Webhooks.FinishedIsFinal | internal/repository/webhook_repo.go:88-107 | Delivered and dead are permanent |
| Webhooks.JanitorTakesIff | internal/repository/webhook_repo.go:112-124 | A stale pass takes a held row from its holder iff the claim is older than the timeout |
| Webhooks.SecondHolderIff | internal/repository/webhook_repo.go:52-124 | A stale pass and a claim give the row a second holder iff the same |
| Webhooks.LateWriterOverwritesIff | internal/repository/webhook_repo.go:88-107 | A holder that fails after a second one delivered overwrites the delivered row iff the same, and the recorded attempt is lost |
| Webhooks.LateWriterRevives | internal/repository/webhook_repo.go:88-107 | For every timeout a run from the start in which a late worker turns a delivered row back to failed |
| Webhooks.Queue.Deliver | internal/webhook/dispatcher.go:168-252 | An attempt of a holder, recorded on its copy and written back by id, is one protocol step |
| Webhooks.Queue.Release | internal/webhook/dispatcher.go:255-264 | Handing back the row in hand is one step |
| Webhooks.Queue.ReleaseStale | internal/repository/webhook_repo.go:112-124 | One step in which exactly the stuck rows are requeued, and counted |
| Webhooks.Queue.ClaimDue | internal/repository/webhook_repo.go:52-85 | One claiming step per row of the batch: distinct due rows, earliest first, up to the limit; a due row left over means a full batch due no later |
| Breaker.ProbesAreSeparated | internal/acquirer/breaker.go:66-83 | Between two admitted probes some call has reported |
| Breaker.OpensAndRecovers | internal/acquirer/breaker.go:66-113 | With no success since i, closed while fewer than threshold failures were reported, else open until a cooldown after the last failure and half-open from then |
| Breaker.CircuitBreaker.constructor | internal/acquirer/breaker.go:44-54 | Closed, with an empty history and a threshold of at least one |
| Breaker.CircuitBreaker.Refresh | internal/acquirer/breaker.go:108-113 | The stored position becomes the one the history determines now |
| Breaker.CircuitBreaker.State | internal/acquirer/breaker.go:58-63 | Closed iff the failure run is below threshold, half-open iff it is not and the last failure is a cooldown old, else open |
| Breaker.CircuitBreaker.Allow | internal/acquirer/breaker.go:66-83 | Admits while closed, or as the only probe since the last report while half-open |
| Breaker.CircuitBreaker.Success | internal/acquirer/breaker.go:86-92 | Ends the failure run and closes |
| Breaker.CircuitBreaker.Failure | internal/acquirer/breaker.go:97-106 | Extends the failure run by one, at this time |
| Breaker.CircuitBreaker.Report | internal/acquirer/guarded.go:95-108 | Answers, declines and bad input enter the history as a success and end the failure run; only a fault enters as a failure, at its time, and lengthens it |
| RateLimit.MeetsTwoBuckets | internal/ratelimit/limiter.go:49-55 | An interval of one window length meets at most two windows |
| RateLimit.AtMostTwiceTheLimit | internal/ratelimit/limiter.go:43-74 | In any such interval at most twice the limit is admitted per subject |
| RateLimit.CountsStep | internal/ratelimit/limiter.go:49-74 | Counting one request keeps every counter equal to the requests of its window, alive to the window's end |
| RateLimit.Limiter.Allow | internal/ratelimit/limiter.go:49-74 | Admits iff fewer than the limit were seen in the window; remaining and retry-after are exact |
| Luhn.Check | internal/acquirer/mock.go:233-247 | The right-to-left scan decides the Luhn formula of Annex B of ISO/IEC 7812-1 |
| Luhn.CheckDigitIff | internal/acquirer/mock.go:233-247 | The rightmost digit, counted once, is accepted iff it completes the others to a multiple of ten |
| Luhn.KnownNumber | internal/acquirer/mock.go:233-247 | The number 79927398713 is accepted |
| Luhn.SingleErrorDetected | internal/acquirer/mock.go:231-247 | Changing one digit of an accepted number is always rejected, at any length |
| Luhn.SwapDetectedUnless09 | internal/acquirer/mock.go:231-247 | Swapping two adjacent distinct digits is accepted iff they are 0 and 9 |
| Pagination.ProbeRowSurvives | internal/transport/http/request.go:167-179 | A limit in range is honoured, a larger one capped, a smaller or malformed one refused; the repository's ceiling of 201 never cuts the extra row |
| Pagination.Query | internal/repository/transaction_repo.go:151-195 | The first n rows past the cursor in descending key order |
| Pagination.List | internal/transport/http/handler_payment.go:119-176 | The page, has_more iff something is left over, and a cursor at its last row |
| Pagination.DeliveredStep | internal/transport/http/handler_ledger.go:73-110 | One more page keeps the delivered rows descending and strands no row of the first table |
| Pagination.WalkDelivers | internal/transport/http/handler_payment.go:119-176 | With rows added between pages rows come newest first, none twice, and every row present at the start comes |
| Pagination.FixedTableWalk | internal/transport/http/handler_payment.go:119-176 | On a fixed table exactly its rows come, newest first, once each |
| Pagination.Walk | internal/repository/ledger_repo.go:88-129 | The client's loop terminates with exactly that |

## Left out

- HTTP routing, request decoding, the error-to-status table, logging, health probes, configuration and wiring: plumbing.
- Cryptography, secrets, the fingerprint's hash and its canonical JSON: fingerprints are opaque strings.
- Webhook payloads and signatures: an event carries the row it announced. Payment metadata and card data beyond last four digits and brand are not kept.
- Report files, the order of report lines and the log of offending transactions. Reconciliation.SettlementReport is compared with the report's line for one-currency days only, since it mixes currencies otherwise.
- Mock acquirer latency, random outcomes and brand detection: the acquirer is any sequence of answers.
- Automatic capture after authorization: it is a capture step following an authorization step.
- Row and journal reads of one reconciliation are taken in one step; other steps interleave between scan and settlement.
- 64-bit overflow of sums of amounts: only the fee's product is modelled at 64 bits.
- Unique ids from the generator: a step with a group id already in the journal is not taken.
- The service and the database share one clock; it may move in any direction in the payment core.
- Accounts are a datatype rather than prefixed strings; the journal's serial ids are its positions.
- The JSON grammar: which bodies can be stored is a predicate given to Idempotency.Store. A handler panic while it writes its response.
- Goroutines, channels and row locks: interleavings of atomic steps. A webhook batch is one step per row.
- Encoding of cursors as text, and the status filter of the payment listing.
- A panic inside a guarded acquirer call, which would leave the half-open probe reserved.
- Idempotency.OneRunPerKey: assumes no key that expired under a handler at work is claimed; StepKeepsIff shows that exactly this breaks it, and PunctualRunsAreTimely that it is enough for handlers to end in time.
- Webhooks.OneHolderPerDelivery: assumes no stale pass comes upon a held claim older than the timeout; LeasesHoldIff shows the condition is exact.
- Breaker.CircuitBreaker.State: assumes a monotone clock.
- Theorems.DayReconcilesIff: assumes a rate that is not negative and, of the amounts captured that day, that their fee products are below 2^63; Money.FeeExactIff shows where the fee stops being the floor.
- Theorems.FailedDayNeverSettles: assumes the same of both listings of the day; a fee that wraps around may agree by accident.
- Theorems.SettlingPaysExactly: assumes the same of the rows scanned for the row's own merchant and currency.
- Webhooks.BackoffBounds: the jitter is a real number; floating-point rounding is not modelled.
