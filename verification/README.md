# SaaS Chassis: verified models

Dafny models of the parts of the SaaS chassis whose correctness is hardest to see by reading one
function, with proofs about every input, every run or every reachable state.
`dafny verify dfyconfig.toml` checks the whole project.

| part | files |
|---|---|
| double-entry ledger | `Journal`, `Reports`, `Closing`, `Ledger`, `CloseTheorems`, `Shifts`, `Carryover`, `Reversals`, `Gates`, `LedgerExamples`, `Overlap`, `LedgerService` |
| chart of accounts | `Chart`, `Templates`, `Forest` |
| audit consumer and audit query | `AuditConsumer`, `AuditExact`, `AuditSteps`, `AuditQuery` |
| tenant feature flags | `Keys`, `FeatureCache` (atomic operations), `FeatureGates`, `FeatureRace` (interleaved, with a clock) |
| SDK flag cache | `FlagCache` |
| gateway rate limiter | `RateLimiter`, `RateFairness`, `WindowChecks`, `RateRuns`, `RateExact`, `RateSchedule`, `Timetables`, `RateOverruns`, `RateLate`, `Gateway` |
| shared vocabulary | `Basics` (`Option`, `Result`, failures; sums and filters over sequences) |

Where the code changes state step by step there is a class or a method with its loop, and its
contract ties it to a function on values: `LedgerStore` to the state machine `Ledgers.Step`,
`Consumer` to `AuditConsumer.Do`, `FeaturesService` to the store operations, `Middleware` to the
limiter's steps. The theorems are about those functions, so they hold of the methods.

## How things are represented

- Amounts are integers in 1/10000 units, as the columns are DECIMAL(18,4). Dates are day numbers,
  and today's date is a parameter.
- One tenant's ledger. An entry's or period's id is its position in the store, an account's id the
  number of accounts created before it; both stand for fresh Guids. Accounts are kept in code order,
  as the repository lists them.
- Foreign keys, unique constraints and the CHECK on lines are failures of the command. A failed
  command leaves the store unchanged, because the unit of work is saved once, at the end.
- In `Ledgers` commands run one at a time. The code has no concurrency token, so handlers can
  overlap; `Overlap` interleaves their loads and saves and proves that balance survives, while the
  reversal links and the freeze of a closed period do not.
- The reports and the close read only posted entries; nets count credits positive unless a report
  turns the sign.
- The audit broker is four places a message can be in. Outcomes of inserts and the moment a channel
  is lost are parameters of the steps.
- Redis keys are text in `Keys` and `FeatureCache`; `FeatureRace` and `RateLimiter` use the parts of
  the key, which `Keys.FeatureKeyInjective` and `Keys.RateKeyInjective` justify for tenant ids
  without colons (they are UUIDs).
- Rate-limiter times are milliseconds; reading the clock, INCR and EXPIRE are separate steps of
  overlapping requests, EXPIRE may fail, an INCR may be executed and its answer lost, and each
  tenant keeps one plan. The horizon of a bucket is its end plus one window length, the earliest
  moment its key can expire. `BucketBound` and `IntervalBound` ask that every INCR arrives before it
  (`Timely` with slack 0), and `RateLate.AnsweredBucketsHoldIff` shows that this is exactly what the
  bound needs.

## Where the code and its documentation differ

The models follow the code.

- A test expects a second reversal to raise the duplicate-reversal exception
  (`services/universal-ledger/Ledger.Tests/Domain/JournalEntryTests.cs:64-72`), but the status check
  at `services/universal-ledger/Ledger.Domain/Entities/JournalEntry.cs:72-73` fires first; see
  `Ledgers.NoDuplicateReversal`.
- Reversing an entry removes the original from the reports and adds the opposite entry, so the
  balance does not return to what it was; `Reversals.ReversalRestoresIff` says exactly when it does.
- The opening entry is built from balances before the close and leaves retained surplus out. It is
  recorded only at break-even (`CloseTheorems.OpeningRecordedIff`), and then counts the period's
  movements twice (`CloseTheorems.OpeningRepeatsMovements`).
- `AddLine` has no status guard and posting does not look at the period, so the invariants belong to
  the commands, and `Ledgers.ClosedPeriodsAreFrozen` is about entries that carry the period's id.
  The dates of a closed period still move; `Shifts.StepShifts` says by how much, for every command.
- Opening entries are dated inside the next period and carried forward again by its close; over
  adjacent periods the movements compound (`Carryover.OpeningsCompound`).
- `LedgerExamples` reaches the overshooting reversal, the missing opening entry, the doubling one and
  the closed period that moves by commands from the empty ledger.
- The template handler announces two passes, parents first. A template entry is created without its
  parent when the parent code is already in the chart, and when the parent is itself a child entry
  with a greater code; `Templates.TemplateCreates` has the exact condition.
- The rate limiter's comment promises a sliding window; the code uses fixed windows. An interval
  keeps the limit exactly when it is itself a bucket (`RateOverruns.SlidingWindowIff`), and otherwise
  twice the limit (`RateLimiter.IntervalBound`).
- The SDK cache evicts its oldest entry whenever it is full, even to overwrite a key it holds
  (`FlagCache.Stored`).

## Model

| member | source | states |
|---|---|---|
| CloseTheorems.CloseMovesIncomeToSurplus | services/universal-ledger/Ledger.Application/Commands/CloseFiscalPeriod/CloseFiscalPeriodHandler.cs:45-101 | over the period's own dates, a successful close takes the whole posted net from every active Revenue/Expense account, adds their sum to account 3002, and moves no other account |
| CloseTheorems.CloseZeroesIncome | services/universal-ledger/Ledger.Application/Commands/CloseFiscalPeriod/CloseFiscalPeriodHandler.cs:72-95 | an active Revenue/Expense account ends at zero if and only if it is not itself account 3002, or nothing was closed |
| CloseTheorems.CloseProfitAndLoss | services/universal-ledger/Ledger.Application/Commands/CloseFiscalPeriod/CloseFiscalPeriodHandler.cs:72-101 | net income of the period after the close is what it was less what was closed, plus the same again if 3002 is a Revenue/Expense account |
| CloseTheorems.CloseClearsProfitAndLoss | services/universal-ledger/Ledger.Application/Commands/CloseFiscalPeriod/CloseFiscalPeriodHandler.cs:72-101 | with 3002 on the balance sheet and every moved Revenue/Expense account active, the amount booked is the period's net income and the report shows zero afterwards |
| CloseTheorems.CloseNeverUnbalanced | services/universal-ledger/Ledger.Application/Commands/CloseFiscalPeriod/CloseFiscalPeriodHandler.cs:97-101 | posting the closing entry inside a close never raises the unbalanced-entry failure, for any ledger |
| CloseTheorems.OpeningRecordedIff | services/universal-ledger/Ledger.Application/Commands/CloseFiscalPeriod/CloseFiscalPeriodHandler.cs:108-150 | an opening entry is recorded if and only if some active balance-sheet account moved and the closed income plus the net on inactive accounts is zero; it is then the last entry, posted, balanced, dated the next day |
| CloseTheorems.OpeningNeedsBreakEven | services/universal-ledger/Ledger.Application/Commands/CloseFiscalPeriod/CloseFiscalPeriodHandler.cs:108-150 | with all accounts active that condition is: net income zero and something to carry forward |
| CloseTheorems.OpeningRepeatsMovements | services/universal-ledger/Ledger.Application/Commands/CloseFiscalPeriod/CloseFiscalPeriodHandler.cs:108-150 | seen from any later date a recorded opening entry counts each active balance-sheet account's movement of the period a second time |
| CloseTheorems.ClosedIncomeMeaning | services/universal-ledger/Ledger.Application/Commands/CloseFiscalPeriod/CloseFiscalPeriodHandler.cs:72-83 | the amount accumulated by the closing loop is the summed posted net of the active Revenue/Expense accounts |
| CloseTheorems.NetAfterClose | services/universal-ledger/Ledger.Application/Commands/CloseFiscalPeriod/CloseFiscalPeriodHandler.cs:97-150 | over any dates, an account's posted net grows by exactly the shares of the closing and opening entries dated inside them |
| Closing.ClosingEntryBalances | services/universal-ledger/Ledger.Application/Commands/CloseFiscalPeriod/CloseFiscalPeriodHandler.cs:72-101 | profit, loss, break-even or mixed signs: the closing entry has no lines, or is balanced with a positive total; every line has one positive side |
| Closing.ClosingEffect | services/universal-ledger/Ledger.Application/Commands/CloseFiscalPeriod/CloseFiscalPeriodHandler.cs:74-89 | the closing lines undo the grouped net of each active Revenue/Expense account and touch no other |
| Closing.ClosingEntryEffect | services/universal-ledger/Ledger.Application/Commands/CloseFiscalPeriod/CloseFiscalPeriodHandler.cs:72-95 | the same for the whole entry, with the sum arriving on the surplus account |
| Closing.OpeningEffect | services/universal-ledger/Ledger.Application/Commands/CloseFiscalPeriod/CloseFiscalPeriodHandler.cs:117-143 | the opening lines repeat each active balance-sheet account's own net and touch no other |
| Closing.OpeningDifference | services/universal-ledger/Ledger.Application/Commands/CloseFiscalPeriod/CloseFiscalPeriodHandler.cs:108-145 | opening debits minus credits equal net income plus the net on inactive accounts, so the balance test passes exactly when that is zero and a line exists |
| Closing.OpeningLinesExist | services/universal-ledger/Ledger.Application/Commands/CloseFiscalPeriod/CloseFiscalPeriodHandler.cs:117-145 | the opening entry has lines exactly when some active balance-sheet account has non-zero net |
| Closing.FindSurplus | services/universal-ledger/Ledger.Application/Commands/CloseFiscalPeriod/CloseFiscalPeriodHandler.cs:59-61 | finds an active account with code 3002, and fails only if there is none |
| Ledgers.EveryRunBalances | services/universal-ledger/Ledger.Domain/Entities/JournalEntry.cs:46-106 | after any run from the empty ledger every posted or reversed entry is balanced with positive total and every stored line has exactly one positive side |
| Ledgers.EveryRunReports | services/universal-ledger/Ledger.Api/Endpoints/ReportEndpoints.cs:36-56 | in every reachable ledger and for every date, trial-balance debits equal credits and the posted totals, and the balance sheet's signed total is the net income since before the first entry |
| Ledgers.RunKeeps | services/universal-ledger/Ledger.Domain/Entities/JournalEntry.cs:33-106 | every command, failed or not, keeps the chart well formed, all lines on chart accounts, entries balanced, reversal links mutual and period records in order |
| Ledgers.StepKeeps | services/universal-ledger/Ledger.Domain/Entities/JournalEntry.cs:33-106 | one command keeps all of that |
| Ledgers.ReverseKeeps | services/universal-ledger/Ledger.Domain/Entities/JournalEntry.cs:70-106 | a reversal keeps balance, line shape and mutual links of all entries |
| Ledgers.CloseKeepsEntries | services/universal-ledger/Ledger.Application/Commands/CloseFiscalPeriod/CloseFiscalPeriodHandler.cs:64-150 | both entries a close adds are balanced, one-sided, and on accounts of the chart |
| Ledgers.NoDuplicateReversal | services/universal-ledger/Ledger.Tests/Domain/JournalEntryTests.cs:64-72 | the duplicate-reversal branch is dead: a second reversal fails with not-posted |
| Ledgers.ClosedPeriodsAreFrozen | services/universal-ledger/Ledger.Application/Commands/CreateJournalEntry/CreateJournalEntryHandler.cs:22-29 | over every run a closed period keeps its record and opening entry, and the entries carrying its id keep date, lines and number; only statuses move, forwards |
| Ledgers.StepFreezes | services/universal-ledger/Ledger.Application/Commands/CreateJournalEntry/CreateJournalEntryHandler.cs:22-29 | no single command alters a closed period's record or adds an entry with its id |
| Reversals.LinksAreInverse | services/universal-ledger/Ledger.Domain/Entities/JournalEntry.cs:77-103 | in every reachable ledger Reversed holds exactly when the reversed-by link is set, the two links are inverse, and they lead forwards in time |
| Reversals.ChainStatus | services/universal-ledger/Ledger.Domain/Entities/JournalEntry.cs:84-102 | a chain of reversals has exactly one posted entry, its tail |
| Reversals.ChainEffect | services/universal-ledger/Ledger.Domain/Entities/JournalEntry.cs:90-99 | k reversals later the effect on every account is (-1)^k times the first entry's |
| Reversals.ChainTotals | services/universal-ledger/Ledger.Domain/Entities/JournalEntry.cs:70-106 | posted-only the chain comes to (-1)^k times the first entry; counting reversed entries too, to the first entry for even k and to zero for odd k |
| Reversals.ChainsPartition | services/universal-ledger/Ledger.Domain/Entities/JournalEntry.cs:85-102 | every entry is on the chain of exactly one original entry |
| Reports.TrialBalanceBalances | services/universal-ledger/Ledger.Application/Queries/GetTrialBalance/GetTrialBalanceHandler.cs:21-48 | total debits equal total credits and both are the posted entries' own totals up to the date; grouping and dropping zero lines loses nothing |
| Reports.TrialLinesTotal | services/universal-ledger/Ledger.Application/Queries/GetTrialBalance/GetTrialBalanceHandler.cs:26-45 | the kept lines sum to the per-account filter-and-sum totals |
| Reports.AccountBalanceAgrees | services/universal-ledger/Ledger.Application/Queries/GetAccountBalance/GetAccountBalanceHandler.cs:23-30 | the account balance equals the account's only trial-balance line, and an account without a line has debits and credits zero |
| Reports.NetIncomeMeaning | services/universal-ledger/Ledger.Application/Queries/GetProfitAndLoss/GetProfitAndLossHandler.cs:20-47 | total revenue, total expenses and net income are the posted nets of the Revenue and Expense accounts with the right signs |
| Reports.RevenueListed | services/universal-ledger/Ledger.Application/Queries/GetProfitAndLoss/GetProfitAndLossHandler.cs:29-34 | each Revenue account is listed with its net exactly when that is not zero |
| Reports.ExpensesListed | services/universal-ledger/Ledger.Application/Queries/GetProfitAndLoss/GetProfitAndLossHandler.cs:37-42 | each Expense account is listed with its negated net exactly when that is not zero |
| Reports.SheetTotalMeaning | services/universal-ledger/Ledger.Api/Endpoints/ReportEndpoints.cs:36-56 | each balance-sheet total is the debit-positive net of the accounts of its kind |
| Reports.BalanceSheetIsNetIncome | services/universal-ledger/Ledger.Api/Endpoints/ReportEndpoints.cs:36-56 | assets plus liabilities plus equity, signed, equal net income since before the first entry |
| Reports.KindsCancel | services/universal-ledger/Ledger.Application/Queries/GetTrialBalance/GetTrialBalanceHandler.cs:26-45 | over a chart that covers all lines the five kinds of account cancel out |
| Journal.GroupIsFilterAndSum | services/universal-ledger/Ledger.Application/Queries/GetTrialBalance/GetTrialBalanceHandler.cs:26-35 | a group exists exactly for the accounts mentioned and holds their filter-and-sum debits and credits |
| Journal.SelectTotal | services/universal-ledger/Ledger.Infrastructure/Repositories/JournalEntryRepository.cs:15-42 | summing the lines of a query is summing the totals of its matching entries |
| Journal.SwappedTotals | services/universal-ledger/Ledger.Domain/Entities/JournalEntry.cs:90-99 | reversal lines exchange the debit and credit totals |
| Journal.SwappedEffect | services/universal-ledger/Ledger.Domain/Entities/JournalEntry.cs:90-99 | reversal lines have the opposite effect on every account |
| Journal.OneSidedTotals | migrations/ledger/V1__create_ledger_tables.sql:51-54 | lines that satisfy the CHECK cannot cancel to a zero total |
| LedgerService.JournalEntry.Create | services/universal-ledger/Ledger.Domain/Entities/JournalEntry.cs:33-44 | a new entry is a draft without lines or links |
| LedgerService.JournalEntry.Reversal | services/universal-ledger/Ledger.Domain/Entities/JournalEntry.cs:77-88 | the reversal is born posted, without period, pointing back |
| LedgerService.JournalEntry.AddLine | services/universal-ledger/Ledger.Domain/Entities/JournalEntry.cs:46-55 | appends the line, whatever the status, and changes nothing else |
| LedgerService.JournalEntry.Post | services/universal-ledger/Ledger.Domain/Entities/JournalEntry.cs:57-68 | posts a balanced draft; otherwise the exact failure and no change |
| LedgerService.JournalEntry.CreateReversal | services/universal-ledger/Ledger.Domain/Entities/JournalEntry.cs:70-106 | returns a posted entry with debits and credits exchanged, and marks and links the original; otherwise the exact failure and no change |
| LedgerService.FiscalPeriod.Create | services/universal-ledger/Ledger.Domain/Entities/FiscalPeriod.cs:22-31 | a new period is open and has no opening entry |
| LedgerService.FiscalPeriod.Close | services/universal-ledger/Ledger.Domain/Entities/FiscalPeriod.cs:33-42 | closes an open period only |
| LedgerService.FiscalPeriod.SetOpeningBalanceEntry | services/universal-ledger/Ledger.Domain/Entities/FiscalPeriod.cs:44-48 | records the entry and nothing else |
| LedgerService.LedgerStore.HandleCreatePeriod | services/universal-ledger/Ledger.Application/Commands/CreateFiscalPeriod/CreateFiscalPeriodHandler.cs:13-19 | the same for period creation |
| LedgerService.LedgerStore.AddLines | services/universal-ledger/Ledger.Application/Commands/CreateJournalEntry/CreateJournalEntryHandler.cs:33-34 | the line loop copies the request in order |
| LedgerService.LedgerStore.HandleCreateEntry | services/universal-ledger/Ledger.Application/Commands/CreateJournalEntry/CreateJournalEntryHandler.cs:20-39 | the same for creating an entry: validator, period gate, line loop |
| LedgerService.LedgerStore.HandlePost | services/universal-ledger/Ledger.Application/Commands/PostJournalEntry/PostJournalEntryHandler.cs:18-24 | the same for posting |
| LedgerService.LedgerStore.HandleReverse | services/universal-ledger/Ledger.Application/Commands/ReverseJournalEntry/ReverseJournalEntryHandler.cs:12-21 | the same for reversing, in place on the stored entry |
| LedgerService.LedgerStore.BuildClosingEntry | services/universal-ledger/Ledger.Application/Commands/CloseFiscalPeriod/CloseFiscalPeriodHandler.cs:72-95 | the closing loop and the surplus line build exactly the specified closing lines |
| LedgerService.LedgerStore.BuildOpeningEntry | services/universal-ledger/Ledger.Application/Commands/CloseFiscalPeriod/CloseFiscalPeriodHandler.cs:117-143 | the second loop builds exactly the specified opening lines |
| LedgerService.LedgerStore.AddClosing | services/universal-ledger/Ledger.Application/Commands/CloseFiscalPeriod/CloseFiscalPeriodHandler.cs:64-101 | posts and stores the closing entry if it has lines |
| LedgerService.LedgerStore.AddOpening | services/universal-ledger/Ledger.Application/Commands/CloseFiscalPeriod/CloseFiscalPeriodHandler.cs:108-150 | posts, stores and records the opening entry if it has lines and balances |
| LedgerService.LedgerStore.CarryOut | services/universal-ledger/Ledger.Application/Commands/CloseFiscalPeriod/CloseFiscalPeriodHandler.cs:64-150 | closing entry, period close and opening entry in this order give the specified ledger |
| LedgerService.LedgerStore.HandleClose | services/universal-ledger/Ledger.Application/Commands/CloseFiscalPeriod/CloseFiscalPeriodHandler.cs:25-152 | the whole close refines the state machine's step, with every check and failure in order |
| Chart.ChartCommandKeeps | services/universal-ledger/Ledger.Domain/Entities/Account.cs:24-43 | creation, update and template initialisation keep ids and codes unique and parents older than children, and lose or alter no account but its active flag |
| Chart.InsertWellFormed | services/universal-ledger/Ledger.Application/Commands/CreateAccount/CreateAccountHandler.cs:21-27 | adding an account with a free code and an existing parent keeps the chart well formed |
| Chart.UpdateWellFormed | services/universal-ledger/Ledger.Api/Endpoints/AccountEndpoints.cs:52-59 | an update keeps the chart well formed |
| Chart.InstantiateAllWellFormed | services/universal-ledger/Ledger.Application/Commands/InitializeFromTemplate/InitializeFromTemplateHandler.cs:25-53 | the template loop keeps the chart well formed, and its map always names accounts of the chart |
| Templates.InstantiateAllBuilds | services/universal-ledger/Ledger.Application/Commands/InitializeFromTemplate/InitializeFromTemplateHandler.cs:29-53 | after the loop createdMap holds exactly the new codes, each naming its own account |
| Forest.BuildTree | services/universal-ledger/Ledger.Api/Endpoints/AccountEndpoints.cs:21-35 | one pass yields every account's children and the roots, in listing order |
| Forest.ListingShowsEachAccountOnce | services/universal-ledger/Ledger.Api/Endpoints/AccountEndpoints.cs:21-35 | the nested response shows every account exactly once and nothing else |
| Forest.ShownTimes | services/universal-ledger/Ledger.Api/Endpoints/AccountEndpoints.cs:26-33 | an account is shown once per place on the level itself plus once per showing of its parent |
| Forest.ReachableListing | services/universal-ledger/Ledger.Api/Endpoints/AccountEndpoints.cs:16-36 | both hold of every chart reachable by chart commands |
| Forest.ReachableChartsAreWellFormed | migrations/ledger/V1__create_ledger_tables.sql:4-18 | every reachable chart has unique codes and acyclic parents |
| AuditConsumer.EveryRunKeeps | services/audit-service/internal/consumer/audit_consumer.go:133-186 | the protocol invariant holds after any run of publish, deliver, receive, tick, flush outcomes, channel loss (also between two acks) and crash |
| AuditConsumer.LoopHead | services/audit-service/internal/consumer/audit_consumer.go:133-186 | at the loop head batch and pending match entry by entry and stay below 100, and every published message is in exactly one place |
| AuditConsumer.NothingLost | services/audit-service/internal/consumer/audit_consumer.go:138-156 | a well-formed message with a valid tenant is still with the broker, or acked and its event stored |
| AuditConsumer.StoredAtLeastOnceEach | services/audit-service/internal/consumer/audit_consumer.go:144-153 | for every event there are at least as many rows as acked messages carrying it |
| AuditConsumer.OnlyMalformedDropped | services/audit-service/internal/consumer/audit_consumer.go:169-174 | only malformed messages are discarded and only well-formed ones acked |
| AuditConsumer.CommittedFlushSettlesBatch | services/audit-service/internal/consumer/audit_consumer.go:138-156 | a committed flush on a live channel acks the whole batch in order and stores exactly its valid events |
| AuditConsumer.FlushKeeps | services/audit-service/internal/consumer/audit_consumer.go:138-156 | a flush with any outcome, losing the channel at any point, restores the loop-head invariant |
| AuditConsumer.Consumer.BatchInsert | services/audit-service/internal/repository/audit_repository.go:85-155 | skips events with a non-UUID tenant, stores the rest in order or nothing |
| AuditConsumer.Consumer.FlushBatch | services/audit-service/internal/consumer/audit_consumer.go:138-156 | the flush closure refines the specified flush |
| AuditConsumer.Consumer.HandleDelivery | services/audit-service/internal/consumer/audit_consumer.go:162-181 | one delivery refines the receive step |
| AuditConsumer.Consumer.HandleTick | services/audit-service/internal/consumer/audit_consumer.go:183-184 | the ticker case refines the tick step |
| AuditConsumer.Consumer.HandleClosed | services/audit-service/internal/consumer/audit_consumer.go:163-167 | the closed-channel path flushes and starts over |
| AuditQuery.CompiledMeansFilters | services/audit-service/internal/repository/audit_repository.go:166-208 | for every caller, filter and row, the numbered clauses evaluated on the arguments select exactly what the filters say |
| AuditQuery.PlaceholdersUsedOnce | services/audit-service/internal/repository/audit_repository.go:168-230 | each placeholder is used once; LIMIT and OFFSET come right after the clauses |
| AuditQuery.PagesConcatenate | services/audit-service/internal/repository/audit_repository.go:219-230 | under a fixed order the first k pages are exactly the first k page-sizes of the filtered list |
| AuditQuery.BuildTextClauses | services/audit-service/internal/repository/audit_repository.go:166-193 | the step-by-step builder agrees with the specified clauses |
| AuditQuery.BuildQuery | services/audit-service/internal/repository/audit_repository.go:166-208 | the step-by-step builder agrees with the specified query, and n is one past the arguments |
| Keys.FeatureKeyInjective | services/tenant-manager/src/modules/features/features.service.ts:94-94 | with colon-free tenant ids a cache key determines tenant and code |
| Keys.PrefixMatchesOwnTenant | services/tenant-manager/src/modules/features/features.service.ts:239-241 | the scan pattern of a tenant matches its own keys and no others |
| FeatureCache.EveryRunCoherent | services/tenant-manager/src/modules/features/features.service.ts:92-158 | after any sequence of checks, toggles, plan changes, creations, archives and expiries every cached value is override-else-default-else-off, and every check answers that |
| FeatureCache.CheckAnswersTruth | services/tenant-manager/src/modules/features/features.service.ts:92-118 | a check answers the database value, cached or not, and keeps the cache coherent |
| FeatureCache.MergedAgreesWithCheck | services/tenant-manager/src/modules/features/features.service.ts:62-85 | the merged list agrees with the single check on every defined code |
| FeatureCache.ToggleKeeps | services/tenant-manager/src/modules/features/features.service.ts:124-158 | a toggle takes effect and keeps the cache coherent |
| FeatureCache.ChangePlanKeeps | services/tenant-manager/src/modules/tenants/tenants.service.ts:220-253 | a plan change turns the plan's features on and keeps the cache coherent |
| FeatureCache.CreateTenantKeeps | services/tenant-manager/src/modules/tenants/tenants.service.ts:133-152 | provisioning a tenant with a fresh id keeps the cache coherent |
| FeatureCache.ArchiveKeeps | services/tenant-manager/src/modules/tenants/tenants.service.ts:299-314 | archiving keeps the cache coherent |
| FeatureCache.InvalidationIsExact | services/tenant-manager/src/modules/features/features.service.ts:235-250 | tenant invalidation deletes exactly that tenant's keys |
| FeatureCache.AbortedPlanChangeRightIff | services/tenant-manager/src/modules/tenants/tenants.service.ts:231-242 | when an insert is rejected half-way and the invalidation is skipped, a cached answer is still right if and only if it was on and the feature's row is back or its default is on, or it was off and neither holds |
| FeatureCache.AbortedPlanChangeIsStale | services/tenant-manager/src/modules/tenants/tenants.service.ts:231-242 | a concrete stale answer after such a failure |
| FeatureCache.FeaturesService.IsFeatureEnabled | services/tenant-manager/src/modules/features/features.service.ts:92-118 | the method refines the specified check, cache fill included |
| FeatureCache.FeaturesService.ToggleFeature | services/tenant-manager/src/modules/features/features.service.ts:124-158 | save, then delete the key |
| FeatureCache.FeaturesService.InvalidateTenantFeatureCache | services/tenant-manager/src/modules/features/features.service.ts:235-250 | the scan loop and delete remove exactly the keys with the tenant's prefix |
| FeatureCache.FeaturesService.ProvisionTenant | services/tenant-manager/src/modules/tenants/tenants.service.ts:133-152 | one enabled row per plan feature of the new tenant |
| FeatureCache.FeaturesService.ArchiveTenant | services/tenant-manager/src/modules/tenants/tenants.service.ts:299-314 | invalidates the tenant unless it is missing or already cancelled |
| FeatureRace.RunKeeps | services/tenant-manager/src/modules/features/features.service.ts:92-158 | every step keeps each cache entry, reader and answer traceable to a moment of the database |
| FeatureRace.LateReaderSpoils | services/tenant-manager/src/modules/features/features.service.ts:101-107 | a reader that read before the write and fills after it leaves the cache outdated |
| FeatureRace.ToggleCanBeOverrun | services/tenant-manager/src/modules/features/features.service.ts:101-157 | a complete toggle between a reader's read and fill is followed by the old value being served |
| FlagCache.EveryRunKeeps | packages/chassis-sdk/src/services/feature-flag.service.ts:11-68 | the invariant holds over every run with overlapping fetches |
| FlagCache.CacheBounded | packages/chassis-sdk/src/services/feature-flag.service.ts:11-18 | the cache never exceeds 1000 entries |
| FlagCache.AnswersAreRecentReplies | packages/chassis-sdk/src/services/feature-flag.service.ts:26-68 | with gating on an answer is false after a failed fetch, or the server's reply for the same tenant and feature stored less than 60 seconds ago |
| FlagCache.StoredKeeps | packages/chassis-sdk/src/services/feature-flag.service.ts:11-18 | storing keeps size and distinct keys and brings in only the new slot |
| FlagCache.StoredDropsOldestOnly | packages/chassis-sdk/src/services/feature-flag.service.ts:11-18 | another key's slot survives exactly when the cache was not full or it was not the oldest |
| FlagCache.HitAfterStore | packages/chassis-sdk/src/services/feature-flag.service.ts:31-35 | what was stored is what is read, until it expires |
| Keys.JoinedInjective | packages/chassis-sdk/src/services/feature-flag.service.ts:31-31 | a joined key is unambiguous for colon-free tenant ids |
| FlagCache.FeatureFlagService.SetCacheEntry | packages/chassis-sdk/src/services/feature-flag.service.ts:11-18 | evict-then-set refines the specified store |
| FlagCache.FeatureFlagService.AskCache | packages/chassis-sdk/src/services/feature-flag.service.ts:27-35 | the part before the fetch answers the specified hit |
| FlagCache.FeatureFlagService.Complete | packages/chassis-sdk/src/services/feature-flag.service.ts:47-67 | the part after the fetch stores and answers the reply, or answers false and stores nothing |
| RateLimiter.LiveBucketKept | services/api-gateway/internal/middleware/rate_limiter.go:35-52 | expiry never removes a counter before its bucket and one more window are over |
| Gateway.Middleware.IncrKey | services/api-gateway/internal/middleware/rate_limiter.go:26-26 | INCR on a present key counts up, on a missing or expired one restarts at one |
| Gateway.Middleware.ExpireKey | services/api-gateway/internal/middleware/rate_limiter.go:33-35 | EXPIRE sets the time to live of a present key |
| Gateway.Middleware.CountIn | services/api-gateway/internal/middleware/rate_limiter.go:49-52 | INCR then EXPIRE, for the minute key only on the first count |
| Gateway.Middleware.Handle | services/api-gateway/internal/middleware/rate_limiter.go:16-77 | a failed minute INCR lets the request through uncounted; otherwise it is admitted if and only if the numbers the old counters give are within the plan's limits where the counters answer; and this is what the state machine does for an uninterrupted request |
| RateLimiter.BucketBound | services/api-gateway/internal/middleware/rate_limiter.go:25-74 | over every interleaved run whose INCRs arrive before the horizon of their bucket (its end plus one window), a tenant's requests admitted after counting in a bucket are at most the limit, for minute, hour and burst |
| RateLimiter.IntervalBound | services/api-gateway/internal/middleware/rate_limiter.go:25-74 | any interval as long as the window admits at most twice the limit |
| RateLimiter.EveryRunKeeps | services/api-gateway/internal/middleware/rate_limiter.go:25-74 | tickets on a key stay distinct and counted, and passed windows were within their limit, over runs whose INCRs arrive before the horizon |
| RateLimiter.IncrDistinct | services/api-gateway/internal/middleware/rate_limiter.go:26-26 | an INCR before the horizon differs from every result drawn on the key before |
| RateLimiter.LimitsFor | services/api-gateway/internal/middleware/rate_limiter.go:20-23 | the limits of all four plans, those of free for every other plan, and for every plan 0 < burst < minute < hour < 60 times minute |
| Keys.RateKeyInjective | services/api-gateway/internal/middleware/rate_limiter.go:25-64 | with colon-free tenant ids the key text determines tenant, counter and bucket |
| WindowChecks.AttemptMeaning | services/api-gateway/internal/middleware/rate_limiter.go:25-74 | one window's check seen from outside: its effect on the counters and on the request, and on nothing else |
| FeatureRace.ServedValuesWereTrue | services/tenant-manager/src/modules/features/features.service.ts:92-158 | with all steps interleaved, a value served from the cache was the database's value at a moment before it was filled in, and is served less than 300 seconds after it was filled in |
| FeatureRace.InvalidationSufficesIff | services/tenant-manager/src/modules/features/features.service.ts:153-157 | after a key is deleted, every answer for it from the cache is right until the next write, in all interleavings, if and only if no reader still carries an outdated value |
| FeatureRace.SettledAnswers | services/tenant-manager/src/modules/features/features.service.ts:92-118 | once neither cache nor readers hold an outdated value, every answer given from the cache before the next write is the database's value |
| FeatureRace.DisagreeingReaderMisleads | services/tenant-manager/src/modules/features/features.service.ts:101-117 | a reader that carries an outdated value leads some caller to be given it |
| LedgerExamples.ReversalOverstates | services/universal-ledger/Ledger.Domain/Entities/JournalEntry.cs:84-101 | from the empty ledger: after posting and reversing any amount, cash reports the opposite of the posting |
| LedgerExamples.ProfitableCloseRecordsNothing | services/universal-ledger/Ledger.Application/Commands/CloseFiscalPeriod/CloseFiscalPeriodHandler.cs:117-150 | from the empty ledger: a period with any profit is closed and no opening entry is recorded |
| LedgerExamples.BreakEvenCloseDoubles | services/universal-ledger/Ledger.Application/Commands/CloseFiscalPeriod/CloseFiscalPeriodHandler.cs:117-150 | from the empty ledger: a break-even close records the opening entry and cash reports twice the amount posted |
| Carryover.StepsAreRun | services/universal-ledger/Ledger.Application/Commands/CloseFiscalPeriod/CloseFiscalPeriodHandler.cs:25-152 | the ledgers of that chain are those reached by the close commands |
| Carryover.IdlePeriodCarries | services/universal-ledger/Ledger.Application/Commands/CloseFiscalPeriod/CloseFiscalPeriodHandler.cs:108-150 | a recorded opening entry makes an idle period after it break-even with something to carry |
| Carryover.ReadyRecords | services/universal-ledger/Ledger.Application/Commands/CloseFiscalPeriod/CloseFiscalPeriodHandler.cs:108-150 | and closing such a period records an opening entry again |
| Templates.TemplateCreates | services/universal-ledger/Ledger.Application/Commands/InitializeFromTemplate/InitializeFromTemplateHandler.cs:32-53 | each entry with a free code becomes an active account of its kind; it gets its parent if and only if the parent code is free and belongs to an entry without a parent code or with a smaller code |
| Templates.GrandchildLosesParent | services/universal-ledger/Ledger.Application/Commands/InitializeFromTemplate/InitializeFromTemplateHandler.cs:32-48 | three entries with free codes, of which the grandchild ends up without its parent |
| Templates.SortSorts | services/universal-ledger/Ledger.Application/Commands/InitializeFromTemplate/InitializeFromTemplateHandler.cs:32-32 | the order of processing is a sort by code that keeps all entries |
| Templates.SuccessHasNoRepeats | migrations/ledger/V1__create_ledger_tables.sql:17-17 | a template with a repeated free code fails |
| Chart.RunTemplate | services/universal-ledger/Ledger.Application/Commands/InitializeFromTemplate/InitializeFromTemplateHandler.cs:25-61 | the loop over createdMap computes the specified chart or failure, and the returned count is the number of accounts added |
| LedgerService.LedgerStore.HandleCreateAccount | services/universal-ledger/Ledger.Application/Commands/CreateAccount/CreateAccountHandler.cs:19-27 | account creation takes the store through exactly the state machine's step, with its failure |
| LedgerService.LedgerStore.HandleUpdateAccount | services/universal-ledger/Ledger.Api/Endpoints/AccountEndpoints.cs:52-59 | the same for the update |
| LedgerService.LedgerStore.HandleTemplate | services/universal-ledger/Ledger.Application/Commands/InitializeFromTemplate/InitializeFromTemplateHandler.cs:15-62 | the same for initialisation from a template, with the count |
| FeatureCache.FeaturesService.ReplaceTenantFeatures | services/tenant-manager/src/modules/features/features.service.ts:209-225 | delete all rows of the tenant, then one enabled row per code up to the first the table rejects |
| FeatureCache.FeaturesService.UpdatePlan | services/tenant-manager/src/modules/tenants/tenants.service.ts:220-253 | refines the plan change, complete or aborted at a rejected row without invalidation |
| FeatureCache.AllAcceptedIff | migrations/tenants/V2__create_feature_definitions.sql:18-27 | no row is rejected exactly when all codes are known and different |
| AuditQuery.ListingIsSliceOfFiltered | services/audit-service/internal/repository/audit_repository.go:158-249 | once the session is set up, the listing is the requested slice of the directly filtered rows with their number, and the row-level policy removes nothing; otherwise it fails |
| AuditQuery.PageNumber | services/audit-service/internal/repository/audit_repository.go:159-161 | pages from 1 on are kept and smaller ones become 1 |
| AuditQuery.PageSize | services/audit-service/internal/repository/audit_repository.go:162-164 | sizes from 1 to 200 are kept and others become 50 |
| AuditExact.ExactlyOnceIff | services/audit-service/internal/consumer/audit_consumer.go:138-186 | over every run each event with a valid tenant has exactly as many rows as acknowledged messages if and only if no flush stores an event whose message it does not then acknowledge |
| AuditExact.FlushExact | services/audit-service/internal/consumer/audit_consumer.go:138-156 | a flush keeps rows and acknowledgements equal if and only if they were equal and it wastes nothing |
| AuditExact.FlushAcks | services/audit-service/internal/consumer/audit_consumer.go:149-152 | a flush acknowledges exactly the pending deliveries before the channel was lost, and none after a failed insert |
| AuditConsumer.DuplicateRowsHappen | services/audit-service/internal/repository/audit_repository.go:146-154 | a run in which a commit whose answer is lost is stored twice; ExactlyOnceIff says when that happens |
| Shifts.StepShifts | services/universal-ledger/Ledger.Application/Queries/GetTrialBalance/GetTrialBalanceHandler.cs:21-31 | for every command, posted date range and account, the posted net moves by exactly the stated shift: posting at the entry's date, reversing at its date and again today, closing on the last day and the day after, and nothing else |
| Shifts.RunShifts | services/universal-ledger/Ledger.Application/Queries/GetTrialBalance/GetTrialBalanceHandler.cs:21-31 | over every run the posted net is the sum of the shifts |
| Shifts.ClosedDatesStayIff | services/universal-ledger/Ledger.Application/Commands/PostJournalEntry/PostJournalEntryHandler.cs:18-24 | a command leaves all posted nets over a period's dates alone if and only if its shift there is zero on every account |
| Shifts.LatePostingMoves | services/universal-ledger/Ledger.Application/Commands/PostJournalEntry/PostJournalEntryHandler.cs:18-24 | in every ledger a balanced booking can be entered without a period and posted at any date, closed or not, and moves the nets there |
| Shifts.CloseShifts | services/universal-ledger/Ledger.Application/Commands/CloseFiscalPeriod/CloseFiscalPeriodHandler.cs:64-150 | what a close does to any account over any posted date range |
| LedgerExamples.ClosedDatesMove | services/universal-ledger/Ledger.Application/Commands/PostJournalEntry/PostJournalEntryHandler.cs:18-24 | from the empty ledger: after a profitable close, a later posting moves sales inside the closed dates |
| Reversals.NetAfterPost | services/universal-ledger/Ledger.Application/Commands/PostJournalEntry/PostJournalEntryHandler.cs:18-24 | posting adds the entry's effect to every posted date range that holds its date |
| Reversals.NetAfterReverse | services/universal-ledger/Ledger.Application/Commands/ReverseJournalEntry/ReverseJournalEntryHandler.cs:12-21 | reversing takes the effect from ranges that hold the entry's date and from those that hold today |
| Reversals.ReversalRestoresIff | services/universal-ledger/Ledger.Application/Queries/GetTrialBalance/GetTrialBalanceHandler.cs:21-24 | post-then-reverse restores an account's net over any dates if and only if the entry does not move the account or the dates leave out the day of the reversal |
| Overlap.BalanceSurvives | services/universal-ledger/Ledger.Application/Commands/ReverseJournalEntry/ReverseJournalEntryHandler.cs:12-21 | with loads and saves of all handlers interleaved, every stored line still has one positive side and every posted or reversed entry balances |
| Overlap.ReportsSurvive | services/universal-ledger/Ledger.Application/Queries/GetTrialBalance/GetTrialBalanceHandler.cs:21-48 | and the trial balance and the balance sheet still agree |
| Overlap.AloneIsStep | services/universal-ledger/Ledger.Application/Commands/CloseFiscalPeriod/CloseFiscalPeriodHandler.cs:25-152 | a handler that nobody interrupts takes the state machine's step |
| Overlap.ReversedTwice | services/universal-ledger/Ledger.Application/Commands/ReverseJournalEntry/ReverseJournalEntryHandler.cs:12-21 | two overlapping reversals of one entry both go through |
| Overlap.EntersClosedPeriod | services/universal-ledger/Ledger.Application/Commands/CreateJournalEntry/CreateJournalEntryHandler.cs:22-37 | an entry checked against an open period can be saved after the period is closed |
| RateSchedule.TimetableAdmitted | services/api-gateway/internal/middleware/rate_limiter.go:16-77 | every sorted timetable of arrivals with at most the limit per bucket, for all three counters, is admitted in full by a timely run in which Redis answers everything and each request is served at one moment |
| RateOverruns.SlidingWindowIff | services/api-gateway/internal/middleware/rate_limiter.go:14-74 | whatever Redis may do, also when it always answers: an interval as long as the window keeps the limit over all timely runs if and only if it starts on a bucket boundary |
| RateOverruns.OverrunAcrossBuckets | services/api-gateway/internal/middleware/rate_limiter.go:25-74 | from every other start a run with a healthy Redis, each request served at one moment, admits limit + 1 requests within the window's length |
| RateLate.AnsweredBucketsHoldIff | services/api-gateway/internal/middleware/rate_limiter.go:25-74 | over runs in which every INCR is answered, no bucket is overrun with INCRs arriving before horizon + slack if and only if slack is zero |
| RateLate.LateIncrOverruns | services/api-gateway/internal/middleware/rate_limiter.go:33-52 | in every bucket, ordinary arrivals and one INCR at the horizon admit limit + 1 requests |
| RateLate.EveryPlan | services/api-gateway/internal/ratelimit/tier_config.go:4-16 | both conditions hold for every plan of the table and for unknown plans |
| RateExact.BucketsHoldIff | services/api-gateway/internal/middleware/rate_limiter.go:25-74 | over runs in which Redis may also fail: the same condition for every positive limits and each counter |
| RateFairness.RejectedOnlyWhenFull | services/api-gateway/internal/middleware/rate_limiter.go:39-73 | a rejected request counted in a bucket on which the requests that counted and the INCRs whose answers were lost together exceed the limit, whatever the delays |
| RateFairness.ExecutedSplits | services/api-gateway/internal/middleware/rate_limiter.go:26-30 | the INCRs executed on a key are those of requests that counted and those whose answer was lost |
| RateLimiter.UnseenKeeps | services/api-gateway/internal/middleware/rate_limiter.go:26-30 | an INCR that Redis executes and whose answer is lost keeps the invariant behind the bounds, whenever it arrives |
| Keys.JoinedAmbiguousIff | packages/chassis-sdk/src/services/feature-flag.service.ts:31-31 | keys of two different tenants can coincide if and only if one tenant id with its colon begins with the other |
| Carryover.OpeningsCompound | services/universal-ledger/Ledger.Application/Commands/CloseFiscalPeriod/CloseFiscalPeriodHandler.cs:108-150 | after n adjacent closes that record opening entries, an active balance-sheet account shows the movement of period i (of n) n - i + 1 times more than it was posted, and account 3002 the closed incomes once each |
| Carryover.CloseCarries | services/universal-ledger/Ledger.Application/Commands/CloseFiscalPeriod/CloseFiscalPeriodHandler.cs:64-150 | a recorded opening entry adds the period's net again over every date range that holds the next day, and the closing entry its gain over those that hold the last day |
| LedgerService.LedgerStore.CloseAccounts | services/universal-ledger/Ledger.Application/Commands/CloseFiscalPeriod/CloseFiscalPeriodHandler.cs:72-89 | the closing loop builds one line per account with a balance and sums their nets |
| LedgerService.LedgerStore.CheckEntry | services/universal-ledger/Ledger.Application/Commands/CreateJournalEntry/CreateJournalEntryHandler.cs:22-29 | validator and period gate, with their failures in order |
| LedgerService.LedgerStore.Store | services/universal-ledger/Ledger.Infrastructure/Repositories/JournalEntryRepository.cs:38-42 | a new entry goes to the end of the store |
| LedgerService.JournalEntry.AddSwapped | services/universal-ledger/Ledger.Domain/Entities/JournalEntry.cs:90-99 | the reversal loop adds every line with its sides exchanged |
| Gates.ClosesIff | services/universal-ledger/Ledger.Application/Commands/CloseFiscalPeriod/CloseFiscalPeriodHandler.cs:27-61 | a close goes through if and only if the period exists and is open, no draft is dated inside it, and an active account has code 3002 |
| Gates.CloseFails | services/universal-ledger/Ledger.Application/Commands/CloseFiscalPeriod/CloseFiscalPeriodHandler.cs:27-61 | which failure a close reports otherwise, each if and only if its own condition holds |
| Gates.DraftsRemainIff | services/universal-ledger/Ledger.Application/Commands/CloseFiscalPeriod/CloseFiscalPeriodHandler.cs:40-43 | an open period is refused for n drafts if and only if n is positive and the number of drafts dated inside it |
| Gates.CloseLeaves | services/universal-ledger/Ledger.Application/Commands/CloseFiscalPeriod/CloseFiscalPeriodHandler.cs:64-150 | the accounts, the other periods and the old entries stay; new entries are the closing entry of the last day and the opening entry of the day after |
| Gates.CreatesIff | services/universal-ledger/Ledger.Application/Commands/CreateJournalEntry/CreateJournalEntryHandler.cs:20-39 | an entry is created if and only if it has lines, each with one positive side and a known account, and names no period or an open one; it is a draft at the end of the store |
| Gates.CreateFails | services/universal-ledger/Ledger.Application/Commands/CreateJournalEntry/CreateJournalEntryValidator.cs:7-19 | the four failures of a creation in the order of the checks, each with its exact condition |
| Gates.CreatesPeriodIff | services/universal-ledger/Ledger.Application/Commands/CreateFiscalPeriod/CreateFiscalPeriodHandler.cs:13-19 | a period is created if and only if none has the same two dates |
| Gates.PostsIff | services/universal-ledger/Ledger.Domain/Entities/JournalEntry.cs:57-68 | posting succeeds if and only if the entry is a draft whose debits and credits, summed line by line, are one positive amount; only the status changes |
| Gates.ReversesIff | services/universal-ledger/Ledger.Domain/Entities/JournalEntry.cs:70-106 | in a reachable ledger a reversal succeeds if and only if the entry is posted; the added entry has every line with its sides exchanged, and nothing else changes |
| Gates.EveryRunSums | migrations/ledger/V1__create_ledger_tables.sql:51-54 | after any run every line has one positive side and the line-by-line sums of posted and reversed entries agree and are positive |
| Reports.BalanceSheetTotals | services/universal-ledger/Ledger.Api/Endpoints/ReportEndpoints.cs:36-56 | each of the three totals is the debit-positive posted net of its own kind of account |
| Reports.TrialTotals | services/universal-ledger/Ledger.Application/Queries/GetTrialBalance/GetTrialBalanceHandler.cs:25-48 | the two totals are the posted debits and the posted credits |
| Reports.TrialLineCount | services/universal-ledger/Ledger.Application/Queries/GetTrialBalance/GetTrialBalanceHandler.cs:33-44 | there are as many lines as accounts with a posted amount on either side |
| Reports.ProfitAndLossCounts | services/universal-ledger/Ledger.Application/Queries/GetProfitAndLoss/GetProfitAndLossHandler.cs:29-47 | each list is as long as the number of accounts of its kind with a non-zero net, so with RevenueListed and ExpensesListed nothing is listed twice or besides them |
| AuditSteps.MalformedIsDiscarded | services/audit-service/internal/consumer/audit_consumer.go:169-174 | on a live channel a malformed delivery goes from unacknowledged to discarded and nothing else moves |
| AuditSteps.MalformedStaysDiscarded | services/audit-service/internal/consumer/audit_consumer.go:162-181 | over every run a malformed message once received on a live channel is discarded for good and never with the broker again |
| AuditSteps.HundredthFlushes | services/audit-service/internal/consumer/audit_consumer.go:176-181 | up to 99 events are collected and the hundredth empties the batch |
| AuditSteps.OnlyValidStored | services/audit-service/internal/repository/audit_repository.go:85-155 | over every run no event with an invalid tenant id is stored |
| AuditSteps.FlushStores | services/audit-service/internal/consumer/audit_consumer.go:138-156 | a flush adds each valid event as often as the batch holds it unless the insert fails, and no other event |
| FeatureGates.PlanRecordDecides | services/tenant-manager/src/modules/tenants/tenants.service.ts:220-253 | when the plan record lists features, the tenant has a row for exactly those, all enabled, other codes answer their defaults, and other tenants' rows stay |
| FeatureGates.FixedListsDecide | services/tenant-manager/src/modules/tenants/tenants.service.ts:39-52 | when it lists none, the same with the literal list of each of the four plans, and no row for any other plan |
| FeatureGates.NoPlanChange | services/tenant-manager/src/modules/tenants/tenants.service.ts:209-221 | an unknown tenant fails, and the plan the tenant already has changes nothing |
| FeatureGates.CompletePlanChange | services/tenant-manager/src/modules/tenants/tenants.service.ts:233-253 | with no rejected row the listed codes have the rows and exactly the tenant's keys are gone |
| FeatureGates.AbortedPlanRows | services/tenant-manager/src/modules/features/features.service.ts:209-225 | with a rejected row, the rows before the first such one are written and the cache stays as it was |
| FeatureGates.AcceptedIsFirstRejected | migrations/tenants/V2__create_feature_definitions.sql:18-27 | the accepted codes are known and different, and the next one is unknown or a repeat |
| FeatureGates.TogglesIff | services/tenant-manager/src/modules/features/features.service.ts:124-158 | a toggle succeeds if and only if code and tenant are known; one row is written, one key deleted, and the rest stays |
| FeatureGates.CheckFills | services/tenant-manager/src/modules/features/features.service.ts:92-118 | the answer of a check is what its key then holds, and nothing else changes |
| FeatureGates.NewTenantHasRows | services/tenant-manager/src/modules/tenants/tenants.service.ts:133-152 | a new tenant has a row for exactly its plan's features |
| FeatureGates.ArchivesIff | services/tenant-manager/src/modules/tenants/tenants.service.ts:299-314 | an archive succeeds if and only if the tenant exists and is not cancelled, and deletes exactly its keys |
| RateLimiter.FailedIncr | services/api-gateway/internal/middleware/rate_limiter.go:26-76 | a failed INCR counts nothing: on the minute check the request is admitted, on the hour check it goes on to burst, on the burst check it is admitted |
| RateLimiter.Decision | services/api-gateway/internal/middleware/rate_limiter.go:39-73 | the number drawn is compared with the limit of its own counter, and a request within it goes on in the order minute, hour, burst |
| WindowChecks.CountedKey | services/api-gateway/internal/middleware/rate_limiter.go:26-66 | INCR and EXPIRE of one key: the count goes up by one or restarts at one; the minute key lives two minutes from its first count, hour and burst keys two hours and two seconds from each count; other keys stay |
| Gateway.VerdictMeaning | services/api-gateway/internal/middleware/rate_limiter.go:25-77 | a failed minute INCR lets the request through uncounted; otherwise it is admitted if and only if the numbers the old counters give are within the limits of the counters that answer |
| Gateway.PassageIsVerdict | services/api-gateway/internal/middleware/rate_limiter.go:25-77 | the steps of the state machine for one uninterrupted request come to that verdict |
| Gateway.Middleware.CheckWindow | services/api-gateway/internal/middleware/rate_limiter.go:48-60 | one window's INCR, EXPIRE and comparison; a failed INCR is skipped |
| Gateway.Middleware.Checks | services/api-gateway/internal/middleware/rate_limiter.go:25-77 | minute, hour and burst with the early exits give the verdict |
| Chart.CodeBeforeMeaning | services/universal-ledger/Ledger.Application/Commands/InitializeFromTemplate/InitializeFromTemplateHandler.cs:32-32 | a code comes first if and only if it is shorter and a prefix, or smaller at the first place where they differ |
| Chart.CreatesIff | services/universal-ledger/Ledger.Application/Commands/CreateAccount/CreateAccountHandler.cs:19-27 | an account is created if and only if its code is free and its parent, if named, exists; it has the requested code, kind and parent, is active, and all others stay |
| Chart.UpdatesIff | services/universal-ledger/Ledger.Api/Endpoints/AccountEndpoints.cs:52-59 | an update succeeds if and only if the account exists; it gets the requested flag and everything else stays |
| Templates.TemplateSucceedsIff | services/universal-ledger/Ledger.Application/Commands/InitializeFromTemplate/InitializeFromTemplateHandler.cs:32-61 | a template run succeeds if and only if every entry with a free code has a known type and no free code occurs twice; an unknown type is reported first |
| Templates.TemplateAddsOnly | services/universal-ledger/Ledger.Application/Commands/InitializeFromTemplate/InitializeFromTemplateHandler.cs:32-61 | a template run only adds accounts: the old ones stay and the new ones are the template's |
| Forest.PlacedOnce | services/universal-ledger/Ledger.Api/Endpoints/AccountEndpoints.cs:25-35 | in any chart an account is at the top if and only if it names no parent or one that is not there, and among the children of exactly the parent it names, once |
| FlagCache.CallAsksCacheFirst | packages/chassis-sdk/src/services/feature-flag.service.ts:31-45 | an unexpired entry answers the call, and otherwise the server is asked |
| FlagCache.ReplyIsRemembered | packages/chassis-sdk/src/services/feature-flag.service.ts:54-62 | a reply answers the same question without a fetch for exactly one minute, and after it the server is asked again |
| FeatureRace.FillIsServed | services/tenant-manager/src/modules/features/features.service.ts:95-117 | a filled value is served without the database for exactly 300 seconds |
| FeatureRace.ReaderReads | services/tenant-manager/src/modules/features/features.service.ts:100-115 | a reader takes the override if there is a row, else the default, else off |
| AuditQuery.CallersSeeOwnTenant | services/audit-service/internal/repository/audit_repository.go:170-178 | a listing shows another tenant's rows only to a platform administrator |

## Left out

- RateOverruns.SlidingWindowIff: for limits whose shorter windows leave room to use the longer one up (`Roomy`), as those of all plans do; a tighter shorter limit would make the longer one unreachable.
- RateLate.AnsweredBucketsHoldIff: likewise; the overrun lets the EXPIREs after the first one fail, since each later EXPIRE of the hour and burst keys would put the expiry off.
- The rate limiter's clock skew and Redis eviction under memory pressure.
- FeatureCache.EveryRunCoherent: for operations that run one at a time and row inserts that are not rejected; `FeatureRace` drops the first condition and `AbortedPlanChangeRightIff` the second. Feature definitions do not change, and a plan's included features are a parameter.
- Chart.RunTemplate: the type text is already parsed, and code order is the order of characters, not a culture's collation.
- AuditQuery.ListingIsSliceOfFiltered: whether the session accepts the two row-level settings is a parameter. The code sends them as `SET LOCAL ... = $1` (`services/audit-service/internal/repository/audit_repository.go:69-73`), and PostgreSQL takes no bind parameters there outside the simple protocol, so with the extended protocol every listing fails.
- FeatureCache.FeaturesService.InvalidateTenantFeatureCache: the cursor's replies are a parameter; together they hold the tenant's keys, as the scan guarantees for keys present throughout.
- FeatureCache.FeaturesService.ProvisionTenant: the tenant's id is fresh, so it has no rows yet.
- Gateway.Middleware.Handle: one request that is not interrupted; interleaving is the state machine's subject. Response headers are left out.
- AuditConsumer.NothingLost: safety only. One event the database rejects makes its batch fail and be requeued for ever, so eventual storage does not hold.
- AuditQuery.PagesConcatenate: takes the rows in one fixed order; ORDER BY created_at alone leaves ties open.
- AuditQuery.CompiledMeansFilters: clauses are data, not SQL text; the casts to uuid and enum types, and their failures, are left out.
- LedgerService.LedgerStore.HandleCreateEntry: text-length rules of the validator, entry numbers, descriptions and the publishing of events are left out.
- The decimal range of amounts: sums beyond DECIMAL(18,4) are not modelled.
- PeriodStatus.Locked exists, but no code sets it.
- The general-ledger query: a filter over one account's lines.
- `bulkUpsertFeatures`, which does not invalidate the cache and has no caller.
- Composing the SDK cache with the tenant manager: the SDK asks a route and reads a field the server does not offer.
- The metering flusher, billing, identity and membership services, Stripe and token handling, HTTP routing and wiring: no property of comparable depth.
