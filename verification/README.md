# Verification of the Easy Point back end

A Dafny model of the parts of the back end in which several functions have to agree:
the bank ledger, the documents that move stock and money, the production engine, sessions,
imports, tenant scoping, organization ownership, rate limiting and money allocation.
`dafny verify dfyconfig.toml` checks the whole project.

## How it is organised

Each area has a specification module with the state, one function per request and the
runs, then modules with what every run keeps, and a service module in the form of the
code: entities and repositories that change in place, loops, and transactions that are
undone when something throws. Each service method is proved equal to its function, so
the theorems about functions and runs are theorems about the services. The modules whose
names end in `Requests`, and `SessionAccess`, say, in terms of the request and the stored
rows alone, when each function accepts, what a refusal means and what is stored.

| area | specification | theorems | services |
|---|---|---|---|
| bank ledger | `Ledger` | `Ledger` | `LedgerService` |
| production engine | `Fifo`, `Productions` | `Fifo`, `ProductionRuns`, `ProductionRequests` | `ProductionService` |
| sales, purchases, expenses, movements | `Inventory`, `Consolidation`, `Commerce` | `CommerceStocks`, `CommerceBooks`, `CommerceRequests` | `CommerceService` |
| the engine and the documents over one shop | `Productions`, `Commerce` | `ProductionStock` | |
| stocks under overlapping movements and relocation | `StockRuns` | `StockRuns` | |
| sessions and token rotation | `Sessions` | `SessionRuns`, `SessionAccess` | `SessionsService` |
| imports | `Imports` | `Imports`, `ImportRequests` | `ImportsService` |
| tenant scoping | `Tenancy` | `Tenancy`, `PrismaService` | `PrismaService` |
| ownership, roles, invitations | `Owners` | `Owners`, `OwnerRequests` | `OwnersService` |
| the user limit under overlapping requests | `SeatRuns` | `SeatRuns` | |
| rate limiter | `RateLimiter` | `RateLimiter` | `RateLimiter` |
| money allocation | `MoneyAllocation` | `MoneyAllocation` | `MoneyAllocation` |

`Sums` holds sums over rows and tables, `Options` the optional value.

The ledger and the imports are modelled with requests that interleave at their database
reads. The documents, productions and memberships are modelled one request at a time,
each a transaction that changes nothing when it throws: the code takes no row lock there,
so nothing is claimed about two of them overlapping, except by `StockRuns` of movements by
hand and by `SeatRuns` of the user limit.

## What the code does not do

Where a promise turned out not to hold, the model keeps the code as it is, a lemma shows
the failing case, and another says exactly when the promise holds.

- The ACTIVE guard of a posting is not covered by the version check (`Ledger.CommitsOnInactiveIff`, `Ledger.FrozenAccountIsCredited`).
- A manual movement overwrites the stock with a quantity read before its transaction (`StockRuns.ExplainedIff`, `StockRuns.SeenAtRead`, `CommerceStocks.MovementLost`).
- A stock's location can be changed, but removing a production decrements the stock at the main location (`StockRuns.ExplainedIff`, `StockRuns.StockAstray`).
- A sale's stored subtotal is not updated when items are added (`CommerceStocks.SubtotalStale`, `CommerceStocks.SubtotalLeftBehind`).
- A sale or purchase may be created as CANCELLED; the stock it moves is then never given back (`CommerceStocks.CancelledSaleHoldsNothingIff`, `CommerceStocks.CancelledPurchaseHoldsNothingIff`, `CommerceStocks.CancelledCreationKeepsStock`).
- A pending purchase's header is computed before its lines are consolidated (`CommerceStocks.PurchaseHeaderExact`, `Consolidation.DisagreeingCostsMoveTotal`).
- `addItems` of a purchase replaces its items, despite the name and its heading (`CommerceStocks.ReplacedExactly`).
- Completing a unit supply empties whole lots, so one unit can take a lot of any size, and too few lots are not an error (`Fifo.UnitsTakeExactly`, `ProductionRuns.UnitsTakeLots`, `Fifo.OneUnitTakesTheLot`).
- docs/master-data-imports.md says coincidences are reported as duplicates; product rows without a SKU never are (`Imports.SkulessNeverDuplicate`, `Imports.IdentityKept`), and neither are supplies whose package size has more than four decimals (`Imports.ImportedTwiceIff`, `Imports.SaffronTwice`).
- A model call without an arguments object loses the ORM filter; only the row policies confine it (`Tenancy.ScopedIffArguments`, `Tenancy.PolicyCoversMissingArguments`).
- `updateManyAndReturn` is in neither list of scoped operations, so the hook lets it reach other organizations; only the row policies confine it (`Tenancy.UpdateReturnsRuns`, `PrismaService.UpdateConfined`).
- A last-seen write reads the TTL and sets the key in two commands that nobody waits for. A session revoked between them is written back with its whole remaining lifetime, outside the index, so that even the next revokeAll misses it; after a revokeAll its refresh token at least stays dead (`SessionRuns.RevivesIff`, `SessionRuns.RevokeAllExact`, `SessionRuns.RevokedComesBack`, `SessionRuns.RevokeAllEndsRefreshing`). The comment on the method expects the revived key to outlive the original by a second at most (`SessionRuns.NeverOutlives`, `SessionRuns.DelayExtends`).
- A refresh that falls between these two commands leaves the replaced session and the new one both live (`SessionRuns.LineageDoublesIff`, `SessionRuns.DoubledBySet`, `SessionRuns.BothLive`).
- Revoking one session, or all others, keeps their refresh rows as unusable; if a last-seen write lands afterwards, such a token is exchanged for a new session (`SessionRuns.DeadTokenExchangedIff`, `SessionRuns.RevokedTokenExchanged`).
- A tenant-aware call inside a plain `$transaction` is wrapped in a transaction of its own on another connection, unless the context is marked or empty; one comment there says such calls bypass the hook, the branch above it checks for them (`PrismaService.PlainTransactionBegins`, `PrismaService.PlainCallSees`).
- The comment on the user limit says that two concurrent invites cannot both slip in; both counts can precede both inserts (`SeatRuns.ExceededIff`, `SeatRuns.ExceededBetween`, `SeatRuns.BothSlipIn`).
- A session lifetime configured below one second makes sessions that never expire (`SessionRuns.TimeEndsIff`).
- Allocating by ratios that sum to zero fails, and an empty list of ratios drops the amount (`MoneyAllocation.ConservedExactly`).

## Conventions

- Decimals are `real`, exact; where a column's four decimals matter the rounding is written out (`Imports.Round4`).
- Ids are numbers; a generated id is one that is not in use. Hashes, signed tokens and times are plain values.
- A product stock is known by its product and location, which the schema makes unique; in `StockRuns` the location can change, and rows follow.
- Role names are `OWNER`, `ADMINISTRATOR` or any other string.
- Redis keys expire when the clock, in whole seconds, reaches their expiry.
- Preconditions are what the request validation, the foreign keys and the unique indexes guarantee: positive quantities, rows whose stock exists, new ids.

## Model

| member | source | states |
|---|---|---|
| `MoneyAllocation.LeftoverBounded` | src/domain/value-objects/money.vo.ts:47-56 | with non-negative ratios of positive sum and any integer amount, what flooring leaves over is at least 0 and below the number of shares, so the top-up loop always exhausts it |
| `MoneyAllocation.SharesConserve` | src/domain/value-objects/money.vo.ts:43-58 | the shares add up to the amount exactly |
| `MoneyAllocation.SharesFair` | src/domain/value-objects/money.vo.ts:47-56 | each share is its floored share or one cent more, and differs from its exact proportion by less than a cent below and at most a cent above |
| `MoneyAllocation.ConservedExactly` | src/domain/value-objects/money.vo.ts:40-59 | the result conserves the amount if and only if the ratios have a non-zero sum, or there is nothing to split and nothing to conserve |
| `MoneyAllocation.Allocate` | src/domain/value-objects/money.vo.ts:40-59 | the two loops compute exactly the specified shares, an empty list or the invalid-amount error |
| `RateLimiter.RedisRateLimiterService.Allow` | src/common/ratelimit/redis-rate-limiter.service.ts:15-51 | one call leaves the store as `Charged` says and answers with the decision for the counter it found; a bad configuration changes nothing |
| `RateLimiter.RedisRateLimiterService.Incr` | src/common/ratelimit/redis-rate-limiter.service.ts:22 | INCR adds one and leaves the key's expiry alone |
| `RateLimiter.CounterExact` | src/common/ratelimit/redis-rate-limiter.service.ts:19-26 | with a monotone clock a counter never expires inside its own window, so it holds exactly the number of arrivals |
| `RateLimiter.AllowedIffAmongFirst` | src/common/ratelimit/redis-rate-limiter.service.ts:22-33 | a request is allowed if and only if it is among the first `limit` of its key's window |
| `RateLimiter.WindowAdmitsExactly` | src/common/ratelimit/redis-rate-limiter.service.ts:15-41 | of n requests in a window exactly min(n, limit) are allowed |
| `RateLimiter.IntervalAdmitsAtMostTwice` | src/common/ratelimit/redis-rate-limiter.service.ts:19-33 | any interval of one window's length, however placed, admits at most twice the limit |
| `RateLimiter.TwiceIsReached` | src/common/ratelimit/redis-rate-limiter.service.ts:19-33 | that bound is tight: two bursts a millisecond apart around a window boundary all pass |
| `RateLimiter.ResetIsNextWindow` | src/common/ratelimit/redis-rate-limiter.service.ts:27-41 | the reset time an answer names is the first instant of the next window, and the time to wait is exactly what is left until it |
| `RateLimiter.RemainingIsRoom` | src/common/ratelimit/redis-rate-limiter.service.ts:27-41 | `remaining` is how many more requests at that moment would pass: the last of a burst is let through if and only if the burst is no larger |
| `RateLimiter.RetryAfterIsExact` | src/common/ratelimit/redis-rate-limiter.service.ts:27-41 | a refused caller who waits passes if and only if they wait at least the time named, when nobody else uses the key meanwhile |
| `Ledger.RunSerializable` | src/modules/financial-transactions/financial-transactions.service.ts:127-277 | for every interleaving of any number of clients' reads and conditional commits, accounts and records equal those of the committed requests run one at a time in commit order |
| `Ledger.PhasesSurvive` | src/modules/bank-accounts/bank-accounts.repository.ts:51-66 | a read taken before somebody else's commit is either still the current row or has an older version |
| `Ledger.NoUpdateLost` | src/modules/financial-transactions/financial-transactions.service.ts:141-170 | a balance is its opening plus every committed credit minus every committed debit, and its version counts the commits |
| `Ledger.NeverNegative` | src/modules/financial-transactions/financial-transactions.service.ts:147-153 | balances never become negative |
| `Ledger.RecordsExplainBalance` | src/modules/financial-transactions/financial-transactions.service.ts:178-200 | a balance moves exactly with the signed sum of the records that exist, deletions of adjustments included |
| `Ledger.RunKeepsTheBooks` | src/modules/financial-transactions/financial-transactions.service.ts:127-277 | the previous three, for every interleaving |
| `Ledger.ReversedAtMostOnce` | src/modules/financial-transactions/financial-transactions.service.ts:210-277 | an adjustment is reversed at most once, however many removals of it overlap |
| `Ledger.GoneStaysGone` | src/modules/financial-transactions/financial-transactions.service.ts:273 | a deleted record never comes back |
| `Ledger.RecordTellsBalances` | src/modules/financial-transactions/financial-transactions.service.ts:146-155 | a record states the balances just before and just after its own commit |
| `Ledger.RecordsChain` | src/modules/financial-transactions/financial-transactions.service.ts:178-200 | of two postings on one account with no commit on it between them, the later record starts from the balance the earlier one ended with, and was read at the version it wrote |
| `Ledger.CompetingCommitFails` | src/modules/bank-accounts/bank-accounts.repository.ts:58-64 | of clients that read the same version, whoever commits first makes the others change nothing |
| `Ledger.PostingExact` | src/modules/financial-transactions/financial-transactions.service.ts:132-200 | a posting run alone succeeds if and only if the account exists, the amount is not negative and a debit finds it there; then the balance moves by it, the version by one, and the record tells both balances |
| `Ledger.DeletionExact` | src/modules/financial-transactions/financial-transactions.service.ts:210-274 | a deletion run alone succeeds if and only if the record is a stored adjustment whose effect can be taken back; then it is, and the record is gone |
| `Ledger.AloneIsSerial` | src/modules/financial-transactions/financial-transactions.service.ts:127-208 | a posting nobody interrupts is its serial action, refusals included |
| `Ledger.AloneRemovalIsSerial` | src/modules/financial-transactions/financial-transactions.service.ts:210-277 | and so is a removal |
| `Ledger.CommitsOnInactiveIff` | src/modules/financial-transactions/financial-transactions.service.ts:132-174 | in every run, a posting or removal commits on an account that is not ACTIVE if and only if the account was taken out of ACTIVE, and not put back, between that client's read and its commit |
| `Ledger.StatusGuardExact` | src/modules/financial-transactions/financial-transactions.service.ts:138-144 | the step behind it: of all events only a change out of ACTIVE under a reader lets a pending guard go stale |
| `Ledger.FrozenAccountIsCredited` | src/modules/financial-transactions/financial-transactions.service.ts:132-170 | a run in which a frozen account is credited |
| `LedgerService.BankAccountEntity.IncreaseBalance` | src/modules/bank-accounts/domain/bank-account.entity.ts:47-53 | adds the amount and bumps the version, or refuses a negative amount and changes nothing |
| `LedgerService.BankAccountEntity.DecreaseBalance` | src/modules/bank-accounts/domain/bank-account.entity.ts:59-68 | subtracts the amount and bumps the version, or refuses negative amounts and insufficient funds and changes nothing |
| `LedgerService.FinancialTransactionsService.UpdateWithVersion` | src/modules/bank-accounts/bank-accounts.repository.ts:51-66 | the row is written, its version one higher, if and only if the version matches |
| `LedgerService.FinancialTransactionsService.BeginCreate` | src/modules/financial-transactions/financial-transactions.service.ts:131-156 | the reads and checks of a posting, with its refusals, equal the protocol's first step |
| `LedgerService.FinancialTransactionsService.CommitCreate` | src/modules/financial-transactions/financial-transactions.service.ts:158-200 | the conditional update with its record equals the protocol's commit; a conflict changes nothing |
| `LedgerService.FinancialTransactionsService.ReadRecord` | src/modules/financial-transactions/financial-transactions.service.ts:212-223 | the record is read outside the transaction and only ADJUSTMENT passes |
| `LedgerService.FinancialTransactionsService.ReadAccount` | src/modules/financial-transactions/financial-transactions.service.ts:225-253 | the account is loaded, checked and reversed in memory; NotFound, Unprocessable or BadRequest exactly when it is missing, not ACTIVE, or cannot be debited |
| `LedgerService.FinancialTransactionsService.CommitRemove` | src/modules/financial-transactions/financial-transactions.service.ts:255-274 | the reversal and the deletion both happen or neither does: Conflict exactly when the version moved, NotFound when it did not and the record is gone |
| `LedgerService.FinancialTransactionsService.ChangeStatus` | src/modules/bank-accounts/bank-accounts.service.ts:154-158 | only the status changes |
| `Fifo.TakenSum` | src/modules/productions/productions.service.ts:268-293 | a measurable consumption takes in total the lesser of what is asked for and what is available |
| `Fifo.OldestFirst` | src/modules/productions/productions.service.ts:268-291 | an entry is touched only when every older one is emptied, so at most one touched entry keeps something |
| `Fifo.DrainedTwice` | src/modules/productions/productions.service.ts:268-291 | consuming a and then b leaves the entries as consuming a + b |
| `Fifo.AvailableAfter` | src/modules/productions/productions.service.ts:273-279 | what a consumption takes is what the entries lose |
| `Fifo.RestoredConsumed` | src/modules/productions/productions.service.ts:444-453 | giving back what was taken restores every entry and its exhausted flag |
| `Fifo.UnitsEmptyEntries` | src/modules/productions/productions.service.ts:298-318 | in the unit branch the number of entries emptied is the lesser of what is asked for and the open entries |
| `Fifo.WholeTakesOldest` | src/modules/productions/productions.service.ts:298-318 | for all entries and any count n the unit branch takes in total what the n oldest open lots hold, or all of them if fewer are open |
| `Fifo.UnitsTakeExactly` | src/modules/productions/productions.service.ts:298-318 | so the entries lose n if and only if those lots hold exactly n, and fewer than n lots are emptied, without an error, if and only if fewer are open |
| `Fifo.OneUnitTakesTheLot` | src/modules/productions/productions.service.ts:302-305 | a witness that asking for one unit can empty a whole lot |
| `ProductionRuns.UnitUsages` | src/modules/productions/productions.service.ts:298-319 | the usage rows of a unit supply add up to what the oldest lots hold, one row per emptied lot |
| `ProductionRuns.UnitsTakeLots` | src/modules/productions/productions.service.ts:298-342 | a unit supply is never refused for lack of entries: its usages and the loss of its entries are what the oldest open lots hold, and there are fewer usages than units asked for if and only if fewer lots were open |
| `ProductionRuns.UnitMovementExact` | src/modules/productions/productions.service.ts:327-342 | the supply movement of a unit supply tells what the entries lost if and only if the oldest lots hold exactly the quantity asked for |
| `ProductionRuns.RunConserves` | src/modules/productions/productions.service.ts:84-478 | over every run of create, complete, cancel and remove: remaining plus the quantities of the usages linked to an entry is its initial quantity, 0 <= remaining <= initial, exhausted exactly at zero, and aggregates that start in sync stay so |
| `ProductionRuns.StepPreserves` | src/modules/productions/productions.service.ts:84-478 | each request keeps that invariant, and each completed production's cost equals the sum over its usage rows |
| `ProductionRuns.DraftThenComplete` | src/modules/productions/productions.service.ts:84-193 | creating a production as COMPLETED reaches the state of creating it as DRAFT and then completing it |
| `ProductionRuns.CompleteThenRemove` | src/modules/productions/productions.service.ts:148-193 | completing and then removing restores entries, aggregates, usages, movements and product stock |
| `ProductionRuns.GiveBackUndoes` | src/modules/productions/productions.service.ts:432-467 | reverting the usages of a completion restores every stock |
| `ProductionRuns.MeasurableTakesExactly` | src/modules/productions/productions.service.ts:254-342 | a measurable supply is taken if and only if its entries, counted at what a package holds, hold the quantity asked for; then what the entries lose, what the usage rows say and what the movement row says, each times the package size, is exactly that quantity |
| `ProductionRuns.MovementPerInput` | src/modules/productions/productions.service.ts:327-342 | a completion writes one movement row for every input, in order, which tells the quantity asked for, in packages of a measurable supply and in units of any other |
| `ProductionRuns.TurnIsWorth` | src/modules/productions/productions.service.ts:327-342 | for every supply the movement row is worth what its usage rows cost, and the aggregate left is the fewest whole packages covering the entries |
| `ProductionRuns.YieldIsWorth` | src/modules/productions/productions.service.ts:344-391 | a sold production adds one inventory row, worth the production's cost, and its quantity to the product's stock; any other adds none |
| `ProductionRuns.ConsumesIffCovered` | src/modules/productions/productions.service.ts:248-297 | with distinct supplies of either kind the consumption goes through if and only if the entries of each measurable one, times its package size, hold what is asked of it |
| `ProductionRuns.CompletesIff` | src/modules/productions/productions.service.ts:211-297 | the whole completion goes through if and only if aggregates and entries both cover every supply, one package sufficing for a unit supply, and is Unprocessable otherwise |
| `ProductionRuns.CompletesIffInStock` | src/modules/productions/productions.service.ts:211-297 | with aggregates in sync the entries alone decide: package size times what they hold is at least what is asked, or they hold anything at all of a unit supply |
| `ProductionRequests.CreateRefusedFor` | src/modules/productions/productions.service.ts:84-146 | creation: BadRequest exactly for a sellable production without a product, NotFound for unknown or repeated supplies, Unprocessable when it is to be completed at once and is not covered, accepted in all other cases |
| `ProductionRequests.DraftStores` | src/modules/productions/productions.service.ts:106-131 | a draft stores itself and one row per input, of no entry and at no cost |
| `ProductionRequests.RunKeepsDistinct` | src/modules/productions/productions.service.ts:92-146 | in every run the rows of a draft name distinct supplies |
| `ProductionRequests.CompleteRefusedFor` | src/modules/productions/productions.service.ts:148-193 | so in every reachable state a draft with rows completes if and only if aggregates and entries cover them; each refusal has its cause |
| `ProductionRequests.CancelRefusedFor` | src/modules/productions/productions.service.ts:394-402 | a production is cancelled if and only if it is a draft |
| `ProductionRequests.RemoveRefusedFor` | src/modules/productions/productions.service.ts:404-430 | anything can be removed but a completed production whose product's stock is gone |
| `ProductionRequests.RemovalStores` | src/modules/productions/productions.service.ts:404-478 | a removal takes away its production and every row of it, and of product stocks exactly its own quantity |
| `ProductionRuns.OthersUntouched` | src/modules/productions/productions.service.ts:248-340 | supplies that are not named keep their stock |
| `ProductionService.SupplyStockEntryEntity.Consume` | src/modules/supply-stock-entries/domain/supply-stock-entry.entity.ts:54-77 | partial or whole consumption, flagged exhausted at zero, or refused and unchanged |
| `ProductionService.ProductionsService.FindAvailable` | src/modules/supply-stock-entries/supply-stock-entries.repository.ts:60-70 | the positions of exactly the entries that are not exhausted, strictly increasing in creation order |
| `ProductionService.ProductionsService.DrainEntries` | src/modules/productions/productions.service.ts:268-291 | the inner loop leaves rows, usages, cost and remainder as the closed form says at the point where it stops |
| `ProductionService.ProductionsService.ConsumeMeasurable` | src/modules/productions/productions.service.ts:260-297 | the measurable branch drains the entries exactly as the closed form, or fails when they hold too little |
| `ProductionService.ProductionsService.EmptyEntries` | src/modules/productions/productions.service.ts:302-318 | the unit loop empties whole entries until the count is met or none is left |
| `ProductionService.ProductionsService.ConsumeUnits` | src/modules/productions/productions.service.ts:298-319 | the unit branch equals its closed form |
| `ProductionService.ProductionsService.SyncQuantityWithEntries` | src/modules/supply-stocks/supply-stocks.repository.ts:83-102 | the aggregate becomes the ceiling of the sum of what remains |
| `ProductionService.ProductionsService.Validate` | src/modules/productions/productions.service.ts:211-236 | the validation loop refuses exactly the inputs the specification refuses |
| `ProductionService.ProductionsService.ConsumeSupplies` | src/modules/productions/productions.service.ts:247-340 | the loop over supplies equals the fold that specifies it, failures included |
| `ProductionService.ProductionsService.ProcessProductionCompletion` | src/modules/productions/productions.service.ts:195-393 | the whole completion equals its specification, error included; when it goes through is `ProductionRuns.CompletesIff` |
| `ProductionService.ProductionsService.Create` | src/modules/productions/productions.service.ts:84-146 | creation, as draft or directly, equals its specification with BadRequest, NotFound or Unprocessable; a refusal rolls everything back |
| `ProductionService.ProductionsService.Complete` | src/modules/productions/productions.service.ts:148-193 | completion equals its specification with NotFound, BadRequest or Unprocessable; a refusal rolls everything back |
| `ProductionService.ProductionsService.Cancel` | src/modules/productions/productions.service.ts:397-405 | only a draft is cancelled; NotFound or BadRequest otherwise |
| `ProductionService.ProductionsService.GiveEntriesBack` | src/modules/productions/productions.service.ts:438-453 | the loop over usages gives each entry back what it lost and collects the supplies touched |
| `ProductionService.ProductionsService.Remove` | src/modules/productions/productions.service.ts:407-478 | removal equals its specification, completed productions reverted and others only deleted; NotFound for an unknown production or a missing stock |
| `Productions.DraftInputs` | src/modules/productions/productions.service.ts:160-172 | draft usages read back as the inputs they were saved from |
| `ProductionRequests.RemovalGivesBack` | src/modules/productions/productions.service.ts:432-467 | removing a completed production gives each entry back what its own usages took from it, counts the aggregates of the supplies it drew on again, and leaves all other supplies as they are |
| `Inventory.RowsIncrease` | src/modules/product-stocks/product-stocks.repository.ts:67-76 | moving every line's stock and writing one row per line keeps each stock the signed sum of its rows |
| `Inventory.DeletedRowsReverse` | src/modules/product-purchases/product-purchases.service.ts:331-347 | reversing a document's rows and deleting them keeps each stock the signed sum of its rows |
| `Inventory.NewStocksExplained` | src/modules/product-stocks/product-stocks.repository.ts:15-34 | upserting empty stock rows keeps it too |
| `Inventory.SufficientAtEveryTurn` | src/modules/sales/sales.service.ts:181-190 | the check on aggregated quantities implies that after any number of the one-by-one decrements every stock is at or above zero, repeated products included |
| `Inventory.SufficientIff` | src/modules/sales/sales.service.ts:521-550 | and the check refuses exactly the documents that would leave some stock negative |
| `Consolidation.ConsolidatedLines` | src/modules/product-purchases/product-purchases.service.ts:226-246 | one line per product and location, with summed quantity and the last cost given |
| `Consolidation.ConsolidatedQuantity` | src/modules/product-purchases/product-purchases.service.ts:226-246 | consolidation keeps the quantity asked for at every stock |
| `Consolidation.ConsolidatedTotal` | src/modules/product-purchases/product-purchases.service.ts:298-299 | the consolidated total prices each given line at the last cost given for its key |
| `Consolidation.HeaderGap` | src/modules/product-purchases/product-purchases.service.ts:53 | a header computed before consolidation differs from the rows by the sum of the repricings |
| `Consolidation.AgreeingCostsKeepTotal` | src/modules/product-purchases/product-purchases.service.ts:72-91 | when lines of one key agree on their cost, consolidation preserves the total |
| `Consolidation.DisagreeingCostsMoveTotal` | src/modules/product-purchases/product-purchases.service.ts:53-91 | a witness with two costs for one product: the header says 30, the rows are worth 40 |
| `Consolidation.ConsolidateLines` | src/modules/product-purchases/product-purchases.service.ts:226-246 | the find-or-push loop computes the consolidation |
| `CommerceStocks.RunKeepsStocks` | src/modules/sales/sales.service.ts:163-190 | in every run mixing sales, purchases, productions and manual movements, each stock is the signed sum of the movement rows pointing at it |
| `CommerceStocks.StepKeepsStocks` | src/modules/inventory-movements/inventory-movements.service.ts:50-92 | each single request keeps that, refused ones included, and rows always point at documents that exist |
| `CommerceStocks.OtherRowsKept` | src/modules/product-purchases/product-purchases.service.ts:252-268 | the rows of a document are touched only by requests about that document |
| `CommerceStocks.UnproduceIsUnmove` | src/modules/productions/productions.service.ts:412-427 | decrementing by a production's own quantity is undoing its one row |
| `StockRuns.ExplainedIff` | src/modules/inventory-movements/inventory-movements.service.ts:57-90 | over runs in which movements by hand read and write in two steps, stocks are given other locations and every other request happens in between: all stocks are at all times the signed sums of the rows that point at them if and only if no movement writes from a quantity its stock no longer has and no production is removed whose row points at another stock than the one at the main location |
| `StockRuns.SeenAtRead` | src/modules/inventory-movements/inventory-movements.service.ts:57-71 | the quantity a movement writes from is what its stock held at that client's read, so it overwrites whatever changed the stock since |
| `StockRuns.AloneIsMoveByHand` | src/modules/inventory-movements/inventory-movements.service.ts:57-90 | a movement nobody interrupts is the request of module `Commerce` |
| `StockRuns.RelocationMoves` | src/modules/product-stocks/product-stocks.service.ts:59-67 | a stock given another location keeps its quantity; its rows and the movements that have read it follow, and nothing else moves |
| `StockRuns.RelocationKeepsTidy` | src/modules/product-stocks/product-stocks.service.ts:59-67 | giving a stock another location keeps every stock the signed sum of its rows |
| `StockRuns.StockAstray` | src/modules/productions/productions.service.ts:413-426 | a witness: a production is completed, its stock moved to the back, a new one put at the main location, the production removed; no row is left, but stocks of 5 and -5 are |
| `CommerceStocks.ManualWriteExact` | src/modules/inventory-movements/inventory-movements.service.ts:67-75 | the write itself: stocks stay explained if and only if the quantity read is the one the stock has |
| `CommerceStocks.MovementLost` | src/modules/inventory-movements/inventory-movements.service.ts:57-75 | a witness: two overlapping movements of five leave a stock of five and rows that say ten |
| `CommerceStocks.RunKeepsSales` | src/modules/sales/sales.service.ts:125-345 | in every run, for every sale that is not cancelled, total plus discount is the price of its movement rows |
| `CommerceStocks.SaleRequestAgrees` | src/modules/sales/sales.service.ts:84-106 | a request about a sale re-establishes that for the sale itself |
| `CommerceStocks.SubtotalStale` | src/modules/sales/sales.service.ts:314-315 | adding items leaves the stored subtotal behind: it stays total plus discount if and only if the added items are worth nothing |
| `CommerceStocks.SubtotalLeftBehind` | src/modules/sales/sales.service.ts:314-315 | a witness: an item worth 5 added to a sale of 10 makes its total 15 and leaves its subtotal at 10 |
| `CommerceStocks.DiscountExact` | src/modules/discount-rules/domain/discount-rule.entity.ts:127-141 | a discount is the greatest amount within the subtotal, the rule's own figure and, for percentages, the cap |
| `CommerceStocks.SaleHeaderAtCreation` | src/modules/sales/sales.service.ts:84-137 | a new sale's subtotal is the price of its rows, and it is linked to a transaction if and only if it is COMPLETED |
| `CommerceStocks.TotalNotNegative` | src/modules/discount-rules/domain/discount-rule.entity.ts:127-141 | a discount is between zero and the subtotal, so the total that is posted is not negative |
| `CommerceStocks.SaleKeepsNonNegative` | src/modules/sales/sales.service.ts:119-190 | an accepted sale keeps every stock at or above zero at every turn of its loop |
| `CommerceStocks.AddItemsKeepsNonNegative` | src/modules/sales/sales.service.ts:311-343 | so does adding items |
| `CommerceStocks.SaleRefusedExactly` | src/modules/sales/sales.service.ts:474-550 | over known products with stock rows, refusal for lack of stock happens exactly when some stock would go negative |
| `CommerceStocks.PurchaseHeaderExact` | src/modules/product-purchases/product-purchases.service.ts:53-121 | a new purchase's total is the cost of its rows if and only if it is not PENDING or the repricings cancel out |
| `CommerceStocks.ReplacedExactly` | src/modules/product-purchases/product-purchases.service.ts:226-305 | addItems on a pending purchase leaves exactly the consolidated request as rows and their costed sum as total |
| `CommerceStocks.ReplacedStocks` | src/modules/product-purchases/product-purchases.service.ts:256-296 | and each stock changes by the new quantity minus the replaced one |
| `CommerceStocks.PurchaseStaysAgreed` | src/modules/product-purchases/product-purchases.service.ts:155-387 | once a purchase's header agrees with its rows no request makes it disagree |
| `CommerceStocks.CancelledIsFinal` | src/modules/sales/sales.service.ts:357-359 | nothing is ever done again to a cancelled sale or its rows |
| `CommerceStocks.CancelledPurchaseIsFinal` | src/modules/product-purchases/product-purchases.service.ts:326-329 | nor to a cancelled purchase or its rows |
| `CommerceStocks.CancelledSaleHoldsNothingIff` | src/modules/sales/sales.service.ts:60-230 | after a sale's creation and any requests after which it is CANCELLED, it has no movement rows if and only if it was not created as CANCELLED or was created without items |
| `CommerceStocks.CancelledPurchaseHoldsNothingIff` | src/modules/product-purchases/product-purchases.service.ts:43-151 | the same for purchases |
| `CommerceStocks.CancelledCreationKeepsStock` | src/modules/sales/sales.service.ts:64-73 | a sale created as CANCELLED keeps for ever exactly the rows of its items |
| `CommerceStocks.CancelledPurchaseKeepsStock` | src/modules/product-purchases/product-purchases.service.ts:47-121 | and so does a purchase |
| `CommerceRequests.PurchaseRaises` | src/modules/product-purchases/product-purchases.service.ts:72-121 | for all items, an accepted purchase raises the stock of each product at each place by the quantities of the items of that product kept there, an item without a location being kept at 'Principal' |
| `CommerceRequests.SaleLowers` | src/modules/sales/sales.service.ts:163-190 | an accepted sale lowers it by them |
| `CommerceRequests.AddedItemsLower` | src/modules/sales/sales.service.ts:317-343 | and so do items added to a sale |
| `CommerceRequests.ReplacementMoves` | src/modules/product-purchases/product-purchases.service.ts:226-296 | replacing a purchase's items moves it by the new items less the replaced rows |
| `CommerceRequests.TotalIsPrices` | src/modules/sales/sales.service.ts:462-472 | a document is worth the sum of unit price times quantity over its items |
| `CommerceRequests.MovesOnlyActive` | src/modules/financial-transactions/financial-transactions.service.ts:132-174 | whatever is requested of the shop, an existing account whose balance or version moves was ACTIVE |
| `CommerceRequests.UnprocessableIffNotActive` | src/modules/financial-transactions/financial-transactions.service.ts:138-144 | completing a pending document or recording an expense is Unprocessable if and only if the account exists and is not ACTIVE |
| `CommerceRequests.RefundUnprocessableIffNotActive` | src/modules/financial-transactions/financial-transactions.service.ts:138-144 | and so is cancelling a completed document or removing an expense, by the account to be refunded |
| `CommerceRequests.SaleRefusedFor` | src/modules/sales/sales.service.ts:60-230 | a new sale is refused if and only if there is a cause to: no account or payment method when COMPLETED, unknown client, inapplicable discount, unknown product, missing stock row, a stock holding less than all items ask of it, or a posting that fails; the error is that of a cause |
| `CommerceRequests.AddItemsRefusedFor` | src/modules/sales/sales.service.ts:295-313 | the same for items added to a sale |
| `CommerceRequests.PurchaseRefusedFor` | src/modules/product-purchases/product-purchases.service.ts:43-151 | the same for a new purchase, whose products must be purchasable |
| `CommerceRequests.ReplaceRefusedFor` | src/modules/product-purchases/product-purchases.service.ts:206-250 | the same for the replacement of its items |
| `CommerceRequests.CompletionRefusedFor` | src/modules/sales/sales.service.ts:234-274 | the same for completing a sale or a purchase |
| `CommerceRequests.SaleCancelRefusedFor` | src/modules/sales/sales.service.ts:350-422 | the same for cancelling a sale |
| `CommerceRequests.PurchaseCancelRefusedFor` | src/modules/product-purchases/product-purchases.service.ts:316-384 | the same for cancelling a purchase |
| `CommerceRequests.ExpenseRefusedFor` | src/modules/expenses/expenses.service.ts:22-77 | the same for recording an expense, whose category must exist and be active |
| `CommerceRequests.ExpenseEditRefusedFor` | src/modules/expenses/expenses.service.ts:112-129 | the same for changing its category |
| `CommerceRequests.ExpenseEditStores` | src/modules/expenses/expenses.service.ts:112-129 | an update stores the category given and nothing else |
| `CommerceRequests.ExpenseRemoveRefusedFor` | src/modules/expenses/expenses.service.ts:131-162 | the same for removing it |
| `CommerceRequests.HandRefusedFor` | src/modules/financial-transactions/financial-transactions.service.ts:127-277 | the same for entries posted or deleted by hand |
| `CommerceRequests.MovementRefusedFor` | src/modules/inventory-movements/inventory-movements.service.ts:57-65 | the same for movements by hand |
| `CommerceRequests.AccountOpens` | prisma/schema.prisma:585-593 | accounts are opened once, empty and ACTIVE |
| `CommerceRequests.StatusChanges` | src/modules/bank-accounts/bank-accounts.service.ts:154-158 | and have the status last given to them |
| `CommerceRequests.ProductionBrings` | src/modules/productions/productions.service.ts:344-391 | a finished production brings its quantity to its stock, made if missing |
| `CommerceRequests.ProductionWithdraws` | src/modules/productions/productions.service.ts:412-427 | its removal takes the quantity back, and is refused without the stock |
| `ProductionStock.EngineIsRequest` | src/modules/productions/productions.service.ts:344-427 | completing or removing a production does to product stocks and movement rows exactly what the shop's production request does, which is accepted; every other event of the engine leaves them alone |
| `ProductionStock.StepMirrors` | src/modules/productions/productions.service.ts:84-478 | each event of the engine keeps its view of products, rows and completed productions equal to the shop's |
| `ProductionStock.SiteKeepsStocks` | src/modules/productions/productions.service.ts:344-427 | in every run mixing the production engine's events with sales, purchases, expenses and movements, the stock the engine sees of a product is the signed sum of all movement rows pointing at it |
| `CommerceBooks.RunKeepsBooks` | src/modules/sales/sales.service.ts:192-226 | in every run each balance minus the totals of COMPLETED sales, plus those of COMPLETED purchases and existing expenses, minus the hand entries, is constant |
| `CommerceBooks.BalanceExplained` | src/modules/expenses/expenses.service.ts:28-76 | the same from an empty ledger: balance = opening + sales - purchases - expenses + hand entries, PENDING and CANCELLED documents contributing nothing |
| `CommerceBooks.StepSteady` | src/modules/product-purchases/product-purchases.service.ts:123-147 | each single request keeps it |
| `CommerceBooks.OriginalAlwaysFound` | src/modules/sales/sales.service.ts:391-401 | the transaction linked from a COMPLETED sale always exists with the sale's total as amount, because only ADJUSTMENT records can be deleted |
| `CommerceBooks.OriginalPurchaseAlwaysFound` | src/modules/product-purchases/product-purchases.service.ts:352-362 | the same for purchases |
| `CommerceBooks.ConflictMeansCancelled` | src/modules/sales/sales.service.ts:357-401 | so cancelling a sale is a conflict if and only if it is cancelled already |
| `CommerceBooks.PurchaseConflictMeansCancelled` | src/modules/product-purchases/product-purchases.service.ts:326-362 | the same for purchases |
| `CommerceBooks.RefundMirrors` | src/modules/sales/sales.service.ts:403-422 | the refund of a sale is on the account that was credited, for the amount that was credited, in the other direction |
| `CommerceBooks.PurchaseRefundMirrors` | src/modules/product-purchases/product-purchases.service.ts:364-384 | the same for purchases |
| `CommerceBooks.ExpenseUpdateIsMetadata` | src/modules/expenses/expenses.service.ts:112-129 | by the shape of the update: no balance, record, amount, account or link changes |
| `CommerceBooks.ExpenseRemoveStep` | src/modules/expenses/expenses.service.ts:131-162 | removing an expense refunds exactly what it debited |
| `CommerceBooks.SaleThenCancel` | src/modules/sales/sales.service.ts:350-425 | creating and cancelling a sale gives back every stock, row and balance |
| `CommerceBooks.PurchaseThenCancel` | src/modules/product-purchases/product-purchases.service.ts:316-387 | creating and cancelling a purchase gives back everything but the empty stock rows it made |
| `CommerceBooks.PendingThenComplete` | src/modules/sales/sales.service.ts:234-291 | a PENDING sale completed at once equals a COMPLETED creation, refusals included |
| `CommerceService.Tables.IncrementQuantity` | src/modules/product-stocks/product-stocks.repository.ts:67-76 | one stock moves by the delta |
| `CommerceService.Tables.MoveStocks` | src/modules/sales/sales.service.ts:181-190 | the loop over items moves each stock by everything asked for at it |
| `CommerceService.Tables.ReverseStocks` | src/modules/product-purchases/product-purchases.service.ts:256-263 | the loop over rows takes back what they moved |
| `CommerceService.Tables.CreateTransaction` | src/modules/financial-transactions/financial-transactions.service.ts:127-200 | a posting inside the caller's transaction equals `Post`; Unprocessable exactly when the account exists and is not ACTIVE |
| `CommerceService.SalesService.ResolveStocks` | src/modules/sales/sales.service.ts:474-514 | counts distinct products, then looks every stock up; refuses exactly as specified |
| `CommerceService.SalesService.ValidateSufficientStock` | src/modules/sales/sales.service.ts:521-550 | the two loops accept if and only if every named stock covers everything asked for at it |
| `CommerceService.SalesService.Create` | src/modules/sales/sales.service.ts:60-230 | equals `SaleCreate`: every refusal in order, and a rollback of all tables when the posting fails |
| `CommerceService.SalesService.Complete` | src/modules/sales/sales.service.ts:234-291 | equals `SaleComplete` |
| `CommerceService.SalesService.AddItems` | src/modules/sales/sales.service.ts:295-347 | equals `SaleAddItems` |
| `CommerceService.SalesService.Remove` | src/modules/sales/sales.service.ts:350-425 | equals `SaleRemove`, rolled back when the refund fails |
| `CommerceService.ProductPurchasesService.GetOrCreateStocks` | src/modules/product-purchases/product-purchases.service.ts:444-483 | refuses unknown and not purchasable products, then upserts every missing stock row |
| `CommerceService.ProductPurchasesService.Create` | src/modules/product-purchases/product-purchases.service.ts:43-151 | equals `PurchaseCreate`, which moves stocks as `CommerceRequests.PurchaseRaises` says over the items themselves |
| `CommerceService.ProductPurchasesService.Complete` | src/modules/product-purchases/product-purchases.service.ts:155-202 | equals `PurchaseComplete` |
| `CommerceService.ProductPurchasesService.AddItems` | src/modules/product-purchases/product-purchases.service.ts:206-307 | equals `PurchaseAddItems` |
| `CommerceService.ProductPurchasesService.Remove` | src/modules/product-purchases/product-purchases.service.ts:316-387 | equals `PurchaseRemove` |
| `CommerceService.ExpensesService.Create` | src/modules/expenses/expenses.service.ts:22-77 | equals `ExpenseCreate` |
| `CommerceService.ExpensesService.Update` | src/modules/expenses/expenses.service.ts:112-129 | equals `ExpenseUpdate` |
| `CommerceService.ExpensesService.Remove` | src/modules/expenses/expenses.service.ts:131-163 | equals `ExpenseRemove` |
| `CommerceService.ProductStockEntity.ApplyMovement` | src/modules/product-stocks/domain/product-stock.entity.ts:34-41 | adds or subtracts the amount |
| `CommerceService.InventoryMovementsService.ProcessMovement` | src/modules/inventory-movements/inventory-movements.service.ts:50-92 | equals `HandMove`, with its two refusals |
| `CommerceService.InventoryMovementsService.CreateAdjustment` | src/modules/inventory-movements/inventory-movements.service.ts:94-101 | an adjustment adds, negative quantities included; NotFound without a stock, BadRequest for another product's |
| `CommerceService.InventoryMovementsService.CreateWaste` | src/modules/inventory-movements/inventory-movements.service.ts:103-108 | waste subtracts, with the same two refusals |
| `CommerceService.InventoryMovementsService.CreateTests` | src/modules/inventory-movements/inventory-movements.service.ts:110-115 | tests subtract, with the same two refusals |
| `CommerceService.InventoryMovementsService.CreateProduction` | src/modules/inventory-movements/inventory-movements.service.ts:117-122 | a production movement adds, with the same two refusals |
| `SessionRuns.RunKeeps` | src/modules/sessions/sessions.service.ts:63-247 | in every reachable state each live blob that no late SET brought back is in its index, each lineage has one id that was not replaced, a replaced id has no refresh row and no such blob, and no blob expires before its end |
| `SessionRuns.PruneExact` | src/modules/sessions/sessions.service.ts:75-92 | `Pruned` read back: the ids dropped from the index are those without a live blob |
| `SessionRuns.RevivesIff` | src/infraestructure/redis/redis-cache.service.ts:78-94 | in every run, what makes a dead session live again is exactly the SET of a last-seen write whose TTL was read while the session was live |
| `SessionRuns.CapturedIff` | src/infraestructure/redis/redis-cache.service.ts:78-94 | a write is between its two commands if and only if its TTL was read off a live key and its SET has not happened since |
| `SessionRuns.LateSetExact` | src/infraestructure/redis/redis-cache.service.ts:87-92 | SET makes its own key live, whatever has become of it, and changes the life of no other |
| `SessionRuns.ComesBackIff` | src/common/guards/jwt-auth.guard.ts:102-115 | a revoked or expired session can come back if and only if one of its last-seen writes is between TTL and SET |
| `SessionRuns.DeadStaysDead` | src/common/guards/jwt-auth.guard.ts:102-115 | a dead session none of whose last-seen writes is between TTL and SET is never live again, whatever happens |
| `SessionRuns.RevokeAllEndsRefreshing` | src/modules/sessions/sessions.service.ts:226-247 | after revokeAll no earlier refresh token of the user, of either application, is ever exchanged, late writes or not |
| `SessionRuns.RevokeAllForGood` | src/modules/sessions/sessions.service.ts:226-247 | and no earlier access token ever passes the guard, if no write of its session is between TTL and SET and none brought it back before |
| `SessionRuns.RevokeAllExact` | src/modules/sessions/sessions.service.ts:226-247 | an earlier session survives revokeAll, at once or later, if and only if it was live and missing from the index or a write of it is between TTL and SET |
| `SessionRuns.StrayIsRevived` | src/modules/sessions/sessions.service.ts:226-247 | a live session missing from its index is one a late SET brought back |
| `SessionRuns.RevokedComesBack` | src/infraestructure/redis/redis-cache.service.ts:78-94 | a run with revokeAll between the two commands: the session is accepted again, is in no index, and the next revokeAll misses it |
| `SessionRuns.RevokeAllDropsTokens` | src/modules/sessions/sessions.service.ts:240 | no refresh row of the user is left |
| `SessionRuns.RevokeOthersExact` | src/modules/sessions/sessions.service.ts:189-217 | after revokeOthers a session is live if and only if it was and is the kept one or missing from the index, which only a late SET can bring about |
| `SessionRuns.RefreshedOnce` | src/modules/auth/auth.service.ts:393-471 | a refresh token succeeds at most once, whatever happens in between |
| `SessionRuns.DeadTokenExchangedIff` | src/modules/auth/auth.service.ts:393-459 | whichever way a session died, some continuation exchanges its refresh token for a new one if and only if a last-seen write of the session is between TTL and SET, the token's row is there, is its owner's, and neither token nor row has expired |
| `SessionRuns.RevokedTokenExchanged` | src/modules/sessions/sessions.service.ts:110-136 | a run with the revocation of one session between the two commands: its refresh token is exchanged, and the new session is live and in the index |
| `SessionRuns.BuriedTokensFail` | src/modules/auth/auth.service.ts:427-436 | the one-state part of it: while the session is dead its tokens pass no guard and yield nothing |
| `SessionRuns.RotationKeepsCount` | src/modules/auth/auth.service.ts:444-459 | a refresh swaps one live session for another of the same user and application; their number is unchanged |
| `SessionRuns.LineageDoublesIff` | src/modules/auth/auth.service.ts:444-459 | in every run a lineage, that is a sign-in with all its refreshes, with at most one live session comes to have two exactly by the SET of a last-seen write whose TTL was read while its session was live and which finds that session dead and another of the lineage live |
| `SessionRuns.DoubledBySet` | src/modules/auth/auth.service.ts:444-459 | so a lineage has two live sessions only in a run with such a step |
| `SessionRuns.BothLive` | src/modules/auth/auth.service.ts:444-459 | a run with a refresh between the two commands: the replaced session and the new one are both live |
| `SessionRuns.LineageAlone` | src/modules/auth/auth.service.ts:444-459 | of sessions no late SET brought back a lineage has at most one live one in every run |
| `SessionRuns.NeverOutlives` | src/modules/auth/auth.service.ts:579-595 | in every run a session is live no longer than its scope's lifetime after its minting plus the seconds its last-seen writes spent between TTL and SET |
| `SessionRuns.DelayExtends` | src/infraestructure/redis/redis-cache.service.ts:78-94 | the bound is reached: a delay between the two commands moves the expiry by exactly that delay |
| `SessionRuns.TimeEndsIff` | src/infraestructure/redis/redis-cache.service.ts:26-36 | in every reachable state time alone ends a live session if and only if the configured lifetime is at least a second |
| `SessionRuns.ImmortalIff` | src/infraestructure/redis/redis-cache.service.ts:26-36 | the store's part of it, read off the minting: a zero lifetime sets no expiry |
| `SessionRuns.OtherScopeSessions` | src/modules/sessions/sessions.service.ts:110-217 | nothing but revokeAll and revokeAnyScope reaches the other application's sessions |
| `SessionRuns.OtherScopeTokens` | src/modules/auth/auth.service.ts:404-419 | nor its refresh tokens |
| `SessionsService.Backend.Get` | src/infraestructure/redis/redis-cache.service.ts:16-24 | finds a key exactly while it is live |
| `SessionsService.Backend.Set` | src/infraestructure/redis/redis-cache.service.ts:26-36 | overwrites value and expiry; a zero lifetime sets none |
| `SessionsService.Backend.TtlOf` | src/infraestructure/redis/redis-cache.service.ts:79-83 | -2, -1 or the seconds left, exactly as the key is gone, has no expiry, or has one |
| `SessionsService.Backend.SetPreservingTtl` | src/infraestructure/redis/redis-cache.service.ts:78-83 | up to the first await: the TTL is read off the key, and the write ends there if the key is gone |
| `SessionsService.Backend.SetWithTtl` | src/infraestructure/redis/redis-cache.service.ts:85-93 | what follows it, at any later time: SET with the lifetime read before, without another look at the key |
| `SessionsService.Backend.Smembers` | src/infraestructure/redis/redis-cache.service.ts:50-52 | every member once |
| `SessionsService.Backend.Mget` | src/infraestructure/redis/redis-cache.service.ts:54-58 | one answer per key, in order |
| `SessionsService.SessionsService.List` | src/modules/sessions/sessions.service.ts:63-95 | shows every live session and nothing else, marks the current one, and leaves the index pruned |
| `SessionsService.SessionsService.Forget` | src/modules/sessions/sessions.service.ts:110-115 | removes blob and index entry |
| `SessionsService.SessionsService.Revoke` | src/modules/sessions/sessions.service.ts:124-155 | forgets a live session or reports that there is none |
| `SessionsService.SessionsService.RevokeAnyScope` | src/modules/sessions/sessions.service.ts:167-180 | looks in the console's sessions first |
| `SessionsService.SessionsService.RevokeOthers` | src/modules/sessions/sessions.service.ts:189-217 | the loop forgets every indexed id but the kept one and counts them |
| `SessionsService.SessionsService.RevokeAll` | src/modules/sessions/sessions.service.ts:226-247 | clears blobs, index and refresh rows of both applications and counts the indexed sessions of both |
| `SessionsService.AuthService.GenerateAuthTokens` | src/modules/auth/auth.service.ts:557-624 | mints blob, index entry and refresh row that agree on their end |
| `SessionsService.AuthService.RefreshToken` | src/modules/auth/auth.service.ts:393-471 | equals `Refresh`, with each refusal and the rows it deletes |
| `SessionsService.AuthService.Logout` | src/modules/auth/auth.service.ts:491-527 | forgets the session and deletes the given token only if it is the user's and the scope's |
| `SessionsService.AuthService.LogoutAll` | src/modules/auth/auth.service.ts:529-545 | is revokeAll |
| `SessionsService.JwtAuthGuard.CanActivate` | src/common/guards/jwt-auth.guard.ts:35-90 | passes if and only if the token has not expired and names an application, the route's if it has one, under which the store has an unexpired blob of that user and session; leaves a last-seen write behind as `Guard` says |
| `SessionsService.JwtAuthGuard.RecordActivity` | src/common/guards/jwt-auth.guard.ts:102-115 | issues the write unless the last one is under five minutes old |
| `SessionAccess.PassesIff` | src/common/guards/jwt-auth.guard.ts:35-90 | over all states: a bearer passes if and only if its token has not expired, names an application, that application is the route's when the route names one, and the store has an unexpired blob under exactly that application, user and session id |
| `SessionAccess.PassesOnlyItsApplication` | src/common/guards/jwt-auth.guard.ts:55-69 | in every run whoever passes has signed in, as that user and with that session id, to the application the route names, or refreshed a token of it; so a token of one application never passes a route of the other |
| `SessionAccess.PassingWrites` | src/common/guards/jwt-auth.guard.ts:102-115 | a passing request leaves one last-seen write if and only if the session was last seen five minutes ago or longer |
| `SessionAccess.RefreshedIff` | src/modules/auth/auth.service.ts:393-459 | a refresh token is exchanged if and only if it has not expired, is shown to its own application, has its row, is within the row's time, has its session, and its user is active |
| `SessionAccess.RefusedStores` | src/modules/auth/auth.service.ts:404-441 | a refusal changes nothing but for deleting a row past its end or without its session |
| `SessionAccess.ExchangedOnlyAtItsApplication` | src/modules/auth/auth.service.ts:404-459 | in every run an exchanged token belongs to an active user and to a session opened by a sign-in or a refresh in the application it is shown to |
| `SessionAccess.SignInStores` | src/modules/auth/auth.service.ts:557-624 | blob, row and token of a new session name the same end, its own application's lifetime from now, and the index has it |
| `SessionAccess.RotationStores` | src/modules/auth/auth.service.ts:444-459 | a refresh stores a new session as a sign-in does and removes the old one's blob, index entry and row |
| `SessionAccess.ForgetStores` | src/modules/sessions/sessions.service.ts:110-115 | forgetting removes one blob and one index entry and nothing else |
| `SessionAccess.RevokeStores` | src/modules/sessions/sessions.service.ts:124-155 | a session is ended if and only if the store has it |
| `SessionAccess.RevokeAnyScopeStores` | src/modules/sessions/sessions.service.ts:167-180 | one session is ended, the console's before the dashboard's, or none is found |
| `SessionAccess.RevokeOthersStores` | src/modules/sessions/sessions.service.ts:189-217 | of the indexed sessions the kept one alone is left, in the store and in the index |
| `SessionAccess.RevokeAllStores` | src/modules/sessions/sessions.service.ts:226-247 | no index, no indexed blob and no refresh row of the user is left in either application, and those of others stay |
| `SessionAccess.LogoutStores` | src/modules/auth/auth.service.ts:491-513 | signing out forgets the session and deletes the token shown if and only if its row is that user's in that application |
| `SessionAccess.ListStores` | src/modules/sessions/sessions.service.ts:63-95 | listing drops from the index exactly the ids the store has no session of |
| `SessionAccess.RunKeepsSets` | src/infraestructure/redis/redis-cache.service.ts:46-48 | in every run no index is an empty set |
| `Imports.WrittenAtMostOnce` | src/modules/imports/imports.service.ts:111-159 | for every interleaving rows for one organization, resource and idempotency key are written at most once |
| `Imports.UsedKeyAnswers` | src/modules/imports/imports.service.ts:111-134 | once a key is used, every later request with it gets the stored result if its hash is equal and a conflict otherwise, at both checks |
| `Imports.SecondCommitWritesNothing` | src/modules/imports/imports.service.ts:123-134 | of two requests past their prechecks with one key, the second to commit writes nothing |
| `Imports.IdentityKept` | src/modules/imports/imports.service.ts:275-326 | the identity read back from a stored row equals the one computed from its file row if and only if a product's SKU is given and a supply's package size has at most four decimals |
| `Imports.ImportedTwiceIff` | src/modules/imports/imports.service.ts:211-271 | a valid row imported into an empty table and uploaded again passes as new the second time if and only if it has no SKU as a product or more than four decimals in its package size as a supply |
| `Imports.SaffronTwice` | src/modules/imports/imports.service.ts:240-284 | a witness: a supply in packages of 0.00015 passes validation against the row it was stored as |
| `Imports.PlainFits` | src/modules/imports/imports.service.ts:275-284 | what is assumed of upper-casing, printing and SKUs can be met: with decimal numerals for numbers, whatever the other parameters are |
| `Imports.NumeralTells` | src/modules/imports/imports.service.ts:275-284 | such a numeral of a value with more than four decimals differs from that of the rounded value |
| `Imports.ImportKeepsDistinct` | src/modules/imports/imports.service.ts:211-271 | a file that passes validation and stores faithfully keeps stored identities pairwise distinct |
| `Imports.RunKeepsDistinct` | src/modules/imports/imports.service.ts:96-162 | so they stay pairwise distinct in every interleaving of such imports |
| `Imports.SkulessNeverDuplicate` | src/modules/imports/imports.service.ts:279 | a product row without a SKU is never found to be a duplicate of stored products |
| `Imports.SequenceStarts` | src/modules/imports/imports.service.ts:310-315 | the first SKU-less product of a category takes one more than the products the category has by then |
| `Imports.SequenceAdvances` | src/modules/imports/imports.service.ts:315-318 | within one import the SKU-less products of a category are numbered without gap or repetition |
| `ImportRequests.RowOkIff` | src/modules/imports/imports.service.ts:211-266 | a row is without error if and only if no required cell is blank and its category, unit, package size, code or kind has the form its resource asks for |
| `ImportRequests.StoreKeeps` | src/modules/imports/imports.service.ts:286-326 | the columns written are the trimmed cells, blank optional ones null |
| `ImportRequests.SkusComeFrom` | src/modules/imports/imports.service.ts:309-319 | a SKU in the file is kept; without one it is made of category code, name and the category's next number, which is then taken |
| `ImportRequests.SizeStored` | src/modules/imports/imports.service.ts:299-302 | a stored package size differs from the parsed one by at most half of the column's last decimal |
| `ImportRequests.FileOkIff` | src/modules/imports/imports.service.ts:211-271 | a file passes if and only if every row does, no identity in it is stored already and no two are equal |
| `ImportRequests.TaxIdsTell` | src/modules/imports/imports.service.ts:275-278 | rows with tax ids have one identity if and only if the normalized tax ids are equal |
| `ImportRequests.CodesTell` | src/modules/imports/imports.service.ts:279-283 | the same of SKUs, category codes and names of expense categories |
| `ImportRequests.NamesTell` | src/modules/imports/imports.service.ts:275-284 | without them name and phone, or name and kind, each tell: where one agrees the identities are equal if and only if the other agrees |
| `ImportRequests.PeopleAndProductsTell` | src/modules/imports/imports.service.ts:278-279 | the same of full name and e-mail address, and of name and category |
| `ImportRequests.SuppliesTell` | src/modules/imports/imports.service.ts:280 | the same of name, unit and package size of supplies |
| `ImportRequests.BeginReplyIff` | src/modules/imports/imports.service.ts:96-121 | before the transaction each reply is given exactly for its cause: a stale hash, a missing or ill-formed key, a used key with this or another hash, a file that does not pass, or none of them |
| `ImportRequests.CommitReplyIff` | src/modules/imports/imports.service.ts:123-159 | inside it rows are written if and only if the key is unused, the file passes and its SKUs are free; each other reply has its cause |
| `ImportRequests.CommitStores` | src/modules/imports/imports.service.ts:135-159 | then one row per file row is appended and the key recorded with the file's hash and count |
| `ImportRequests.OtherwiseNothing` | src/modules/imports/imports.service.ts:123-134 | with any other reply nothing is written |
| `ImportRequests.CountInIs` | src/modules/imports/imports.service.ts:315 | the count behind sequence numbers is the number of the category's rows |
| `ImportRequests.StoredProductsTell` | src/modules/imports/imports.service.ts:195-197 | products stored without a SKU are told by name and category |
| `ImportsService.ImportsService.Prepare` | src/modules/imports/imports.service.ts:211-273 | the loop reports no error if and only if every row is valid and all identities are new and different |
| `ImportsService.ImportsService.CreateRows` | src/modules/imports/imports.service.ts:286-326 | rows are created in order, SKUs generated from per-category sequence numbers |
| `ImportsService.ImportsService.BeginImport` | src/modules/imports/imports.service.ts:96-121 | the prechecks, in order, equal `BeginReply` |
| `ImportsService.ImportsService.CommitImport` | src/modules/imports/imports.service.ts:123-161 | the transaction equals `Commit`: repeat, conflict, refusal or insertion |
| `Tenancy.RewritingPreservesMeaning` | src/prisma/prisma.service.ts:73-103 | with an arguments object that names no organization, an operation on the whole table answers as the original does on the tenant's slice and leaves all other rows unchanged, if and only if nothing of other organizations stands in its way: always but for creations of values they hold and for updateManyAndReturn |
| `Tenancy.ReadsMean` | src/prisma/tenant-models.ts:68-81 | what operations are taken to mean, row by row: a read finds exactly the rows that meet its filter, and throws only where it is named to and none does |
| `Tenancy.WritesMean` | src/prisma/tenant-models.ts:68-81 | an update or deletion changes exactly those rows, and throws only for a single one that is not there |
| `Tenancy.UpsertMeans` | src/prisma/prisma.service.ts:92-103 | an upsert updates the rows that meet its filter, or inserts its row when none does |
| `Tenancy.WhereScopedRuns` | src/prisma/tenant-models.ts:68-81 | the part of it for operations with a where clause, which need no condition |
| `Tenancy.DataScopedRuns` | src/prisma/tenant-models.ts:84-88 | creations of one row or many run as on the slice if and only if they fail there or bring no id and no globally unique value held elsewhere |
| `Tenancy.UpsertRuns` | src/prisma/prisma.service.ts:96-102 | upserts likewise, when they come to create |
| `Tenancy.UpdateReturnsRuns` | src/prisma/tenant-models.ts:68-88 | updateManyAndReturn, which is in neither list, runs as on the slice if and only if it matches no row of other organizations |
| `Tenancy.CreateExact` | src/prisma/prisma.service.ts:85-95 | with a column unique over all organizations, creation behaves as on the slice if and only if no other organization holds the value |
| `Tenancy.ScopedIffArguments` | src/prisma/prisma.service.ts:74 | called without arguments the rewriting is lost: a read or deleteMany stays inside the slice if and only if no other organization has rows |
| `Tenancy.PolicyCoversMissingArguments` | src/prisma/prisma.service.ts:105-118 | under the published setting the row policies confine such calls to the slice after all |
| `Tenancy.OtherTenantUnauthorized` | src/prisma/prisma.service.ts:77-84 | a statement that names another organization, in its filter or in a row to create, finds nothing there and writes nothing there |
| `Tenancy.UnsetSeesNothing` | src/prisma/prisma.service.ts:66-71 | with no setting published a read sees no rows |
| `PrismaService.TenantTransactionExact` | src/prisma/prisma.service.ts:132-149 | statements through a tenant transaction never make the hook open another: one begins, each call is one query under the published setting, and no setting outlives it |
| `PrismaService.SystemTransactionExact` | src/prisma/prisma.service.ts:155-164 | the same for system transactions, which run with bypass |
| `PrismaService.HookLeavesPoolClean` | src/prisma/prisma.service.ts:114-118 | a single call leaves no setting on its connection |
| `PrismaService.PolicyAgrees` | src/prisma/prisma.service.ts:105-118 | on rewritten arguments the row policies change nothing, except exactly for an updateManyAndReturn that matches rows of others |
| `PrismaService.UpdateConfined` | src/prisma/prisma.service.ts:105-118 | under the published setting updateManyAndReturn, whatever its arguments, answers as on the slice, changes the slice alike and leaves other organizations' rows alone |
| `PrismaService.CallRunsOnSlice` | src/prisma/prisma.service.ts:42-119 | end to end, for every operation: what a call answers and does in a tenant's context is what it means on that tenant's slice, if and only if it creates nothing that another organization holds |
| `PrismaService.TransactionStaysInside` | src/prisma/prisma.service.ts:132-149 | whatever calls a tenant transaction makes, rows of other organizations stay as they are |
| `PrismaService.QueryArgs.Scope` | src/prisma/prisma.service.ts:76-103 | the arguments object is rewritten in place as specified |
| `PrismaService.PrismaClient.AllOperations` | src/prisma/prisma.service.ts:42-119 | each branch issues the statements the trace function lists and answers accordingly, inside any transaction or none; a wrapped call runs on a connection of its own; without arguments the query goes out unchanged |
| `PrismaService.PlainTransactionBegins` | src/prisma/prisma.service.ts:104-118 | inside a plain $transaction every call the hook wraps begins a transaction of its own, so only one begins if and only if no call is wrapped |
| `PrismaService.PlainCallSees` | src/prisma/prisma.service.ts:122-127 | there a read that is not wrapped sees no rows, and one that is sees its tenant's |
| `PrismaService.PrismaClient.TenantTransactionOf` | src/prisma/prisma.service.ts:132-149 | publishes the context's setting, marks the context, runs the calls, and restores both |
| `PrismaService.PrismaClient.SystemTransactionOf` | src/common/context/tenant.context.ts:88-104 | the same with bypass and the nested contexts |
| `Owners.SingleOwner` | src/modules/organization-users/domain/organization-user.entity.ts:76-85 | in every run an organization has at most one OWNER, and no custom role is ever named OWNER |
| `Owners.OwnerPersists` | src/modules/organization-users/organization-users.service.ts:158-236 | once an organization has an OWNER that membership persists through every run |
| `Owners.RunKeeps` | src/modules/roles/roles.service.ts:39-137 | system roles stay, role names stay distinct, memberships and invitations point at roles of their organization, invitations never at OWNER |
| `Owners.RenameKeepsRank` | src/modules/roles/roles.service.ts:111-127 | renaming a role changes nobody's rank |
| `Owners.RankStable` | src/modules/organization-users/organization-users.service.ts:191-209 | nothing but an update of that membership changes the rank a member has |
| `Owners.UpdateStaysBelow` | src/modules/organization-users/organization-users.service.ts:168-209 | a member's update changes only someone of lower rank, leaves them below the actor, and touches no other membership |
| `Owners.CustomRolesChangeNobody` | src/common/helpers/role-hierarchy.helper.ts:47-66 | an actor with a custom role can change and remove nobody |
| `Owners.JoinKeeps` | src/modules/invitations/invitations.service.ts:243-256 | an accepted invitation never makes an OWNER |
| `Owners.RunKeepsIndexes` | src/modules/organization-users/organization-users.repository.ts:22-31 | at most one membership per user and organization, and one role per name, in every run |
| `Owners.HierarchyExact` | src/common/helpers/role-hierarchy.helper.ts:29-66 | the rank comparison spelled out: an OWNER may change anybody but an OWNER, an ADMINISTRATOR only custom roles, and assign the same roles they may change |
| `SeatRuns.ExceededIff` | src/modules/organizations/domain/user-limit.helper.ts:5-34 | over runs in which requests are counted and inserted in two steps, with every other event in between: an organization within its limit is taken over it exactly by a row that goes in when every seat is taken |
| `SeatRuns.ExceededBetween` | src/modules/organizations/domain/user-limit.helper.ts:5-34 | that takes two: between the count of such a request and its insert another request's row went in |
| `SeatRuns.BothSlipIn` | src/modules/organizations/domain/user-limit.helper.ts:5-10 | a witness: two invitations on a plan for one user, both counted before either goes in, take two seats |
| `SeatRuns.OthersTakeNone` | src/modules/invitations/invitations.service.ts:199-308 | no other event, acceptances included, gives an organization another seat |
| `Owners.LimitHolds` | src/modules/organizations/domain/user-limit.helper.ts:11-34 | one request at a time, direct additions and invitations never take members and pending invitations together over the plan's limit |
| `Owners.JoinKeepsSeats` | src/modules/invitations/invitations.service.ts:243-256 | accepting an invitation leaves that number unchanged |
| `Owners.RolesCapped` | src/modules/roles/roles.service.ts:25-38 | an organization within its plan's number of roles stays within it |
| `OwnerRequests.AcceptedIff` | src/modules/invitations/invitations.service.ts:199-241 | a signed-in user joins if and only if the invitation exists, is PENDING and in time, its address equals the user's apart from letter case, and the user is not yet a member; NotFound, BadRequest and Conflict each exactly for its own cause |
| `OwnerRequests.AcceptedStores` | src/modules/invitations/invitations.service.ts:216-256 | what is stored: one membership with the invitation's organization and role and the accepted mark; or the expired mark alone; or nothing |
| `OwnerRequests.RegisteredIff` | src/modules/invitations/invitations.service.ts:268-308 | the same inside a registration, where the unique index refuses a member |
| `OwnerRequests.LowerIff` | src/modules/invitations/invitations.service.ts:226 | lower-casing makes two addresses equal if and only if they are equal letter by letter, whatever the case of each |
| `OwnerRequests.MembersWereAdmitted` | src/modules/invitations/invitations.service.ts:199-308 | over every run: whoever has become a member founded the organization, was added by an administrator, or accepted an open invitation sent to their own address |
| `OwnerRequests.MemberRefusedFor` | src/modules/organization-users/organization-users.service.ts:51-92 | a membership is refused if and only if there is a cause to (already a member, plan full, no such role, a second OWNER), and gets the role asked for or USER |
| `OwnerRequests.ChangeRefusedFor` | src/modules/organization-users/organization-users.service.ts:153-209 | a change of role is refused if and only if there is a cause to, an OWNER target and an actor who does not outrank target and new role among them |
| `OwnerRequests.EndRefusedFor` | src/modules/organization-users/organization-users.service.ts:212-236 | a membership is ended if and only if it is not the OWNER's and a member actor outranks it |
| `OwnerRequests.RoleRefusedFor` | src/modules/roles/roles.service.ts:20-56 | a role is created if and only if the plan has room, 3, 5 or else 2 roles, and the name is free |
| `OwnerRequests.RenameRefusedFor` | src/modules/roles/roles.service.ts:104-128 | a role is renamed if and only if it is the organization's, not a system role, and the name is free or its own |
| `OwnerRequests.EndRoleRefusedFor` | src/modules/roles/roles.service.ts:130-138 | a role is deleted if and only if it is the organization's, not a system role, and no membership or invitation points at it |
| `OwnerRequests.InviteRefusedFor` | src/modules/invitations/invitations.service.ts:48-108 | an invitation is refused if and only if there is a cause to (OWNER, plan full, open invitation to that address, no such role); one that is sent is open for 48 hours |
| `OwnersService.OrganizationUsersService.Create` | src/modules/organization-users/organization-users.service.ts:51-92 | equals `CreateMember` |
| `OwnersService.OrganizationUsersService.Forbids` | src/modules/organization-users/organization-users.service.ts:171-189 | the rank rules for actors who are members |
| `OwnersService.OrganizationUsersService.Update` | src/modules/organization-users/organization-users.service.ts:153-210 | equals `UpdateMember`, every refusal in order |
| `OwnersService.OrganizationUsersService.Remove` | src/modules/organization-users/organization-users.service.ts:212-236 | equals `RemoveMember` |
| `OwnersService.RolesService.Create` | src/modules/roles/roles.service.ts:20-56 | equals `CreateRole`, plan limits included |
| `OwnersService.RolesService.Update` | src/modules/roles/roles.service.ts:104-128 | equals `UpdateRole` |
| `OwnersService.RolesService.Remove` | src/modules/roles/roles.service.ts:130-138 | equals `RemoveRole`; a role in use cannot be deleted |
| `OwnersService.InvitationsService.CreateInvitation` | src/modules/invitations/invitations.service.ts:48-108 | equals `Invite` |
| `OwnersService.InvitationsService.AcceptInvitation` | src/modules/invitations/invitations.service.ts:199-263 | equals `Accept`, whose outcome `OwnerRequests.AcceptedIff` spells out; an expired invitation is marked although the call fails |
| `OwnersService.InvitationsService.AcceptInvitationInTransaction` | src/modules/invitations/invitations.service.ts:268-308 | equals `AcceptInTransaction` |

## Left out

- Controllers, DTO decoration, Swagger, cookies, mail, object storage, barcodes, logging, audit entries and cron wiring: no decisions that other functions depend on.
- Pagination, searches and plain CRUD services (clients, employees, suppliers, plans, categories, recipes): thin wrappers.
- Deleting accounts, organizations, users, products and product stocks: their cascades remove rows on both sides of the sums at once.
- Supply purchases, restocking of supplies, utilities, subscriptions, invoices and currency conversion: outside the services modelled here.
- Two overlapping completions, stock checks or production requests: the code takes no lock, so only `StockRuns` and `SeatRuns` say something about overlaps.
- The advisory lock of imports, row locks and transaction isolation: taken as what makes a commit one step.
- Names, dates, notes, categories of transactions, payment methods as values, users who performed an operation: stored and not read by the modelled code.
- SaleCreate: applied-discount rows, usage counts and utility rows are not modelled; looking a discount code up is a parameter.
- ProcessProductionCompletion: a draft completes with the stocks read inside the transaction; its status, read outside, is taken as still current.
- TtlOf: lifetimes are whole seconds; a remainder that Redis rounds to zero, with which SET fails, does not occur.
- RevokeAll: like every session call that waits for its Redis commands it is one step; sign-ins between its commands are not modelled.
- List: the order of the listed sessions (most recently used first) is not modelled.
- RefreshToken: verifying the signature is taken as checking the expiry of a claim record.
- Prepare: column checks that identities do not depend on (numbers, dates, e-mail addresses, other enumerations, employees' users) enter as one flag per row.
- CreateRows: columns that identities do not read, stock rows made beside products and supplies, and barcodes are not modelled; the SKU formatter is a parameter.
- AllOperations: a wrapped call inside an open transaction runs on another connection; that it does not see the open transaction's uncommitted rows is not modelled.
- Exec: updates change columns other than the organization and the unique one; ordering, paging and aggregates are functions of the matched rows.
- CreateMember: the plan's user limit is a parameter.
- AcceptInvitation: only the letters A to Z have a case here.
- CreateInvitation: sending the e-mail is not modelled.
- Allocate: integers are unbounded and division is exact, where the code uses doubles.
- Allow: INCR and PEXPIRE are one step.
