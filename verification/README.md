# The transactional core of the ERP backend, as a verified model

The backend sells over the counter and to dealers, buys, stocks, repairs and
collects. This project models the part where those activities meet: one state of
stock, orders, invoices, payments, journals, repair jobs, branches, keys and document
numbers, changed by service calls that each commit or leave no trace. It proves what every call keeps,
what any run of calls guarantees, and exactly when a call goes through. Beside it
stand the money arithmetic the calls rely on and two smaller protocols, refresh-token
rotation and lock-serialised numbering.

## Units and conventions

- Money is an integer number of paise, quantities are in 1/1000 of a base unit,
  percentages in 1/100 (a rate `g` stands for `g / PERCENT`), purchase rates and landed
  unit costs in 1/10000. Decimal division is an exact rational followed by one rounding.
- A row's id is its position in its table. Dates and times are integers.
- Each service call is atomic. Clocks (`today`, `asOf`, `now`), the product and customer
  rows a call reads, and whether a user is active are parameters.
- Row order is whatever the database returns, so the batches a call picks are not
  determined. A plan records the choice; `IsEarliestFirst` says which plans the code may
  pick, and every theorem holds for all of them.
- A batch never changes once created, so a reference to it carries its expiry.
- Services that update stored rows are classes whose methods are proved equal to a
  step on values; what the steps keep is proved about the values. `Commits.Backend`
  joins the two: every successful call is exactly one enabled step of `Runs`, every
  refused one changes nothing. Every step has its method.
- A unique constraint that an insert violates is a refusal like any other: the call
  fails and its transaction, the number it drew included, rolls back.
- Every lemma switches automatic induction off, so each proof is what its body says.

## Layout

| files | what they hold |
|---|---|
| Money, Apportion, LandedCost, Pricing | rounding, tax splits, largest-remainder shares, line prices |
| Fefo, FefoComposition | earliest-expiry-first allocation |
| Stock, StockLines, Fulfilment, Inventory | balances, ledger, reservations, and when a document's lines go through |
| Documents, Settlement, Bookkeeping, JournalEffects, Persistence | invoices, payments, allocations, journals; what each path writes |
| Accounting, Statement, Collections | posting, trial balance, customer statement, receipts |
| Catalogue, SaleRules, Sales, Idempotency | quotes and counter sales |
| OrderRules, Wholesale, CreditLimit | orders, reservations, dispatch, credit |
| Repairs, ServiceJobs | repair jobs, their parts and bills |
| Numbering, Registers, Branches | printed numbers, the tables that refuse a taken one, and branch codes |
| NumberingProtocol | issuing numbers concurrently |
| Runs, Guarantees, Progress, Shipping, GeneralLedger, OrderLinks, Commits | the state machine and what holds over its runs |
| Witnesses | runs in which the code does not do what it says |
| AuthRules, Auth | sessions and refresh tokens |

## Where the code does not do what it says

- `allocate` promises shares that always add up to the total. For a negative total the
  penny loop runs over an empty range, so truncated paise are lost:
  `Apportion.SumsToTotal` has the exact condition, `Apportion.NegativeTotalLeaks` an input.
- `transfer` compares only with what is on hand and can take reserved stock.
  `Runs.TransferCovers` says exactly when it does not; `Witnesses.TransferTakesReserved`
  is a run in which it does.
- A confirmed order does not always ship: reservations that have expired are released
  first but cannot be issued. `Progress.DispatchProgress` has the exact condition,
  `Witnesses.ExpiredOrderStays` a run that ends with an order no choice of batches ships.
- The wholesale credit check counts invoices only, so two orders can pass it and
  together exceed the limit: `Witnesses.TwoOrdersBreakTheLimit` is such a run.
  `Shipping.WithinLimitExactly` says exactly when a customer who takes no new credit can
  come to owe more than a limit, over all runs and whatever anyone else does: when what
  is owed and the confirmed orders at some branches that can still number invoices side
  by side are above it. Where all branch codes differ in eleven characters that is all
  confirmed orders together (`Shipping.WithinLimitWithDistinctCodes`); elsewhere it can
  be less (`Witnesses.ConfirmedNeverOwed`). Sales and orders checked against what is owed
  and confirmed keep it over any run (`Guarantees.ExposureHolds`).
- `_prefix_for` cuts a branch code at eleven characters and expects the prefix to keep
  numbers apart. Stored numbers are always distinct (`Guarantees.DocumentNumbers`), but
  because the table refuses the second one: of two branches whose codes agree that far,
  the one behind is refused, exactly as `Guarantees.NumberRefusedExactly` says, and for
  ever (`Guarantees.OvertakenForEver`). `Witnesses.SecondBranchRefused` is a run.
- `SalesOrderItem.reserved_quantity` is not cleared at dispatch, so the pool is tied to
  the orders whose status is CONFIRMED (`OrderRules.PoolIs`, `OrderLinks.OrderStateOk`).

## Model

| member | source | states |
|---|---|---|
| Money.HalfUpExactly | backend/app/common/money/decimal.py:31-33 | Half-up rounding is the nearest paisa with ties away from zero, and nothing else is |
| Money.HalfUpMonotone | backend/app/common/money/decimal.py:31-33 | Rounding never reverses an order |
| Money.DiscountBounds | backend/app/common/money/decimal.py:41-46 | A discount is refused exactly outside 0..100 %, stays between zero and the amount, and a deeper one never leaves more to pay |
| Money.TaxRoundTrip | backend/app/common/money/decimal.py:49-66 | Splitting net plus its exclusive tax returns that net and that tax, for every net and every rate |
| Money.SplitReconstitutes | backend/app/common/money/decimal.py:56-66 | Net and tax of an inclusive price add back to it, and neither is negative when the price is not |
| Money.InclusiveNearExclusive | backend/app/common/money/decimal.py:49-66 | Up to 100 %, the inclusive tax and the exclusive tax of its net differ by at most one paisa |
| Apportion.Allocate | backend/app/common/money/decimal.py:69-101 | The array algorithm returns the largest-remainder split, the truncated one for a negative total, everything on the first line when all weights are zero, and its two errors exactly |
| Apportion.SpreadPennies | backend/app/common/money/decimal.py:99-100 | The penny loop adds one paisa to exactly the chosen shares |
| Apportion.SumsToTotal | backend/app/common/money/decimal.py:72-74 | Shares add up to the total if and only if the total is not negative, or all weights are zero, or no share needs rounding |
| Apportion.NegativeTotalLeaks | backend/app/common/money/decimal.py:93-100 | Minus one paisa over two equal weights comes back as nothing |
| Apportion.WithinOnePaisa | backend/app/common/money/decimal.py:88-101 | Each share is within one paisa of the exact proportion, never negative, and a line of no weight gets nothing |
| Apportion.HeavierNeverGetsLess | backend/app/common/money/decimal.py:94-100 | A heavier line, or an equal one listed earlier, never gets less |
| Apportion.LeastSquares | backend/app/common/money/decimal.py:88-101 | No other split of the total into whole paise has a smaller summed squared distance from the exact shares |
| LandedCost.HalfEvenIsNearest | backend/app/modules/purchases/landed_cost.py:90 | The unit cost is the nearest 1/10000 with ties to even, and nothing else is |
| LandedCost.NetValueIs | backend/app/modules/purchases/landed_cost.py:55-59 | A line has a net value exactly when both discounts are within 0..100 %, and it is the one value that is rate times billed quantity less trade and then cash discount, each to the nearest paisa |
| LandedCost.ComputeLandedCost | backend/app/modules/purchases/landed_cost.py:62-107 | Accepted exactly when every line has a positive billed and no negative free quantity, discounts in 0..100 % and no negative net value; each net value is rate times billed quantity less the trade and then the cash discount, each to the nearest paisa; overhead is apportioned by net value, each unit cost is the nearest 1/10000 with ties to even, and landed line totals add up to goods value plus overhead if and only if overhead is not negative, goods are worth nothing, or no share needs rounding |
| Pricing.BestSlab | backend/app/modules/pricing/engine.py:76-81 | The eligible slab of the highest threshold, the first of equals, and none exactly when none is eligible |
| Pricing.FirstSourceWins | backend/app/modules/pricing/engine.py:84-104 | The unit price is that of the first source in priority that applies |
| Pricing.PricedLineRounds | backend/app/modules/pricing/engine.py:115-125 | Gross, discounted price and tax are each the nearest paisa to the product or quotient they stand for, inclusive or exclusive |
| Pricing.PricedLine | backend/app/modules/pricing/engine.py:84-150 | A line is priced exactly for a positive quantity, a discount in 0..100 % and a rate not negative; no figure is negative, total is net plus tax, and tax is never charged on nothing |
| Catalogue.PricedLineOk | backend/app/modules/sales/service.py:127-138 | The same for a cart line of either channel, given its product row |
| Catalogue.LineIsCharged | backend/app/modules/sales/service.py:122-152 | A priced line charges the retail price, or the MRP where there is none, or a dealer the wholesale price from one unit up; its net is that price times quantity less the discount, its tax the GST on the net, each to the nearest paisa |
| Catalogue.CartIsCharged | backend/app/modules/sales/service.py:156-158 | A cart's subtotal and tax are the sums of such figures, one per line, and the total is their sum |
| Catalogue.CartTotalsAddUp | backend/app/modules/sales/service.py:156-158 | Cart totals add up, are never negative, and a cart worth nothing before tax is worth nothing |
| Fefo.AllocateFefo | backend/app/modules/inventory/fefo.py:45-74 | Succeeds exactly when the request is positive and within the sum over rows without expiry or expiring after the date; returns the earliest-first walk, every batch of it undated or expiring after the date |
| Fefo.FefoPlanIsFresh | backend/app/modules/inventory/fefo.py:56-74 | No batch a walk picks has reached its expiry date |
| Fefo.FefoPlanIsEarliestFirst | backend/app/modules/inventory/fefo.py:38-74 | Whatever order rows arrive in, the walk is an earliest-first plan for exactly the request and touches no batch expired by the date |
| Fefo.Dominance | backend/app/modules/inventory/fefo.py:68-74 | For every date, an earliest-first plan takes from batches expiring by it the lesser of the request and what they have |
| Fefo.OrderIndependence | backend/app/modules/inventory/fefo.py:45-74 | Two plans for one request take the same from the batches expiring by any date |
| FefoComposition.IssueComposes | backend/app/modules/inventory/service.py:151-191 | Issuing q1 and then q2 leaves every balance as issuing q1 + q2 at once does, for one order of the rows |
| FefoComposition.TakenTogether | backend/app/modules/inventory/fefo.py:56-74 | Each batch gives the two issues together what it gives the single one |
| Stock.IssueEffect | backend/app/modules/inventory/service.py:151-191 | Issuing lowers on-hand and sellable totals by the quantity, touches no reservation and leaves reservations covered |
| Stock.ReserveEffect | backend/app/modules/inventory/service.py:264-294 | Reserving moves exactly the quantity from sellable to reserved and touches no stock |
| Stock.ReleaseEffect | backend/app/modules/inventory/service.py:296-325 | Releasing lowers the pool by the quantity, its expired part first |
| Stock.ReleaseFrees | backend/app/modules/inventory/service.py:296-325 | Only what is released from unexpired batches becomes sellable |
| Stock.ReleaseNeverLowers | backend/app/modules/inventory/service.py:296-325 | Even where reservations are not covered, a release never makes less sellable |
| StockLines.PostKeeps | backend/app/modules/inventory/service.py:75-106 | A movement that does not oversell its row keeps every row equal to the sum of its movements and not negative |
| StockLines.PostCovers | backend/app/modules/inventory/service.py:75-106 | It leaves reservations covered exactly when the row still holds what it promises |
| StockLines.IssueKeeps | backend/app/modules/inventory/service.py:151-191 | Issuing keeps the projection and the cover of reservations |
| StockLines.IssueIsFresh | backend/app/modules/inventory/service.py:151-191 | No plan an issue or a reservation may follow picks a batch from its expiry date on |
| StockLines.ReserveKeeps | backend/app/modules/inventory/service.py:264-294 | Reserving keeps both |
| StockLines.ReleaseKeeps | backend/app/modules/inventory/service.py:296-325 | Releasing keeps both |
| StockLines.DispatchLinesEffect | backend/app/modules/sales/wholesale_service.py:251-269 | Dispatching any lines, products repeated or not, shrinks the pool by each product's sum, expired part first, which unreserved stock pays for |
| StockLines.DispatchLinesHold | backend/app/modules/sales/wholesale_service.py:251-269 | In any world, transfers of reserved stock included, it shrinks the pool by each product's sum and what is sellable by no more than that |
| StockLines.IssueTakesLines | backend/app/modules/sales/service.py:229-277 | Issuing any lines lowers what is on hand by each product's summed quantity at that warehouse and changes no other total |
| StockLines.DispatchTakesLines | backend/app/modules/sales/wholesale_service.py:251-269 | Dispatching does the same to what is on hand and to the pool, in any world |
| Inventory.InventoryRepository.UpsertBalanceDelta | backend/app/modules/inventory/repository.py:44-68 | Changes one row's on-hand by the delta, creating it at zero |
| Inventory.InventoryRepository.AdjustReserved | backend/app/modules/inventory/repository.py:95-109 | Changes one existing row's reservation; refuses a missing row |
| Inventory.InventoryRepository.BatchAvailabilityRows | backend/app/modules/inventory/repository.py:70-93 | Lists exactly the rows with something unreserved |
| Inventory.InventoryRepository.ReservedBalances | backend/app/modules/inventory/repository.py:111-131 | Lists exactly the rows holding a reservation |
| Inventory.InventoryService.PostMovement | backend/app/modules/inventory/service.py:64-107 | Appends one movement whose sign is that of its type and moves one row by it, exactly when the row is not oversold; every refusal changes nothing |
| Inventory.InventoryService.Available | backend/app/modules/inventory/service.py:130-149 | The sellable quantity: over batches without expiry or expiring after the date, what is on hand and not reserved |
| Inventory.InventoryService.IssueFefo | backend/app/modules/inventory/service.py:151-191 | Succeeds exactly when the request is positive and sellable, and posts an earliest-first plan of unexpired batches, every ledger row negative, of that type and warehouse |
| Inventory.InventoryService.Adjust | backend/app/modules/inventory/service.py:193-262 | Additions, of the two signed types only, land on the un-batched row; reductions are taken like a sale, exactly when sellable |
| Inventory.InventoryService.CreateAdjustment | backend/app/modules/inventory/api.py:305-330 | Admits adjustment, reconciliation, damage and expiry only; damage and expiry always reduce, whatever sign was given |
| Inventory.InventoryService.Reserve | backend/app/modules/inventory/service.py:264-294 | Succeeds exactly when the request is positive and sellable, and holds an earliest-first plan of unexpired batches |
| Inventory.InventoryService.ReleaseReservation | backend/app/modules/inventory/service.py:296-325 | Over-releases exactly when more is asked than the pool holds; otherwise releases an earliest-first plan |
| Inventory.InventoryService.ReleaseRows | backend/app/modules/inventory/service.py:309-323 | The release loop takes the walk over the sorted rows and returns what is left over |
| Inventory.InventoryService.Transfer | backend/app/modules/inventory/service.py:327-356 | Goes through exactly when the source row has the quantity on hand, reserved or not; writes one row out and one row in |
| Fulfilment.IssuedMeansEnough | backend/app/modules/sales/service.py:229-257 | If every line of a sale was issued, each product's summed quantity was sellable |
| Fulfilment.RefusedMeansShort | backend/app/modules/sales/service.py:229-257 | If a line is refused, some product's summed quantity was not |
| Fulfilment.ReservedMeansEnough | backend/app/modules/sales/wholesale_service.py:180-188 | If every line of an order was reserved, each product's summed quantity was sellable |
| Fulfilment.UnreservedMeansShort | backend/app/modules/sales/wholesale_service.py:180-188 | If a line cannot be reserved, some product's was not |
| Fulfilment.ReleasedEnough | backend/app/modules/sales/wholesale_service.py:252-269 | After a release, the issue succeeds exactly when unreserved stock covers the expired part of what was released |
| Fulfilment.StuckMeansUnshippable | backend/app/modules/sales/wholesale_service.py:251-269 | If a dispatch stops at a line, some product was not shippable |
| Fulfilment.ShippedMeansShippable | backend/app/modules/sales/wholesale_service.py:251-269 | If a dispatch went through, every product was shippable |
| Fulfilment.NeverOverReleases | backend/app/modules/sales/wholesale_service.py:252-257 | At every line of a dispatch, while the pool held the document, it still holds the line |
| Fulfilment.EnoughShips | backend/app/modules/sales/wholesale_service.py:258-269 | And while unreserved stock covered the document, it still covers the line |
| Settlement.AllocatePayment | backend/app/modules/collections/allocation.py:36-57 | Oldest first, never more than is owed; allocated is the lesser of the amount and what is owed, the rest unallocated |
| Settlement.CumulativeSettlement | backend/app/modules/collections/allocation.py:41-50 | The first k open invoices together get the lesser of the amount and what they owe |
| Settlement.FifoComposes | backend/app/modules/collections/allocation.py:36-57 | Two receipts give every invoice what one receipt of both gives |
| Settlement.FifoSkipsPaid | backend/app/modules/collections/service.py:138-151 | Leaving PAID invoices out of the query changes no allocation |
| Settlement.CustomerOrderIs | backend/app/modules/collections/service.py:138-151 | The query lists exactly the customer's invoices, oldest first |
| Settlement.SettledOk | backend/app/modules/collections/service.py:90-106 | Settling keeps every invoice within its total with the right status |
| Settlement.ReceiptsCompose | backend/app/modules/collections/service.py:79-106 | Receipts of a then b leave the paid amounts, statuses and total advance of one receipt of a + b |
| Bookkeeping.SaleJournalBalances | backend/app/modules/sales/service.py:354-384 | A sale's journal has two lines or more, one positive side each, equal sides, whatever the tenders and credit; the receivable gets the unpaid part |
| Bookkeeping.DispatchJournalBalances | backend/app/modules/sales/wholesale_service.py:290-309 | The same for a dispatch, the receivable getting the total |
| Bookkeeping.ReceiptJournalBalances | backend/app/modules/collections/service.py:108-122 | The same for a receipt, the receivable losing the amount |
| Bookkeeping.LinkedExtends | backend/app/modules/sales/service.py:302-324 | New payments and allocations keep every paid amount equal to its allocations and no payment overspent |
| Bookkeeping.SaleReconciles | backend/app/modules/sales/service.py:279-334 | A sale keeps the books agreeing with the documents |
| Bookkeeping.DispatchReconciles | backend/app/modules/sales/wholesale_service.py:233-309 | So does a dispatch |
| Bookkeeping.ReceiptReconciles | backend/app/modules/collections/service.py:55-131 | So does a receipt |
| Bookkeeping.ReceiptThenReceipt | backend/app/modules/collections/service.py:55-131 | On the whole books, two receipts leave the invoices, advance and receivable of one receipt of both amounts |
| Documents.ReceivableAgrees | backend/app/modules/sales/service.py:382-384 | The receivable is what invoices are owed less unapplied receipts, receipt by receipt |
| Documents.FilterLosesNothing | backend/app/modules/sales/wholesale_service.py:71-84 | Summing only not-PAID invoices loses nothing |
| Accounting.AccountingService.Post | backend/app/modules/accounting/service.py:77-128 | Posts exactly the entries with two lines or more, one positive side each and equal non-zero sides; refusals append nothing |
| Accounting.AccountingService.GetTrialBalance | backend/app/modules/accounting/api.py:54-102 | Rows are the accounts with lines in range in code order with their turnover on each side, summed entry by entry straight from the journal; totals are those of all entries in range; balanced whenever every entry is |
| Accounting.TurnoverIs | backend/app/modules/accounting/api.py:60-86 | The joined lines in range add up, per account and in all, to what the entries dated in the range put on each side, each entry once |
| Accounting.GroupsAddUp | backend/app/modules/accounting/api.py:60-86 | The account groups add up to all the lines |
| Accounting.TrialBalanceBalances | backend/app/modules/accounting/api.py:60-102 | Reconciled books balance for every date range |
| Statement.RunBalance | backend/app/modules/accounting/api.py:262-275 | Each row's balance is the opening one plus everything up to it |
| Statement.HistoryIs | backend/app/modules/accounting/api.py:217-262 | What the two queries return lists every invoice and every receipt of the customer in the range exactly once |
| Statement.GetCustomerLedger | backend/app/modules/accounting/api.py:217-287 | The rows are the customer's invoices and receipts dated in the range, each once and nothing else, dates never going back and invoices before receipts on one date; it closes at opening plus invoiced less received |
| Statement.StatementCloses | backend/app/modules/accounting/api.py:245-287 | Unfiltered, it closes at opening plus the customer's outstanding less the customer's unapplied receipts |
| Collections.CollectionsService.ReceivePayment | backend/app/modules/collections/service.py:55-131 | Goes through exactly for a positive amount and an existing customer; inserts one payment of the day by that method, settles the lesser of the amount and what the customer owes, lists exactly the invoices it completes, posts one entry that puts the amount on the account of its method and takes it off the receivable, and keeps the books reconciled |
| Collections.CollectionsService.SettleInvoices | backend/app/modules/collections/service.py:90-106 | The loop over the allocations leaves each invoice and allocation row as the settlement says |
| Collections.CollectionsService.CustomerLedgerBalance | backend/app/modules/collections/service.py:132-136 | The balance shown equals the outstanding both credit checks sum |
| Collections.AllocatedIs | backend/app/modules/collections/service.py:79-86 | A receipt settles the lesser of its amount and the customer's outstanding |
| SaleRules.SaleInvoiceOk | backend/app/modules/sales/service.py:279-324 | The invoice a sale writes has 0 <= paid <= total and the status its payment deserves |
| SaleRules.SaleIsCharged | backend/app/modules/sales/service.py:229-324 | The invoice of an accepted sale carries the cart's charge in the products' own prices, the request's branch, customer and date, what the tenders paid and the status that implies |
| SaleRules.SaleKeepsBooks | backend/app/modules/sales/service.py:168-352 | An accepted sale keeps the books reconciled |
| SaleRules.SaleKeepsLimit | backend/app/modules/sales/service.py:296-300 | It never takes a customer past a positive limit they were within |
| SaleRules.PaymentOkExactly | backend/app/modules/sales/service.py:285-300 | The payment rules accept exactly the sales paid in full and the ones that leave a known customer, after the sale, owing no more than the limit |
| Sales.SalesService.Quote | backend/app/modules/sales/service.py:107-166 | Quotes exactly the priceable carts, each line with its charge in the product's own prices and what is sellable, and their totals |
| Sales.SalesService.IssueCart | backend/app/modules/sales/service.py:229-277 | The line loop succeeds exactly for a priceable cart whose summed quantities are sellable, and takes exactly those quantities out of the warehouse |
| Sales.SalesService.EnforceCreditLimit | backend/app/modules/sales/service.py:397-432 | Allows exactly a known customer without a limit or within it |
| Sales.SalesService.TakePayments | backend/app/modules/sales/service.py:302-321 | One payment and one allocation per tender, in order |
| Sales.SalesService.PostSaleJournal | backend/app/modules/sales/service.py:354-395 | Never refused: appends one entry of the invoice's date that puts on every account what the invoice and its tenders say, or none for a total of zero |
| Sales.SalesService.Start | backend/app/modules/sales/models.py:43-45 | The invoice row is inserted exactly when its number is free on paper and its branch and customer exist |
| Sales.SalesService.CreateRetailInvoice | backend/app/modules/sales/service.py:168-352 | A recorded key replays its invoice and changes nothing; otherwise the sale goes through exactly when SaleOk, its number free included, with the whole new state: an invoice that charges the cart, one payment and allocation per tender, its journal entry, and the summed quantities gone from the warehouse; a refusal leaves no trace |
| Sales.QuotedCartFinalizes | backend/app/modules/sales/service.py:107-166 | A quoted cart finalizes exactly when summed quantities are within the quoted availability, the payment suits the quoted total, the customer exists and no branch that prints the same prefix is ahead; the invoice shows the quoted figures |
| Idempotency.IdempotencyService.Record | backend/app/modules/idempotency/service.py:24-42 | Records a new key and refuses a recorded one |
| OrderRules.DispatchKeepsBooks | backend/app/modules/sales/wholesale_service.py:200-316 | Dispatching an order keeps the books reconciled |
| OrderRules.OrderIsCharged | backend/app/modules/sales/wholesale_service.py:128-172 | Every item of a new order carries its line's charge at dealer prices, and the order's totals are their sums |
| OrderRules.PoolHoldsOrder | backend/app/modules/sales/wholesale_service.py:251-257 | The pool holds every confirmed order in full, whatever the other orders hold |
| OrderRules.NeverOverReleased | backend/app/modules/inventory/service.py:324-325 | At every item of the loop that dispatches a confirmed order, the pool still holds the item, transfers of reserved stock or not |
| OrderRules.ConfirmedShipsExactly | backend/app/modules/sales/wholesale_service.py:251-269 | A confirmed order ships if and only if, product by product, unreserved stock covers the expired part of what it releases |
| OrderRules.UnexpiredOrderShips | backend/app/modules/sales/wholesale_service.py:251-269 | It ships whenever no row holding a reservation for its products has expired |
| Wholesale.WholesaleService.TakeNumber | backend/app/modules/sales/order_models.py:29-31 | A number is given exactly at an existing branch where no stored document prints it |
| Wholesale.WholesaleService.CreateOrder | backend/app/modules/sales/wholesale_service.py:86-198 | Goes through exactly when OrderOk, its number free included, with the whole new state: every item and the totals charge the cart at dealer prices; a refusal leaves no trace |
| Wholesale.WholesaleService.EnforceCreditLimit | backend/app/modules/sales/wholesale_service.py:318-330 | Allows exactly an override, no limit, or invoices plus this order within it |
| Wholesale.WholesaleService.ReserveCart | backend/app/modules/sales/wholesale_service.py:180-188 | The reservation loop succeeds exactly when every product's summed quantity is sellable |
| Wholesale.WholesaleService.ShipItems | backend/app/modules/sales/wholesale_service.py:251-270 | While reservations are covered the release-then-issue loop succeeds exactly when the order is shippable; while the pool holds the order no release fails, and while stock covers it too nothing does; marks every item shipped |
| Wholesale.WholesaleService.DispatchAndInvoice | backend/app/modules/sales/wholesale_service.py:200-316 | Only a confirmed order whose invoice number is free ships; then, while reservations are covered, exactly when shippable, and in any world when pool and stock cover it; no release fails while the pool holds it; with the whole new state: an unpaid invoice of the day of the dispatch, its journal entry, and the items gone from pool and warehouse; a refusal leaves no trace |
| CreditLimit.ReceiptLowersOutstanding | backend/app/modules/collections/service.py:79-106 | A receipt lowers its customer's outstanding by the amount or to zero, and nobody else's |
| CreditLimit.DispatchKeepsExposure | backend/app/modules/sales/wholesale_service.py:233-288 | A dispatch moves the order's total from what the customer's confirmed orders will cost to what is owed: their sum stands still |
| CreditLimit.DispatchKeepsOwed | backend/app/modules/sales/wholesale_service.py:233-288 | Dispatching at one of some branches leaves what is owed plus what is confirmed there as it was |
| CreditLimit.OrderCheckIs | backend/app/modules/sales/wholesale_service.py:318-330 | The order check is the check of what is owed and confirmed afterwards with what is confirmed already added to the limit |
| CreditLimit.FirstOrderCheckSuffices | backend/app/modules/sales/wholesale_service.py:318-330 | For a customer with nothing confirmed yet, the order check is exactly that what is owed and confirmed afterwards is within the limit |
| ServiceJobs.ServiceJobService.CreateJob | backend/app/modules/service_jobs/service.py:51-89 | Goes through exactly when its number is free at an existing branch; the job starts with nothing on it |
| ServiceJobs.IntakeIs | backend/app/modules/service_jobs/service.py:51-89 | A new job is under warranty exactly when a warranty of its serial number covers the day it came in, both ends included |
| ServiceJobs.ServiceJobService.ConsumePart | backend/app/modules/service_jobs/service.py:91-139 | Goes through exactly for a known job and part with enough sellable; deducts it and adds the nearest paisa of retail price times quantity to the bill, with the whole new state |
| ServiceJobs.ServiceJobService.ReturnPart | backend/app/modules/service_jobs/service.py:141-170 | Once per part; puts it on the un-batched row and takes the nearest paisa of its price times quantity off the bill |
| ServiceJobs.ServiceJobService.SetLabourAndComplete | backend/app/modules/service_jobs/service.py:172-191 | The payable is labour plus the unreturned parts' value, parts waived under warranty |
| Repairs.ConsumeKeeps | backend/app/modules/service_jobs/service.py:108-134 | Parts totals stay the value of unreturned parts, and the ledger's repair movements stay minus what is out at jobs |
| Repairs.ReturnKeeps | backend/app/modules/service_jobs/service.py:155-170 | So after a return |
| Repairs.IntakeKeeps | backend/app/modules/service_jobs/service.py:51-89 | And after a new job |
| Repairs.CompleteKeeps | backend/app/modules/service_jobs/service.py:172-196 | And when labour is set |
| Repairs.WorkshopKept | backend/app/modules/inventory/service.py:64-107 | And across any movements of other kinds |
| Repairs.ReturnRestoresTotal | backend/app/modules/service_jobs/service.py:108-170 | Consuming then returning restores the total over batches, and each row exactly when all came from the un-batched row |
| Runs.StepKeeps | backend/app/modules/inventory/service.py:55-356 | Every step, transfers included, keeps balances equal to their movements, the pool equal to the confirmed orders, the books reconciled, keys sound, the numbers of every table gapless and distinct on paper, and repair jobs in step with the ledger |
| Runs.StepCovers | backend/app/modules/inventory/service.py:327-356 | Every step leaves reservations covered, except exactly the transfers that take reserved stock |
| Runs.TransferCovers | backend/app/modules/inventory/service.py:79-80 | A transfer leaves them covered if and only if it takes no more than the source row's unreserved stock, or ends where it began |
| Guarantees.StockAlwaysAdds | backend/app/modules/inventory/repository.py:44-68 | In every reachable world each row is the sum of its movements and not negative, and reserved equals the confirmed orders' quantities; reserved <= on hand while no transfer took reserved stock |
| Guarantees.LedgerOnlyGrows | backend/app/modules/inventory/repository.py:40-42 | The movement ledger of any run extends the one it started from |
| Guarantees.MovementsHaveTheirSign | backend/app/modules/inventory/models.py:52-82 | In every reachable world every ledger row has the sign of its type: sales, dispatches, damage, expiry and consumed parts only took stock out, receipts and returns only brought it in |
| Guarantees.BooksAlwaysAgree | backend/app/modules/accounting/api.py:54-287 | In every reachable world the receivable agrees with the documents, every statement closes at the customer's share, and the trial balance balances for every range |
| Guarantees.InvoicesAlwaysConsistent | backend/app/modules/sales/service.py:434-440 | In every reachable world paid equals the allocations and is within the total, the status is the one that implies, and the not-PAID sum is all that is owed |
| Guarantees.LimitHolds | backend/app/modules/sales/service.py:285-300 | Over any run of sales and collections, a customer with a fixed positive limit who starts within it stays within it |
| Guarantees.StepExposure | backend/app/modules/sales/wholesale_service.py:71-84 | What each step adds to the sum of what a customer owes and has confirmed: sales and orders their unpaid totals, receipts less what they settle, dispatches nothing |
| Guarantees.ExposureHolds | backend/app/modules/sales/wholesale_service.py:318-330 | Over any run in which each of the customer's sales and orders keeps that sum within a limit, dispatches included, the customer never owes more |
| Guarantees.RetriesStutter | backend/app/modules/sales/service.py:185-200 | A run ends in the same state as the run with every retry of a recorded key dropped |
| Guarantees.OneSalePerKey | backend/app/modules/sales/service.py:336-343 | In what is left, each key sells at most once |
| Guarantees.KeyStays | backend/app/modules/idempotency/service.py:24-42 | A recorded key names the same invoice for ever |
| Guarantees.KeysNameInvoices | backend/app/modules/idempotency/models.py:18 | Each key names one existing invoice, and no invoice has two keys |
| Guarantees.WorkshopAlwaysAgrees | backend/app/modules/service_jobs/service.py:108-196 | In every reachable world each job's bill is labour plus its unreturned parts, waived under warranty, and the ledger's repair movements add up to minus what is out at jobs, whatever else it records |
| Guarantees.DocumentNumbers | backend/app/modules/numbering/models.py:1-5 | In every reachable world the invoices, orders, quotations and jobs of a branch are numbered 1, 2, ... without a gap, and no two documents of one table print the same number |
| Guarantees.NumberRefusedExactly | backend/app/modules/numbering/service.py:89-104 | The next document of a branch is refused for its number if and only if another branch, whose code agrees on eleven characters, has issued more; never while all codes differ that early |
| Guarantees.OvertakenForEver | backend/app/modules/numbering/service.py:89-104 | A branch so overtaken stays refused in every run and never issues another document of that type |
| Progress.DispatchProgress | backend/app/modules/sales/wholesale_service.py:227-288 | From any world reached without taking reserved stock, a confirmed order can be dispatched if and only if unreserved stock covers the expired part of its reservation and no branch that prints the same prefix has issued more invoices |
| Progress.UnexpiredDispatches | backend/app/modules/sales/wholesale_service.py:227-288 | So always when its invoice can be numbered and nothing reserved for its products has expired |
| Progress.EnoughDispatches | backend/app/modules/sales/wholesale_service.py:227-288 | And in every reachable world, transfers of reserved stock included, when its invoice can be numbered and unreserved stock covers it |
| Progress.DispatchNeverOverReleases | backend/app/modules/inventory/service.py:324-325 | In every reachable world, no release in the dispatch loop asks for more than the pool still holds |
| Progress.ShipPlansExist | backend/app/modules/inventory/service.py:151-191 | Line by line, a shippable document has batches to ship from |
| Shipping.AllShip | backend/app/modules/sales/wholesale_service.py:200-330 | For any branches that can number invoices side by side, some run of goods received and dispatches ships all of a customer's confirmed orders there, and the customer then owes what is owed now plus their totals |
| Shipping.NoWorse | backend/app/modules/sales/wholesale_service.py:200-330 | In no run in which a customer takes no new credit, whatever anyone else does, does the customer end up owing more than some such branches' orders make of it |
| Shipping.WithinLimitExactly | backend/app/modules/sales/wholesale_service.py:71-84 | So a customer who takes no new credit never owes more than a limit if and only if, for each choice of such branches, what is owed plus what is confirmed there is within it |
| Shipping.WithinLimitWithDistinctCodes | backend/app/modules/sales/wholesale_service.py:71-84 | What is owed plus everything confirmed being within the limit is always enough, and with codes that differ in eleven characters it is exact |
| Shipping.ReachableWithinLimit | backend/app/modules/sales/wholesale_service.py:318-330 | All of this in every reachable world |
| GeneralLedger.LedgerMatchesDocuments | backend/app/modules/accounting/service.py:25-45 | In every reachable world every account's balance is what invoices, tenders and receipts say |
| GeneralLedger.MoneyAccounts | backend/app/modules/accounting/service.py:36-43 | In every reachable world CARD is the sum of the payments by card, UPI of those by UPI, BANK of those by bank transfer or cheque, and CASH of the others |
| JournalEffects.SaleLinesBalance | backend/app/modules/sales/service.py:370-384 | A counter sale's journal puts on each account what the invoice and, by payment method, its tenders say |
| JournalEffects.CreditSaleBalance | backend/app/modules/sales/wholesale_service.py:290-309 | So does a dispatch's, everything on the receivable |
| JournalEffects.ReceiptLinesBalance | backend/app/modules/collections/service.py:108-122 | A receipt's journal puts the amount on the account of its method and takes it off the receivable |
| OrderLinks.OrdersMatchInvoices | backend/app/modules/sales/wholesale_service.py:270-288 | In every reachable world an order's rows, status and invoice agree, and no invoice belongs to two orders |
| Commits.Backend.Sell | backend/app/core/database.py:83-87 | A sale that succeeds is one enabled step, exactly for a retry or when SaleOk; one that fails changes nothing |
| Commits.Backend.Dispatch | backend/app/core/database.py:83-87 | A dispatch that succeeds is one enabled step and never fails in a release; while reservations are covered, exactly when the expired part is and the invoice can be numbered; in any world, when stock covers it, exactly when the invoice can |
| Commits.Backend.PlaceOrder | backend/app/core/database.py:83-87 | An order that succeeds is one enabled step, exactly when OrderOk |
| Commits.Backend.Collect | backend/app/core/database.py:83-87 | A receipt that succeeds is one enabled step, exactly for a positive amount and an existing customer |
| Commits.Backend.Transfer | backend/app/core/database.py:83-87 | A transfer that succeeds is one enabled step, exactly when the source row has the quantity on hand |
| Commits.Backend.Receive | backend/app/modules/inventory/service.py:109-128 | A receipt of goods that succeeds is one enabled step |
| Commits.Backend.Adjust | backend/app/modules/inventory/api.py:307-330 | A correction that succeeds is one enabled step, exactly for the four types and, once damage and expiry are made reductions, when it adds or is sellable |
| Commits.Backend.OpenBranch | backend/app/modules/organizations/api.py:125-152 | A branch that opens is one enabled step, exactly for a code of 1 to 20 characters no branch has |
| Commits.Backend.TakeIn | backend/app/modules/service_jobs/service.py:51-89 | A repair job taken in is one enabled step, exactly when its branch exists and is not overtaken |
| Commits.Backend.ConsumePart | backend/app/modules/service_jobs/service.py:91-139 | A part consumed is one enabled step, exactly for a known job and part with enough sellable |
| Commits.Backend.ReturnPart | backend/app/modules/service_jobs/service.py:141-170 | A part returned is one enabled step, exactly once per part |
| Commits.Backend.CompleteJob | backend/app/modules/service_jobs/service.py:172-191 | Setting labour is one enabled step, exactly for a known job |
| Numbering.NumberingService.NextNumber | backend/app/modules/numbering/service.py:40-87 | Returns the sequence's prefix and value, a new one starting at one with its branch's prefix, and stores the next; refused exactly for a new sequence of an unknown branch |
| Numbering.FormatRoundTrip | backend/app/modules/numbering/service.py:87 | A printed number gives back its prefix and its value |
| Numbering.FormatShows | backend/app/modules/numbering/service.py:87 | A printed number is the prefix, a dash and the value in five digits, or as many more as it needs |
| Numbering.BranchShows | backend/app/modules/numbering/service.py:89-104 | A branch's prefix is its code cut to eleven characters, a dash and INV, SO, QTN or JOB |
| Numbering.PrintedNumbersCollide | backend/app/modules/numbering/service.py:87-104 | Two numbers print the same if and only if they are of one document type, their values agree and their branches are one or share eleven characters of code |
| Numbering.LongCodesCollide | backend/app/modules/numbering/service.py:103-104 | Two different codes of twelve characters that print the same number |
| Registers.RegisterIssues | backend/app/modules/sales/models.py:43-45 | Storing a document whose number is free keeps its table gapless per sequence and distinct on paper |
| Registers.RefusedExactly | backend/app/modules/numbering/service.py:89-104 | In such a table the next number of a branch is taken if and only if a branch sharing eleven characters of code is ahead |
| Registers.IssueOvertakes | backend/app/modules/numbering/service.py:89-104 | Of two such branches, one that issues while not overtaken overtakes the other |
| Branches.BranchService.CreateBranch | backend/app/modules/organizations/api.py:125-152 | Opens a branch exactly for a code of 1 to 20 characters that no branch has |
| Witnesses.TwoOrdersBreakTheLimit | backend/app/modules/sales/wholesale_service.py:71-84 | A run in which two orders of 6.00 pass a limit of 10.00 without an override, both ship, and 12.00 is owed |
| Witnesses.TransferTakesReserved | backend/app/modules/inventory/service.py:327-356 | A run of receipt, order and transfer that ends with a reservation no stock covers |
| Witnesses.ExpiredOrderStays | backend/app/modules/sales/wholesale_service.py:251-269 | A run of receipt and order that ends, once the batch has expired, with a confirmed order no choice of batches ships |
| Witnesses.ConfirmedNeverOwed | backend/app/modules/numbering/service.py:89-104 | A run that ends with a confirmed order of 6.00 whose customer, taking no new credit, never owes anything: another branch has overtaken its own |
| Witnesses.SecondBranchRefused | backend/app/modules/numbering/service.py:103-104 | A run with two branches in which the second cannot number its first repair job |
| NumberingProtocol.CommittedNumbersAreGapless | backend/app/modules/numbering/service.py:55-87 | Under any interleaving, lock-key collisions and rollbacks included, the committed numbers of a scope are exactly 1..n |
| NumberingProtocol.StepKeeps | backend/app/modules/numbering/service.py:15-87 | What each uncommitted transaction wrote lies behind its locks and continues the committed numbers |
| NumberingProtocol.AloneIsNextNumber | backend/app/modules/numbering/service.py:40-87 | A transaction alone gets the prefix and value that NextNumber returns and leaves the sequences as NextNumber does |
| AuthRules.ReachableSessions | backend/app/modules/auth/service.py:133-263 | After any run, a session's tokens form one chain with exactly one unused tail, and it is revoked exactly when all its tokens are |
| AuthRules.EndedForGood | backend/app/modules/auth/service.py:148-167 | After a replay or a logout no token of that session ever rotates again, in any run |
| AuthRules.RotatesOnce | backend/app/modules/auth/service.py:180-193 | Once rotated, a token is a replay for ever after |
| AuthRules.OthersDoNotInterfere | backend/app/modules/auth/service.py:133-230 | A call that does not end a session, and is not about this token, leaves it able to rotate |
| AuthRules.FreshTokenRotates | backend/app/modules/auth/service.py:168-263 | A token issued by a login or a rotation, after any calls that neither end its session nor present it, rotates if and only if less than its lifetime has passed and its user is active |
| Auth.AuthRepository.RevokeSessionTokens | backend/app/modules/auth/repository.py:68-78 | Revokes exactly the session's tokens not yet revoked |
| Auth.AuthService.IssueSession | backend/app/modules/auth/service.py:232-263 | A new session of the user with one token that rotates until now + ttl and no longer, the invariant kept |
| Auth.AuthService.Refresh | backend/app/modules/auth/service.py:133-217 | Rotates exactly under its conditions, and the new token, of the same session and user, rotates until now + ttl; a spent token revokes its session and all its tokens although the call fails; any other failure changes nothing |
| Auth.AuthService.Logout | backend/app/modules/auth/service.py:219-230 | Ends the session of a known token and nothing else |

## Left out

- Plumbing: HTTP routers, schemas, permissions, configuration, logging, audit, notifications, reports, exports and the frontend.
- Database mechanics: SQL text, row locks, version columns and connection pools. Concurrency is modelled for numbering only; other calls are atomic.
- The organization column, and foreign keys to rows no call reads: one organization is fixed, and warehouse, batch, serial, technician and user ids, and product ids of goods received or adjusted, and a repair job's customer and product, are taken to name existing rows. Branches, and the customers of sales, orders and receipts, are checked.
- Column widths and 32-bit columns: texts fit and sequence values and amounts do not overflow.
- Fractions of a paisa in tenders and receipts: amounts are whole paise, since the code rounds the sum of tenders once and each tender separately.
- Pricing warnings (maximum discount, minimum margin): they never block a call.
- The chart-of-accounts table: the ten standard accounts are a datatype, so no code can be unknown.
- Invoice item rows and discount totals: an invoice keeps its subtotal, tax and total.
- Goods receipt orchestration and purchase journals: goods arrive as a `Receive` step, and `compute_landed_cost` is modelled on its own.
- Repair job details: complaint, technician, completion date, and the job states no call sets. A job is received or ready.
- Receipts of goods as repair returns: `receive` takes any movement type, and a part comes back through `return_part` only, as it does in every caller.
- Creation time as an order: rows of one date are taken in the order of their ids.
- Password hashing, lockout, token signing and token randomness: a token's id stands for it, and a login is a session issued after the credentials were accepted.
- Unit conversion, rate limiting and purchase-order status.
- Commits.Backend.Dispatch: once a transfer has taken reserved stock, success is promised when unreserved stock covers the order; between that and the covered case the outcome depends on which of two batches of one expiry the code picks, and only the effect of a success is stated.
- Wholesale.WholesaleService.DispatchAndInvoice: the same.
- FefoComposition.IssueComposes: for one row order kept between the two issues; with ties in expiry another order may leave other rows, with the same totals by date.
