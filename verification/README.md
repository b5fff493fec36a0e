# Verified model of the restaurant backend's money lifecycle

A Dafny 4.11 model of the parts of the restaurant platform where money, stock, kitchen tickets and sessions must
stay consistent: one bill's arithmetic and life, the tax-invoice series, payments and refunds, cash drawers, charge
bands, order intake, kitchen tickets, refresh-token rotation with the browser's refresh queue, the subscription clock
and loyalty accrual. `dafny verify dfyconfig.toml` checks the whole project.

## How the model is built

- Money is whole paise, percentages are hundredths of a percent, and rounding is round-half-to-even on exact
  rationals (`Money`).
- A request is one atomic step that commits or rolls back entirely, a refused request leaves the state as it was, and
  a theorem about runs quantifies over every finite list of requests. The one exception is the capture webhook, which
  commits what it had done before it failed. Where the source argues about interleavings (invoice counter, paid
  column, order intake, token refresh) the steps are single statements and the theorem quantifies over every schedule;
  a statement that has to wait for a lock is a step that changes nothing.
- Rows of a table are a sequence and a row's id is its index. Clocks, toggles, user roles, provider answers and
  signature checks are parameters of the request. In a ledger run every request carries the round-off switch as it
  stands when it is served, so runs in which the owner flips it are covered; a result that needs the switch to stay
  put says so.
- Code that updates objects in place is a class whose methods and loops are proved equal to a specification function;
  the laws are lemmas about those functions and about runs of them.

| module | about |
|---|---|
| `Money`, `BillTotals`, `BillFigures`, `BillOperations`, `BillEdits`, `BillService`, `BillSetup` | rounding, the totals of a bill and what its rows say, the requests on one bill and what each leaves on it, the in-place service, what a bill is set up with |
| `InvoiceNumber`, `GaplessSeries`, `PaymentRace` | number format and legal length; the counter under concurrent settlements; the paid column under concurrent payments |
| `Ledger`, `LedgerBills`, `LedgerTotals`, `LedgerInvoices`, `LedgerMoney`, `LedgerApplied`, `LedgerLines`, `LedgerLife`, `LedgerRows`, `LedgerDrawer`, `LedgerCash`, `TillService` | serial runs over bills, payments, refunds, drawers and counters, and the in-place services |
| `ChargeLadder`, `ChargePreview`, `Pricing` | charge bands, their selection and gaps; the preview; price rules |
| `Stock`, `OrderIntake`, `StockConservation` | stock rows; partner submissions racing on keys and rows |
| `Kitchen`, `KitchenLaws`, `KitchenSessions`, `KitchenService` | sessions, orders, tickets, transfers and merges |
| `TokenRotation`, `RotationRace`, `RefreshQueue`, `SingleFlight` | server token chains; exchanges and sweeps racing on rows; the client's queue; queue and server over a lossy network |
| `Calendar`, `SubscriptionClock`, `Loyalty` | month arithmetic, lazy status, reward and point accrual |

## Where the code departs from what it says

- `mark_bill_nc` comments that the recomputation already lands on PAID because 0 >= 0. It lands on OPEN whenever
  nothing was paid; only the explicit assignment closes the bill (`UnpaidStaysOpen`).
- `allocate` calls its length limit a million invoices a year. The limit is reached at ten million (`LegalIff`).
- `allocate` says a number that cannot be used rolls back with its transaction. The capture webhook commits instead: at
  the end of the series its bill is PAID without a number and the counter moves on (`OrderThenCaptureSettles`).
- A closed bill's totals are not frozen once the owner flips the round-off switch: a payment captured late reprices the
  bill, so one numbered at 100.00 rupees can come to 100.40 (`ClosedTotalIs`, `FlipReopensTotal`).
- `record_payment_applied` reads the paid column without a lock: of two payments of one bill at once the first is lost,
  and one payment confirmed twice at once is applied twice (`BalancedIffDistinctBills`).
- The reuse branch says it revokes the user's whole chain. An exchange that is under way outlives it, and so does one
  that was answered while the update waited (`SweepIsFinalIff`).
- `mark_bill_nc` says the bill lands at zero. With a flat charge it does not (`NoChargeZeroIff`).
- `_reject_if_billed` tells staff to settle or void the bill first, but a settled or voided bill blocks transfer and
  merge just the same, for ever (`BilledStaysPut`).
- `_cash_movement` leaves out the takings of fully refunded payments yet subtracts their refunds, so the expected
  figure is below the physical cash by exactly those takings (`DrawerEquation`).
- `_evaluate_rule` subtracts a number of transactions from a number of units, so points are overpaid as soon as
  another bill follows one that earned two units at once (`PointsExactIff`, `PointsOverpaid`).
- Adding months is monotone on dates but not on timestamps (`AddMonthsMonotoneIff`, `LateJanuaryOvertakes`).
- A cancelled order can come back through its ticket or its delivery status (`RevivedIff`, `CancelledIsFinalIff`).
- The preview says it shows what the guest would pay; it leaves the default service charge out
  (`PreviewMatchesBillIff`).
- `_apply_charge_bands` says bands are matched on the base that charges are computed on, but counts struck and free
  lines (`MatchedOnChargedIff`).
- A new bill for a session whose bill is closed bills that bill's lines again (`BilledTwiceIff`).

## Model

| member | source | states |
|---|---|---|
| Money.RoundUnique | backend/app/services/billing_service.py:132-147 | The rounding used on every money line is the one integer that is nearest and, on a tie, even |
| Money.RoundMonotone | backend/app/services/billing_service.py:132-147 | Rounding never swaps the order of two amounts |
| BillTotals.TotalIdentity | backend/app/services/billing_service.py:114-163 | grand = subtotal - discount + charges + tax + round-off; 0 <= discount <= subtotal; round-off within 50 paise, a whole-rupee total with the switch on and no round-off with it off |
| BillTotals.RecomputeIdempotent | backend/app/services/billing_service.py:87-171 | Recomputing a recomputed bill changes nothing |
| BillTotals.RecomputeForgetsDerived | backend/app/services/billing_service.py:87-171 | The outcome depends only on lines, discounts, tariffs, money paid and openness, never on stored totals |
| BillTotals.RecomputeMonotone | backend/app/services/billing_service.py:114-157 | A smaller discounted base raises no charge line, no tax line and no total, through clamp, per-line rounding and rupee round-off |
| BillTotals.SplitTaxWithinOnePaisa | backend/app/services/billing_service.py:174-187 | Charging an even rate as two equal halves moves a bill's total tax by at most one paisa |
| BillFigures.RecomputedIff | backend/app/services/billing_service.py:114-171 | A bill is the recomputed one if and only if every tax row is the nearest paisa, ties to even, to its percent of the discounted base plus the taxable charge rows, every percentage charge row the same of the base, every flat one as it was, every total the sum of its rows, the round-off to the nearest rupee, and the status what was paid against the total says |
| BillEdits.VoidStrikes | backend/app/services/billing_service.py:440-488 | A void is accepted exactly on an open bill, for a line not yet struck, from someone who may, with each refusal in its order; then exactly that line is struck and the subtotal falls by exactly its price, or not at all if it was free |
| BillEdits.CompFrees | backend/app/services/billing_service.py:513-548 | The same of a comp: exactly that line becomes free |
| BillEdits.UncompCharges | backend/app/services/billing_service.py:551-587 | The same of taking a comp back: exactly that line is charged again, unless it is struck |
| BillEdits.NoChargeGivesAway | backend/app/services/billing_service.py:590-641 | A no-charge mark is accepted exactly on a bill that is not cancelled, not no-charge and unpaid, from someone who may; every line not struck becomes free, the subtotal is zero and the bill PAID |
| BillEdits.DiscountAdds | backend/app/services/billing_service.py:323-345 | A discount adds one row, the amount or the nearest paisa to that percentage of the subtotal, and the bill is recomputed from the rows |
| BillEdits.RefreshAdds | backend/app/services/billing_service.py:265-320 | A refresh keeps the lines it finds, adds only lines of the orders, live and at the order's price, and sets up taxes and charges only where the bill has none |
| BillOperations.ReductionsNeverRaise | backend/app/services/billing_service.py:323-548 | A discount, a voided line or a comped line never raises a percentage charge, a tax line or the grand total |
| BillOperations.CompUncompRestores | backend/app/services/billing_service.py:513-587 | Comp then uncomp gives back the identical bill if and only if the comp did not settle it |
| BillOperations.ClosedWithoutPayment | backend/app/services/billing_service.py:165-171 | A discount, a voided line or a comped line closes an open bill exactly when something was paid on it and the new total no longer exceeds that; the bill keeps the number it had or has none |
| BillOperations.DiscountClosesUnnumbered | backend/app/services/billing_service.py:323-345 | On any part-paid bill without a number, a discount of any size makes it PAID, still without a number, exactly when what was paid covers the charges and taxes on what the discount leaves |
| BillOperations.NoChargeZeroIff | backend/app/services/billing_service.py:590-645 | A no-charge bill owes nothing exactly when every charge on it is a percentage, or, with round-off on, when its flat part rounds away |
| BillOperations.RefreshBillsEachLineOnce | backend/app/services/billing_service.py:265-280 | A refresh leaves billed lines where they are and puts every other order line on the bill exactly once |
| LedgerLines.BilledTwiceIff | backend/app/services/billing_service.py:252-279 | Over every run that bills a line for its own session only, a session has at most one open bill and the line ends up on two bills exactly when it was billed once more while a closed bill already carried it and the session's open bill, if any, did not |
| LedgerLife.LinesAndRatesStay | backend/app/services/billing_service.py:265-320 | Over every run a bill's lines are only added to, each keeps its order line and price, a struck line stays struck, discounts are only added, and tax and charge rates never change once set up |
| LedgerLife.StruckForEver | backend/app/services/billing_service.py:440-488 | Over every run a struck line stays struck at its price, and the bill's subtotal is what its other lines add up to |
| BillService.Bill.RecomputeTotals | backend/app/services/billing_service.py:87-171 | The in-place recomputation, loops and all, reaches exactly the specified state |
| BillService.Bill.PriceLines | backend/app/services/billing_service.py:114-163 | Charges, taxes, round-off and totals from lines and discount |
| BillService.Bill.RepriceCharges | backend/app/services/billing_service.py:124-137 | The charge loop rewrites percentage charges on the discounted base and keeps flat ones, with both running totals |
| BillService.Bill.RetaxLines | backend/app/services/billing_service.py:139-144 | The tax loop rewrites every tax line on the taxable value and totals them |
| BillService.Bill.SyncItems | backend/app/services/billing_service.py:265-280 | Adds the session's order lines that are not on the bill yet, in order |
| BillService.Bill.Refresh | backend/app/services/billing_service.py:265-320 | Syncs lines, sets up the taxes and charges it is given unless the bill has some, recomputes; refused on a closed bill |
| BillSetup.GenerateOrRefresh | backend/app/services/billing_service.py:241-320 | The same with the taxes and charges the source picks: the request's lists, else the tax components, else the bands selected for the discounted value of all lines, else the default service charge |
| BillSetup.TaxesSet | backend/app/services/billing_service.py:284-293 | Taxes named in the request are set as named; else the business's rate, or two halves of it, each the nearest hundredth of a percent; else none |
| BillSetup.ChargesSet | backend/app/services/billing_service.py:295-315 | Charges named in the request are set as named, always taxable; else one for each selected band; else the default service charge |
| BillSetup.MatchedOnChargedIff | backend/app/services/billing_service.py:210-223 | The value bands are matched on is the discounted base that charges are computed on exactly when no struck or free line has a price, or discounts cover every line |
| BillSetup.RaisedMatchesPreviewIff | backend/app/services/billing_service.py:241-320 | With no lists in the request and both defaults on, the bill a session is first raised with, taxes and bands picked as above, comes to the previewed totals exactly when a band matched or the business has no default service charge or it comes to less than a paisa, and, with round-off on, the previewed total is whole rupees |
| BillService.Bill.ApplyDiscount | backend/app/services/billing_service.py:323-345 | Adds the amount, or the percentage of the subtotal, and recomputes |
| BillService.Bill.VoidLine | backend/app/services/billing_service.py:440-488 | Each refusal in the source's order, or the struck line and new totals |
| BillService.Bill.CompLine | backend/app/services/billing_service.py:513-548 | Each refusal in the source's order, or the free line and new totals |
| BillService.Bill.UncompLine | backend/app/services/billing_service.py:551-587 | Each refusal in the source's order, or the line charged again |
| BillService.Bill.MarkNoCharge | backend/app/services/billing_service.py:590-641 | Comps every chargeable line, recomputes and closes; voided lines stay voided |
| BillService.Bill.VoidBill | backend/app/services/billing_service.py:396-437 | Only the status changes: number, totals and payments stay |
| BillService.Bill.TakePayment | backend/app/services/billing_service.py:348-361 | The bill's part of applying money, and whether this payment is the one that must number it |
| BillService.Bill.Finalise | backend/app/services/billing_service.py:376-393 | A bill that carries a number keeps it |
| InvoiceNumber.CodeNamesYear | backend/app/services/invoice_service.py:35-43 | The four characters spell the last two digits of the year that started in the latest April, then of the next |
| InvoiceNumber.ParseInvertsFormat | backend/app/services/invoice_service.py:46-59 | A parser recovers year code and sequence from every printed number, with and without a year |
| InvoiceNumber.FormatInjective | backend/app/services/invoice_service.py:46-59 | Two different (year code, sequence) pairs never print the same number |
| InvoiceNumber.LegalIff | backend/app/services/invoice_service.py:113-121 | A number fits 16 characters exactly below ten million with a year code and below a million million without |
| InvoiceNumber.YearCodesRepeat | backend/app/services/invoice_service.py:35-43 | Two financial years share a code exactly when they start a multiple of a hundred years apart |
| GaplessSeries.GaplessIffDistinctBills | backend/app/services/invoice_service.py:62-122 | Over every interleaving of read, flush, insert-if-missing, lock, increment, write, commit and abort, the committed serials of each (business, series, year) are exactly 1..last_number, each on one bill, if and only if no two settlements are about the same bill |
| GaplessSeries.CounterAlwaysFound | backend/app/services/invoice_service.py:83-106 | After insert-if-missing the counter row to lock is always there, whoever rolls back |
| GaplessSeries.SharedBillLosesSerial | backend/app/services/billing_service.py:348-368 | Two settlements that read one bill before either commits lose a serial |
| GaplessSeries.UndisturbedSettlement | backend/app/services/invoice_service.py:83-122 | A settlement that meets no lock commits last_number + 1 on its bill |
| GaplessSeries.NumberedIsLeftAlone | backend/app/services/billing_service.py:376-385 | A settlement that first reads its bill once it is numbered takes no number and no lock, in any schedule |
| PaymentRace.BalancedIffDistinctBills | backend/app/services/billing_service.py:348-353 | Over every interleaving of find, claim, read, write, commit and abort, every bill's paid column is what was paid before plus its committed payments, each once, if and only if no two payment transactions are about one bill |
| PaymentRace.OverlapLosesPayment | backend/app/services/billing_service.py:348-353 | Two payments that both read the column before either writes it: the first is missing from the column |
| PaymentRace.ConfirmedTwiceAtOnce | backend/app/services/payment_service.py:157-182 | Two confirmations of one payment that both find it pending add it to the column twice |
| PaymentRace.DoneIsLeftAlone | backend/app/services/payment_service.py:157-158 | A confirmation that first looks once its payment stands writes nothing, in any schedule |
| LedgerBills.RunKeepsBills | backend/app/services/billing_service.py:165-171 | Over every run, however the round-off switch is flipped: an open bill's status is decided by what was paid and what is owed, PAID leads only to CANCELLED, CANCELLED is final, a closed bill's number is frozen, no-charge is for ever and never numbered, and PAID without no-charge means something was paid |
| LedgerTotals.SteadySwitchFreezes | backend/app/services/billing_service.py:87-171 | Over every run that keeps the round-off switch as it is: every bill's columns stay what recomputing gives, PAID and not no-charge means total <= paid, and a closed bill's totals are frozen |
| LedgerTotals.ClosedTotalIs | backend/app/services/billing_service.py:152-163 | Over every run, flips included: a closed bill ends at what it comes to under the switch of the last moment when money landed on it; so its totals change exactly when there was such a moment and that is another total |
| LedgerTotals.RunKeepsPriced | backend/app/services/billing_service.py:87-171 | In every run every bill's columns are what recomputing gives under one of the two settings of the switch |
| LedgerTotals.FlipReopensTotal | backend/app/services/billing_service.py:348-361 | An open bill with a pending gateway order, settled in cash and numbered with round-off on and captured with it off, keeps its number and loses its round-off: 100.00 becomes 100.40 |
| LedgerBills.NumberedIffPaid | backend/app/services/billing_service.py:361-368 | Over every run a bill that closes as PAID carries a number exactly when a payment closed it, and not a webhook whose number was too long, and it never gains one later |
| LedgerBills.NoChargeNeverNumbered | backend/app/services/billing_service.py:590-606 | A no-charge bill never acquires a number, whatever gateway payment lands afterwards |
| LedgerInvoices.PrintedNumbersDiffer | backend/app/services/invoice_service.py:108-122 | In every run every printed number fits the limit and no two invoices print the same one, across toggle flips and year-code wraparound |
| LedgerInvoices.NumberNeverChanges | backend/app/services/billing_service.py:376-403 | An assigned number never changes, voiding included |
| LedgerInvoices.RunKeepsSeries | backend/app/services/invoice_service.py:62-122 | In every serial run the numbers of each year code are exactly those of 1..last_number that fit the limit, each on one bill |
| LedgerMoney.LedgerBalances | backend/app/services/payment_service.py:297-362 | In every reachable state amount_paid is the sum of the payments applied, amount_refunded the sum of refunds and never above it, refunds of a payment never exceed it, REFUNDED means handed back whole |
| LedgerApplied.AppliedOnceIff | backend/app/services/payment_service.py:149-183 | The payments of a bill are applied to it at most once in a run exactly when the run never confirms one of them that had been refunded in full |
| LedgerApplied.PaidColumnIff | backend/app/services/payment_service.py:149-183 | In every reachable state amount_paid is the sum of the bill's payments that ever succeeded, each counted once, and amount_paid less amount_refunded is what is still held of them, exactly when no fully refunded payment of the bill was confirmed again; otherwise both are above |
| LedgerApplied.RefundThenCaptureReapplies | backend/app/services/payment_service.py:256-272 | A standing gateway payment of a closed bill, refunded whole and captured again, is added to amount_paid a second time |
| LedgerMoney.ReconfirmIsNoOp | backend/app/services/payment_service.py:157-158 | Once a payment stands as SUCCESS, verifying or capturing it again, in any order and however often, changes nothing |
| LedgerMoney.OrderThenCaptureSettles | backend/app/services/payment_service.py:92-146 | A gateway order asks for exactly what is missing: captured next, it brings amount_paid to the asked total and settles the bill exactly when the total under the switch of that moment is still covered, which it is if the switch was not flipped; the bill then takes the next number, unless that is longer than the limit |
| LedgerMoney.KeyedOrderOnce | backend/app/services/payment_service.py:95-103 | In every run an idempotency key stays with the payment it created, and asking again under it creates none |
| LedgerRows.CounterAdds | backend/app/services/payment_service.py:71-89 | A counter payment goes through exactly on an open bill, for a positive amount, with the user's drawer open or not needed, unless its number is too long; it adds one standing row with the request's tender and that drawer |
| LedgerRows.OrderAdds | backend/app/services/payment_service.py:92-146 | A gateway order goes through exactly on an open bill that owes something, under a new key, with a provider; it adds one row for what is missing, PENDING or, when the provider erred, FAILED and never confirmable |
| LedgerRows.RefundAdds | backend/app/services/payment_service.py:297-362 | A refund goes through exactly when refunds are on, the payment stands, that much of it is left, and the user has a drawer open or needs none; it adds one row with the tender asked for, else the payment's own, on that drawer, and marks the payment REFUNDED exactly when nothing is left |
| LedgerDrawer.DrawerEquation | backend/app/services/shift_service.py:67-93 | Expected cash is the physical cash less the drawer's cash payments since refunded in full, equal exactly when there are none; nobody has two drawers open |
| LedgerDrawer.ClosedShiftsFrozen | backend/app/services/shift_service.py:96-127 | A closed shift's figures never change and no cash enters or leaves its drawer |
| LedgerCash.DrawerHoldsWhatWasSaid | backend/app/services/shift_service.py:67-93 | In every reachable state the cash in a drawer is its float, plus the counter payments in cash, minus what the refund requests asked to hand back in cash, all read off the requests of the run; the expected figure is that less its cash payments refunded whole |
| LedgerCash.ClosedShiftsTell | backend/app/services/shift_service.py:96-127 | In every reachable state a closed shift was closed by one turn of the run, and its row says what that request declared, what the drawer then held less its cash payments refunded whole by then, and declared minus expected as the variance |
| LedgerCash.CloseIsForGood | backend/app/services/shift_service.py:111-127 | Closing goes through exactly on an open shift, writes those figures, and they stay for the rest of any run |
| TillService.Till.Allocate | backend/app/services/invoice_service.py:62-122 | The next number of the year, the counter row created on first use, or a failure when the number is too long |
| TillService.Till.RecordPaymentApplied | backend/app/services/billing_service.py:348-393 | Money lands, the bill is recomputed, and a number is allocated only by the payment that settles a bill without one |
| TillService.Till.FindDrawer | backend/app/services/shift_service.py:18-28 | The user's open drawer, or none |
| TillService.Till.SumRefunds | backend/app/services/payment_service.py:326-330 | What was handed back against the payment so far |
| TillService.Till.RecordCashPayment | backend/app/services/payment_service.py:71-89 | The counter payment step of the ledger, with full rollback when numbering fails |
| TillService.Till.CreateGatewayOrder | backend/app/services/payment_service.py:92-146 | The replayed payment of a known key; else a PENDING row for the remaining amount, a FAILED one when the provider errs, or a refusal |
| TillService.Till.VerifyPayment | backend/app/services/payment_service.py:149-183 | Idempotent on SUCCESS, FAILED on a bad signature, otherwise applied to the bill |
| TillService.Till.CaptureWebhook | backend/app/services/payment_service.py:256-295 | Applied unless it is already SUCCESS; committed as far as it got when the number is too long |
| TillService.Till.RefundPayment | backend/app/services/payment_service.py:297-362 | Refund row, status only when whole, bill's refunded column, cash out of the refunder's drawer |
| TillService.Till.StartShift | backend/app/services/shift_service.py:31-53 | Refused while the user has an open drawer |
| TillService.Till.CashMovement | backend/app/services/shift_service.py:67-88 | The two sums over the drawer's payment and refund rows |
| TillService.Till.EndShift | backend/app/services/shift_service.py:96-127 | Freezes expected, declared and variance on an open shift |
| ChargeLadder.ClashIff | backend/app/services/charge_service.py:32-37 | Two bands overlap by the write-time test exactly when some amount lies in both |
| ChargeLadder.DisjointIff | backend/app/services/charge_service.py:60-73 | A table passes the write-time test pairwise exactly when no amount falls in two bands of one ladder |
| ChargeLadder.ChargeBook.ValidateBand | backend/app/services/charge_service.py:40-73 | The first complaint the source raises, or none exactly when the band fits |
| ChargeLadder.VerdictSays | backend/app/services/charge_service.py:40-73 | An empty range is complained of first, then a negative start, then exactly that another band of the name and context holds some amount of this one |
| ChargeLadder.ChargeBook.CreateBand | backend/app/services/charge_service.py:119-132 | Keeps all ladders disjoint; adds the band exactly when it fits |
| ChargeLadder.ChargeBook.UpdateBand | backend/app/services/charge_service.py:135-150 | Keeps all ladders disjoint; only the named band changes, and only if it fits among the others |
| ChargeLadder.PatchSetsFields | backend/app/services/charge_service.py:135-150 | An update sets each field it names and keeps every other one and the id |
| ChargeLadder.ChargeBook.DeleteBand | backend/app/services/charge_service.py:153-156 | Removes exactly the named band |
| ChargeLadder.Choose | backend/app/services/charge_service.py:178-187 | The selection loop's dictionary holds, for each name, an eligible band, a context-specific one whenever there is one |
| ChargeLadder.ChargeBook.SelectBandsFor | backend/app/services/charge_service.py:159-192 | Exactly the declarative rule: per name the active covering band of the bill's context, else the global one, zero-value choices dropped, at most one per name |
| ChargeLadder.SelectionSays | backend/app/services/charge_service.py:159-192 | A band is picked exactly when it is on, costs something, holds the amount from its low end up to but without its high one, and is for the bill's context, or for all where no such band is |
| ChargeLadder.ChosenUnique | backend/app/services/charge_service.py:159-169 | On disjoint ladders the rule picks at most one band of a name |
| ChargeLadder.ChosenExists | backend/app/services/charge_service.py:159-169 | Whenever some band of the name would do, the rule picks one |
| ChargeLadder.OrderIndependent | backend/app/services/charge_service.py:171-187 | The rule reads the candidates as a multiset: their order never matters |
| ChargeLadder.Sweep | backend/app/services/charge_service.py:84-98 | Over a sorted disjoint ladder the reported intervals are non-empty, sorted and apart, and an amount lies in one exactly when no band covers it, early return included |
| ChargeLadder.ChargeBook.FindGaps | backend/app/services/charge_service.py:76-98 | The same for the bands of one name and context in the table; an empty ladder reports no gaps |
| ChargeLadder.SortKeeps | backend/app/services/charge_service.py:84 | Sorting keeps exactly the same bands and their disjointness |
| ChargePreview.Preview | backend/app/api/charges.py:102-157 | Every line and total the preview shows is the one the bill engine derives from the same bands and taxes |
| ChargePreview.PreviewMatchesBillIff | backend/app/api/charges.py:109-117 | Preview and a fresh undiscounted bill, default tax and no round-off, agree on all totals exactly when a band matched, or there is no default service charge, or it comes to zero paise |
| ChargePreview.ComponentsAddUpIff | backend/app/services/billing_service.py:174-187 | The component rates add up to the configured rate exactly when it is not split or even in hundredths, and are off by at most one hundredth |
| ChargePreview.BandSumAnyOrder | backend/app/services/billing_service.py:221-238 | Charges add up the same in whatever order the bands are listed |
| Pricing.ResolveUnitPricesBulk | backend/app/services/pricing_service.py:67-100 | The dictionary pass prices every item by its last active rule for the context, or its base price |
| Pricing.BulkShowsWhatIsCharged | backend/app/services/pricing_service.py:67-100 | The menu shows what an order without a variant is charged exactly when the item's first and last active rows for the context carry one price |
| Pricing.OneRuleIsEnough | backend/app/services/pricing_service.py:67-100 | With at most one active row per item and context the two lookups always agree |
| Pricing.VariantCostsItsDelta | backend/app/services/pricing_service.py:15-64 | A variant without a rule of its own costs what its item costs plus its delta, a rule of its own sets the price outright, and a variant of another item has no price unless a rule prices the item |
| Pricing.OtherRulesDontMatter | backend/app/services/pricing_service.py:15-64 | A rule that is switched off, or for another item, variant or context, can be taken away without changing the price |
| Stock.StockRoom.ComputeLine | backend/app/services/pricing_service.py:146-178 | One line takes its units and marks the item sold out at zero, or is refused; a line without a valid variant or options fails after its units were taken |
| Stock.StockRoom.TakeOrder | backend/app/services/order_service.py:163-201 | All lines or none, with rollback, unpriceable lines included |
| Stock.SellAllIff | backend/app/services/pricing_service.py:146-178 | An order goes through exactly when every line has a price and every item named is on sale and has the units of all its lines together; each row then gives up exactly those units |
| OrderIntake.IntakeExactlyOnce | backend/app/services/partner_service.py:275-341 | Over every interleaving: at most one order per (business, key) is committed, every successful answer names it, an order exists exactly when its own submission was told it is new, and the final raise is never reached |
| OrderIntake.LoserGetsWinnersOrder | backend/app/services/partner_service.py:329-339 | The loser of the insert race waits, rolls back and answers with the winner's order; only the winner's effects remain |
| OrderIntake.SoldLinesArePriced | backend/app/services/pricing_service.py:130-180 | Over every interleaving every line of every committed order is of an item on the menu and has a price |
| OrderIntake.ResolveLines | backend/app/services/partner_service.py:214-257 | Either the exact set of unmapped names, or every line in order through the mapping, with the variant the mapping fixes |
| StockConservation.StockIsConserved | backend/app/services/pricing_service.py:146-169 | In every reachable state of every interleaving, repeated items, aborts and owner edits included, counted stock is its last set level less the units on orders committed since, and is never negative |
| StockConservation.LastLevelLessSold | backend/app/services/menu_service.py:144-160 | Reads that level off the history: what was last set, less the units sold after it |
| KitchenLaws.TicketsOverRuns | backend/app/services/kot_service.py:32-84 | After every run: at most one ticket per order, one for every order not held, each with exactly the order's lines, and none for a held order before a bill of its session was settled by payment or no-charge |
| KitchenLaws.EachLineOnce | backend/app/services/kot_service.py:32-64 | No order line is printed twice, on one ticket or on two |
| KitchenLaws.SettlingReleasesAll | backend/app/services/kot_service.py:71-84 | After a payment or a no-charge mark settles a bill, every live order of the session has exactly one ticket |
| KitchenLaws.HeldTicketIff | backend/app/services/kot_service.py:71-84 | Over every run a held order has a ticket exactly when, while it was live, a bill of its session was settled by payment or no-charge |
| KitchenSessions.CreateJoins | backend/app/services/order_service.py:80-104 | An order that stays at its place lands in a session that already stood open there if there is one, and adds none; every other order lands in exactly one new session at its place |
| KitchenSessions.CreateFires | backend/app/services/kot_service.py:32-64 | A held order gets no ticket, any other one new ticket for its place with exactly its own lines in order |
| KitchenSessions.TwoOpenIff | backend/app/services/order_service.py:80-104 | Over every run a place comes to have two open sessions exactly when, while one was open there, an order that does not stay was placed there or a session was transferred to it; orders that stay never do it |
| KitchenSessions.AllowedIff | backend/app/services/kot_service.py:22-29 | A ticket goes one step on at a time and can be called off until it is ready |
| KitchenSessions.OrderFollowsTicket | backend/app/services/kot_service.py:13-20 | In every run in which an order is neither called off nor delivered, its status is exactly its ticket's, and PLACED while it has none |
| KitchenSessions.OneBillAtATime | backend/app/services/billing_service.py:252-263 | Over every run a session has at most one open bill |
| KitchenLaws.CoveredNeverReleases | backend/app/services/billing_service.py:350-370 | A bill that a discount, void or comp closed never settles: in no run does a later payment or no-charge mark on it release a ticket |
| KitchenLaws.MergeMovesAll | backend/app/services/order_service.py:315-360 | A merge gives the other session exactly the live orders of both, none lost or duplicated, retires the emptied one and touches no third |
| KitchenLaws.MergeMovesTickets | backend/app/services/order_service.py:348-351 | Tickets still in the kitchen follow their live orders; served and cancelled ones, and everybody else's, keep their place |
| KitchenLaws.TransferMovesAll | backend/app/services/order_service.py:258-312 | A transfer takes the session, its live orders and their tickets to the new place and changes no order of another session |
| KitchenLaws.TicketsOnlyAdvance | backend/app/services/kot_service.py:22-29 | Over every run a ticket keeps its order and lines, only moves forward, and stays where it is once served or cancelled |
| KitchenLaws.BilledStaysPut | backend/app/services/order_service.py:241-255 | A session that ever had a bill keeps its place and openness for ever: no transfer, no merge |
| KitchenLaws.ClosedReceivesNone | backend/app/services/order_service.py:315-324 | In no run does a retired session receive another order |
| KitchenLaws.CancelledIsFinalIff | backend/app/services/order_service.py:220-227 | A cancelled order stays cancelled in every run exactly when its tickets and its delivery have reached an end state |
| KitchenService.Floor.CreateKot | backend/app/services/kot_service.py:32-64 | Appends one ticket with the order's lines, in order |
| KitchenService.Floor.ReleaseHeldKots | backend/app/services/kot_service.py:71-84 | The loop over the session's live orders, one ticket for each without one |
| KitchenService.Floor.CreateOrder | backend/app/services/order_service.py:80-217 | Joins the place's open session or starts one; the ticket is fired at once unless held |
| KitchenService.Floor.CancelOrder | backend/app/services/order_service.py:220-227 | Refused on served, delivered and completed orders; the ticket is left alone |
| KitchenService.Floor.UpdateKotStatus | backend/app/services/kot_service.py:109-128 | Only allowed transitions, mirrored on the order |
| KitchenService.Floor.TransferSession | backend/app/services/order_service.py:258-312 | Session, live orders and tickets still in the kitchen move together, exactly when allowed |
| KitchenService.Floor.MergeSessions | backend/app/services/order_service.py:315-360 | Live orders and unserved tickets move and the emptied session closes, exactly when allowed |
| KitchenService.Floor.SettleByPayment | backend/app/services/billing_service.py:348-371 | Tickets are released only by the payment that turns the bill PAID |
| KitchenService.Floor.SettleByNoCharge | backend/app/services/billing_service.py:607-655 | A no-charge mark, refused once money was taken, releases them too |
| TokenRotation.LoginsAreLines | backend/app/services/auth_service.py:117-163 | Over every run following replaced_by from any token of a login ends at one token, links ascend and are injective, and only that token can be live |
| TokenRotation.TokenTable.RotateToken | backend/app/services/auth_service.py:117-163 | The exchange, the reuse sweep and the refusals, in place |
| TokenRotation.TokenTable.IssueToken | backend/app/services/auth_service.py:100-114 | A login starts a new chain with one live token |
| TokenRotation.TokenTable.RevokeToken | backend/app/services/auth_service.py:166-171 | Revokes a live token; unknown and revoked ones are left alone |
| TokenRotation.TokenTable.RevokeAllOf | backend/app/services/auth_service.py:237-239 | The bulk update revokes exactly the user's live tokens |
| RotationRace.OneLiveTokenIff | backend/app/services/auth_service.py:117-163 | Over every interleaving of exchanges and sweeps each login keeps at most one live token, if and only if no two requests present one token that both could exchange, whether it stood at the start or was issued on the way |
| RotationRace.RivalsBothWin | backend/app/services/auth_service.py:119-161 | Two such requests have a schedule, after those that issue their token, in which both give out a live one |
| RotationRace.SweepIsFinalIff | backend/app/services/auth_service.py:127-137 | In every interleaving, once the sweep after a reuse or a password reset commits, its user has no live token in any continuation, if and only if no exchange of the user is under way then and none answered since the sweep's statement started left a live token |
| RefreshQueue.AuthClient.FlushQueue | frontend/src/api/client.ts:40-46 | Tells every queued request once, in order, and empties the queue |
| RefreshQueue.AuthClient.OnUnauthorized | frontend/src/api/client.ts:71-100 | First 401 of a request starts the refresh or joins the queue; later ones and exempt calls pass through |
| RefreshQueue.FirstFailureOnly | frontend/src/api/client.ts:71-100 | Only the first 401 of a request that is not exempt is handled: it waits exactly if a refresh is under way, and else starts one with the stored token, or fails at once without one |
| RefreshQueue.AuthClient.OnRefreshBack | frontend/src/api/client.ts:48-65 | The store takes the new token, or is cleared |
| RefreshQueue.AuthClient.OnWake | frontend/src/api/client.ts:101-111 | Queue, leader and the refreshing flag after the outcome |
| RefreshQueue.WakeSettlesAll | frontend/src/api/client.ts:40-46 | Waking settles every waiting request alike and once, and nobody else |
| SingleFlight.SingleFlightHolds | frontend/src/api/client.ts:71-113 | Over every run: waiting implies refreshing, each handled request waits or was settled exactly once, no refresh token is posted twice by the client, and the token of a post on its way was exchanged exactly when another tab or device took it |
| SingleFlight.OneRefreshInFlight | frontend/src/api/client.ts:88-111 | Over every run at most one post is in flight besides those a timeout gave up, and without timeouts at most one at all |
| SingleFlight.TimeoutLeavesTwo | frontend/src/api/client.ts:61-64 | A refresh given up, a new login and that login's first refresh leave two in flight |
| SingleFlight.LateReplyIgnored | frontend/src/api/client.ts:55-65 | The answer to a post that was given up never reaches the client |
| SingleFlight.MistakenForReuseIff | backend/app/services/auth_service.py:127-137 | Over every run, other tabs with the persisted token included, the client triggers the reuse branch exactly when a post arrives whose token a logout, a reset, the sweep after a reuse or another tab's exchange struck down first |
| SingleFlight.NeverMistakenForReuse | backend/app/services/auth_service.py:127-137 | So never without logouts, resets, other tabs presenting the client's tokens or anyone presenting a revoked one, though other devices log in and exchange their own tokens and replies are late or lost |
| SingleFlight.LogoutOvertakesRefresh | backend/app/services/auth_service.py:166-171 | A logout that overtakes a refresh on the wire triggers it |
| SingleFlight.TabOvertakesRefresh | backend/app/services/auth_service.py:127-137 | So does another tab that refreshes the same session first |
| Calendar.AddMonthsLands | backend/app/services/subscription_service.py:39-47 | The result is a valid time exactly so many months on, the day kept or clamped to the month's end |
| Calendar.GregorianYear | backend/app/services/subscription_service.py:39-47 | The months have their Gregorian lengths and a year 365 days, or 366 in every fourth year but for the centuries not divisible by 400 |
| Calendar.AddMonthsMonotoneIff | backend/app/services/subscription_service.py:39-47 | Monotone on dates; on timestamps exactly unless the clamp lands both on one day and the later is earlier in its day |
| Calendar.LateJanuaryOvertakes | backend/app/services/subscription_service.py:39-47 | A pair of timestamps in every year whose order adding a month reverses |
| Calendar.AddMonthsTwice | backend/app/services/subscription_service.py:39-47 | Adding a then b lands in the same month as a + b, never later and at most three days earlier |
| SubscriptionClock.LazyIsEager | backend/app/services/subscription_service.py:61-90 | After any run of requests in time order a read gives the status a continuous sweep would give |
| SubscriptionClock.GraceIsThreeDays | backend/app/services/subscription_service.py:61-82 | A running period reads ACTIVE to its last microsecond, then GRACE for three days of 86,400 seconds, then SUSPENDED |
| SubscriptionClock.CancelledWhen | backend/app/services/subscription_service.py:93-169 | After every run the row carries the time of the cancellation that stands since the plan was last set up, which renewals keep and a second cancellation does not move |
| SubscriptionClock.RenewMovesOn | backend/app/services/subscription_service.py:126-147 | Renewal, from any status, moves the end strictly past now and the old end, counts from the later, and the plan reads ACTIVE |
| SubscriptionClock.RenewTwice | backend/app/services/subscription_service.py:126-147 | Renewing early in two goes buys the same month as in one, at most three days short |
| SubscriptionClock.Account.ApplyLazyStatus | backend/app/services/subscription_service.py:61-82 | ACTIVE and GRACE are re-evaluated, every other status is left |
| SubscriptionClock.Account.GetStatus | backend/app/services/subscription_service.py:85-90 | A read brings the status up to date first |
| SubscriptionClock.Account.ProvisionPlan | backend/app/services/subscription_service.py:93-123 | A fresh period from now, cancellation mark cleared |
| SubscriptionClock.Account.RenewPlan | backend/app/services/subscription_service.py:126-147 | Extends from the later of now and the end; keeps the cancellation mark |
| SubscriptionClock.Account.SuspendPlan | backend/app/services/subscription_service.py:150-157 | Only the status changes; the period stays for a later renewal |
| SubscriptionClock.Account.CancelPlan | backend/app/services/subscription_service.py:160-169 | Marks the cancellation once; a second one changes nothing |
| Loyalty.RewardsAreFloor | backend/app/services/loyalty_service.py:49-74 | After every bill of every run each live threshold rule has given exactly the number of times its threshold goes whole into the number of bills or into the spend |
| Loyalty.IdleRulesGiveNothing | backend/app/services/loyalty_service.py:40-53 | A rule that is off, or has no positive threshold, or is of another kind, has given nothing after any run |
| Loyalty.SplitDoesNotMatter | backend/app/services/loyalty_service.py:63-74 | However a spend is split over bills, the rewards are the same |
| Loyalty.PointsNeverShort | backend/app/services/loyalty_service.py:76-95 | Units credited are never below units earned, and equal the credits written exactly while every bill added at most one |
| Loyalty.PointsExactIff | backend/app/services/loyalty_service.py:76-95 | Units credited equal units earned exactly when no earlier bill added two at once |
| Loyalty.PointsOverpaid | backend/app/services/loyalty_service.py:76-95 | Two bills of two thresholds each earn four units and are credited five |
| Loyalty.BalanceIsCredits | backend/app/services/loyalty_service.py:87-95 | The points balance is what the credits of all rules add up to |
| Loyalty.LoyaltyAccount.EvaluateRule | backend/app/services/loyalty_service.py:49-97 | One rule's evaluation with its counted reward loop |
| Loyalty.LoyaltyAccount.ProcessPaidBill | backend/app/services/loyalty_service.py:27-42 | Totals, then every rule in turn |

## Left out

- Floating point error and sub-paisa amounts: all arithmetic is on exact integers.
- Column widths: Numeric(10, 2) amounts and the 32-bit last_number are unbounded here.
- Years past 9999, where the calendar library would fail.
- Stale reads of the ORM's identity map: each read is fresh, so bill.items always includes lines just added, and an owner's stock edit that happens to equal a stale value is still an edit.
- Explicit nulls in update payloads for columns that may not be null.
- Two gateway orders racing under one idempotency key, and duplicate webhook events.
- Provider calls, HMAC, JWT, Argon2 and token secrets: a signature check is a boolean and a token is its row.
- Logouts and logins racing inside the server: among concurrent server transactions only exchanges, password resets and the sweeps after a reuse interleave.
- GaplessSeries.GaplessIffDistinctBills: has no number longer than the limit, so no webhook that commits without one; the serial runs cover that.
- Refunds racing on amount_refunded, which is read and written back like the paid column.
- Page reload and the silent refresh at boot, which bypass the interceptor; a tab never picks up a token that another tab has stored since.
- Floor status of tables and rooms: whether a destination is available is a parameter of the transfer.
- Side effects between cores: settling a bill in the ledger does not accrue loyalty, and the kitchen takes the billing outcome as part of the request.
- Dormant activation of subscriptions from legacy payments, and the statuses PENDING and PAYMENT_FAILED it leaves.
- Deleting menu items and price options; an item deleted while unused is simply not on sale.
- Edits to a loyalty rule between bills: the rules are fixed over a run.
- The order of charge lines on a bill: selection is specified as a set of bands, one per name.
- Platform staff sign-in and its client: the same protocols as the ones modelled.
- Routing, parsing, audit rows, notifications, receipts, reports, caching, translations, login lockout and permissions.
- Aliasing between a bill and its child rows: the rows are values held by the bill.
