/** The bill state machine over whole runs, however the round-off switch is flipped. */
module LedgerBills {
  import opened Common
  import opened BillTotals
  import opened Ledger
  import Ops = BillOperations

  // ---------- One bill ----------

  /** An open bill's status is a function of what was paid and what is owed. */
  predicate OpenStatus(b: BillState) {
    && b.status == (if b.amountPaid == 0 then Open else PartiallyPaid)
    && (b.amountPaid == 0 || b.amountPaid < b.totals.grand)
  }

  ghost predicate BillOk(b: BillState) {
    && (b.noCharge ==> b.Closed() && b.invoice.None?)
    && (b.invoice.Some? ==> b.Closed() && 0 < b.amountPaid)
    && (b.status.Paid? && !b.noCharge ==> 0 < b.amountPaid)
    && (!b.Closed() ==> OpenStatus(b))
  }

  /** What may happen to a bill between two moments of a run. */
  predicate Moves(a: BillState, b: BillState) {
    && a.session == b.session
    && (a.status.Paid? ==> b.Closed())
    && (a.status.Cancelled? ==> b.status.Cancelled?)
    && (a.Closed() || a.invoice.Some? ==> b.invoice == a.invoice)
    && (a.noCharge ==> b.noCharge)
    && a.amountPaid <= b.amountPaid
  }

  predicate SameMoney(a: BillState, b: BillState) {
    a.amountPaid == b.amountPaid && a.amountRefunded == b.amountRefunded && a.invoice == b.invoice
  }

  /** An open bill recomputed under either setting of the switch is again a good bill. */
  lemma RecomputeOk(b: BillState, after: BillState, toRupee: bool)
    requires BillOk(b) && !b.Closed()
    requires SameMoney(b, after) && after.session == b.session && after.status == b.status && after.noCharge == b.noCharge
    ensures var r := Recompute(after, toRupee); BillOk(r) && Moves(b, r) && SameMoney(b, r)
  {
  }

  lemma FirstRecomputeOk(b: BillState, toRupee: bool)
    requires !b.Closed() && b.invoice.None? && !b.noCharge
    ensures BillOk(Recompute(b, toRupee))
  {
  }

  ghost predicate Good(b: BillState, o: Ops.Outcome) {
    o.Done? ==> BillOk(o.bill) && Moves(b, o.bill) && SameMoney(b, o.bill)
  }

  lemma DiscountGood(b: BillState, off: Option<nat>, percent: Option<nat>, toRupee: bool)
    requires BillOk(b)
    ensures Good(b, Ops.ApplyDiscount(b, off, percent, toRupee))
  {
    if !b.Closed() && (off.Some? || percent.Some?) {
      var value := if off.Some? then off.value else Money.PercentOf(b.totals.subtotal, percent.value);
      RecomputeOk(b, b.(discounts := b.discounts + [value]), toRupee);
    }
  }

  lemma LineEditGood(b: BillState, k: nat, item: Item, toRupee: bool)
    requires BillOk(b) && !b.Closed() && k < |b.items|
    ensures Good(b, Ops.Done(Recompute(b.(items := b.items[k := item]), toRupee)))
  {
    RecomputeOk(b, b.(items := b.items[k := item]), toRupee);
  }

  lemma RefreshGood(b: BillState, lines: seq<Ops.OrderLine>, taxes: seq<Tax>, charges: seq<Charge>, toRupee: bool)
    requires BillOk(b)
    ensures Good(b, Ops.Refresh(b, lines, taxes, charges, toRupee))
  {
    if !b.Closed() {
      RecomputeOk(b, b.(items := b.items + Ops.Unbilled(lines, Ops.BilledOrderItems(b.items)),
                        taxes := if b.taxes == [] then taxes else b.taxes,
                        charges := if b.charges == [] then charges else b.charges), toRupee);
    }
  }

  lemma ClosingGood(b: BillState, who: Ops.Authority, toRupee: bool)
    requires BillOk(b)
    ensures Good(b, Ops.MarkNoCharge(b, who, toRupee))
    ensures Good(b, Ops.VoidBill(b, who))
  {
    if Ops.MarkNoCharge(b, who, toRupee).Done? {
      assert b.invoice.None? && !b.Closed();
    }
  }

  /** Money may land on any bill, closed ones included. */
  lemma PaymentGood(b: BillState, amount: nat, number: Option<InvoiceId>, toRupee: bool)
    requires BillOk(b) && 0 < amount
    ensures var after := Ops.TakePayment(b, amount, toRupee);
      if Ops.NeedsNumber(b, amount, toRupee)
      then BillOk(after.(invoice := number)) && Moves(b, after.(invoice := number))
      else BillOk(after) && Moves(b, after)
  {
  }

  // ---------- All bills ----------

  ghost predicate AllBillsOk(bills: seq<BillState>) {
    forall i :: 0 <= i < |bills| ==> BillOk(bills[i])
  }

  ghost predicate AllMove(a: seq<BillState>, b: seq<BillState>) {
    |a| <= |b| && forall i :: 0 <= i < |a| ==> Moves(a[i], b[i])
  }

  /** Every payment row is worth something: what the payment rules rely on. */
  ghost predicate PositivePayments(payments: seq<Payment>) {
    forall i :: 0 <= i < |payments| ==> 0 < payments[i].amount
  }

  lemma UpdateKeeps(bills: seq<BillState>, i: nat, after: BillState)
    requires AllBillsOk(bills) && i < |bills| && BillOk(after) && Moves(bills[i], after)
    ensures AllBillsOk(bills[i := after]) && AllMove(bills, bills[i := after])
  {
  }

  lemma EditGood(b: BillState, r: Request, toRupee: bool)
    requires BillOk(b) && IsEdit(r)
    ensures Good(b, Edit(b, r, toRupee))
  {
    match r
    case GiveDiscount(_, off, percent) => DiscountGood(b, off, percent, toRupee);
    case VoidLine(_, k, who) =>
      if !b.Closed() && k < |b.items| {
        LineEditGood(b, k, b.items[k].(voided := true), toRupee);
      }
    case CompLine(_, k, who) =>
      if !b.Closed() && k < |b.items| {
        LineEditGood(b, k, b.items[k].(comped := true), toRupee);
      }
    case UncompLine(_, k, who) =>
      if !b.Closed() && k < |b.items| {
        LineEditGood(b, k, b.items[k].(comped := false), toRupee);
      }
    case MarkNoCharge(_, who) => ClosingGood(b, who, toRupee);
    case VoidBill(_, who) => ClosingGood(b, who, toRupee);
  }

  lemma EditKeepsBills(b: Books, r: Request, toRupee: bool)
    requires AllBillsOk(b.bills) && IsEdit(r)
    ensures AllBillsOk(DoEdit(b, r, toRupee).bills) && AllMove(b.bills, DoEdit(b, r, toRupee).bills)
  {
    if r.bill < |b.bills| {
      EditGood(b.bills[r.bill], r, toRupee);
      var o := Edit(b.bills[r.bill], r, toRupee);
      if o.Done? {
        UpdateKeeps(b.bills, r.bill, o.bill);
      }
    }
  }

  lemma LandKeeps(b: Books, id: nat, amount: nat, year: Year, toRupee: bool)
    requires AllBillsOk(b.bills) && id < |b.bills| && 0 < amount
    ensures var after := Landed(b, id, amount, year, toRupee);
      AllBillsOk(after.bills) && AllMove(b.bills, after.bills)
  {
    PaymentGood(b.bills[id], amount, None, toRupee);
    PaymentGood(b.bills[id], amount, Some(InvoiceId(year, LastNumber(b.counters, year) + 1)), toRupee);
  }

  lemma OthersLeaveBills(b: Books, r: Request, toRupee: bool)
    requires r.CreateOrder? || r.OpenShift? || r.CloseShift?
    ensures Step(b, r, toRupee).bills == b.bills && Step(b, r, toRupee).counters == b.counters
  {
  }

  lemma AllMoveSelf(bills: seq<BillState>)
    ensures AllMove(bills, bills)
  {
  }

  /** A payment request that does anything to a bill or a counter lands a positive
      amount on one bill; only the webhook's may be left without its number. */
  lemma MoneyShape(b: Books, r: Request, toRupee: bool) returns (landed: bool, from: Books, id: nat, amount: nat)
    requires PositivePayments(b.payments) && TakesMoney(r)
    ensures var after := DoTakeMoney(b, r, toRupee);
      if landed then
        && from.bills == b.bills && from.counters == b.counters && id < |from.bills| && 0 < amount
        && (!r.Capture? ==> !Overflows(from, id, amount, r.year, toRupee))
        && after == Landed(from, id, amount, r.year, toRupee)
      else after.bills == b.bills && after.counters == b.counters
  {
    landed, from, id, amount := false, b, 0, 0;
    if r.PayAtCounter? {
      if r.bill < |b.bills| && !b.bills[r.bill].Closed() && r.amount > 0 && !(DrawerOf(b.shifts, r.staff).None? && r.needShift) {
        from, id, amount := CounterTaken(b, r), r.bill, r.amount;
        landed := !Overflows(from, id, amount, r.year, toRupee);
      }
    } else if Confirmable(b, r.payment) && (r.Verify? ==> r.orderMatches && r.signed) {
      from, id, amount := Confirmed(b, r.payment), b.payments[r.payment].bill, b.payments[r.payment].amount;
      landed := r.Capture? || !Overflows(from, id, amount, r.year, toRupee);
    }
  }

  lemma MoneyKeepsBills(b: Books, r: Request, toRupee: bool)
    requires AllBillsOk(b.bills) && PositivePayments(b.payments) && TakesMoney(r)
    ensures AllBillsOk(DoTakeMoney(b, r, toRupee).bills) && AllMove(b.bills, DoTakeMoney(b, r, toRupee).bills)
  {
    var landed, from, id, amount := MoneyShape(b, r, toRupee);
    if landed {
      LandKeeps(from, id, amount, r.year, toRupee);
    } else {
      AllMoveSelf(b.bills);
    }
  }

  lemma RefreshOfNewOk(b: BillState, lines: seq<Ops.OrderLine>, taxes: seq<Tax>, charges: seq<Charge>, toRupee: bool)
    requires !b.Closed() && b.invoice.None? && !b.noCharge
    ensures BillOk(Ops.Refresh(b, lines, taxes, charges, toRupee).bill)
  {
    FirstRecomputeOk(b.(items := b.items + Ops.Unbilled(lines, Ops.BilledOrderItems(b.items)),
                        taxes := if b.taxes == [] then taxes else b.taxes,
                        charges := if b.charges == [] then charges else b.charges), toRupee);
  }

  lemma GenerateKeepsBills(b: Books, r: Request, toRupee: bool)
    requires AllBillsOk(b.bills) && r.Generate?
    ensures AllBillsOk(DoGenerate(b, r, toRupee).bills) && AllMove(b.bills, DoGenerate(b, r, toRupee).bills)
  {
    var found := OpenBill(b.bills, r.session, 0);
    if found.Some? {
      RefreshGood(b.bills[found.value], r.lines, r.taxes, r.charges, toRupee);
      UpdateKeeps(b.bills, found.value, Ops.Refresh(b.bills[found.value], r.lines, r.taxes, r.charges, toRupee).bill);
    } else {
      RefreshOfNewOk(Ops.NewBill(r.session), r.lines, r.taxes, r.charges, toRupee);
    }
  }

  function WithRefund(bills: seq<BillState>, i: nat, amount: nat): seq<BillState>
    requires i < |bills|
  {
    bills[i := bills[i].(amountRefunded := bills[i].amountRefunded + amount)]
  }

  lemma GiveBackShape(b: Books, r: Request)
    requires r.GiveBack?
    ensures DoGiveBack(b, r).bills == b.bills
      || (r.payment < |b.payments| && b.payments[r.payment].bill < |b.bills|
          && DoGiveBack(b, r).bills == WithRefund(b.bills, b.payments[r.payment].bill, r.amount))
  {
  }

  lemma RefundKeepsBills(bills: seq<BillState>, i: nat, amount: nat)
    requires AllBillsOk(bills) && i < |bills|
    ensures AllBillsOk(WithRefund(bills, i, amount)) && AllMove(bills, WithRefund(bills, i, amount))
  {
  }

  lemma GiveBackKeepsBills(b: Books, r: Request)
    requires AllBillsOk(b.bills) && r.GiveBack?
    ensures AllBillsOk(DoGiveBack(b, r).bills) && AllMove(b.bills, DoGiveBack(b, r).bills)
  {
    AllMoveSelf(b.bills);
    GiveBackShape(b, r);
    if DoGiveBack(b, r).bills != b.bills {
      RefundKeepsBills(b.bills, b.payments[r.payment].bill, r.amount);
    }
  }

  lemma StepKeepsBills(b: Books, r: Request, toRupee: bool)
    requires AllBillsOk(b.bills) && PositivePayments(b.payments)
    ensures AllBillsOk(Step(b, r, toRupee).bills) && AllMove(b.bills, Step(b, r, toRupee).bills)
  {
    if IsEdit(r) {
      EditKeepsBills(b, r, toRupee);
      return;
    }
    if TakesMoney(r) {
      MoneyKeepsBills(b, r, toRupee);
    } else if r.Generate? {
      GenerateKeepsBills(b, r, toRupee);
    } else if r.GiveBack? {
      GiveBackKeepsBills(b, r);
    } else {
      OthersLeaveBills(b, r, toRupee);
    }
  }

  // ---------- Payment rows ----------

  /** A payment row's status is all that ever changes in it. */
  predicate RowsKept(a: seq<Payment>, b: seq<Payment>) {
    |a| <= |b| && forall i :: 0 <= i < |a| ==> b[i] == a[i].(status := b[i].status)
  }

  ghost predicate PaymentsKept(a: seq<Payment>, b: seq<Payment>) {
    PositivePayments(a) ==> PositivePayments(b) && RowsKept(a, b)
  }

  lemma CounterKeepsPayments(b: Books, r: Request, toRupee: bool)
    requires r.PayAtCounter?
    ensures PaymentsKept(b.payments, DoPayAtCounter(b, r, toRupee).payments)
  {
  }

  lemma StatusKeepsPayments(payments: seq<Payment>, id: nat)
    ensures id < |payments| ==> forall status :: PaymentsKept(payments, SetStatus(payments, id, status))
  {
  }

  lemma MoneyKeepsPayments(b: Books, r: Request, toRupee: bool)
    requires TakesMoney(r)
    ensures PaymentsKept(b.payments, DoTakeMoney(b, r, toRupee).payments)
  {
    if r.PayAtCounter? {
      CounterKeepsPayments(b, r, toRupee);
    } else {
      StatusKeepsPayments(b.payments, r.payment);
    }
  }

  lemma GiveBackKeepsPayments(b: Books, r: Request)
    requires r.GiveBack?
    ensures PaymentsKept(b.payments, DoGiveBack(b, r).payments)
  {
  }

  lemma OrderKeepsPayments(b: Books, r: Request)
    requires r.CreateOrder?
    ensures PaymentsKept(b.payments, DoCreateOrder(b, r).payments)
  {
  }

  lemma StepKeepsPayments(b: Books, r: Request, toRupee: bool)
    ensures PaymentsKept(b.payments, Step(b, r, toRupee).payments)
  {
    if TakesMoney(r) {
      MoneyKeepsPayments(b, r, toRupee);
    } else if r.CreateOrder? {
      OrderKeepsPayments(b, r);
    } else if r.GiveBack? {
      GiveBackKeepsPayments(b, r);
    } else {
      assert Step(b, r, toRupee).payments == b.payments;
    }
  }

  // ---------- Whole runs ----------

  lemma AllMoveTransitive(a: seq<BillState>, b: seq<BillState>, c: seq<BillState>)
    requires AllMove(a, b) && AllMove(b, c)
    ensures AllMove(a, c)
  {
  }

  /** The bill state machine, over every run from good books: every bill stays
      good, PAID leads only to CANCELLED, CANCELLED is the end, a closed bill's
      number is frozen, and no-charge is for ever. */
  lemma {:induction false} RunKeepsBills(b: Books, run: seq<Turn>)
    requires AllBillsOk(b.bills) && PositivePayments(b.payments)
    ensures var end := Exec(b, run);
      AllBillsOk(end.bills) && PositivePayments(end.payments) && AllMove(b.bills, end.bills)
    decreases |run|
  {
    if run == [] {
      AllMoveSelf(b.bills);
    } else {
      var next := After(b, run[0]);
      StepKeepsBills(b, run[0].request, run[0].toRupee);
      StepKeepsPayments(b, run[0].request, run[0].toRupee);
      RunKeepsBills(next, run[1..]);
      AllMoveTransitive(b.bills, next.bills, Exec(next, run[1..]).bills);
    }
  }

  lemma EditNeverNumbers(b: Books, r: Request, i: nat, toRupee: bool)
    requires IsEdit(r) && i < |b.bills|
    ensures DoEdit(b, r, toRupee).bills[i].invoice == b.bills[i].invoice
  {
  }

  lemma GenerateNeverNumbers(b: Books, r: Request, i: nat, toRupee: bool)
    requires r.Generate? && i < |b.bills|
    ensures DoGenerate(b, r, toRupee).bills[i].invoice == b.bills[i].invoice
  {
  }

  lemma LandNumbers(b: Books, id: nat, amount: nat, year: Year, i: nat, toRupee: bool)
    requires AllBillsOk(b.bills) && id < |b.bills| && i < |b.bills| && !b.bills[i].Closed()
    ensures var after := Landed(b, id, amount, year, toRupee).bills[i];
      after.status.Paid? ==>
        i == id && Ops.NeedsNumber(b.bills[i], amount, toRupee) && (after.invoice.Some? <==> !TooLong(b.counters, year))
  {
  }

  lemma PaymentNumbers(b: Books, r: Request, i: nat, toRupee: bool)
    requires AllBillsOk(b.bills) && PositivePayments(b.payments)
    requires TakesMoney(r) && i < |b.bills| && !b.bills[i].Closed()
    ensures i < |DoTakeMoney(b, r, toRupee).bills|
    ensures DoTakeMoney(b, r, toRupee).bills[i].status.Paid? ==>
      (DoTakeMoney(b, r, toRupee).bills[i].invoice.Some? <==> !(r.Capture? && TooLong(b.counters, r.year)))
  {
    var landed, from, id, amount := MoneyShape(b, r, toRupee);
    if landed {
      LandNumbers(from, id, amount, r.year, i, toRupee);
    }
  }

  /** An open bill that closes as PAID carries a number exactly when the request
      that closed it was a payment, and not a webhook that met the end of the
      series; and once closed it never gains one. */
  lemma NumberedIffPaid(b: Books, t: Turn, i: nat, rest: seq<Turn>)
    requires AllBillsOk(b.bills) && PositivePayments(b.payments)
    requires i < |b.bills| && !b.bills[i].Closed()
    ensures var after := After(b, t); var end := Exec(after, rest);
      && i < |after.bills| <= |end.bills|
      && (after.bills[i].status.Paid? ==>
        && (after.bills[i].invoice.Some? <==>
              TakesMoney(t.request) && !(t.request.Capture? && TooLong(b.counters, t.request.year)))
        && end.bills[i].invoice == after.bills[i].invoice)
  {
    var after, r := After(b, t), t.request;
    StepKeepsBills(b, r, t.toRupee);
    StepKeepsPayments(b, r, t.toRupee);
    RunKeepsBills(after, rest);
    assert Moves(after.bills[i], Exec(after, rest).bills[i]);
    if IsEdit(r) {
      EditNeverNumbers(b, r, i, t.toRupee);
    } else if r.Generate? {
      GenerateNeverNumbers(b, r, i, t.toRupee);
    } else if TakesMoney(r) {
      PaymentNumbers(b, r, i, t.toRupee);
    }
  }

  /** A no-charge bill has no invoice number, and never will, whatever gateway
      payment is still to land on it. */
  lemma NoChargeNeverNumbered(b: Books, i: nat, run: seq<Turn>)
    requires AllBillsOk(b.bills) && PositivePayments(b.payments)
    requires i < |b.bills| && b.bills[i].noCharge
    ensures var end := Exec(b, run);
      i < |end.bills| && end.bills[i].noCharge && end.bills[i].invoice.None?
  {
    RunKeepsBills(b, run);
    assert Moves(b.bills[i], Exec(b, run).bills[i]);
  }
}
