/** The totals of a bill over whole runs. While the round-off switch stays put, a
    closed bill's totals are frozen; once it is flipped, money that lands late
    reprices the bill, and the last such landing decides its total. */
module LedgerTotals {
  import opened Common
  import opened BillTotals
  import opened InvoiceNumber
  import opened Ledger
  import opened LedgerBills
  import opened LedgerMoney
  import Ops = BillOperations

  // ---------- What one request does to one bill ----------

  /** Its prices were not touched. */
  predicate Kept(x: BillState, y: BillState) {
    && y == x.(status := y.status, amountRefunded := y.amountRefunded)
    && (y.status == x.status || y.status.Cancelled?)
  }

  /** Every column is what recomputing gives under this setting, and the bill is
      PAID only when what was paid covers its total, or as a no-charge bill. */
  ghost predicate Steady(y: BillState, toRupee: bool) {
    Derived(y, toRupee) && (y.status.Paid? && !y.noCharge ==> y.totals.grand <= y.amountPaid)
  }

  /** Money landed on a closed bill. */
  predicate LandedLate(x: BillState, y: BillState, toRupee: bool) {
    x.Closed() && x.amountPaid < y.amountPaid && y == Recompute(x.(amountPaid := y.amountPaid), toRupee)
  }

  ghost predicate Turned(x: BillState, y: BillState, toRupee: bool) {
    Kept(x, y) || (!x.Closed() && Steady(y, toRupee)) || LandedLate(x, y, toRupee)
  }

  lemma RecomputeSteady(x: BillState, toRupee: bool)
    requires !x.Closed()
    ensures Steady(Recompute(x, toRupee), toRupee)
  {
    RecomputeIdempotent(x, toRupee);
  }

  lemma NumberKeepsSteady(y: BillState, number: Option<InvoiceId>, toRupee: bool)
    requires Steady(y, toRupee)
    ensures Steady(y.(invoice := number), toRupee)
  {
  }

  lemma NoChargeSteady(x: BillState, toRupee: bool)
    requires x.noCharge
    ensures Steady(Recompute(x, toRupee).(status := Paid), toRupee)
  {
    RecomputeIdempotent(x, toRupee);
  }

  ghost predicate EditTurned(x: BillState, o: Ops.Outcome, toRupee: bool) {
    o.Done? ==> Turned(x, o.bill, toRupee)
  }

  lemma DiscountTurns(x: BillState, off: Option<nat>, percent: Option<nat>, toRupee: bool)
    ensures EditTurned(x, Ops.ApplyDiscount(x, off, percent, toRupee), toRupee)
  {
    if !x.Closed() && (off.Some? || percent.Some?) {
      var value := if off.Some? then off.value else Money.PercentOf(x.totals.subtotal, percent.value);
      RecomputeSteady(x.(discounts := x.discounts + [value]), toRupee);
    }
  }

  lemma EditTurns(x: BillState, r: Request, toRupee: bool)
    requires BillOk(x) && IsEdit(r)
    ensures EditTurned(x, Edit(x, r, toRupee), toRupee)
  {
    match r
    case GiveDiscount(_, off, percent) => DiscountTurns(x, off, percent, toRupee);
    case VoidLine(_, k, who) =>
      if !x.Closed() && k < |x.items| {
        RecomputeSteady(x.(items := x.items[k := x.items[k].(voided := true)]), toRupee);
      }
    case CompLine(_, k, who) =>
      if !x.Closed() && k < |x.items| {
        RecomputeSteady(x.(items := x.items[k := x.items[k].(comped := true)]), toRupee);
      }
    case UncompLine(_, k, who) =>
      if !x.Closed() && k < |x.items| {
        RecomputeSteady(x.(items := x.items[k := x.items[k].(comped := false)]), toRupee);
      }
    case MarkNoCharge(_, who) => NoChargeSteady(x.(noCharge := true, items := Ops.GiveAwayAll(x.items)), toRupee);
    case VoidBill(_, who) =>
  }

  lemma RefreshSteady(x: BillState, lines: seq<Ops.OrderLine>, taxes: seq<Tax>, charges: seq<Charge>, toRupee: bool)
    requires !x.Closed()
    ensures Steady(Ops.Refresh(x, lines, taxes, charges, toRupee).bill, toRupee)
  {
    RecomputeSteady(x.(items := x.items + Ops.Unbilled(lines, Ops.BilledOrderItems(x.items)),
                       taxes := if x.taxes == [] then taxes else x.taxes,
                       charges := if x.charges == [] then charges else x.charges), toRupee);
  }

  lemma PaymentTurns(x: BillState, amount: nat, number: Option<InvoiceId>, toRupee: bool)
    requires 0 < amount
    ensures var after := Ops.TakePayment(x, amount, toRupee);
      Turned(x, if Ops.NeedsNumber(x, amount, toRupee) then after.(invoice := number) else after, toRupee)
  {
    if !x.Closed() {
      RecomputeSteady(x.(amountPaid := x.amountPaid + amount), toRupee);
      NumberKeepsSteady(Ops.TakePayment(x, amount, toRupee), number, toRupee);
    }
  }

  // ---------- All bills ----------

  ghost predicate AllTurned(a: seq<BillState>, c: seq<BillState>, toRupee: bool) {
    && |a| <= |c|
    && (forall i :: 0 <= i < |a| ==> Turned(a[i], c[i], toRupee))
    && (forall i :: |a| <= i < |c| ==> Steady(c[i], toRupee))
  }

  lemma NoneTurned(bills: seq<BillState>, toRupee: bool)
    ensures AllTurned(bills, bills, toRupee)
  {
    assert forall i :: 0 <= i < |bills| ==> Kept(bills[i], bills[i]);
  }

  lemma OneTurned(bills: seq<BillState>, i: nat, after: BillState, toRupee: bool)
    requires i < |bills| && Turned(bills[i], after, toRupee)
    ensures AllTurned(bills, bills[i := after], toRupee)
  {
    assert forall k :: 0 <= k < |bills| ==> Kept(bills[k], bills[k]);
  }

  lemma EditTurnsAll(b: Books, r: Request, toRupee: bool)
    requires AllBillsOk(b.bills) && IsEdit(r)
    ensures AllTurned(b.bills, DoEdit(b, r, toRupee).bills, toRupee)
  {
    NoneTurned(b.bills, toRupee);
    if r.bill < |b.bills| {
      EditTurns(b.bills[r.bill], r, toRupee);
      var o := Edit(b.bills[r.bill], r, toRupee);
      if o.Done? {
        OneTurned(b.bills, r.bill, o.bill, toRupee);
      }
    }
  }

  lemma LandTurns(b: Books, id: nat, amount: nat, year: Year, toRupee: bool)
    requires id < |b.bills| && 0 < amount
    ensures AllTurned(b.bills, Landed(b, id, amount, year, toRupee).bills, toRupee)
  {
    var number := if TooLong(b.counters, year) then None else Some(InvoiceId(year, LastNumber(b.counters, year) + 1));
    PaymentTurns(b.bills[id], amount, number, toRupee);
    var after := Ops.TakePayment(b.bills[id], amount, toRupee);
    OneTurned(b.bills, id, if Ops.NeedsNumber(b.bills[id], amount, toRupee) then after.(invoice := number) else after, toRupee);
  }

  lemma MoneyTurnsAll(b: Books, r: Request, toRupee: bool)
    requires PositivePayments(b.payments) && TakesMoney(r)
    ensures AllTurned(b.bills, DoTakeMoney(b, r, toRupee).bills, toRupee)
  {
    var landed, from, id, amount := MoneyShape(b, r, toRupee);
    if landed {
      LandTurns(from, id, amount, r.year, toRupee);
    } else {
      NoneTurned(b.bills, toRupee);
    }
  }

  lemma GenerateTurnsAll(b: Books, r: Request, toRupee: bool)
    requires r.Generate?
    ensures AllTurned(b.bills, DoGenerate(b, r, toRupee).bills, toRupee)
  {
    var found := OpenBill(b.bills, r.session, 0);
    NoneTurned(b.bills, toRupee);
    if found.Some? {
      RefreshSteady(b.bills[found.value], r.lines, r.taxes, r.charges, toRupee);
      OneTurned(b.bills, found.value, Ops.Refresh(b.bills[found.value], r.lines, r.taxes, r.charges, toRupee).bill, toRupee);
    } else {
      RefreshSteady(Ops.NewBill(r.session), r.lines, r.taxes, r.charges, toRupee);
    }
  }

  lemma GiveBackTurnsAll(b: Books, r: Request, toRupee: bool)
    requires r.GiveBack?
    ensures AllTurned(b.bills, DoGiveBack(b, r).bills, toRupee)
  {
    NoneTurned(b.bills, toRupee);
    GiveBackShape(b, r);
    if DoGiveBack(b, r).bills != b.bills {
      var i := b.payments[r.payment].bill;
      OneTurned(b.bills, i, WithRefund(b.bills, i, r.amount)[i], toRupee);
    }
  }

  lemma StepTurnsAll(b: Books, r: Request, toRupee: bool)
    requires AllBillsOk(b.bills) && PositivePayments(b.payments)
    ensures AllTurned(b.bills, Step(b, r, toRupee).bills, toRupee)
  {
    if IsEdit(r) {
      EditTurnsAll(b, r, toRupee);
      return;
    }
    if TakesMoney(r) {
      MoneyTurnsAll(b, r, toRupee);
    } else if r.Generate? {
      GenerateTurnsAll(b, r, toRupee);
    } else if r.GiveBack? {
      GiveBackTurnsAll(b, r, toRupee);
    } else {
      OthersLeaveBills(b, r, toRupee);
      NoneTurned(b.bills, toRupee);
    }
  }

  // ---------- While the switch stays put ----------

  predicate FrozenTotals(a: seq<BillState>, c: seq<BillState>) {
    |a| <= |c| && forall i :: 0 <= i < |a| && a[i].Closed() ==> c[i].Closed() && c[i].totals == a[i].totals
  }

  ghost predicate AllSteady(bills: seq<BillState>, toRupee: bool) {
    forall i :: 0 <= i < |bills| ==> Steady(bills[i], toRupee)
  }

  lemma SteadyTurn(x: BillState, y: BillState, toRupee: bool)
    requires Steady(x, toRupee) && Turned(x, y, toRupee)
    ensures Steady(y, toRupee) && (x.Closed() ==> y.Closed() && y.totals == x.totals)
  {
  }

  /** Over every run that never flips the switch, every bill's columns stay what
      recomputing gives, a bill is PAID only when what was paid covers its total or
      as a no-charge bill, and a closed bill's totals are frozen. */
  lemma {:induction false} SteadySwitchFreezes(b: Books, run: seq<Turn>, toRupee: bool)
    requires AllBillsOk(b.bills) && PositivePayments(b.payments) && AllSteady(b.bills, toRupee)
    requires forall k :: 0 <= k < |run| ==> run[k].toRupee == toRupee
    ensures AllSteady(Exec(b, run).bills, toRupee) && FrozenTotals(b.bills, Exec(b, run).bills)
    decreases |run|
  {
    if run == [] {
    } else {
      var next, r := After(b, run[0]), run[0].request;
      StepTurnsAll(b, r, toRupee);
      StepKeepsBills(b, r, toRupee);
      StepKeepsPayments(b, r, toRupee);
      forall i | 0 <= i < |next.bills|
        ensures Steady(next.bills[i], toRupee)
        ensures i < |b.bills| && b.bills[i].Closed() ==> next.bills[i].Closed() && next.bills[i].totals == b.bills[i].totals
      {
        if i < |b.bills| {
          SteadyTurn(b.bills[i], next.bills[i], toRupee);
        }
      }
      SteadySwitchFreezes(next, run[1..], toRupee);
    }
  }

  // ---------- When the switch is flipped ----------

  /** The columns are what recomputing gave under the switch of that moment. */
  ghost predicate OncePriced(x: BillState) { Derived(x, true) || Derived(x, false) }

  /** What the bill would come to if it were recomputed under this setting. */
  function Owed(x: BillState, toRupee: bool): nat {
    Payable(Exact(x.charges, x.taxes, Base(x)), toRupee)
  }

  predicate SamePrices(x: BillState, y: BillState) {
    x.items == y.items && x.discounts == y.discounts && x.charges == y.charges && x.taxes == y.taxes
  }

  lemma OncePricedTurn(x: BillState, y: BillState, toRupee: bool)
    requires OncePriced(x) && Turned(x, y, toRupee)
    ensures OncePriced(y)
  {
    if LandedLate(x, y, toRupee) {
      RecomputeIdempotent(x.(amountPaid := y.amountPaid), toRupee);
    }
  }

  /** In every run, from empty books for one, every bill's columns are what
      recomputing gives under one of the two settings. */
  lemma {:induction false} RunKeepsPriced(b: Books, run: seq<Turn>)
    requires AllBillsOk(b.bills) && PositivePayments(b.payments)
    requires forall i :: 0 <= i < |b.bills| ==> OncePriced(b.bills[i])
    ensures forall i :: 0 <= i < |Exec(b, run).bills| ==> OncePriced(Exec(b, run).bills[i])
    decreases |run|
  {
    if run == [] {
    } else {
      var next, r, toRupee := After(b, run[0]), run[0].request, run[0].toRupee;
      StepTurnsAll(b, r, toRupee);
      StepKeepsBills(b, r, toRupee);
      StepKeepsPayments(b, r, toRupee);
      forall i | 0 <= i < |next.bills|
        ensures OncePriced(next.bills[i])
      {
        if i < |b.bills| {
          OncePricedTurn(b.bills[i], next.bills[i], toRupee);
        } else {
          assert Steady(next.bills[i], toRupee);
        }
      }
      RunKeepsPriced(next, run[1..]);
    }
  }

  predicate MoneyLands(b: Books, t: Turn, i: nat) {
    i < |b.bills| && i < |After(b, t).bills| && b.bills[i].amountPaid < After(b, t).bills[i].amountPaid
  }

  /** The switch at the last moment of the run when money landed on the bill. */
  function LastLanding(b: Books, run: seq<Turn>, i: nat): Option<bool>
    decreases |run|
  {
    if run == [] then None
    else
      var later := LastLanding(After(b, run[0]), run[1..], i);
      if later.None? && MoneyLands(b, run[0], i) then Some(run[0].toRupee) else later
  }

  lemma ClosedTurn(x: BillState, y: BillState, toRupee: bool)
    requires x.Closed() && OncePriced(x) && Turned(x, y, toRupee)
    ensures SamePrices(x, y)
    ensures y.totals == if x.amountPaid < y.amountPaid then PriceOf(x, toRupee).totals else x.totals
  {
  }

  predicate TotalsAre(x: BillState, end: BillState, last: Option<bool>) {
    && end.Closed() && SamePrices(x, end)
    && end.totals == if last.Some? then PriceOf(x, last.value).totals else x.totals
  }

  lemma TotalsChain(x: BillState, y: BillState, end: BillState, toRupee: bool, later: Option<bool>)
    requires x.Closed() && OncePriced(x) && Turned(x, y, toRupee) && TotalsAre(y, end, later)
    ensures TotalsAre(x, end, if later.None? && x.amountPaid < y.amountPaid then Some(toRupee) else later)
  {
    ClosedTurn(x, y, toRupee);
    assert later.Some? ==> PriceOf(y, later.value) == PriceOf(x, later.value);
  }

  lemma {:induction false} ClosedTotals(b: Books, run: seq<Turn>, i: nat)
    requires AllBillsOk(b.bills) && PositivePayments(b.payments)
    requires i < |b.bills| && b.bills[i].Closed() && OncePriced(b.bills[i])
    ensures i < |Exec(b, run).bills| && TotalsAre(b.bills[i], Exec(b, run).bills[i], LastLanding(b, run, i))
    decreases |run|
  {
    if run == [] {
    } else {
      var next, r, toRupee := After(b, run[0]), run[0].request, run[0].toRupee;
      StepTurnsAll(b, r, toRupee);
      StepKeepsBills(b, r, toRupee);
      StepKeepsPayments(b, r, toRupee);
      assert Moves(b.bills[i], next.bills[i]);
      OncePricedTurn(b.bills[i], next.bills[i], toRupee);
      ClosedTotals(next, run[1..], i);
      TotalsChain(b.bills[i], next.bills[i], Exec(b, run).bills[i], toRupee, LastLanding(next, run[1..], i));
    }
  }

  lemma OwedDecides(x: BillState, toRupee: bool)
    requires OncePriced(x)
    ensures PriceOf(x, toRupee).totals.grand == Owed(x, toRupee)
    ensures PriceOf(x, toRupee).totals == x.totals <==> Owed(x, toRupee) == x.totals.grand
  {
  }

  /** A closed bill's total at the end of any run is what it comes to under the
      switch of the last moment when money landed on it. So its totals changed
      exactly when there was such a moment and that is another total. */
  lemma ClosedTotalIs(b: Books, run: seq<Turn>, i: nat)
    requires AllBillsOk(b.bills) && PositivePayments(b.payments)
    requires i < |b.bills| && b.bills[i].Closed() && OncePriced(b.bills[i])
    ensures i < |Exec(b, run).bills|
    ensures var x, end, last := b.bills[i], Exec(b, run).bills[i], LastLanding(b, run, i);
      && end.Closed() && SamePrices(x, end)
      && end.totals.grand == (if last.Some? then Owed(x, last.value) else x.totals.grand)
      && (end.totals != x.totals <==> last.Some? && Owed(x, last.value) != x.totals.grand)
  {
    ClosedTotals(b, run, i);
    var last := LastLanding(b, run, i);
    if last.Some? {
      OwedDecides(b.bills[i], last.value);
    }
  }

  // ---------- A printed total that changes ----------

  /** The request that pays exactly what is missing on the bill, at the counter. */
  function PayRest(b: Books, bill: nat, staff: nat, year: Year): Request
    requires bill < |b.bills| && b.bills[bill].amountPaid <= b.bills[bill].totals.grand
  {
    PayAtCounter(bill, b.bills[bill].totals.grand - b.bills[bill].amountPaid, Cash, staff, false, year)
  }

  predicate Numbered(x: BillState, settled: Books, bill: nat) {
    && bill < |settled.bills|
    && settled.bills[bill].status.Paid? && settled.bills[bill].invoice.Some?
    && settled.bills[bill].totals == x.totals && SamePrices(x, settled.bills[bill])
  }

  lemma CounterSettles(b: Books, bill: nat, staff: nat, year: Year)
    requires AllBillsOk(b.bills) && bill < |b.bills| && !b.bills[bill].Closed() && Derived(b.bills[bill], true)
    requires b.bills[bill].amountPaid < b.bills[bill].totals.grand
    requires !TooLong(b.counters, year)
    ensures var settled := DoPayAtCounter(b, PayRest(b, bill, staff, year), true);
      && Numbered(b.bills[bill], settled, bill)
      && |settled.bills| == |b.bills| && b.payments <= settled.payments
  {
    var x, r := b.bills[bill], PayRest(b, bill, staff, year);
    PaidWhenCovered(x, r.amount, true);
    LandOn(CounterTaken(b, r), bill, r.amount, year, true);
  }

  /** The bill keeps its number and loses its round-off. */
  predicate Unrounded(x: BillState, settled: Books, late: Books, bill: nat) {
    && bill < |settled.bills| && bill < |late.bills|
    && late.bills[bill].invoice == settled.bills[bill].invoice
    && late.bills[bill].totals.grand == x.totals.grand - x.totals.roundOff
  }

  lemma CapturedLate(x: BillState, b: Books, id: nat, year: Year)
    requires Derived(x, true) && Confirmable(b, id) && Numbered(x, b, b.payments[id].bill)
    ensures Unrounded(x, b, DoCapture(b, Capture(id, year), false), b.payments[id].bill)
  {
  }

  /** So it does happen: while a gateway order is pending, the guest pays cash with
      the switch on, which settles and numbers the bill. The switch goes off and the
      provider captures the order after all: the printed bill keeps its number and
      loses its round-off. Numbered at 100.00 rupees, it now says 100.40. */
  lemma FlipReopensTotal(b: Books, id: nat, staff: nat, year: Year)
    requires AllBillsOk(b.bills) && Confirmable(b, id)
    requires var x := b.bills[b.payments[id].bill];
      !x.Closed() && Derived(x, true) && x.amountPaid < x.totals.grand
    requires !TooLong(b.counters, year)
    ensures var bill := b.payments[id].bill; var x := b.bills[bill];
      var settled := DoPayAtCounter(b, PayRest(b, bill, staff, year), true);
      && Numbered(x, settled, bill)
      && Unrounded(x, settled, DoCapture(settled, Capture(id, year), false), bill)
      && (Owed(x, false) == 10040 ==> x.totals.grand == 10000 && x.totals.roundOff == -40)
  {
    var bill := b.payments[id].bill;
    CounterSettles(b, bill, staff, year);
    CapturedLate(b.bills[bill], DoPayAtCounter(b, PayRest(b, bill, staff, year), true), id, year);
  }
}
