/** The lines and rates of a bill over whole runs: a struck line stays struck, and
    what a line or a rate once was it stays. */
module LedgerLife {
  import opened Common
  import opened BillTotals
  import opened BillFigures
  import opened Ledger
  import opened LedgerBills
  import opened LedgerTotals
  import Ops = BillOperations

  // ---------- What a turn makes of a bill ----------

  function Landing(x: BillState, amount: nat, number: Option<InvoiceId>, toRupee: bool): BillState {
    Ops.TakePayment(x, amount, toRupee).(invoice := number)
  }

  /** The requests that write a bill, each with what it writes. */
  ghost predicate Became(x: BillState, y: BillState, r: Request, toRupee: bool) {
    || y == x
    || (IsEdit(r) && Edit(x, r, toRupee) == Ops.Done(y))
    || (r.Generate? && Ops.Refresh(x, r.lines, r.taxes, r.charges, toRupee) == Ops.Done(y))
    || (r.GiveBack? && y == x.(amountRefunded := y.amountRefunded))
    || (TakesMoney(r) && x.amountPaid < y.amountPaid && y == Landing(x, y.amountPaid - x.amountPaid, y.invoice, toRupee))
  }

  ghost predicate AllBecame(a: seq<BillState>, c: seq<BillState>, r: Request, toRupee: bool) {
    |a| <= |c| && forall i :: 0 <= i < |a| ==> Became(a[i], c[i], r, toRupee)
  }

  lemma OneBecame(bills: seq<BillState>, i: nat, y: BillState, r: Request, toRupee: bool)
    requires i < |bills| && Became(bills[i], y, r, toRupee)
    ensures AllBecame(bills, bills[i := y], r, toRupee)
  {
    var after := bills[i := y];
    forall k | 0 <= k < |bills|
      ensures Became(bills[k], after[k], r, toRupee)
    {
      assert k != i ==> after[k] == bills[k];
    }
  }

  lemma LandBecame(b: Books, id: nat, amount: nat, r: Request, year: Year, toRupee: bool)
    requires id < |b.bills| && 0 < amount && TakesMoney(r)
    ensures AllBecame(b.bills, Landed(b, id, amount, year, toRupee).bills, r, toRupee)
  {
    var after := Landed(b, id, amount, year, toRupee).bills;
    assert after == b.bills[id := after[id]];
    assert after[id] == Landing(b.bills[id], amount, after[id].invoice, toRupee);
    OneBecame(b.bills, id, after[id], r, toRupee);
  }

  lemma MoneyBecame(b: Books, r: Request, toRupee: bool)
    requires PositivePayments(b.payments) && TakesMoney(r)
    ensures AllBecame(b.bills, DoTakeMoney(b, r, toRupee).bills, r, toRupee)
  {
    var landed, from, id, amount := MoneyShape(b, r, toRupee);
    if landed {
      LandBecame(from, id, amount, r, r.year, toRupee);
    }
  }

  lemma EditBecame(b: Books, r: Request, toRupee: bool)
    requires IsEdit(r)
    ensures AllBecame(b.bills, DoEdit(b, r, toRupee).bills, r, toRupee)
  {
    if r.bill < |b.bills| {
      var o := Edit(b.bills[r.bill], r, toRupee);
      if o.Done? {
        OneBecame(b.bills, r.bill, o.bill, r, toRupee);
      }
    }
  }

  lemma GenerateBecame(b: Books, r: Request, toRupee: bool)
    requires r.Generate?
    ensures AllBecame(b.bills, DoGenerate(b, r, toRupee).bills, r, toRupee)
  {
    var found := OpenBill(b.bills, r.session, 0);
    if found.Some? {
      OneBecame(b.bills, found.value, Ops.Refresh(b.bills[found.value], r.lines, r.taxes, r.charges, toRupee).bill, r, toRupee);
    }
  }

  lemma GiveBackBecame(b: Books, r: Request, toRupee: bool)
    requires r.GiveBack?
    ensures AllBecame(b.bills, DoGiveBack(b, r).bills, r, toRupee)
  {
    GiveBackShape(b, r);
    if DoGiveBack(b, r).bills != b.bills {
      var i := b.payments[r.payment].bill;
      OneBecame(b.bills, i, WithRefund(b.bills, i, r.amount)[i], r, toRupee);
    }
  }

  lemma StepBecame(b: Books, r: Request, toRupee: bool)
    requires PositivePayments(b.payments)
    ensures AllBecame(b.bills, Step(b, r, toRupee).bills, r, toRupee)
  {
    if IsEdit(r) {
      EditBecame(b, r, toRupee);
    } else if TakesMoney(r) {
      MoneyBecame(b, r, toRupee);
    } else if r.Generate? {
      GenerateBecame(b, r, toRupee);
    } else if r.GiveBack? {
      GiveBackBecame(b, r, toRupee);
    } else {
      OthersLeaveBills(b, r, toRupee);
    }
  }

  // ---------- What never changes ----------

  /** Lines are only added, a line keeps its order line and price, and a struck one
      stays struck; discounts are only added; rates, once there, stay. */
  predicate Grown(x: BillState, y: BillState) {
    && |x.items| <= |y.items|
    && (forall k :: 0 <= k < |x.items| ==>
          && y.items[k].orderItem == x.items[k].orderItem && y.items[k].lineTotal == x.items[k].lineTotal
          && (x.items[k].voided ==> y.items[k].voided))
    && x.discounts <= y.discounts
    && (x.taxes != [] ==> SameTaxes(x.taxes, y.taxes))
    && (x.charges != [] ==> SameCharges(x.charges, y.charges))
  }

  lemma RecomputeKeeps(x: BillState, z: BillState, toRupee: bool)
    requires Grown(x, z)
    ensures Grown(x, Recompute(z, toRupee))
  {
  }

  lemma EditKeeps(x: BillState, r: Request, toRupee: bool)
    requires IsEdit(r)
    ensures Edit(x, r, toRupee).Done? ==> Grown(x, Edit(x, r, toRupee).bill)
  {
    match r
    case GiveDiscount(_, off, percent) =>
      if off.Some? || percent.Some? {
        var value := if off.Some? then off.value else Money.PercentOf(x.totals.subtotal, percent.value);
        RecomputeKeeps(x, x.(discounts := x.discounts + [value]), toRupee);
      }
    case VoidLine(_, k, who) =>
      if k < |x.items| {
        RecomputeKeeps(x, x.(items := x.items[k := x.items[k].(voided := true)]), toRupee);
      }
    case CompLine(_, k, who) =>
      if k < |x.items| {
        RecomputeKeeps(x, x.(items := x.items[k := x.items[k].(comped := true)]), toRupee);
      }
    case UncompLine(_, k, who) =>
      if k < |x.items| {
        RecomputeKeeps(x, x.(items := x.items[k := x.items[k].(comped := false)]), toRupee);
      }
    case MarkNoCharge(_, who) => RecomputeKeeps(x, x.(noCharge := true, items := Ops.GiveAwayAll(x.items)), toRupee);
    case VoidBill(_, who) =>
  }

  lemma BecameKeeps(x: BillState, y: BillState, r: Request, toRupee: bool)
    requires Became(x, y, r, toRupee)
    ensures Grown(x, y)
  {
    if IsEdit(r) {
      EditKeeps(x, r, toRupee);
    } else if r.Generate? && !x.Closed() {
      RecomputeKeeps(x, x.(items := x.items + Ops.Unbilled(r.lines, Ops.BilledOrderItems(x.items)),
                           taxes := if x.taxes == [] then r.taxes else x.taxes,
                           charges := if x.charges == [] then r.charges else x.charges), toRupee);
    } else if TakesMoney(r) && x.amountPaid < y.amountPaid {
      RecomputeKeeps(x, x.(amountPaid := y.amountPaid), toRupee);
    }
  }

  lemma GrownTransitive(x: BillState, y: BillState, z: BillState)
    requires Grown(x, y) && Grown(y, z)
    ensures Grown(x, z)
  {
  }

  /** Over every run a bill's lines are only added to, each keeps its price, a struck
      line stays struck, and rates never change once they are set up. */
  lemma {:induction false} LinesAndRatesStay(b: Books, run: seq<Turn>, i: nat)
    requires PositivePayments(b.payments) && i < |b.bills|
    ensures i < |Exec(b, run).bills| && Grown(b.bills[i], Exec(b, run).bills[i])
    decreases |run|
  {
    if run == [] {
    } else {
      var next := After(b, run[0]);
      StepBecame(b, run[0].request, run[0].toRupee);
      assert Became(b.bills[i], next.bills[i], run[0].request, run[0].toRupee);
      BecameKeeps(b.bills[i], next.bills[i], run[0].request, run[0].toRupee);
      StepKeepsPayments(b, run[0].request, run[0].toRupee);
      LinesAndRatesStay(next, run[1..], i);
      GrownTransitive(b.bills[i], next.bills[i], Exec(next, run[1..]).bills[i]);
    }
  }

  lemma SubtotalIsLines(y: BillState)
    requires OncePriced(y)
    ensures y.totals.subtotal == Added(Prices(y.items))
  {
    LinesAdd(y.items);
  }

  lemma {:induction false} PricesSplit(a: seq<Item>, x: Item, c: seq<Item>)
    ensures Added(Prices(a + [x] + c)) == Added(Prices(a)) + (if x.voided || x.comped then 0 else x.lineTotal) + Added(Prices(c))
    decreases |a|
  {
    var all := a + [x] + c;
    assert Prices(all)[1..] == Prices(all[1..]);
    if a == [] {
      assert all[1..] == c;
    } else {
      assert all[1..] == a[1..] + [x] + c;
      assert Prices(a)[1..] == Prices(a[1..]);
      PricesSplit(a[1..], x, c);
    }
  }

  /** And it is never charged again: after every run the bill's subtotal is what its
      lines add up to without it, and so its total is what it comes to without it. */
  lemma StruckForEver(b: Books, run: seq<Turn>, i: nat, k: nat)
    requires AllBillsOk(b.bills) && PositivePayments(b.payments)
    requires forall j :: 0 <= j < |b.bills| ==> OncePriced(b.bills[j])
    requires i < |b.bills| && k < |b.bills[i].items| && b.bills[i].items[k].voided
    ensures var end := Exec(b, run);
      && i < |end.bills|
      && (var y := end.bills[i];
          && k < |y.items| && y.items[k].voided && y.items[k].lineTotal == b.bills[i].items[k].lineTotal
          && y.totals.subtotal == Added(Prices(y.items[..k])) + Added(Prices(y.items[k + 1..])))
  {
    LinesAndRatesStay(b, run, i);
    RunKeepsPriced(b, run);
    var y := Exec(b, run).bills[i];
    SubtotalIsLines(y);
    assert y.items[..k] + [y.items[k]] + y.items[k + 1..] == y.items;
    PricesSplit(y.items[..k], y.items[k], y.items[k + 1..]);
  }
}
