/** The billing service as it works: a bill object whose columns and child rows
    are updated in place, each request proved to do what BillOperations says. */
module BillService {
  import opened Common
  import opened Money
  import opened BillTotals
  import Ops = BillOperations

  class Bill {
    const session: nat
    var items: seq<Item>
    var charges: seq<Charge>
    var taxes: seq<Tax>
    var discounts: seq<nat>
    var totals: Totals
    var amountPaid: nat
    var amountRefunded: nat
    var status: Status
    var noCharge: bool
    var invoice: Option<InvoiceId>

    function State(): BillState
      reads this
    {
      BillState(session, items, discounts, charges, taxes, totals, amountPaid, amountRefunded, status, noCharge, invoice)
    }

    constructor (session: nat)
      ensures State() == Ops.NewBill(session)
    {
      this.session := session;
      items, charges, taxes, discounts := [], [], [], [];
      totals := Totals(0, 0, 0, 0, 0, 0);
      amountPaid, amountRefunded, status, noCharge, invoice := 0, 0, Open, false, None;
    }

    /** The row as it was read from the table. */
    constructor Load(b: BillState)
      ensures State() == b
    {
      session, items, discounts, charges, taxes := b.session, b.items, b.discounts, b.charges, b.taxes;
      totals, amountPaid, amountRefunded := b.totals, b.amountPaid, b.amountRefunded;
      status, noCharge, invoice := b.status, b.noCharge, b.invoice;
    }

    /** A request either did what the specification says, or refused and changed nothing. */
    ghost predicate Follows(before: BillState, o: Ops.Outcome, refusal: Option<Ops.Refusal>)
      reads this
    {
      match o
      case Done(b) => refusal == None && State() == b
      case Refused(why) => refusal == Some(why) && State() == before
    }

    method TotalChargeable() returns (total: nat)
      ensures total == ChargeableSum(items)
    {
      total := 0;
      for i := 0 to |items|
        invariant total == ChargeableSum(items[..i])
      {
        assert items[..i + 1][..i] == items[..i];
        if items[i].Chargeable() {
          total := total + items[i].lineTotal;
        }
      }
      assert items[..|items|] == items;
    }

    method TotalDiscounts() returns (total: nat)
      ensures total == Sum(discounts)
    {
      total := 0;
      for i := 0 to |discounts|
        invariant total == Sum(discounts[..i])
      {
        assert discounts[..i + 1][..i] == discounts[..i];
        total := total + discounts[i];
      }
      assert discounts[..|discounts|] == discounts;
    }

    /** The charge loop: rewrites percentage charges and totals them all. */
    static method RepriceCharges(rows: seq<Charge>, base: nat) returns (priced: seq<Charge>, total: nat, taxable: nat)
      ensures priced == RepriceAll(rows, base)
      ensures total == ChargeSum(priced, false) && taxable == ChargeSum(priced, true)
    {
      priced, total, taxable := rows, 0, 0;
      ghost var goal := RepriceAll(rows, base);
      for i := 0 to |rows|
        invariant |priced| == |rows|
        invariant forall k :: 0 <= k < i ==> priced[k] == goal[k]
        invariant forall k :: i <= k < |rows| ==> priced[k] == rows[k]
        invariant total == ChargeSum(goal[..i], false) && taxable == ChargeSum(goal[..i], true)
      {
        var c := priced[i];
        if c.percent.Some? {
          c := c.(amount := PercentOf(base, c.percent.value));
        }
        priced := priced[i := c];
        assert goal[..i + 1][..i] == goal[..i];
        total := total + c.amount;
        if c.taxable {
          taxable := taxable + c.amount;
        }
      }
      assert goal[..|rows|] == goal;
    }

    static method RetaxLines(rows: seq<Tax>, taxable: nat) returns (taxed: seq<Tax>, total: nat)
      ensures taxed == RetaxAll(rows, taxable)
      ensures total == TaxSum(taxed)
    {
      taxed, total := rows, 0;
      ghost var goal := RetaxAll(rows, taxable);
      for i := 0 to |rows|
        invariant |taxed| == |rows|
        invariant forall k :: 0 <= k < i ==> taxed[k] == goal[k]
        invariant forall k :: i <= k < |rows| ==> taxed[k] == rows[k]
        invariant total == TaxSum(goal[..i])
      {
        taxed := taxed[i := taxed[i].(amount := PercentOf(taxable, taxed[i].percent))];
        assert goal[..i + 1][..i] == goal[..i];
        total := total + taxed[i].amount;
      }
      assert goal[..|rows|] == goal;
    }

    static method PriceLines(lines: nat, off: nat, oldCharges: seq<Charge>, oldTaxes: seq<Tax>, toRupee: bool)
      returns (p: Priced)
      requires off <= lines
      ensures p == Price(lines, off, oldCharges, oldTaxes, toRupee)
    {
      var base: nat := lines - off;
      var cs, charged, taxable := RepriceCharges(oldCharges, base);
      var ts, taxed := RetaxLines(oldTaxes, base + taxable);
      var exact := base + charged + taxed;
      var payable := if toRupee then RoundToRupee(exact) else exact;
      p := Priced(cs, ts, Totals(lines, off, charged, taxed, payable - exact, payable));
    }

    method RecomputeTotals(toRupee: bool)
      modifies this
      ensures State() == Recompute(old(State()), toRupee)
    {
      var lines := TotalChargeable();
      var off := TotalDiscounts();
      var p := PriceLines(lines, Min(off, lines), charges, taxes, toRupee);
      charges, taxes, totals := p.charges, p.taxes, p.totals;
      if !status.Paid? && !status.Cancelled? {
        if amountPaid <= 0 {
          status := Open;
        } else if amountPaid < totals.grand {
          status := PartiallyPaid;
        } else {
          status := Paid;
        }
      }
    }

    /** Bills the order lines that are not on the bill yet. */
    method SyncItems(lines: seq<Ops.OrderLine>)
      modifies `items
      ensures items == old(items) + Ops.Unbilled(lines, Ops.BilledOrderItems(old(items)))
    {
      var billed := set i | i in items :: i.orderItem;
      for n := 0 to |lines|
        invariant items == old(items) + Ops.Unbilled(lines[..n], billed)
      {
        assert lines[..n + 1][..n] == lines[..n];
        if lines[n].id !in billed {
          items := items + [Item(lines[n].id, lines[n].total, false, false)];
        }
      }
      assert lines[..|lines|] == lines;
    }

    method Refresh(lines: seq<Ops.OrderLine>, newTaxes: seq<Tax>, newCharges: seq<Charge>, toRupee: bool)
      returns (refusal: Option<Ops.Refusal>)
      modifies this
      ensures Follows(old(State()), Ops.Refresh(old(State()), lines, newTaxes, newCharges, toRupee), refusal)
    {
      if status.Paid? || status.Cancelled? {
        return Some(Ops.Closed);
      }
      SyncItems(lines);
      if taxes == [] {
        taxes := newTaxes;
      }
      if charges == [] {
        charges := newCharges;
      }
      RecomputeTotals(toRupee);
      return None;
    }

    method ApplyDiscount(amount: Option<nat>, percent: Option<nat>, toRupee: bool) returns (refusal: Option<Ops.Refusal>)
      modifies this
      ensures Follows(old(State()), Ops.ApplyDiscount(old(State()), amount, percent, toRupee), refusal)
    {
      if status.Paid? || status.Cancelled? {
        return Some(Ops.Closed);
      }
      var value: nat;
      if amount.Some? {
        value := amount.value;
      } else if percent.Some? {
        value := PercentOf(totals.subtotal, percent.value);
      } else {
        return Some(Ops.NothingGiven);
      }
      discounts := discounts + [value];
      RecomputeTotals(toRupee);
      return None;
    }

    method VoidLine(k: nat, who: Ops.Authority, toRupee: bool) returns (refusal: Option<Ops.Refusal>)
      modifies this
      ensures Follows(old(State()), Ops.VoidLine(old(State()), k, who, toRupee), refusal)
    {
      if status.Paid? || status.Cancelled? {
        return Some(Ops.Closed);
      }
      if k >= |items| {
        return Some(Ops.NotFound);
      }
      if items[k].voided {
        return Some(Ops.AlreadyVoided);
      }
      refusal := who.Check();
      if refusal.None? {
        items := items[k := items[k].(voided := true)];
        RecomputeTotals(toRupee);
      }
    }

    method CompLine(k: nat, who: Ops.Authority, toRupee: bool) returns (refusal: Option<Ops.Refusal>)
      modifies this
      ensures Follows(old(State()), Ops.CompLine(old(State()), k, who, toRupee), refusal)
    {
      if status.Paid? || status.Cancelled? {
        return Some(Ops.Closed);
      }
      if k >= |items| {
        return Some(Ops.NotFound);
      }
      if items[k].voided {
        return Some(Ops.LineIsVoided);
      }
      if items[k].comped {
        return Some(Ops.AlreadyComped);
      }
      refusal := who.Check();
      if refusal.None? {
        items := items[k := items[k].(comped := true)];
        RecomputeTotals(toRupee);
      }
    }

    method UncompLine(k: nat, who: Ops.Authority, toRupee: bool) returns (refusal: Option<Ops.Refusal>)
      modifies this
      ensures Follows(old(State()), Ops.UncompLine(old(State()), k, who, toRupee), refusal)
    {
      if status.Paid? || status.Cancelled? {
        return Some(Ops.Closed);
      }
      if noCharge {
        return Some(Ops.IsNoCharge);
      }
      if k >= |items| {
        return Some(Ops.NotFound);
      }
      if !items[k].comped {
        return Some(Ops.NotComped);
      }
      refusal := who.(reasonGiven := true).Check();
      if refusal.None? {
        items := items[k := items[k].(comped := false)];
        RecomputeTotals(toRupee);
      }
    }

    method MarkNoCharge(who: Ops.Authority, toRupee: bool) returns (refusal: Option<Ops.Refusal>)
      modifies this
      ensures Follows(old(State()), Ops.MarkNoCharge(old(State()), who, toRupee), refusal)
    {
      if status.Cancelled? {
        return Some(Ops.AlreadyCancelled);
      }
      if noCharge {
        return Some(Ops.AlreadyNoCharge);
      }
      if amountPaid > 0 {
        return Some(Ops.MoneyTaken);
      }
      refusal := who.Check();
      if refusal.Some? {
        return;
      }
      noCharge := true;
      ghost var given := Ops.GiveAwayAll(items);
      for k := 0 to |items|
        invariant |items| == |given|
        invariant forall j :: 0 <= j < k ==> items[j] == given[j]
        invariant forall j :: k <= j < |given| ==> items[j] == old(items)[j]
        modifies `items
      {
        if !items[k].voided && !items[k].comped {
          items := items[k := items[k].(comped := true)];
        }
      }
      assert items == given;
      RecomputeTotals(toRupee);
      status := Paid;
    }

    method VoidBill(who: Ops.Authority) returns (refusal: Option<Ops.Refusal>)
      modifies this
      ensures Follows(old(State()), Ops.VoidBill(old(State()), who), refusal)
    {
      if status.Cancelled? {
        return Some(Ops.AlreadyCancelled);
      }
      refusal := who.Check();
      if refusal.None? {
        status := Cancelled;
      }
    }

    /** The bill's part of applying a payment; numbered says whether the caller
        must now allocate an invoice number and hand it to Finalise. */
    method TakePayment(amount: nat, toRupee: bool) returns (numbered: bool)
      modifies this
      ensures State() == Ops.TakePayment(old(State()), amount, toRupee)
      ensures numbered == Ops.NeedsNumber(old(State()), amount, toRupee)
    {
      var wasPaid := status.Paid?;
      amountPaid := amountPaid + amount;
      RecomputeTotals(toRupee);
      numbered := status.Paid? && !wasPaid && invoice.None?;
    }

    /** Idempotent: a bill that carries a number keeps it. */
    method Finalise(number: InvoiceId)
      modifies this
      ensures State() == old(State()).(invoice := if old(invoice).Some? then old(invoice) else Some(number))
    {
      if invoice.None? {
        invoice := Some(number);
      }
    }
  }
}
