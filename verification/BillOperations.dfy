/** What each request of the billing service does to one bill, as a function of
    the bill before it, and the laws that relate the requests to each other. */
module BillOperations {
  import opened Common
  import opened Money
  import opened BillTotals

  datatype Refusal =
    | NotFound | Closed | AlreadyVoided | LineIsVoided | AlreadyComped | NotComped
    | AlreadyCancelled | AlreadyNoCharge | IsNoCharge | MoneyTaken
    | ManagerOnly | ReasonNeeded | NothingGiven

  datatype Outcome = Done(bill: BillState) | Refused(why: Refusal)

  /** The two switches that guard a void or a giveaway, and who is asking. */
  datatype Authority = Authority(managerOnly: bool, reasonNeeded: bool, isManager: bool, reasonGiven: bool) {
    function Check(): Option<Refusal> {
      if managerOnly && !isManager then Some(ManagerOnly)
      else if reasonNeeded && !reasonGiven then Some(ReasonNeeded)
      else None
    }
  }

  function NewBill(session: nat): BillState {
    BillState(session, [], [], [], [], Totals(0, 0, 0, 0, 0, 0), 0, 0, Open, false, None)
  }

  // ---------- Generate or refresh ----------

  function BilledOrderItems(items: seq<Item>): set<nat> {
    set i | i in items :: i.orderItem
  }

  /** A line of an order, as billing reads it. */
  datatype OrderLine = OrderLine(id: nat, total: nat)

  function LineIds(lines: seq<OrderLine>): set<nat> {
    set l | l in lines :: l.id
  }

  /** Lines of the session's orders that are not among the already billed ones. */
  function Unbilled(lines: seq<OrderLine>, billed: set<nat>): seq<Item> {
    if lines == [] then []
    else
      var l := lines[|lines| - 1];
      Unbilled(lines[..|lines| - 1], billed) + if l.id in billed then [] else [Item(l.id, l.total, false, false)]
  }

  /** Syncs in new order lines; taxes and charges are set up only once. */
  function Refresh(b: BillState, lines: seq<OrderLine>, taxes: seq<Tax>, charges: seq<Charge>, toRupee: bool): Outcome {
    if b.Closed() then Refused(Closed)
    else Done(Recompute(
      b.(items := b.items + Unbilled(lines, BilledOrderItems(b.items)),
         taxes := if b.taxes == [] then taxes else b.taxes,
         charges := if b.charges == [] then charges else b.charges), toRupee))
  }

  // ---------- Discounts, voids, giveaways ----------

  function ApplyDiscount(b: BillState, amount: Option<nat>, percent: Option<nat>, toRupee: bool): Outcome {
    if b.Closed() then Refused(Closed)
    else if amount.None? && percent.None? then Refused(NothingGiven)
    else
      var value := if amount.Some? then amount.value else PercentOf(b.totals.subtotal, percent.value);
      Done(Recompute(b.(discounts := b.discounts + [value]), toRupee))
  }

  function VoidLine(b: BillState, k: nat, who: Authority, toRupee: bool): Outcome {
    if b.Closed() then Refused(Closed)
    else if k >= |b.items| then Refused(NotFound)
    else if b.items[k].voided then Refused(AlreadyVoided)
    else if who.Check().Some? then Refused(who.Check().value)
    else Done(Recompute(b.(items := b.items[k := b.items[k].(voided := true)]), toRupee))
  }

  function CompLine(b: BillState, k: nat, who: Authority, toRupee: bool): Outcome {
    if b.Closed() then Refused(Closed)
    else if k >= |b.items| then Refused(NotFound)
    else if b.items[k].voided then Refused(LineIsVoided)
    else if b.items[k].comped then Refused(AlreadyComped)
    else if who.Check().Some? then Refused(who.Check().value)
    else Done(Recompute(b.(items := b.items[k := b.items[k].(comped := true)]), toRupee))
  }

  /** The service supplies its own reason here, so only the manager switch can refuse. */
  function UncompLine(b: BillState, k: nat, who: Authority, toRupee: bool): Outcome {
    if b.Closed() then Refused(Closed)
    else if b.noCharge then Refused(IsNoCharge)
    else if k >= |b.items| then Refused(NotFound)
    else if !b.items[k].comped then Refused(NotComped)
    else if who.(reasonGiven := true).Check().Some? then Refused(who.(reasonGiven := true).Check().value)
    else Done(Recompute(b.(items := b.items[k := b.items[k].(comped := false)]), toRupee))
  }

  function GiveAway(i: Item): Item {
    if i.Chargeable() then i.(comped := true) else i
  }

  function GiveAwayAll(items: seq<Item>): seq<Item> {
    seq(|items|, k requires 0 <= k < |items| => GiveAway(items[k]))
  }

  function MarkNoCharge(b: BillState, who: Authority, toRupee: bool): Outcome {
    if b.status.Cancelled? then Refused(AlreadyCancelled)
    else if b.noCharge then Refused(AlreadyNoCharge)
    else if b.amountPaid > 0 then Refused(MoneyTaken)
    else if who.Check().Some? then Refused(who.Check().value)
    else Done(Recompute(b.(noCharge := true, items := GiveAwayAll(b.items)), toRupee).(status := Paid))
  }

  function VoidBill(b: BillState, who: Authority): Outcome {
    if b.status.Cancelled? then Refused(AlreadyCancelled)
    else if who.Check().Some? then Refused(who.Check().value)
    else Done(b.(status := Cancelled))
  }

  // ---------- Payment ----------

  /** The bill after money is applied, before any invoice number is allocated. */
  function TakePayment(b: BillState, amount: nat, toRupee: bool): BillState {
    Recompute(b.(amountPaid := b.amountPaid + amount), toRupee)
  }

  /** Whether that payment is the one that turns the bill into a tax invoice. */
  predicate NeedsNumber(b: BillState, amount: nat, toRupee: bool) {
    && TakePayment(b, amount, toRupee).status.Paid? && !b.status.Paid?
    && b.invoice.None?
  }

  // ---------- Laws ----------

  lemma StrikeFalls(b: BillState, k: nat, item: Item, toRupee: bool)
    requires Derived(b, toRupee) && k < |b.items|
    requires !item.Chargeable() && item.lineTotal == b.items[k].lineTotal
    ensures NowhereAbove(Recompute(b.(items := b.items[k := item]), toRupee), b)
  {
    if b.items[k].Chargeable() {
      BaseFalls(b, 0, k, item);
    } else {
      ChargeableSumUpdate(b.items, k, item);
    }
    RecomputeMonotone(b.(items := b.items[k := item]), b, toRupee);
  }

  /** A giveaway, strike or discount never raises a charge, a tax or the total. */
  lemma ReductionsNeverRaise(b: BillState, k: nat, who: Authority, amount: Option<nat>, percent: Option<nat>, toRupee: bool)
    requires Derived(b, toRupee)
    ensures VoidLine(b, k, who, toRupee).Done? ==> NowhereAbove(VoidLine(b, k, who, toRupee).bill, b)
    ensures CompLine(b, k, who, toRupee).Done? ==> NowhereAbove(CompLine(b, k, who, toRupee).bill, b)
    ensures ApplyDiscount(b, amount, percent, toRupee).Done?
      ==> NowhereAbove(ApplyDiscount(b, amount, percent, toRupee).bill, b)
  {
    if VoidLine(b, k, who, toRupee).Done? {
      StrikeFalls(b, k, b.items[k].(voided := true), toRupee);
    }
    if CompLine(b, k, who, toRupee).Done? {
      StrikeFalls(b, k, b.items[k].(comped := true), toRupee);
    }
    if ApplyDiscount(b, amount, percent, toRupee).Done? {
      var value := if amount.Some? then amount.value else PercentOf(b.totals.subtotal, percent.value);
      BaseFalls(b, value, 0, Item(0, 0, true, true));
      RecomputeMonotone(b.(discounts := b.discounts + [value]), b, toRupee);
    }
  }

  /** Comp then uncomp gives back the very same bill, exactly when the comp left
      it open; otherwise the second request is refused and the line stays free. */
  lemma CompUncompRestores(b: BillState, k: nat, who: Authority, toRupee: bool)
    requires Derived(b, toRupee)
    requires CompLine(b, k, who, toRupee).Done?
    ensures var comped := CompLine(b, k, who, toRupee).bill;
      UncompLine(comped, k, who, toRupee) == Done(b) <==> !comped.status.Paid? && !b.noCharge
  {
    var comped := CompLine(b, k, who, toRupee).bill;
    if !comped.status.Paid? && !b.noCharge {
      assert comped.items[k := comped.items[k].(comped := false)] == b.items;
      RecomputeForgetsDerived(comped.(items := b.items), b, toRupee);
    }
  }

  /** The outcome closed the bill exactly if something had been paid and the new
      total no longer exceeds it; either way it has the number it had. */
  predicate ClosesWhenCovered(b: BillState, o: Outcome) {
    o.Done? ==>
      && (o.bill.status.Paid? <==> 0 < b.amountPaid && o.bill.totals.grand <= b.amountPaid)
      && o.bill.invoice == b.invoice
  }

  lemma RecomputeCloses(b: BillState, after: BillState, toRupee: bool)
    requires !b.Closed() && after.status == b.status && after.amountPaid == b.amountPaid && after.invoice == b.invoice
    ensures ClosesWhenCovered(b, Done(Recompute(after, toRupee)))
  {
  }

  /** When a reduction closes an open bill, without a payment and without a number. */
  lemma ClosedWithoutPayment(b: BillState, k: nat, who: Authority, amount: Option<nat>, percent: Option<nat>, toRupee: bool)
    requires !b.Closed()
    ensures ClosesWhenCovered(b, ApplyDiscount(b, amount, percent, toRupee))
    ensures ClosesWhenCovered(b, VoidLine(b, k, who, toRupee))
    ensures ClosesWhenCovered(b, CompLine(b, k, who, toRupee))
  {
    var value := if amount.Some? then amount.value else if percent.Some? then PercentOf(b.totals.subtotal, percent.value) else 0;
    RecomputeCloses(b, b.(discounts := b.discounts + [value]), toRupee);
    if k < |b.items| {
      RecomputeCloses(b, b.(items := b.items[k := b.items[k].(voided := true)]), toRupee);
      RecomputeCloses(b, b.(items := b.items[k := b.items[k].(comped := true)]), toRupee);
    }
  }

  /** What a further discount leaves of the discounted base. */
  function BaseLess(b: BillState, off: nat): nat {
    if off < Base(b) then Base(b) - off else 0
  }

  lemma FurtherDiscount(b: BillState, off: nat)
    ensures Base(b.(discounts := b.discounts + [off])) == BaseLess(b, off)
  {
    assert (b.discounts + [off])[..|b.discounts|] == b.discounts;
  }

  lemma SettlesByGrand(b: BillState, base: nat, toRupee: bool)
    requires !b.Closed() && 0 < b.amountPaid && base == Base(b)
    ensures var r := Recompute(b, toRupee);
      r.invoice == b.invoice && (r.status.Paid? <==> Payable(Exact(b.charges, b.taxes, base), toRupee) <= b.amountPaid)
  {
  }

  /** So a discount of any size closes a part-paid bill, leaving it unnumbered,
      exactly when what was paid covers the charges and taxes on the rest. */
  lemma DiscountClosesUnnumbered(b: BillState, off: nat, toRupee: bool)
    requires b.status.PartiallyPaid? && 0 < b.amountPaid && b.invoice.None?
    ensures var o := ApplyDiscount(b, Some(off), None, toRupee);
      && o.Done? && o.bill.invoice.None?
      && (o.bill.status.Paid? <==> Payable(Exact(b.charges, b.taxes, BaseLess(b, off)), toRupee) <= b.amountPaid)
  {
    var reduced := b.(discounts := b.discounts + [off]);
    FurtherDiscount(b, off);
    SettlesByGrand(reduced, BaseLess(b, off), toRupee);
    assert ApplyDiscount(b, Some(off), None, toRupee) == Done(Recompute(reduced, toRupee));
  }

  // ---------- No-charge bills ----------

  lemma NothingChargeable(items: seq<Item>)
    ensures ChargeableSum(GiveAwayAll(items)) == 0
  {
    if items == [] {
    } else {
      NothingChargeable(items[..|items| - 1]);
      assert GiveAwayAll(items)[..|items| - 1] == GiveAwayAll(items[..|items| - 1]);
    }
  }

  /** What a no-charge bill still costs: its flat charges, and tax on the taxable ones. */
  function FlatCost(b: BillState): nat {
    var flat := RepriceAll(b.charges, 0);
    ChargeSum(flat, false) + TaxSum(RetaxAll(b.taxes, ChargeSum(flat, true)))
  }

  predicate AllChargesPercentages(charges: seq<Charge>) {
    forall c :: c in charges ==> c.percent.Some? || c.amount == 0
  }

  lemma PercentOfNothing(percent: nat)
    ensures PercentOf(0, percent) == 0
  {
  }

  lemma FlatSumZeroIff(charges: seq<Charge>)
    ensures ChargeSum(RepriceAll(charges, 0), false) == 0 <==> AllChargesPercentages(charges)
    ensures AllChargesPercentages(charges) ==> ChargeSum(RepriceAll(charges, 0), true) == 0
  {
    if charges == [] {
    } else {
      var rest, last := charges[..|charges| - 1], charges[|charges| - 1];
      FlatSumZeroIff(rest);
      assert RepriceAll(charges, 0)[..|charges| - 1] == RepriceAll(rest, 0);
      assert charges == rest + [last];
      if last.percent.Some? {
        PercentOfNothing(last.percent.value);
      }
    }
  }

  lemma TaxOnNothing(taxes: seq<Tax>)
    ensures TaxSum(RetaxAll(taxes, 0)) == 0
  {
    if taxes == [] {
    } else {
      TaxOnNothing(taxes[..|taxes| - 1]);
      assert RetaxAll(taxes, 0)[..|taxes| - 1] == RetaxAll(taxes[..|taxes| - 1], 0);
      PercentOfNothing(taxes[|taxes| - 1].percent);
    }
  }

  /** A no-charge bill owes nothing exactly when every charge on it is a
      percentage, or, with the rupee round-off on, when the flat part rounds away. */
  lemma NoChargeZeroIff(b: BillState, who: Authority, toRupee: bool)
    requires MarkNoCharge(b, who, toRupee).Done?
    ensures MarkNoCharge(b, who, toRupee).bill.totals.grand == 0
      <==> if toRupee then FlatCost(b) <= 50 else AllChargesPercentages(b.charges)
    ensures AllChargesPercentages(b.charges) ==> FlatCost(b) == 0
  {
    NothingChargeable(b.items);
    FlatSumZeroIff(b.charges);
    TaxOnNothing(b.taxes);
    RoundZeroIff(FlatCost(b), 100);
  }

  /** Recomputing never settles a bill on which nothing was paid, whatever its
      total: the explicit PAID that marking no-charge writes is what closes it. */
  lemma UnpaidStaysOpen(b: BillState, toRupee: bool)
    requires b.amountPaid == 0 && !b.Closed()
    ensures Recompute(b, toRupee).status == Open
  {
  }

  // ---------- Order lines ----------

  ghost predicate BilledOnce(items: seq<Item>) {
    forall i, j :: 0 <= i < j < |items| ==> items[i].orderItem != items[j].orderItem
  }

  ghost predicate DistinctLines(lines: seq<OrderLine>) {
    forall i, j :: 0 <= i < j < |lines| ==> lines[i].id != lines[j].id
  }

  lemma OrderItemsConcat(a: seq<Item>, b: seq<Item>)
    ensures BilledOrderItems(a + b) == BilledOrderItems(a) + BilledOrderItems(b)
    ensures BilledOnce(a) && BilledOnce(b) && BilledOrderItems(a) !! BilledOrderItems(b) ==> BilledOnce(a + b)
  {
    forall i | i in a || i in b
      ensures i in a + b
    {
    }
    if BilledOnce(a) && BilledOnce(b) && BilledOrderItems(a) !! BilledOrderItems(b) {
      forall i, j | 0 <= i < j < |a + b|
        ensures (a + b)[i].orderItem != (a + b)[j].orderItem
      {
        if i < |a| <= j {
          assert a[i].orderItem in BilledOrderItems(a) && b[j - |a|].orderItem in BilledOrderItems(b);
        }
      }
    }
  }

  lemma UnbilledExact(lines: seq<OrderLine>, billed: set<nat>)
    requires DistinctLines(lines)
    ensures BilledOnce(Unbilled(lines, billed))
    ensures BilledOrderItems(Unbilled(lines, billed)) == LineIds(lines) - billed
  {
    if lines == [] {
    } else {
      var rest, last := lines[..|lines| - 1], lines[|lines| - 1];
      UnbilledExact(rest, billed);
      assert lines == rest + [last];
      assert LineIds(lines) == LineIds(rest) + {last.id};
      assert last.id !in LineIds(rest);
      var added := if last.id in billed then [] else [Item(last.id, last.total, false, false)];
      assert BilledOrderItems(added) == if last.id in billed then {} else {last.id};
      OrderItemsConcat(Unbilled(rest, billed), added);
    }
  }

  /** A refresh bills every order line exactly once, and leaves lines already on
      the bill, struck ones included, where and as they are. */
  lemma RefreshBillsEachLineOnce(b: BillState, lines: seq<OrderLine>, taxes: seq<Tax>, charges: seq<Charge>, toRupee: bool)
    requires BilledOnce(b.items) && !b.Closed() && DistinctLines(lines)
    ensures var after := Refresh(b, lines, taxes, charges, toRupee).bill;
      && BilledOnce(after.items)
      && b.items <= after.items
      && BilledOrderItems(after.items) == BilledOrderItems(b.items) + LineIds(lines)
  {
    UnbilledExact(lines, BilledOrderItems(b.items));
    OrderItemsConcat(b.items, Unbilled(lines, BilledOrderItems(b.items)));
  }
}
