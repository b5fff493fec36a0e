/** What each accepted request leaves on a bill, line by line, and exactly when it
    is accepted. */
module BillEdits {
  import opened Common
  import opened Money
  import opened BillTotals
  import opened BillFigures
  import opened BillOperations

  predicate MayChange(b: BillState) { b.status.Open? || b.status.PartiallyPaid? }

  predicate Permitted(who: Authority) {
    (who.managerOnly ==> who.isManager) && (who.reasonNeeded ==> who.reasonGiven)
  }

  /** The manager switch is looked at first. */
  predicate RefusesPerson(o: Outcome, who: Authority) {
    o == Refused(if who.managerOnly && !who.isManager then ManagerOnly else ReasonNeeded)
  }

  function Price(i: Item): nat { if i.voided || i.comped then 0 else i.lineTotal }

  /** Line k is now as given and every other line as it was; the subtotal moved by
      exactly that line's price, and the rest follows from the lines. */
  predicate LineBecame(b: BillState, r: BillState, k: nat, now: Item, toRupee: bool)
    requires k < |b.items|
  {
    && |r.items| == |b.items| && r.items[k] == now
    && (forall i :: 0 <= i < |b.items| && i != k ==> r.items[i] == b.items[i])
    && r.totals.subtotal + Price(b.items[k]) == Added(Prices(b.items)) + Price(now)
    && Figures(b.(items := r.items), r, toRupee)
  }

  lemma {:induction false} OnePriceChanges(a: seq<Item>, c: seq<Item>, k: nat)
    requires |a| == |c| && k < |a| && forall i :: 0 <= i < |a| && i != k ==> c[i] == a[i]
    ensures Added(Prices(c)) + Price(a[k]) == Added(Prices(a)) + Price(c[k])
    decreases k
  {
    assert Prices(a)[1..] == Prices(a[1..]) && Prices(c)[1..] == Prices(c[1..]);
    if k == 0 {
      assert a[1..] == c[1..];
    } else {
      OnePriceChanges(a[1..], c[1..], k - 1);
    }
  }

  lemma LineEdit(b: BillState, k: nat, now: Item, toRupee: bool)
    requires k < |b.items|
    ensures LineBecame(b, Recompute(b.(items := b.items[k := now]), toRupee), k, now, toRupee)
  {
    var items := b.items[k := now];
    var r := Recompute(b.(items := items), toRupee);
    RecomputedIff(b.(items := items), r, toRupee);
    OnePriceChanges(b.items, items, k);
  }

  /** Struck: accepted exactly on an open bill with that line not yet struck, from
      someone who may. */
  lemma VoidStrikes(b: BillState, k: nat, who: Authority, toRupee: bool)
    ensures var o := VoidLine(b, k, who, toRupee);
      && (o.Done? <==> MayChange(b) && k < |b.items| && !b.items[k].voided && Permitted(who))
      && (o.Done? ==>
        LineBecame(b, o.bill, k, Item(b.items[k].orderItem, b.items[k].lineTotal, true, b.items[k].comped), toRupee))
      && (!MayChange(b) ==> o == Refused(Closed))
      && (MayChange(b) && k >= |b.items| ==> o == Refused(NotFound))
      && (MayChange(b) && k < |b.items| ==>
        if b.items[k].voided then o == Refused(AlreadyVoided) else !Permitted(who) ==> RefusesPerson(o, who))
  {
    if k < |b.items| {
      LineEdit(b, k, b.items[k].(voided := true), toRupee);
    }
  }

  lemma CompFrees(b: BillState, k: nat, who: Authority, toRupee: bool)
    ensures var o := CompLine(b, k, who, toRupee);
      && (o.Done? <==> MayChange(b) && k < |b.items| && !b.items[k].voided && !b.items[k].comped && Permitted(who))
      && (o.Done? ==> LineBecame(b, o.bill, k, Item(b.items[k].orderItem, b.items[k].lineTotal, false, true), toRupee))
      && (!MayChange(b) ==> o == Refused(Closed))
      && (MayChange(b) && k >= |b.items| ==> o == Refused(NotFound))
      && (MayChange(b) && k < |b.items| ==>
        if b.items[k].voided then o == Refused(LineIsVoided)
        else if b.items[k].comped then o == Refused(AlreadyComped)
        else !Permitted(who) ==> RefusesPerson(o, who))
  {
    if k < |b.items| {
      LineEdit(b, k, b.items[k].(comped := true), toRupee);
    }
  }

  /** The reason is the service's own, so only the manager switch can refuse. */
  lemma UncompCharges(b: BillState, k: nat, who: Authority, toRupee: bool)
    ensures var o := UncompLine(b, k, who, toRupee);
      && (o.Done? <==> MayChange(b) && !b.noCharge && k < |b.items| && b.items[k].comped && (who.managerOnly ==> who.isManager))
      && (o.Done? ==>
        LineBecame(b, o.bill, k, Item(b.items[k].orderItem, b.items[k].lineTotal, b.items[k].voided, false), toRupee))
      && (!MayChange(b) ==> o == Refused(Closed))
      && (MayChange(b) && b.noCharge ==> o == Refused(IsNoCharge))
      && (MayChange(b) && !b.noCharge && k >= |b.items| ==> o == Refused(NotFound))
      && (MayChange(b) && !b.noCharge && k < |b.items| ==>
        if !b.items[k].comped then o == Refused(NotComped)
        else who.managerOnly && !who.isManager ==> o == Refused(ManagerOnly))
  {
    if k < |b.items| {
      LineEdit(b, k, b.items[k].(comped := false), toRupee);
    }
  }

  function GivenAway(i: Item): Item { Item(i.orderItem, i.lineTotal, i.voided, i.comped || !i.voided) }

  /** Every line that is not struck is given away; the bill is closed and unnumbered,
      and what it still costs is in its charge and tax rows. */
  lemma NoChargeGivesAway(b: BillState, who: Authority, toRupee: bool)
    ensures var o := MarkNoCharge(b, who, toRupee);
      && (o.Done? <==> !b.status.Cancelled? && !b.noCharge && b.amountPaid == 0 && Permitted(who))
      && (b.status.Cancelled? ==> o == Refused(AlreadyCancelled))
      && (!b.status.Cancelled? && b.noCharge ==> o == Refused(AlreadyNoCharge))
      && (!b.status.Cancelled? && !b.noCharge && b.amountPaid > 0 ==> o == Refused(MoneyTaken))
      && (!b.status.Cancelled? && !b.noCharge && b.amountPaid == 0 && !Permitted(who) ==> RefusesPerson(o, who))
      && (o.Done? ==>
        var r := o.bill;
        && |r.items| == |b.items|
        && (forall i :: 0 <= i < |b.items| ==> r.items[i] == GivenAway(b.items[i]))
        && r.totals.subtotal == 0 && r.noCharge && r.status == Paid
        && Figures(b.(items := r.items, noCharge := true, status := Paid), r, toRupee))
  {
    var given := b.(items := GiveAwayAll(b.items), noCharge := true, status := Paid);
    RecomputedIff(given, Recompute(given, toRupee), toRupee);
    NothingChargeable(b.items);
  }

  lemma VoidBillCancels(b: BillState, who: Authority)
    ensures var o := VoidBill(b, who);
      && (o.Done? <==> !b.status.Cancelled? && Permitted(who))
      && (o.Done? ==> o.bill == b.(status := Cancelled))
      && (b.status.Cancelled? ==> o == Refused(AlreadyCancelled))
      && (!b.status.Cancelled? && !Permitted(who) ==> RefusesPerson(o, who))
  {
  }

  /** A discount adds one row: the amount named, or the nearest paisa to that
      percentage of the subtotal. */
  lemma DiscountAdds(b: BillState, amount: Option<nat>, percent: Option<nat>, toRupee: bool)
    ensures var o := ApplyDiscount(b, amount, percent, toRupee);
      && (o.Done? <==> MayChange(b) && (amount.Some? || percent.Some?))
      && (!MayChange(b) ==> o == Refused(Closed))
      && (MayChange(b) && amount.None? && percent.None? ==> o == Refused(NothingGiven))
      && (o.Done? ==>
        var r, n := o.bill, |b.discounts|;
        && |r.discounts| == n + 1 && r.discounts[..n] == b.discounts
        && (amount.Some? ==> r.discounts[n] == amount.value)
        && (amount.None? ==> Nearest(b.totals.subtotal * percent.value, 10_000, r.discounts[n], r.discounts[n] * 10_000))
        && Figures(b.(discounts := r.discounts), r, toRupee))
  {
    var o := ApplyDiscount(b, amount, percent, toRupee);
    if o.Done? {
      var value := if amount.Some? then amount.value else PercentOf(b.totals.subtotal, percent.value);
      var raised := b.(discounts := b.discounts + [value]);
      RecomputedIff(raised, o.bill, toRupee);
      if amount.None? {
        PercentIff(b.totals.subtotal, percent.value, value);
      }
    }
  }

  /** Money lands: the paid column rises by the amount, and nothing else is written
      but what follows from the rows. */
  lemma PaymentRaises(b: BillState, amount: nat, toRupee: bool)
    ensures Figures(b.(amountPaid := b.amountPaid + amount), TakePayment(b, amount, toRupee), toRupee)
  {
    RecomputedIff(b.(amountPaid := b.amountPaid + amount), TakePayment(b, amount, toRupee), toRupee);
  }

  // ---------- Refreshing ----------

  /** The item is one of the order's lines, live and at the order's price. */
  predicate OrderedLine(lines: seq<OrderLine>, i: Item) {
    !i.voided && !i.comped && exists n :: 0 <= n < |lines| && lines[n] == OrderLine(i.orderItem, i.lineTotal)
  }

  lemma {:induction false} UnbilledRows(lines: seq<OrderLine>, billed: set<nat>)
    ensures forall k :: 0 <= k < |Unbilled(lines, billed)| ==> OrderedLine(lines, Unbilled(lines, billed)[k])
    decreases |lines|
  {
    if lines == [] {
    } else {
      var rest, last := lines[..|lines| - 1], lines[|lines| - 1];
      UnbilledRows(rest, billed);
      forall k | 0 <= k < |Unbilled(lines, billed)|
        ensures OrderedLine(lines, Unbilled(lines, billed)[k])
      {
        if k < |Unbilled(rest, billed)| {
          var i := Unbilled(rest, billed)[k];
          var n :| 0 <= n < |rest| && rest[n] == OrderLine(i.orderItem, i.lineTotal);
          assert lines[n] == rest[n];
        } else {
          assert lines[|rest|] == OrderLine(last.id, last.total);
        }
      }
    }
  }

  function SetUp(b: BillState, items: seq<Item>, taxes: seq<Tax>, charges: seq<Charge>): BillState {
    b.(items := items, taxes := if b.taxes == [] then taxes else b.taxes,
       charges := if b.charges == [] then charges else b.charges)
  }

  lemma RefreshIs(b: BillState, lines: seq<OrderLine>, taxes: seq<Tax>, charges: seq<Charge>, toRupee: bool)
    requires MayChange(b)
    ensures var items := b.items + Unbilled(lines, BilledOrderItems(b.items));
      Refresh(b, lines, taxes, charges, toRupee) == Done(Recompute(SetUp(b, items, taxes, charges), toRupee))
  {
  }

  /** A refresh keeps the lines it finds and adds only the order's own; taxes and
      charges are set up only if there are none. */
  lemma RefreshAdds(b: BillState, lines: seq<OrderLine>, taxes: seq<Tax>, charges: seq<Charge>, toRupee: bool)
    ensures var o := Refresh(b, lines, taxes, charges, toRupee);
      && (o.Done? <==> MayChange(b))
      && (o.Done? ==>
        && b.items <= o.bill.items
        && (forall k :: |b.items| <= k < |o.bill.items| ==> OrderedLine(lines, o.bill.items[k]))
        && Figures(SetUp(b, o.bill.items, taxes, charges), o.bill, toRupee))
  {
    if MayChange(b) {
      var items := b.items + Unbilled(lines, BilledOrderItems(b.items));
      UnbilledRows(lines, BilledOrderItems(b.items));
      RefreshIs(b, lines, taxes, charges, toRupee);
      RecomputedIff(SetUp(b, items, taxes, charges), Recompute(SetUp(b, items, taxes, charges), toRupee), toRupee);
    }
  }
}
