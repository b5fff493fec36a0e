/** The derived totals of a bill, and the laws that recomputing them keeps.
    A BillState is one row of the bills table with its child rows. */
module BillTotals {
  import opened Common
  import opened Money

  datatype Status = Open | PartiallyPaid | Paid | Cancelled

  datatype Item = Item(orderItem: nat, lineTotal: nat, voided: bool, comped: bool) {
    predicate Chargeable() { !voided && !comped }
  }

  /** percent is None when the charge came from a flat band. */
  datatype Charge = Charge(name: string, percent: Option<nat>, amount: nat, taxable: bool)

  datatype Tax = Tax(percent: nat, amount: nat)

  datatype InvoiceId = InvoiceId(year: string, sequence: nat)

  datatype Totals = Totals(subtotal: nat, discount: nat, charge: nat, tax: nat, roundOff: int, grand: nat)

  datatype BillState = BillState(
    session: nat,
    items: seq<Item>,
    discounts: seq<nat>,
    charges: seq<Charge>,
    taxes: seq<Tax>,
    totals: Totals,
    amountPaid: nat,
    amountRefunded: nat,
    status: Status,
    noCharge: bool,
    invoice: Option<InvoiceId>)
  {
    predicate Closed() { status.Paid? || status.Cancelled? }
  }

  // ---------- Sums, by the last row so that a loop extends them by one ----------

  function Sum(xs: seq<nat>): nat {
    if xs == [] then 0 else Sum(xs[..|xs| - 1]) + xs[|xs| - 1]
  }

  function ChargeableSum(items: seq<Item>): nat {
    if items == [] then 0
    else
      var i := items[|items| - 1];
      ChargeableSum(items[..|items| - 1]) + if i.Chargeable() then i.lineTotal else 0
  }

  function ChargeSum(charges: seq<Charge>, taxableOnly: bool): nat {
    if charges == [] then 0
    else
      var c := charges[|charges| - 1];
      ChargeSum(charges[..|charges| - 1], taxableOnly) + if taxableOnly && !c.taxable then 0 else c.amount
  }

  function TaxSum(taxes: seq<Tax>): nat {
    if taxes == [] then 0 else TaxSum(taxes[..|taxes| - 1]) + taxes[|taxes| - 1].amount
  }

  // ---------- The recomputation ----------

  function Discount(b: BillState): (d: nat)
    ensures d <= ChargeableSum(b.items)
  {
    Min(Sum(b.discounts), ChargeableSum(b.items))
  }

  function Base(b: BillState): nat {
    ChargeableSum(b.items) - Discount(b)
  }

  function Reprice(c: Charge, base: nat): Charge {
    if c.percent.Some? then c.(amount := PercentOf(base, c.percent.value)) else c
  }

  function RepriceAll(charges: seq<Charge>, base: nat): seq<Charge> {
    seq(|charges|, i requires 0 <= i < |charges| => Reprice(charges[i], base))
  }

  function Retax(t: Tax, taxable: nat): Tax {
    t.(amount := PercentOf(taxable, t.percent))
  }

  function RetaxAll(taxes: seq<Tax>, taxable: nat): seq<Tax> {
    seq(|taxes|, i requires 0 <= i < |taxes| => Retax(taxes[i], taxable))
  }

  /** The charge and tax lines and the totals that a discounted base leads to. */
  datatype Priced = Priced(charges: seq<Charge>, taxes: seq<Tax>, totals: Totals)

  function TaxableValue(charges: seq<Charge>, base: nat): nat {
    base + ChargeSum(RepriceAll(charges, base), true)
  }

  /** What is owed to the paisa, before any round-off. */
  function Exact(charges: seq<Charge>, taxes: seq<Tax>, base: nat): nat {
    base + ChargeSum(RepriceAll(charges, base), false) + TaxSum(RetaxAll(taxes, TaxableValue(charges, base)))
  }

  function Payable(exact: nat, toRupee: bool): nat {
    if toRupee then RoundToRupee(exact) else exact
  }

  function Price(subtotal: nat, discount: nat, charges: seq<Charge>, taxes: seq<Tax>, toRupee: bool): Priced
    requires discount <= subtotal
  {
    var base := subtotal - discount;
    var cs := RepriceAll(charges, base);
    var ts := RetaxAll(taxes, TaxableValue(charges, base));
    var exact := Exact(charges, taxes, base);
    var grand := Payable(exact, toRupee);
    Priced(cs, ts, Totals(subtotal, discount, ChargeSum(cs, false), TaxSum(ts), grand - exact, grand))
  }

  function Settle(status: Status, paid: nat, grand: nat): Status {
    if status.Paid? || status.Cancelled? then status
    else if paid == 0 then Open
    else if paid < grand then PartiallyPaid
    else Paid
  }

  function PriceOf(b: BillState, toRupee: bool): Priced {
    Price(ChargeableSum(b.items), Discount(b), b.charges, b.taxes, toRupee)
  }

  function Recompute(b: BillState, toRupee: bool): BillState {
    var p := PriceOf(b, toRupee);
    b.(charges := p.charges, taxes := p.taxes, totals := p.totals,
       status := Settle(b.status, b.amountPaid, p.totals.grand))
  }

  /** Every derived column says what recomputing would say. */
  ghost predicate Derived(b: BillState, toRupee: bool) {
    b == Recompute(b, toRupee)
  }

  // ---------- Identity and bounds ----------

  lemma TotalIdentity(b: BillState, toRupee: bool)
    ensures var t := Recompute(b, toRupee).totals;
      && t.grand == t.subtotal - t.discount + t.charge + t.tax + t.roundOff
      && 0 <= t.discount <= t.subtotal
      && -50 <= t.roundOff <= 50
      && (if toRupee then t.grand % 100 == 0 else t.roundOff == 0)
  {
  }

  // ---------- What a recomputation depends on ----------

  predicate SameCharge(c: Charge, d: Charge) {
    && c.percent == d.percent && c.name == d.name && c.taxable == d.taxable
    && (c.percent.None? ==> c.amount == d.amount)
  }

  predicate SameCharges(a: seq<Charge>, b: seq<Charge>) {
    |a| == |b| && forall i :: 0 <= i < |a| ==> SameCharge(a[i], b[i])
  }

  predicate SameTaxes(a: seq<Tax>, b: seq<Tax>) {
    |a| == |b| && forall i :: 0 <= i < |a| ==> a[i].percent == b[i].percent
  }

  lemma PriceForgetsAmounts(
    subtotal: nat, discount: nat, ca: seq<Charge>, cb: seq<Charge>, ta: seq<Tax>, tb: seq<Tax>, toRupee: bool)
    requires discount <= subtotal && SameCharges(ca, cb) && SameTaxes(ta, tb)
    ensures Price(subtotal, discount, ca, ta, toRupee) == Price(subtotal, discount, cb, tb, toRupee)
  {
    var base := subtotal - discount;
    assert RepriceAll(ca, base) == RepriceAll(cb, base);
    var taxable := TaxableValue(ca, base);
    assert RetaxAll(ta, taxable) == RetaxAll(tb, taxable);
  }

  /** The inputs of Recompute: everything it does not overwrite. */
  predicate SameInputs(a: BillState, b: BillState) {
    && SameCharges(a.charges, b.charges) && SameTaxes(a.taxes, b.taxes)
    && a.session == b.session && a.items == b.items && a.discounts == b.discounts
    && a.amountPaid == b.amountPaid && a.amountRefunded == b.amountRefunded
    && a.noCharge == b.noCharge && a.invoice == b.invoice
    && (a.status == b.status || (!a.Closed() && !b.Closed()))
  }

  lemma RecomputeForgetsDerived(a: BillState, b: BillState, toRupee: bool)
    requires SameInputs(a, b)
    ensures Recompute(a, toRupee) == Recompute(b, toRupee)
  {
    PriceForgetsAmounts(ChargeableSum(a.items), Discount(a), a.charges, b.charges, a.taxes, b.taxes, toRupee);
  }

  lemma RecomputeKeepsTariff(b: BillState, toRupee: bool)
    ensures SameCharges(Recompute(b, toRupee).charges, b.charges)
    ensures SameTaxes(Recompute(b, toRupee).taxes, b.taxes)
  {
  }

  lemma RecomputeIdempotent(b: BillState, toRupee: bool)
    ensures Derived(Recompute(b, toRupee), toRupee)
  {
    var r := Recompute(b, toRupee);
    RecomputeKeepsTariff(b, toRupee);
    PriceForgetsAmounts(ChargeableSum(b.items), Discount(b), r.charges, b.charges, r.taxes, b.taxes, toRupee);
  }

  // ---------- Monotonicity ----------

  /** No charge, no tax line and no total of lo is above that of hi. */
  ghost predicate Below(lo: Priced, hi: Priced) {
    && |lo.charges| == |hi.charges| && |lo.taxes| == |hi.taxes|
    && (forall i :: 0 <= i < |lo.charges| ==> lo.charges[i].amount <= hi.charges[i].amount)
    && (forall i :: 0 <= i < |lo.taxes| ==> lo.taxes[i].amount <= hi.taxes[i].amount)
    && lo.totals.charge <= hi.totals.charge
    && lo.totals.tax <= hi.totals.tax
    && lo.totals.grand <= hi.totals.grand
  }

  function PricedAs(b: BillState): Priced { Priced(b.charges, b.taxes, b.totals) }

  ghost predicate NowhereAbove(lo: BillState, hi: BillState) {
    Below(PricedAs(lo), PricedAs(hi))
  }

  lemma ChargeSumMonotone(a: seq<Charge>, b: seq<Charge>, taxableOnly: bool)
    requires |a| == |b|
    requires forall i :: 0 <= i < |a| ==> a[i].amount <= b[i].amount && a[i].taxable == b[i].taxable
    ensures ChargeSum(a, taxableOnly) <= ChargeSum(b, taxableOnly)
  {
  }

  lemma TaxSumMonotone(a: seq<Tax>, b: seq<Tax>)
    requires |a| == |b|
    requires forall i :: 0 <= i < |a| ==> a[i].amount <= b[i].amount
    ensures TaxSum(a) <= TaxSum(b)
  {
  }

  lemma RetaxMonotone(a: seq<Tax>, b: seq<Tax>, lo: nat, hi: nat)
    requires SameTaxes(a, b) && lo <= hi
    ensures forall i :: 0 <= i < |a| ==> RetaxAll(a, lo)[i].amount <= RetaxAll(b, hi)[i].amount
    ensures TaxSum(RetaxAll(a, lo)) <= TaxSum(RetaxAll(b, hi))
  {
    forall i | 0 <= i < |a|
      ensures RetaxAll(a, lo)[i].amount <= RetaxAll(b, hi)[i].amount
    {
      PercentMonotone(lo, hi, a[i].percent);
    }
    TaxSumMonotone(RetaxAll(a, lo), RetaxAll(b, hi));
  }

  lemma RepriceMonotone(a: seq<Charge>, b: seq<Charge>, lo: nat, hi: nat)
    requires SameCharges(a, b) && lo <= hi
    ensures forall i :: 0 <= i < |a| ==> RepriceAll(a, lo)[i].amount <= RepriceAll(b, hi)[i].amount
    ensures forall only :: ChargeSum(RepriceAll(a, lo), only) <= ChargeSum(RepriceAll(b, hi), only)
  {
    forall i | 0 <= i < |a|
      ensures RepriceAll(a, lo)[i].amount <= RepriceAll(b, hi)[i].amount
    {
      if a[i].percent.Some? {
        PercentMonotone(lo, hi, a[i].percent.value);
      }
    }
    forall only {
      ChargeSumMonotone(RepriceAll(a, lo), RepriceAll(b, hi), only);
    }
  }

  lemma PayableMonotone(lo: nat, hi: nat, toRupee: bool)
    requires lo <= hi
    ensures Payable(lo, toRupee) <= Payable(hi, toRupee)
  {
  }

  lemma PriceMonotone(
    sa: nat, da: nat, ca: seq<Charge>, ta: seq<Tax>, sb: nat, db: nat, cb: seq<Charge>, tb: seq<Tax>, toRupee: bool)
    requires da <= sa && db <= sb && sa - da <= sb - db
    requires SameCharges(ca, cb) && SameTaxes(ta, tb)
    ensures Below(Price(sa, da, ca, ta, toRupee), Price(sb, db, cb, tb, toRupee))
  {
    var lo, hi := sa - da, sb - db;
    RepriceMonotone(ca, cb, lo, hi);
    RetaxMonotone(ta, tb, TaxableValue(ca, lo), TaxableValue(cb, hi));
    PayableMonotone(Exact(ca, ta, lo), Exact(cb, tb, hi), toRupee);
  }

  /** A smaller discounted base raises nothing: the rounding of each line and
      the round to the rupee are all monotone. */
  lemma RecomputeMonotone(a: BillState, b: BillState, toRupee: bool)
    requires SameCharges(a.charges, b.charges) && SameTaxes(a.taxes, b.taxes) && Base(a) <= Base(b)
    ensures NowhereAbove(Recompute(a, toRupee), Recompute(b, toRupee))
  {
    PriceMonotone(ChargeableSum(a.items), Discount(a), a.charges, a.taxes,
                  ChargeableSum(b.items), Discount(b), b.charges, b.taxes, toRupee);
    assert PricedAs(Recompute(a, toRupee)) == PriceOf(a, toRupee);
    assert PricedAs(Recompute(b, toRupee)) == PriceOf(b, toRupee);
  }

  lemma ChargeableSumUpdate(items: seq<Item>, k: nat, item: Item)
    requires k < |items| && item.lineTotal == items[k].lineTotal
    ensures item.Chargeable() == items[k].Chargeable()
      ==> ChargeableSum(items[k := item]) == ChargeableSum(items)
    ensures items[k].Chargeable() && !item.Chargeable()
      ==> ChargeableSum(items[k := item]) + item.lineTotal == ChargeableSum(items)
  {
    var n := |items| - 1;
    if k < n {
      ChargeableSumUpdate(items[..n], k, item);
      assert items[k := item][..n] == items[..n][k := item];
    } else {
      assert items[k := item][..n] == items[..n];
    }
  }

  /** Adding a discount or striking or giving away a line lowers the base. */
  lemma BaseFalls(b: BillState, discount: nat, k: nat, item: Item)
    ensures Base(b.(discounts := b.discounts + [discount])) <= Base(b)
    ensures k < |b.items| && b.items[k].Chargeable() && !item.Chargeable() && item.lineTotal == b.items[k].lineTotal
      ==> Base(b.(items := b.items[k := item])) <= Base(b)
  {
    assert (b.discounts + [discount])[..|b.discounts|] == b.discounts;
    if k < |b.items| && b.items[k].Chargeable() && !item.Chargeable() && item.lineTotal == b.items[k].lineTotal {
      ChargeableSumUpdate(b.items, k, item);
    }
  }

  // ---------- The tax split ----------

  lemma OneOrTwoTaxes(v: nat, percent: nat)
    ensures TaxSum(RetaxAll([Tax(percent, 0)], v)) == PercentOf(v, percent)
    ensures TaxSum(RetaxAll([Tax(percent, 0), Tax(percent, 0)], v)) == 2 * PercentOf(v, percent)
  {
  }

  /** Two lines at half the rate against one line at the whole rate. */
  lemma SplitTaxWithinOnePaisa(b: BillState, half: nat, toRupee: bool)
    ensures
      var split := Recompute(b.(taxes := [Tax(half, 0), Tax(half, 0)]), toRupee);
      var whole := Recompute(b.(taxes := [Tax(2 * half, 0)]), toRupee);
      -1 <= split.totals.tax - whole.totals.tax <= 1
  {
    var v := TaxableValue(b.charges, Base(b));
    OneOrTwoTaxes(v, half);
    OneOrTwoTaxes(v, 2 * half);
    HalfRates(v, half);
  }
}
