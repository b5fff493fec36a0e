/** The owner's charge preview: a second implementation of the bill arithmetic,
    and when it shows what a fresh bill would come to. */
module ChargePreview {
  import opened Common
  import opened Money
  import opened BillTotals
  import opened BillOperations
  import opened ChargeLadder

  datatype Settings = Settings(taxPercent: nat, taxLabel: string, split: bool, servicePercent: nat)

  datatype Component = Component(name: string, percent: nat)

  function TaxComponents(s: Settings): seq<Component> {
    var name := if s.taxLabel == "" then "GST" else s.taxLabel;
    if !s.split then [Component(name, s.taxPercent)]
    else
      var half := RoundDiv(s.taxPercent, 2);
      [Component("C" + name, half), Component("S" + name, half)]
  }

  function RateSum(cs: seq<Component>): nat {
    if cs == [] then 0 else cs[0].percent + RateSum(cs[1..])
  }

  /** The lines shown add up to the configured rate exactly when it is not split
      or is even; else the halves are off by a hundredth of a percent in all. */
  lemma ComponentsAddUpIff(s: Settings)
    ensures RateSum(TaxComponents(s)) == s.taxPercent <==> !s.split || s.taxPercent % 2 == 0
    ensures -1 <= RateSum(TaxComponents(s)) - s.taxPercent <= 1
  {
    RoundNearest(s.taxPercent, 2);
    var cs := TaxComponents(s);
    if s.split {
      assert RateSum(cs) == cs[0].percent + RateSum(cs[1..]);
      assert RateSum(cs[1..]) == cs[1].percent + RateSum(cs[1..][1..]);
    } else {
      assert cs[1..] == [];
    }
  }

  /** One line under the business's label, or a central and a state one. */
  lemma ComponentNames(s: Settings)
    ensures var called, cs := if s.taxLabel == "" then "GST" else s.taxLabel, TaxComponents(s);
      if s.split then |cs| == 2 && cs[0].name == "C" + called && cs[1].name == "S" + called
      else |cs| == 1 && cs[0].name == called
  {
  }

  function TaxesFor(s: Option<Settings>): seq<Component> {
    if s.Some? && s.value.taxPercent > 0 then TaxComponents(s.value) else []
  }

  // ---------- What a bill sets up ----------

  function BandCharge(b: Band): Charge {
    if b.basis.PercentBasis? then Charge(b.name, Some(b.value), 0, b.taxable)
    else Charge(b.name, None, b.value, b.taxable)
  }

  function BandCharges(bands: seq<Band>): seq<Charge> {
    seq(|bands|, i requires 0 <= i < |bands| => BandCharge(bands[i]))
  }

  function BillTaxes(cs: seq<Component>): seq<Tax> {
    seq(|cs|, i requires 0 <= i < |cs| => Tax(cs[i].percent, 0))
  }

  /** The bands that matched, or the business's default when none did. */
  function DefaultCharges(bands: seq<Band>, s: Option<Settings>): seq<Charge> {
    if bands != [] then BandCharges(bands)
    else if s.Some? && s.value.servicePercent > 0 then
      [Charge("Service Charge", Some(s.value.servicePercent), 0, true)]
    else []
  }

  // ---------- The preview ----------

  datatype Line = Line(band: Band, amount: nat)

  datatype TaxLine = TaxLine(name: string, percent: nat, amount: nat)

  datatype Shown = Shown(
    lines: seq<Line>, chargesTotal: nat, taxableValue: nat, taxLines: seq<TaxLine>, taxTotal: nat, grandTotal: nat)

  method PreviewCharges(bands: seq<Band>, amount: nat) returns (lines: seq<Line>, total: nat, taxable: nat)
    ensures total == ChargeSum(RepriceAll(BandCharges(bands), amount), false)
    ensures taxable == ChargeSum(RepriceAll(BandCharges(bands), amount), true)
    ensures |lines| == |bands|
    ensures forall i :: 0 <= i < |bands| ==> lines[i] == Line(bands[i], Reprice(BandCharge(bands[i]), amount).amount)
  {
    ghost var charges := RepriceAll(BandCharges(bands), amount);
    lines, total, taxable := [], 0, 0;
    for i := 0 to |bands|
      invariant |lines| == i
      invariant forall k :: 0 <= k < i ==> lines[k] == Line(bands[k], Reprice(BandCharge(bands[k]), amount).amount)
      invariant total == ChargeSum(charges[..i], false)
      invariant taxable == ChargeSum(charges[..i], true)
    {
      var charge := if bands[i].basis.PercentBasis? then PercentOf(amount, bands[i].value) else bands[i].value;
      assert charges[..i + 1][..i] == charges[..i];
      lines := lines + [Line(bands[i], charge)];
      total := total + charge;
      if bands[i].taxable {
        taxable := taxable + charge;
      }
    }
    assert charges[..|bands|] == charges;
  }

  method PreviewTax(taxableValue: nat, settings: Option<Settings>) returns (lines: seq<TaxLine>, total: nat)
    ensures total == TaxSum(RetaxAll(BillTaxes(TaxesFor(settings)), taxableValue))
    ensures |lines| == |TaxesFor(settings)|
    ensures forall i :: 0 <= i < |lines| ==>
      lines[i] == TaxLine(TaxesFor(settings)[i].name, TaxesFor(settings)[i].percent,
                          PercentOf(taxableValue, TaxesFor(settings)[i].percent))
  {
    lines, total := [], 0;
    ghost var taxes := RetaxAll(BillTaxes(TaxesFor(settings)), taxableValue);
    if settings.Some? && settings.value.taxPercent > 0 {
      var components := TaxComponents(settings.value);
      for i := 0 to |components|
        invariant |lines| == i
        invariant forall k :: 0 <= k < i ==>
          lines[k] == TaxLine(components[k].name, components[k].percent, PercentOf(taxableValue, components[k].percent))
        invariant total == TaxSum(taxes[..i])
      {
        var tax := PercentOf(taxableValue, components[i].percent);
        assert taxes[..i + 1][..i] == taxes[..i];
        lines := lines + [TaxLine(components[i].name, components[i].percent, tax)];
        total := total + tax;
      }
      assert taxes[..|components|] == taxes;
    }
  }

  /** Every total shown is the one the bill engine derives, with nothing rounded
      to the rupee, from the same bands and taxes. */
  method Preview(book: ChargeBook, amount: nat, context: Option<Context>, settings: Option<Settings>)
    returns (bands: seq<Band>, out: Shown)
    requires book.Valid()
    ensures IsSelection(book.bands, amount, context, bands)
    ensures var p := Price(amount, 0, BandCharges(bands), BillTaxes(TaxesFor(settings)), false);
      && out.chargesTotal == p.totals.charge && out.taxTotal == p.totals.tax && out.grandTotal == p.totals.grand
      && out.taxableValue == TaxableValue(BandCharges(bands), amount)
      && |out.lines| == |bands|
      && (forall i :: 0 <= i < |bands| ==> out.lines[i] == Line(bands[i], p.charges[i].amount))
      && |out.taxLines| == |TaxesFor(settings)|
      && (forall i :: 0 <= i < |out.taxLines| ==>
            out.taxLines[i] == TaxLine(TaxesFor(settings)[i].name, p.taxes[i].percent, p.taxes[i].amount))
  {
    bands := book.SelectBandsFor(amount, context);
    var lines, chargesTotal, taxableCharges := PreviewCharges(bands, amount);
    var taxableValue := amount + taxableCharges;
    var taxLines, taxTotal := PreviewTax(taxableValue, settings);
    out := Shown(lines, chargesTotal, taxableValue, taxLines, taxTotal, amount + chargesTotal + taxTotal);
  }

  // ---------- Two selections of the same bands ----------

  lemma {:induction false} OnlyOnce(p: seq<Band>, b: Band)
    requires forall i, j :: 0 <= i < j < |p| ==> p[i].name != p[j].name
    ensures multiset(p)[b] == if b in p then 1 else 0
    decreases |p|
  {
    if p == [] {
    } else {
      var rest, last := p[..|p| - 1], p[|p| - 1];
      OnlyOnce(rest, b);
      assert p == rest + [last];
    }
  }

  lemma SelectionUnique(book: seq<Band>, base: int, context: Option<Context>, p: seq<Band>, q: seq<Band>)
    requires IsSelection(book, base, context, p) && IsSelection(book, base, context, q)
    ensures multiset(p) == multiset(q)
  {
    forall b
      ensures multiset(p)[b] == multiset(q)[b]
    {
      OnlyOnce(p, b);
      OnlyOnce(q, b);
    }
  }

  function BandSum(bands: seq<Band>, base: nat, taxableOnly: bool): nat {
    ChargeSum(RepriceAll(BandCharges(bands), base), taxableOnly)
  }

  function BandAmount(b: Band, base: nat, taxableOnly: bool): nat {
    if taxableOnly && !b.taxable then 0 else Reprice(BandCharge(b), base).amount
  }

  lemma BandSumLast(bands: seq<Band>, b: Band, base: nat, taxableOnly: bool)
    ensures BandSum(bands + [b], base, taxableOnly) == BandSum(bands, base, taxableOnly) + BandAmount(b, base, taxableOnly)
  {
    var all := RepriceAll(BandCharges(bands + [b]), base);
    assert all[..|bands|] == RepriceAll(BandCharges(bands), base);
  }

  lemma CutBeforeLast<T>(rest: seq<T>, last: T, k: nat)
    requires k < |rest|
    ensures (rest + [last])[..k] + (rest + [last])[k + 1..] == rest[..k] + rest[k + 1..] + [last]
  {
  }

  lemma {:induction false} BandSumWithout(bands: seq<Band>, k: nat, base: nat, taxableOnly: bool)
    requires k < |bands|
    ensures BandSum(bands, base, taxableOnly)
      == BandSum(bands[..k] + bands[k + 1..], base, taxableOnly) + BandAmount(bands[k], base, taxableOnly)
    decreases |bands|
  {
    var rest, last := bands[..|bands| - 1], bands[|bands| - 1];
    BandSumLast(rest, last, base, taxableOnly);
    assert bands == rest + [last];
    if k == |rest| {
      assert bands[..k] + bands[k + 1..] == rest;
    } else {
      BandSumWithout(rest, k, base, taxableOnly);
      BandSumLast(rest[..k] + rest[k + 1..], last, base, taxableOnly);
      CutBeforeLast(rest, last, k);
    }
  }

  lemma SameRest<T>(a: multiset<T>, b: multiset<T>, x: T)
    requires a + multiset{x} == b + multiset{x}
    ensures a == b
  {
    assert a == (a + multiset{x}) - multiset{x};
    assert b == (b + multiset{x}) - multiset{x};
  }

  /** Charges add up the same in whatever order they are listed. */
  lemma {:induction false} BandSumAnyOrder(p: seq<Band>, q: seq<Band>, base: nat, taxableOnly: bool)
    requires multiset(p) == multiset(q)
    ensures BandSum(p, base, taxableOnly) == BandSum(q, base, taxableOnly)
    decreases |p|
  {
    if p != [] {
      var rest, last := p[..|p| - 1], p[|p| - 1];
      assert p == rest + [last];
      assert last in multiset(q);
      var k :| 0 <= k < |q| && q[k] == last;
      assert q == q[..k] + [last] + q[k + 1..];
      assert multiset(q) == multiset(q[..k] + q[k + 1..]) + multiset{last};
      assert multiset(p) == multiset(rest) + multiset{last};
      SameRest(multiset(rest), multiset(q[..k] + q[k + 1..]), last);
      BandSumAnyOrder(rest, q[..k] + q[k + 1..], base, taxableOnly);
      BandSumLast(rest, last, base, taxableOnly);
      BandSumWithout(q, k, base, taxableOnly);
    } else {
      assert |multiset(q)| == 0;
    }
  }

  // ---------- Agreement ----------

  function LineTotal(lines: seq<OrderLine>): nat {
    if lines == [] then 0 else LineTotal(lines[..|lines| - 1]) + lines[|lines| - 1].total
  }

  lemma FreshSubtotal(lines: seq<OrderLine>)
    ensures ChargeableSum(Unbilled(lines, {})) == LineTotal(lines)
  {
  }

  /** The first bill raised for a session: no discounts, default tax and charges. */
  function FreshBill(session: nat, lines: seq<OrderLine>, bands: seq<Band>, s: Option<Settings>): Outcome {
    Refresh(NewBill(session), lines, BillTaxes(TaxesFor(s)), DefaultCharges(bands, s), false)
  }

  lemma NoDiscountPrice(b: BillState)
    requires b.discounts == []
    ensures Recompute(b, false).totals == Price(ChargeableSum(b.items), 0, b.charges, b.taxes, false).totals
  {
  }

  lemma FirstRefreshPrice(b: BillState, lines: seq<OrderLine>, taxes: seq<Tax>, charges: seq<Charge>)
    requires !b.Closed() && b.items == [] && b.discounts == [] && b.taxes == [] && b.charges == []
    ensures var after := Refresh(b, lines, taxes, charges, false);
      after.Done? && after.bill.totals == Price(LineTotal(lines), 0, charges, taxes, false).totals
  {
    FreshSubtotal(lines);
    assert BilledOrderItems(b.items) == {};
    assert b.items + Unbilled(lines, {}) == Unbilled(lines, {});
    NoDiscountPrice(b.(items := Unbilled(lines, {}), taxes := taxes, charges := charges));
  }

  /** Only what the charges add up to matters for the totals. */
  lemma PriceBySums(amount: nat, c: seq<Charge>, d: seq<Charge>, taxes: seq<Tax>)
    requires ChargeSum(RepriceAll(c, amount), false) == ChargeSum(RepriceAll(d, amount), false)
    requires ChargeSum(RepriceAll(c, amount), true) == ChargeSum(RepriceAll(d, amount), true)
    ensures Price(amount, 0, c, taxes, false).totals == Price(amount, 0, d, taxes, false).totals
  {
  }

  lemma DefaultOnly(amount: nat, s: Option<Settings>)
    ensures var taxes := BillTaxes(TaxesFor(s));
      (Price(amount, 0, BandCharges([]), taxes, false).totals == Price(amount, 0, DefaultCharges([], s), taxes, false).totals
       <==> s.None? || PercentOf(amount, s.value.servicePercent) == 0)
  {
  }

  lemma PricesAgreeIff(
    amount: nat, book: seq<Band>, context: Option<Context>, shown: seq<Band>, billed: seq<Band>, s: Option<Settings>)
    requires IsSelection(book, amount, context, shown) && IsSelection(book, amount, context, billed)
    ensures var taxes := BillTaxes(TaxesFor(s));
      (Price(amount, 0, BandCharges(shown), taxes, false).totals == Price(amount, 0, DefaultCharges(billed, s), taxes, false).totals
       <==> shown != [] || s.None? || PercentOf(amount, s.value.servicePercent) == 0)
  {
    SelectionUnique(book, amount, context, shown, billed);
    assert |shown| == |multiset(shown)| == |multiset(billed)| == |billed|;
    if shown != [] {
      BandSumAnyOrder(shown, billed, amount, false);
      BandSumAnyOrder(shown, billed, amount, true);
      PriceBySums(amount, BandCharges(shown), BandCharges(billed), BillTaxes(TaxesFor(s)));
    } else {
      DefaultOnly(amount, s);
    }
  }

  /** Preview and bill agree on every total exactly when a band matched, or the
      business has no default service charge, or it comes to less than a paisa. */
  lemma PreviewMatchesBillIff(
    session: nat, lines: seq<OrderLine>, book: seq<Band>, context: Option<Context>,
    shown: seq<Band>, billed: seq<Band>, s: Option<Settings>)
    requires IsSelection(book, LineTotal(lines), context, shown) && IsSelection(book, LineTotal(lines), context, billed)
    ensures var amount := LineTotal(lines);
      var p := Price(amount, 0, BandCharges(shown), BillTaxes(TaxesFor(s)), false).totals;
      var t := FreshBill(session, lines, billed, s).bill.totals;
      (p == t <==> shown != [] || s.None? || PercentOf(amount, s.value.servicePercent) == 0)
  {
    FirstRefreshPrice(NewBill(session), lines, BillTaxes(TaxesFor(s)), DefaultCharges(billed, s));
    PricesAgreeIff(LineTotal(lines), book, context, shown, billed, s);
  }
}
