/** Raising or refreshing a bill: which taxes and charges it is set up with, from
    the request, the owner's bands and the business's defaults. */
module BillSetup {
  import opened Common
  import opened Money
  import opened BillTotals
  import opened BillOperations
  import opened BillService
  import opened ChargeLadder
  import opened ChargePreview

  /** A charge given in the request: a percentage, always taxable. */
  datatype Extra = Extra(name: string, percent: nat)

  /** Lists given in the request win; the switches say whether defaults apply. */
  datatype Payload = Payload(taxes: seq<Component>, defaultTax: bool, charges: seq<Extra>, defaultCharge: bool)

  function ExtraCharges(extras: seq<Extra>): seq<Charge> {
    seq(|extras|, i requires 0 <= i < |extras| => Charge(extras[i].name, Some(extras[i].percent), 0, true))
  }

  function TaxesToSet(p: Payload, s: Option<Settings>): seq<Tax> {
    if p.taxes != [] then BillTaxes(p.taxes)
    else if p.defaultTax then BillTaxes(TaxesFor(s))
    else []
  }

  function ChargesToSet(p: Payload, bands: seq<Band>, s: Option<Settings>): seq<Charge> {
    if p.charges != [] then ExtraCharges(p.charges)
    else if p.defaultCharge then DefaultCharges(bands, s)
    else []
  }

  /** The tax rows of a business: its rate, or two halves of it, each the nearest
      hundredth of a percent. */
  predicate RatesOf(taxes: seq<Tax>, s: Settings) {
    if s.taxPercent == 0 then taxes == []
    else if !s.split then taxes == [Tax(s.taxPercent, 0)]
    else
      && |taxes| == 2 && taxes[0] == taxes[1] && taxes[0].amount == 0
      && Nearest(s.taxPercent, 2, taxes[0].percent, 2 * taxes[0].percent)
  }

  /** Taxes named in the request are set as they are named; else the business's own,
      if defaults are wanted; else none. */
  lemma TaxesSet(p: Payload, s: Option<Settings>)
    ensures var taxes := TaxesToSet(p, s);
      if p.taxes != [] then |taxes| == |p.taxes| && forall i :: 0 <= i < |taxes| ==> taxes[i] == Tax(p.taxes[i].percent, 0)
      else if p.defaultTax && s.Some? then RatesOf(taxes, s.value)
      else taxes == []
  {
    if s.Some? && s.value.split {
      RoundNearest(s.value.taxPercent, 2);
    }
  }

  predicate ChargeOf(c: Charge, b: Band) {
    && c.name == b.name && c.taxable == b.taxable
    && (if b.basis == PercentBasis then c.percent == Some(b.value) else c.percent == None && c.amount == b.value)
  }

  /** So with charges: those named, always taxable; else one for each selected band;
      else the business's service charge. */
  lemma ChargesSet(p: Payload, bands: seq<Band>, s: Option<Settings>)
    ensures var charges := ChargesToSet(p, bands, s);
      if p.charges != [] then
        |charges| == |p.charges| &&
        forall i :: 0 <= i < |charges| ==> charges[i] == Charge(p.charges[i].name, Some(p.charges[i].percent), 0, true)
      else if !p.defaultCharge then charges == []
      else if bands != [] then |charges| == |bands| && forall i :: 0 <= i < |bands| ==> ChargeOf(charges[i], bands[i])
      else if s.Some? && s.value.servicePercent > 0 then
        |charges| == 1 && charges[0].percent == Some(s.value.servicePercent) && charges[0].taxable
      else charges == []
  {
  }

  function LineSum(items: seq<Item>): nat {
    if items == [] then 0 else LineSum(items[..|items| - 1]) + items[|items| - 1].lineTotal
  }

  /** The value bands are matched against: every line, struck and free ones
      included, less the discounts. */
  function MatchBase(items: seq<Item>, discounts: seq<nat>): nat {
    LineSum(items) - Min(Sum(discounts), LineSum(items))
  }

  method BandBase(items: seq<Item>, discounts: seq<nat>) returns (base: nat)
    ensures base == MatchBase(items, discounts)
  {
    var subtotal, off := 0, 0;
    for i := 0 to |items|
      invariant subtotal == LineSum(items[..i])
    {
      assert items[..i + 1][..i] == items[..i];
      subtotal := subtotal + items[i].lineTotal;
    }
    for i := 0 to |discounts|
      invariant off == Sum(discounts[..i])
    {
      assert discounts[..i + 1][..i] == discounts[..i];
      off := off + discounts[i];
    }
    assert items[..|items|] == items && discounts[..|discounts|] == discounts;
    base := subtotal - Min(off, subtotal);
  }

  method ChargesFromBands(bands: seq<Band>, s: Option<Settings>) returns (charges: seq<Charge>)
    ensures charges == DefaultCharges(bands, s)
  {
    charges := [];
    for i := 0 to |bands|
      invariant charges == BandCharges(bands[..i])
    {
      var band := bands[i];
      if band.basis.PercentBasis? {
        charges := charges + [Charge(band.name, Some(band.value), 0, band.taxable)];
      } else {
        charges := charges + [Charge(band.name, None, band.value, band.taxable)];
      }
    }
    assert bands[..|bands|] == bands;
    if bands == [] && s.Some? && s.value.servicePercent > 0 {
      charges := [Charge("Service Charge", Some(s.value.servicePercent), 0, true)];
    }
  }

  /** Lines first, then taxes and charges if the bill has none yet, then totals.
      bands are the owner's bands that the lines' discounted value selects. */
  method GenerateOrRefresh(
    bill: Bill, book: ChargeBook, lines: seq<OrderLine>, p: Payload, context: Option<Context>, s: Option<Settings>, toRupee: bool)
    returns (refusal: Option<Refusal>, bands: seq<Band>)
    requires book.Valid()
    modifies bill
    ensures var was := old(bill.State());
      var items := was.items + Unbilled(lines, BilledOrderItems(was.items));
      && IsSelection(book.bands, MatchBase(items, was.discounts), context, bands)
      && bill.Follows(was, Refresh(was, lines, TaxesToSet(p, s), ChargesToSet(p, bands, s), toRupee), refusal)
  {
    var synced := new Bill.Load(bill.State());
    synced.SyncItems(lines);
    var base := BandBase(synced.items, synced.discounts);
    bands := book.SelectBandsFor(base, context);
    var charges := ExtraCharges(p.charges);
    if p.charges == [] && p.defaultCharge {
      charges := ChargesFromBands(bands, s);
    }
    refusal := bill.Refresh(lines, TaxesToSet(p, s), charges, toRupee);
  }

  // ---------- Against the preview ----------

  /** No lists in the request, and both defaults on. */
  const DEFAULTS := Payload([], true, [], true)

  lemma DefaultsAreFresh(session: nat, lines: seq<OrderLine>, bands: seq<Band>, s: Option<Settings>)
    ensures Refresh(NewBill(session), lines, TaxesToSet(DEFAULTS, s), ChargesToSet(DEFAULTS, bands, s), false)
      == FreshBill(session, lines, bands, s)
  {
  }

  lemma {:induction false} FreshMatchBase(lines: seq<OrderLine>)
    ensures MatchBase(Unbilled(lines, {}), []) == LineTotal(lines)
    decreases |lines|
  {
    if lines == [] {
    } else {
      var rest, last := lines[..|lines| - 1], lines[|lines| - 1];
      FreshMatchBase(rest);
      var items := Unbilled(rest, {});
      assert Unbilled(lines, {}) == items + [Item(last.id, last.total, false, false)];
      assert Unbilled(lines, {})[..|items|] == items;
    }
  }

  lemma RoundedTotals(b: BillState, toRupee: bool)
    ensures Recompute(b, toRupee).totals == Recompute(b, false).totals
      <==> (toRupee ==> Exact(b.charges, b.taxes, Base(b)) % 100 == 0)
    ensures Recompute(b, false).totals.roundOff == 0
    ensures Recompute(b, toRupee).totals.roundOff == 0 ==> Recompute(b, toRupee).totals == Recompute(b, false).totals
  {
  }

  /** A session's first bill before its totals are computed. */
  function Raised(session: nat, lines: seq<OrderLine>, taxes: seq<Tax>, charges: seq<Charge>): BillState {
    NewBill(session).(items := Unbilled(lines, {}), taxes := taxes, charges := charges)
  }

  lemma FirstRefresh(session: nat, lines: seq<OrderLine>, taxes: seq<Tax>, charges: seq<Charge>, toRupee: bool)
    ensures Refresh(NewBill(session), lines, taxes, charges, toRupee)
      == Done(Recompute(Raised(session, lines, taxes, charges), toRupee))
  {
    var x := NewBill(session);
    assert BilledOrderItems(x.items) == {} && x.items + Unbilled(lines, {}) == Unbilled(lines, {});
  }

  lemma UnroundedPrice(amount: nat, taxes: seq<Tax>, charges: seq<Charge>)
    ensures Price(amount, 0, charges, taxes, false).totals.roundOff == 0
  {
  }

  lemma RoundedMatchesIff(b: BillState, shown: Totals, toRupee: bool, agree: bool)
    requires shown.roundOff == 0 && (Recompute(b, false).totals == shown <==> agree)
    ensures Recompute(b, toRupee).totals == shown <==> agree && (toRupee ==> shown.grand % 100 == 0)
  {
    RoundedTotals(b, toRupee);
    assert Recompute(b, false).totals.grand == Exact(b.charges, b.taxes, Base(b));
  }

  /** The bill a session is first raised with, taxes, bands and all, comes to what the
      preview shows for the same lines exactly when a band matched, or the business
      has no default service charge, or it comes to less than a paisa; and, with the
      round-off on, the shown total is a whole number of rupees. */
  lemma RaisedMatchesPreviewIff(
    session: nat, lines: seq<OrderLine>, book: seq<Band>, context: Option<Context>,
    shown: seq<Band>, billed: seq<Band>, s: Option<Settings>, toRupee: bool)
    requires IsSelection(book, LineTotal(lines), context, shown)
    requires IsSelection(book, MatchBase(Unbilled(lines, {}), []), context, billed)
    ensures var amount := LineTotal(lines);
      var p := Price(amount, 0, BandCharges(shown), BillTaxes(TaxesFor(s)), false).totals;
      var raised := Refresh(NewBill(session), lines, TaxesToSet(DEFAULTS, s), ChargesToSet(DEFAULTS, billed, s), toRupee);
      && raised.Done?
      && (raised.bill.totals == p
          <==> (shown != [] || s.None? || PercentOf(amount, s.value.servicePercent) == 0) && (toRupee ==> p.grand % 100 == 0))
  {
    FreshMatchBase(lines);
    DefaultsAreFresh(session, lines, billed, s);
    PreviewMatchesBillIff(session, lines, book, context, shown, billed, s);
    var amount, taxes, charges := LineTotal(lines), TaxesToSet(DEFAULTS, s), ChargesToSet(DEFAULTS, billed, s);
    FirstRefresh(session, lines, taxes, charges, toRupee);
    FirstRefresh(session, lines, taxes, charges, false);
    UnroundedPrice(amount, BillTaxes(TaxesFor(s)), BandCharges(shown));
    RoundedMatchesIff(Raised(session, lines, taxes, charges),
                      Price(amount, 0, BandCharges(shown), BillTaxes(TaxesFor(s)), false).totals, toRupee,
                      shown != [] || s.None? || PercentOf(amount, s.value.servicePercent) == 0);
  }

  // ---------- What bands are matched on ----------

  lemma {:induction false} ChargeableWithinAll(items: seq<Item>)
    ensures ChargeableSum(items) <= LineSum(items)
    ensures ChargeableSum(items) == LineSum(items)
      <==> forall k :: 0 <= k < |items| && !items[k].Chargeable() ==> items[k].lineTotal == 0
    decreases |items|
  {
    if items == [] {
    } else {
      var rest := items[..|items| - 1];
      ChargeableWithinAll(rest);
      assert forall k :: 0 <= k < |rest| ==> rest[k] == items[k];
    }
  }

  /** Bands are matched on the discounted value that is charged exactly when no
      struck or free line has a price, or the discounts eat everything up. */
  lemma MatchedOnChargedIff(b: BillState)
    ensures MatchBase(b.items, b.discounts) == Base(b)
      <==> (forall k :: 0 <= k < |b.items| && !b.items[k].Chargeable() ==> b.items[k].lineTotal == 0)
           || LineSum(b.items) <= Sum(b.discounts)
  {
    ChargeableWithinAll(b.items);
  }
}
