/** What a bill says once it is recomputed, row by row and in plain arithmetic:
    a percentage is the nearest paisa to amount * percent / 10,000, a tie going to
    the even one, and every total is the sum of its rows. */
module BillFigures {
  import opened Common
  import opened Money
  import opened BillTotals

  /** The numbers added up, from the first on. */
  function Added(xs: seq<nat>): nat {
    if xs == [] then 0 else xs[0] + Added(xs[1..])
  }

  function Prices(items: seq<Item>): seq<nat> {
    seq(|items|, i requires 0 <= i < |items| => if items[i].voided || items[i].comped then 0 else items[i].lineTotal)
  }

  function ChargeAmounts(charges: seq<Charge>): seq<nat> {
    seq(|charges|, i requires 0 <= i < |charges| => charges[i].amount)
  }

  function TaxableAmounts(charges: seq<Charge>): seq<nat> {
    seq(|charges|, i requires 0 <= i < |charges| => if charges[i].taxable then charges[i].amount else 0)
  }

  function TaxAmounts(taxes: seq<Tax>): seq<nat> {
    seq(|taxes|, i requires 0 <= i < |taxes| => taxes[i].amount)
  }

  /** A charge row: a flat one stays, a percentage is taken of the base. */
  predicate ChargeRow(was: Charge, now: Charge, base: nat) {
    && now.name == was.name && now.percent == was.percent && now.taxable == was.taxable
    && (was.percent.None? ==> now.amount == was.amount)
    && (was.percent.Some? ==> Nearest(base * was.percent.value, 10_000, now.amount, now.amount * 10_000))
  }

  predicate TaxRow(was: Tax, now: Tax, taxable: nat) {
    now.percent == was.percent && Nearest(taxable * was.percent, 10_000, now.amount, now.amount * 10_000)
  }

  predicate Rows(b: BillState, r: BillState, base: nat) {
    && |r.charges| == |b.charges| && (forall i :: 0 <= i < |b.charges| ==> ChargeRow(b.charges[i], r.charges[i], base))
    && |r.taxes| == |b.taxes|
    && (var taxable := base + Added(TaxableAmounts(r.charges));
        forall i :: 0 <= i < |b.taxes| ==> TaxRow(b.taxes[i], r.taxes[i], taxable))
  }

  predicate Sums(b: BillState, r: BillState, toRupee: bool) {
    var t, lines, off := r.totals, Added(Prices(b.items)), Added(b.discounts);
    && t.subtotal == lines && t.discount == (if off <= lines then off else lines)
    && t.charge == Added(ChargeAmounts(r.charges)) && t.tax == Added(TaxAmounts(r.taxes))
    && (var exact := lines - t.discount + t.charge + t.tax;
        && t.roundOff == t.grand - exact
        && (if toRupee then t.grand % 100 == 0 && Nearest(exact, 100, t.grand / 100, t.grand) else t.grand == exact))
  }

  predicate Standing(b: BillState, r: BillState) {
    r.status ==
      if b.status.Paid? || b.status.Cancelled? then b.status
      else if b.amountPaid == 0 then Open
      else if b.amountPaid < r.totals.grand then PartiallyPaid
      else Paid
  }

  /** r is b recomputed. */
  predicate Figures(b: BillState, r: BillState, toRupee: bool) {
    var lines, off := Added(Prices(b.items)), Added(b.discounts);
    && r == b.(charges := r.charges, taxes := r.taxes, totals := r.totals, status := r.status)
    && Rows(b, r, if off <= lines then lines - off else 0)
    && Sums(b, r, toRupee) && Standing(b, r)
  }

  // ---------- The sums ----------

  lemma {:induction false} AddedLast(xs: seq<nat>, x: nat)
    ensures Added(xs + [x]) == Added(xs) + x
    decreases |xs|
  {
    if xs == [] {
      assert [x][1..] == [];
    } else {
      assert (xs + [x])[1..] == xs[1..] + [x];
      AddedLast(xs[1..], x);
    }
  }

  lemma {:induction false} SumIsAdded(xs: seq<nat>)
    ensures Sum(xs) == Added(xs)
    decreases |xs|
  {
    if xs == [] {
    } else {
      var rest, last := xs[..|xs| - 1], xs[|xs| - 1];
      SumIsAdded(rest);
      assert xs == rest + [last];
      AddedLast(rest, last);
    }
  }

  lemma {:induction false} LinesAdd(items: seq<Item>)
    ensures ChargeableSum(items) == Added(Prices(items))
    decreases |items|
  {
    if items == [] {
    } else {
      var rest, last := items[..|items| - 1], Prices(items)[|items| - 1];
      LinesAdd(rest);
      assert Prices(items) == Prices(rest) + [last];
      AddedLast(Prices(rest), last);
    }
  }

  lemma {:induction false} ChargesAdd(charges: seq<Charge>)
    ensures ChargeSum(charges, false) == Added(ChargeAmounts(charges))
    ensures ChargeSum(charges, true) == Added(TaxableAmounts(charges))
    decreases |charges|
  {
    if charges == [] {
    } else {
      var rest, c := charges[..|charges| - 1], charges[|charges| - 1];
      ChargesAdd(rest);
      assert ChargeAmounts(charges) == ChargeAmounts(rest) + [c.amount];
      assert TaxableAmounts(charges) == TaxableAmounts(rest) + [if c.taxable then c.amount else 0];
      AddedLast(ChargeAmounts(rest), c.amount);
      AddedLast(TaxableAmounts(rest), if c.taxable then c.amount else 0);
    }
  }

  lemma {:induction false} TaxesAdd(taxes: seq<Tax>)
    ensures TaxSum(taxes) == Added(TaxAmounts(taxes))
    decreases |taxes|
  {
    if taxes == [] {
    } else {
      var rest, t := taxes[..|taxes| - 1], taxes[|taxes| - 1];
      TaxesAdd(rest);
      assert TaxAmounts(taxes) == TaxAmounts(rest) + [t.amount];
      AddedLast(TaxAmounts(rest), t.amount);
    }
  }

  // ---------- The rows ----------

  lemma PercentIff(amount: nat, percent: nat, k: nat)
    ensures k == PercentOf(amount, percent) <==> Nearest(amount * percent, 10_000, k, k * 10_000)
  {
    RoundNearest(amount * percent, 10_000);
    if Nearest(amount * percent, 10_000, k, k * 10_000) {
      RoundUnique(amount * percent, 10_000, k);
    }
  }

  lemma ChargeRowIff(was: Charge, now: Charge, base: nat)
    ensures ChargeRow(was, now, base) <==> now == Reprice(was, base)
  {
    if was.percent.Some? {
      PercentIff(base, was.percent.value, now.amount);
    }
  }

  lemma TaxRowIff(was: Tax, now: Tax, taxable: nat)
    ensures TaxRow(was, now, taxable) <==> now == Retax(was, taxable)
  {
    PercentIff(taxable, was.percent, now.amount);
  }

  lemma RowsIff(b: BillState, r: BillState, base: nat)
    ensures Rows(b, r, base) <==>
      r.charges == RepriceAll(b.charges, base) && r.taxes == RetaxAll(b.taxes, TaxableValue(b.charges, base))
  {
    forall i | 0 <= i < |b.charges| && |r.charges| == |b.charges|
      ensures ChargeRow(b.charges[i], r.charges[i], base) <==> r.charges[i] == RepriceAll(b.charges, base)[i]
    {
      ChargeRowIff(b.charges[i], r.charges[i], base);
    }
    ChargesAdd(r.charges);
    var taxable := base + Added(TaxableAmounts(r.charges));
    forall i | 0 <= i < |b.taxes| && |r.taxes| == |b.taxes|
      ensures TaxRow(b.taxes[i], r.taxes[i], taxable) <==> r.taxes[i] == RetaxAll(b.taxes, taxable)[i]
    {
      TaxRowIff(b.taxes[i], r.taxes[i], taxable);
    }
  }

  /** Whole rupees: the nearest hundred, ties to the even rupee. */
  lemma RupeeIff(exact: nat, grand: nat)
    ensures grand == RoundToRupee(exact) <==> grand % 100 == 0 && Nearest(exact, 100, grand / 100, grand)
  {
    RoundNearest(exact, 100);
    if grand % 100 == 0 && Nearest(exact, 100, grand / 100, grand) {
      RoundUnique(exact, 100, grand / 100);
    }
  }

  lemma SumsIff(b: BillState, r: BillState, toRupee: bool)
    requires r.charges == RepriceAll(b.charges, Base(b)) && r.taxes == RetaxAll(b.taxes, TaxableValue(b.charges, Base(b)))
    ensures Sums(b, r, toRupee) <==> r.totals == PriceOf(b, toRupee).totals
  {
    LinesAdd(b.items);
    SumIsAdded(b.discounts);
    ChargesAdd(r.charges);
    TaxesAdd(r.taxes);
    RupeeIff(Exact(b.charges, b.taxes, Base(b)), r.totals.grand);
  }

  /** The recomputed bill, and only it, shows these figures. */
  lemma RecomputedIff(b: BillState, r: BillState, toRupee: bool)
    ensures r == Recompute(b, toRupee) <==> Figures(b, r, toRupee)
  {
    LinesAdd(b.items);
    SumIsAdded(b.discounts);
    RowsIff(b, r, Base(b));
    if Rows(b, r, Base(b)) {
      SumsIff(b, r, toRupee);
    }
  }
}
