/** Invoice identity over whole serial runs: numbers are legal, gapless, never
    reused and never lost, however the per-year switch is flipped between requests. */
module LedgerInvoices {
  import opened Common
  import opened BillTotals
  import opened InvoiceNumber
  import opened Ledger
  import opened LedgerBills
  import Ops = BillOperations

  function Numbers(bills: seq<BillState>): set<InvoiceId> {
    set i | 0 <= i < |bills| && bills[i].invoice.Some? :: bills[i].invoice.value
  }

  /** Taken from the counter, and short enough to be put on a bill. */
  predicate Issued(counters: map<string, nat>, x: InvoiceId) {
    && YearCode(x.year) && 1 <= x.sequence <= LastNumber(counters, x.year)
    && |Format(SERIES, x.year, x.sequence)| <= LONGEST
  }

  /** The numbers on bills are on one each, and are all those of 1..last_number that
      are short enough. */
  ghost predicate Series(bills: seq<BillState>, counters: map<string, nat>) {
    && (forall year :: year in counters ==> YearCode(year))
    && (forall i :: 0 <= i < |bills| && bills[i].invoice.Some? ==> Issued(counters, bills[i].invoice.value))
    && (forall i, j :: 0 <= i < j < |bills| && bills[i].invoice.Some? ==> bills[i].invoice != bills[j].invoice)
    && (forall x: InvoiceId :: Issued(counters, x) ==> x in Numbers(bills))
  }

  predicate SameColumn(a: seq<BillState>, b: seq<BillState>) {
    && |a| <= |b|
    && (forall i :: 0 <= i < |a| ==> b[i].invoice == a[i].invoice)
    && (forall i :: |a| <= i < |b| ==> b[i].invoice.None?)
  }

  lemma SeriesFrame(a: seq<BillState>, b: seq<BillState>, counters: map<string, nat>)
    requires Series(a, counters) && SameColumn(a, b)
    ensures Series(b, counters)
  {
  }

  /** The next number on a bill that has none. */
  lemma SeriesExtends(bills: seq<BillState>, counters: map<string, nat>, id: nat, after: BillState, year: Year)
    requires Series(bills, counters) && id < |bills| && bills[id].invoice.None?
    requires after.invoice == Some(InvoiceId(year, LastNumber(counters, year) + 1))
    requires |Format(SERIES, year, LastNumber(counters, year) + 1)| <= LONGEST
    ensures Series(bills[id := after], counters[year := LastNumber(counters, year) + 1])
  {
    var next, grown := bills[id := after], counters[year := LastNumber(counters, year) + 1];
    forall i | 0 <= i < |next| && i != id && next[i].invoice.Some?
      ensures next[i].invoice != after.invoice && Issued(grown, next[i].invoice.value)
    {
      assert Issued(counters, bills[i].invoice.value);
    }
    forall x: InvoiceId | Issued(grown, x)
      ensures x in Numbers(next)
    {
      if x == after.invoice.value {
        assert next[id].invoice == Some(x);
      } else {
        assert Issued(counters, x) && x in Numbers(bills);
        var i :| 0 <= i < |bills| && bills[i].invoice == Some(x);
        assert next[i].invoice == Some(x);
      }
    }
  }

  /** A number that is too long to put on a bill is burnt, and the series is none the worse. */
  lemma SeriesSkips(bills: seq<BillState>, counters: map<string, nat>, year: Year)
    requires Series(bills, counters) && TooLong(counters, year)
    ensures Series(bills, counters[year := LastNumber(counters, year) + 1])
  {
    var grown := counters[year := LastNumber(counters, year) + 1];
    assert forall x: InvoiceId :: Issued(grown, x) <==> Issued(counters, x);
  }

  lemma NumberKeepsSeries(bills: seq<BillState>, counters: map<string, nat>, id: nat, after: BillState, year: Year)
    requires Series(bills, counters) && id < |bills| && bills[id].invoice.None?
    requires after.invoice == if TooLong(counters, year) then None else Some(InvoiceId(year, LastNumber(counters, year) + 1))
    ensures Series(bills[id := after], counters[year := LastNumber(counters, year) + 1])
  {
    if TooLong(counters, year) {
      SeriesFrame(bills, bills[id := after], counters);
      SeriesSkips(bills[id := after], counters, year);
    } else {
      SeriesExtends(bills, counters, id, after, year);
    }
  }

  lemma LandKeepsSeries(b: Books, id: nat, amount: nat, year: Year, toRupee: bool)
    requires Series(b.bills, b.counters) && id < |b.bills|
    ensures Series(Landed(b, id, amount, year, toRupee).bills, Landed(b, id, amount, year, toRupee).counters)
  {
    var after := Landed(b, id, amount, year, toRupee).bills[id];
    if Ops.NeedsNumber(b.bills[id], amount, toRupee) {
      NumberKeepsSeries(b.bills, b.counters, id, after, year);
    } else {
      SeriesFrame(b.bills, b.bills[id := after], b.counters);
    }
  }

  lemma GenerateKeepsColumn(b: Books, r: Request, toRupee: bool)
    requires r.Generate?
    ensures SameColumn(b.bills, DoGenerate(b, r, toRupee).bills)
  {
  }

  lemma EditKeepsColumn(b: Books, r: Request, toRupee: bool)
    requires IsEdit(r)
    ensures SameColumn(b.bills, DoEdit(b, r, toRupee).bills)
  {
    forall i | 0 <= i < |b.bills|
      ensures DoEdit(b, r, toRupee).bills[i].invoice == b.bills[i].invoice
    {
      EditNeverNumbers(b, r, i, toRupee);
    }
  }

  lemma GiveBackKeepsColumn(b: Books, r: Request)
    requires r.GiveBack?
    ensures SameColumn(b.bills, DoGiveBack(b, r).bills) && DoGiveBack(b, r).counters == b.counters
  {
  }

  /** Only a payment touches the invoice column or a counter. */
  lemma OthersKeepColumn(b: Books, r: Request, toRupee: bool)
    requires !TakesMoney(r)
    ensures SameColumn(b.bills, Step(b, r, toRupee).bills) && Step(b, r, toRupee).counters == b.counters
  {
    if IsEdit(r) {
      EditKeepsColumn(b, r, toRupee);
    } else if r.Generate? {
      GenerateKeepsColumn(b, r, toRupee);
    } else if r.GiveBack? {
      GiveBackKeepsColumn(b, r);
    } else {
      OthersLeaveBills(b, r, toRupee);
    }
  }

  lemma PaymentKeepsSeries(b: Books, r: Request, toRupee: bool)
    requires Series(b.bills, b.counters) && PositivePayments(b.payments) && TakesMoney(r)
    ensures Series(DoTakeMoney(b, r, toRupee).bills, DoTakeMoney(b, r, toRupee).counters)
  {
    var landed, from, id, amount := MoneyShape(b, r, toRupee);
    if landed {
      LandKeepsSeries(from, id, amount, r.year, toRupee);
    }
  }

  lemma StepKeepsSeries(b: Books, r: Request, toRupee: bool)
    requires PositivePayments(b.payments) && Series(b.bills, b.counters)
    ensures Series(Step(b, r, toRupee).bills, Step(b, r, toRupee).counters)
  {
    if TakesMoney(r) {
      PaymentKeepsSeries(b, r, toRupee);
    } else {
      OthersKeepColumn(b, r, toRupee);
      SeriesFrame(b.bills, Step(b, r, toRupee).bills, b.counters);
    }
  }

  lemma {:induction false} RunKeepsSeries(b: Books, run: seq<Turn>)
    requires PositivePayments(b.payments) && Series(b.bills, b.counters)
    ensures Series(Exec(b, run).bills, Exec(b, run).counters)
    decreases |run|
  {
    if run == [] {
    } else {
      StepKeepsPayments(b, run[0].request, run[0].toRupee);
      StepKeepsSeries(b, run[0].request, run[0].toRupee);
      RunKeepsSeries(After(b, run[0]), run[1..]);
    }
  }

  /** In every run from empty books: two invoices of the business never print
      the same number, and every printed number fits the legal limit. */
  lemma PrintedNumbersDiffer(run: seq<Turn>, i: nat, j: nat)
    ensures var bills := Exec(EMPTY, run).bills;
      i < |bills| && bills[i].invoice.Some? ==>
        var x := bills[i].invoice.value;
        && |Format(SERIES, x.year, x.sequence)| <= LONGEST
        && (i != j && j < |bills| && bills[j].invoice.Some? ==>
          Format(SERIES, x.year, x.sequence) != Format(SERIES, bills[j].invoice.value.year, bills[j].invoice.value.sequence))
  {
    RunKeepsSeries(EMPTY, run);
    var bills := Exec(EMPTY, run).bills;
    if i < |bills| && bills[i].invoice.Some? && i != j && j < |bills| && bills[j].invoice.Some? {
      var x, y := bills[i].invoice.value, bills[j].invoice.value;
      assert if i < j then bills[i].invoice != bills[j].invoice else bills[j].invoice != bills[i].invoice;
      if Format(SERIES, x.year, x.sequence) == Format(SERIES, y.year, y.sequence) {
        FormatInjective(SERIES, x.year, x.sequence, y.year, y.sequence);
      }
    }
  }

  /** An assigned number never changes, voiding included. */
  lemma NumberNeverChanges(b: Books, i: nat, run: seq<Turn>)
    requires AllBillsOk(b.bills) && PositivePayments(b.payments)
    requires i < |b.bills| && b.bills[i].invoice.Some?
    ensures i < |Exec(b, run).bills| && Exec(b, run).bills[i].invoice == b.bills[i].invoice
  {
    RunKeepsBills(b, run);
    assert Moves(b.bills[i], Exec(b, run).bills[i]);
  }
}
