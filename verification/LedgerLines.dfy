/** Which bills an order line is on. Each bill carries a line once; over a whole
    run a line can still be billed again, on another bill of its session. */
module LedgerLines {
  import opened Common
  import opened BillTotals
  import opened Ledger
  import opened LedgerBills
  import Ops = BillOperations

  predicate Carries(items: seq<Item>, line: nat) {
    exists k :: 0 <= k < |items| && items[k].orderItem == line
  }

  predicate OnBill(x: BillState, line: nat) { Carries(x.items, line) }

  predicate Named(lines: seq<Ops.OrderLine>, line: nat) {
    exists k :: 0 <= k < |lines| && lines[k].id == line
  }

  predicate OnTwo(bills: seq<BillState>, line: nat) {
    exists i, j :: 0 <= i < j < |bills| && OnBill(bills[i], line) && OnBill(bills[j], line)
  }

  predicate OnClosed(bills: seq<BillState>, line: nat) {
    exists i :: 0 <= i < |bills| && bills[i].Closed() && OnBill(bills[i], line)
  }

  /** The request bills the line again: a closed bill already carries it, and the
      session's open bill, if there is one, does not. */
  predicate Rebills(b: Books, r: Request, line: nat) {
    && r.Generate? && Named(r.lines, line)
    && OnClosed(b.bills, line)
    && (var found := OpenBill(b.bills, r.session, 0); found.Some? ==> !OnBill(b.bills[found.value], line))
  }

  predicate Rebilled(b: Books, run: seq<Turn>, line: nat)
    decreases |run|
  {
    run != [] && (Rebills(b, run[0].request, line) || Rebilled(After(b, run[0]), run[1..], line))
  }

  /** A line is only ever billed for the session its order belongs to. */
  predicate Belongs(r: Request, line: nat, session: nat) {
    r.Generate? && Named(r.lines, line) ==> r.session == session
  }

  // ---------- What holds throughout ----------

  ghost predicate OneOpenBill(bills: seq<BillState>) {
    forall i, j :: 0 <= i < j < |bills| && bills[i].session == bills[j].session ==> bills[i].Closed() || bills[j].Closed()
  }

  ghost predicate AtHome(bills: seq<BillState>, line: nat, session: nat) {
    forall i :: 0 <= i < |bills| && OnBill(bills[i], line) ==> bills[i].session == session
  }

  lemma {:induction false} OpenBillFirst(bills: seq<BillState>, session: nat, from: nat)
    requires from <= |bills|
    ensures var r := OpenBill(bills, session, from);
      && (r.Some? ==> from <= r.value < |bills| && bills[r.value].session == session && !bills[r.value].Closed())
      && (r.None? ==> forall i :: from <= i < |bills| && bills[i].session == session ==> bills[i].Closed())
    decreases |bills| - from
  {
    if from == |bills| {
    } else {
      OpenBillFirst(bills, session, from + 1);
    }
  }

  // ---------- Requests that bill no line ----------

  /** Same lines on every bill; any bill beyond carries none. */
  ghost predicate SameLines(a: seq<BillState>, b: seq<BillState>, line: nat) {
    |a| == |b| && forall i :: 0 <= i < |a| ==> (OnBill(a[i], line) <==> OnBill(b[i], line))
  }

  predicate SameIds(a: seq<Item>, b: seq<Item>) {
    |a| == |b| && forall k :: 0 <= k < |a| ==> a[k].orderItem == b[k].orderItem
  }

  lemma EditKeepsIds(x: BillState, r: Request, toRupee: bool)
    requires IsEdit(r)
    ensures Edit(x, r, toRupee).Done? ==> SameIds(x.items, Edit(x, r, toRupee).bill.items)
  {
  }

  lemma OneBillKeepsLines(bills: seq<BillState>, i: nat, after: BillState, line: nat)
    requires i < |bills| && SameIds(bills[i].items, after.items)
    ensures SameLines(bills, bills[i := after], line)
  {
  }

  lemma LandKeepsLines(b: Books, id: nat, amount: nat, year: Year, line: nat, toRupee: bool)
    requires id < |b.bills|
    ensures SameLines(b.bills, Landed(b, id, amount, year, toRupee).bills, line)
  {
    var after := Landed(b, id, amount, year, toRupee).bills[id];
    assert after.items == b.bills[id].items;
    OneBillKeepsLines(b.bills, id, after, line);
  }

  lemma EditKeepsLines(b: Books, r: Request, line: nat, toRupee: bool)
    requires IsEdit(r)
    ensures SameLines(b.bills, DoEdit(b, r, toRupee).bills, line)
  {
    if r.bill < |b.bills| {
      EditKeepsIds(b.bills[r.bill], r, toRupee);
      var o := Edit(b.bills[r.bill], r, toRupee);
      if o.Done? {
        OneBillKeepsLines(b.bills, r.bill, o.bill, line);
      }
    }
  }

  lemma MoneyKeepsLines(b: Books, r: Request, line: nat, toRupee: bool)
    requires PositivePayments(b.payments) && TakesMoney(r)
    ensures SameLines(b.bills, DoTakeMoney(b, r, toRupee).bills, line)
  {
    var landed, from, id, amount := MoneyShape(b, r, toRupee);
    if landed {
      LandKeepsLines(from, id, amount, r.year, line, toRupee);
    }
  }

  lemma OthersKeepLines(b: Books, r: Request, line: nat, toRupee: bool)
    requires PositivePayments(b.payments) && !r.Generate?
    ensures SameLines(b.bills, Step(b, r, toRupee).bills, line)
  {
    if IsEdit(r) {
      EditKeepsLines(b, r, line, toRupee);
    } else if TakesMoney(r) {
      MoneyKeepsLines(b, r, line, toRupee);
    } else if r.GiveBack? {
      GiveBackShape(b, r);
    } else {
      OthersLeaveBills(b, r, toRupee);
    }
  }

  // ---------- Billing ----------

  lemma CarriesConcat(a: seq<Item>, b: seq<Item>, line: nat)
    ensures Carries(a + b, line) <==> Carries(a, line) || Carries(b, line)
  {
    if k :| 0 <= k < |a| && a[k].orderItem == line {
      assert (a + b)[k].orderItem == line;
    }
    if k :| 0 <= k < |b| && b[k].orderItem == line {
      assert (a + b)[|a| + k].orderItem == line;
    }
  }

  lemma NamedLast(rest: seq<Ops.OrderLine>, last: Ops.OrderLine, line: nat)
    ensures Named(rest + [last], line) <==> Named(rest, line) || last.id == line
  {
    if k :| 0 <= k < |rest| && rest[k].id == line {
      assert (rest + [last])[k].id == line;
    }
    assert (rest + [last])[|rest|] == last;
  }

  lemma {:induction false} UnbilledNames(lines: seq<Ops.OrderLine>, billed: set<nat>, line: nat)
    ensures Carries(Ops.Unbilled(lines, billed), line) <==> Named(lines, line) && line !in billed
    decreases |lines|
  {
    if lines == [] {
    } else {
      var rest, last := lines[..|lines| - 1], lines[|lines| - 1];
      UnbilledNames(rest, billed, line);
      assert lines == rest + [last];
      NamedLast(rest, last, line);
      var added := if last.id in billed then [] else [Item(last.id, last.total, false, false)];
      CarriesConcat(Ops.Unbilled(rest, billed), added, line);
      assert added != [] ==> added[0].orderItem == last.id;
    }
  }

  lemma RefreshBills(x: BillState, r: Request, line: nat, toRupee: bool)
    requires r.Generate? && !x.Closed()
    ensures var o := Ops.Refresh(x, r.lines, r.taxes, r.charges, toRupee);
      o.Done? && o.bill.session == x.session && (OnBill(o.bill, line) <==> OnBill(x, line) || Named(r.lines, line))
  {
    var billed := Ops.BilledOrderItems(x.items);
    UnbilledNames(r.lines, billed, line);
    assert line in billed <==> Carries(x.items, line);
    CarriesConcat(x.items, Ops.Unbilled(r.lines, billed), line);
  }

  function Written(bills: seq<BillState>, id: nat, after: BillState): seq<BillState>
    requires id <= |bills|
  {
    if id < |bills| then bills[id := after] else bills + [after]
  }

  /** One bill, the session's open one or a new one, now also carries the named lines. */
  lemma GenerateShape(b: Books, r: Request, line: nat, toRupee: bool) returns (id: nat, after: BillState)
    requires r.Generate?
    ensures var found := OpenBill(b.bills, r.session, 0);
      && id == (if found.Some? then found.value else |b.bills|)
      && DoGenerate(b, r, toRupee).bills == Written(b.bills, id, after)
      && after.session == r.session
      && (OnBill(after, line) <==> (id < |b.bills| && OnBill(b.bills[id], line)) || Named(r.lines, line))
  {
    var found := OpenBill(b.bills, r.session, 0);
    OpenBillFirst(b.bills, r.session, 0);
    id := if found.Some? then found.value else |b.bills|;
    var bill := if found.Some? then b.bills[id] else Ops.NewBill(r.session);
    RefreshBills(bill, r, line, toRupee);
    after := Ops.Refresh(bill, r.lines, r.taxes, r.charges, toRupee).bill;
  }

  lemma WrittenAt(bills: seq<BillState>, id: nat, after: BillState)
    requires id <= |bills|
    ensures var w := Written(bills, id, after);
      |bills| <= |w| && id < |w| && w[id] == after && forall k :: 0 <= k < |w| && k != id ==> k < |bills| && w[k] == bills[k]
  {
  }

  /** Writing the line on bill id puts it on two exactly if it was, or if another
      bill carries it and this one did not. */
  lemma TwiceWritten(bills: seq<BillState>, id: nat, after: BillState, line: nat)
    requires id <= |bills| && OnBill(after, line)
    ensures OnTwo(Written(bills, id, after), line)
      <==> OnTwo(bills, line) || (exists i :: 0 <= i < |bills| && i != id && OnBill(bills[i], line))
  {
    var w := Written(bills, id, after);
    WrittenAt(bills, id, after);
    if i :| 0 <= i < |bills| && i != id && OnBill(bills[i], line) {
      assert OnBill(w[i], line) && OnBill(w[id], line);
    }
  }

  lemma NotWritten(bills: seq<BillState>, id: nat, after: BillState, line: nat)
    requires id <= |bills| && (OnBill(after, line) <==> id < |bills| && OnBill(bills[id], line))
    ensures OnTwo(Written(bills, id, after), line) <==> OnTwo(bills, line)
  {
    var w := Written(bills, id, after);
    WrittenAt(bills, id, after);
    assert forall k :: 0 <= k < |bills| ==> (OnBill(w[k], line) <==> OnBill(bills[k], line));
    assert forall k :: |bills| <= k < |w| ==> !OnBill(w[k], line);
  }

  /** Another bill with the line must be closed: the session has one open bill. */
  lemma OtherIsClosed(bills: seq<BillState>, session: nat, line: nat)
    requires OneOpenBill(bills) && AtHome(bills, line, session)
    ensures var found := OpenBill(bills, session, 0);
      var id := if found.Some? then found.value else |bills|;
      (exists i :: 0 <= i < |bills| && i != id && OnBill(bills[i], line)) <==> OnClosed(bills, line)
  {
    OpenBillFirst(bills, session, 0);
  }

  // ---------- Runs ----------

  ghost predicate LinesOk(bills: seq<BillState>, line: nat, session: nat) {
    OneOpenBill(bills) && AtHome(bills, line, session)
  }

  lemma WrittenKeeps(bills: seq<BillState>, id: nat, after: BillState, line: nat, session: nat)
    requires id <= |bills| && OneOpenBill(bills) && AtHome(bills, line, session)
    requires OnBill(after, line) ==> after.session == session
    requires if id < |bills| then after.session == bills[id].session && !bills[id].Closed()
             else forall i :: 0 <= i < |bills| && bills[i].session == after.session ==> bills[i].Closed()
    ensures OneOpenBill(Written(bills, id, after)) && AtHome(Written(bills, id, after), line, session)
  {
    WrittenAt(bills, id, after);
  }

  lemma CarriedTwice(bills: seq<BillState>, id: nat, line: nat)
    requires id < |bills| && OnBill(bills[id], line)
    ensures (exists i :: 0 <= i < |bills| && i != id && OnBill(bills[i], line)) ==> OnTwo(bills, line)
  {
    if i :| 0 <= i < |bills| && i != id && OnBill(bills[i], line) {
      var j, k := if i < id then i else id, if i < id then id else i;
      assert OnBill(bills[j], line) && OnBill(bills[k], line);
    }
  }

  lemma GenerateBills(b: Books, r: Request, line: nat, session: nat, toRupee: bool)
    requires LinesOk(b.bills, line, session) && r.Generate? && Belongs(r, line, session)
    ensures var bills := DoGenerate(b, r, toRupee).bills;
      && (OnTwo(bills, line) <==> OnTwo(b.bills, line) || Rebills(b, r, line))
      && LinesOk(bills, line, session)
  {
    var id, after := GenerateShape(b, r, line, toRupee);
    OpenBillFirst(b.bills, r.session, 0);
    WrittenKeeps(b.bills, id, after, line, session);
    if Named(r.lines, line) {
      TwiceWritten(b.bills, id, after, line);
      OtherIsClosed(b.bills, session, line);
      if id < |b.bills| && OnBill(b.bills[id], line) {
        CarriedTwice(b.bills, id, line);
      }
    } else {
      NotWritten(b.bills, id, after, line);
    }
  }

  lemma SameLinesKeep(a: seq<BillState>, b: seq<BillState>, line: nat, session: nat)
    requires SameLines(a, b, line) && AllMove(a, b) && OneOpenBill(a) && AtHome(a, line, session)
    ensures OneOpenBill(b) && AtHome(b, line, session)
    ensures OnTwo(b, line) <==> OnTwo(a, line)
  {
    assert forall i :: 0 <= i < |a| ==> Moves(a[i], b[i]);
  }

  lemma OtherBills(b: Books, r: Request, line: nat, session: nat, toRupee: bool)
    requires LinesOk(b.bills, line, session) && !r.Generate?
    requires PositivePayments(b.payments) && AllMove(b.bills, Step(b, r, toRupee).bills)
    ensures var bills := Step(b, r, toRupee).bills;
      && (OnTwo(bills, line) <==> OnTwo(b.bills, line))
      && LinesOk(bills, line, session)
  {
    OthersKeepLines(b, r, line, toRupee);
    SameLinesKeep(b.bills, Step(b, r, toRupee).bills, line, session);
  }

  lemma StepBills(b: Books, r: Request, line: nat, session: nat, toRupee: bool)
    requires LinesOk(b.bills, line, session) && Belongs(r, line, session)
    requires PositivePayments(b.payments) && AllMove(b.bills, Step(b, r, toRupee).bills)
    ensures LinesOk(Step(b, r, toRupee).bills, line, session)
    ensures OnTwo(Step(b, r, toRupee).bills, line) <==> OnTwo(b.bills, line) || Rebills(b, r, line)
  {
    if r.Generate? {
      GenerateBills(b, r, line, session, toRupee);
    } else {
      OtherBills(b, r, line, session, toRupee);
    }
  }

  lemma {:induction false} RunBills(b: Books, run: seq<Turn>, line: nat, session: nat)
    requires AllBillsOk(b.bills) && PositivePayments(b.payments) && LinesOk(b.bills, line, session)
    requires forall k :: 0 <= k < |run| ==> Belongs(run[k].request, line, session)
    ensures LinesOk(Exec(b, run).bills, line, session)
    ensures OnTwo(Exec(b, run).bills, line) <==> OnTwo(b.bills, line) || Rebilled(b, run, line)
    decreases |run|
  {
    if run == [] {
    } else {
      StepKeepsBills(b, run[0].request, run[0].toRupee);
      StepKeepsPayments(b, run[0].request, run[0].toRupee);
      StepBills(b, run[0].request, line, session, run[0].toRupee);
      RunBills(After(b, run[0]), run[1..], line, session);
    }
  }

  /** Over every run an order line ends up on two bills exactly when it was billed
      once more while a closed bill already carried it. */
  lemma BilledTwiceIff(run: seq<Turn>, line: nat, session: nat)
    requires forall k :: 0 <= k < |run| ==> Belongs(run[k].request, line, session)
    ensures OnTwo(Exec(EMPTY, run).bills, line) <==> Rebilled(EMPTY, run, line)
    ensures OneOpenBill(Exec(EMPTY, run).bills)
  {
    RunBills(EMPTY, run, line, session);
  }
}
