/** Which payments were applied to a bill more than once, and what that does to
    its paid column. */
module LedgerApplied {
  import opened Common
  import opened BillTotals
  import opened Ledger
  import opened LedgerBills
  import opened LedgerMoney

  // ---------- Applied once, and exactly when not ----------

  /** No payment of the bill was applied to it twice. */
  ghost predicate AppliedOnce(payments: seq<Payment>, applied: seq<nat>, bill: nat) {
    forall i, j :: 0 <= i < j < |applied| && applied[i] == applied[j] && applied[i] < |payments| ==>
      payments[applied[i]].bill != bill
  }

  /** The request confirms a gateway payment of the bill that had been handed back whole. */
  predicate ReappliesRefunded(b: Books, r: Request, bill: nat, toRupee: bool) {
    && (r.Capture? || (r.Verify? && r.orderMatches && r.signed))
    && Confirmable(b, r.payment) && b.payments[r.payment].bill == bill
    && (r.Capture? || Confirm(b, r.payment, r.year, toRupee).Some?)
    && GivenBack(b.refunds, r.payment) == b.payments[r.payment].amount
  }

  predicate Reapplying(b: Books, run: seq<Turn>, bill: nat)
    decreases |run|
  {
    run != []
    && (ReappliesRefunded(b, run[0].request, bill, run[0].toRupee) || Reapplying(After(b, run[0]), run[1..], bill))
  }

  lemma OnceFrame(p: seq<Payment>, q: seq<Payment>, applied: seq<nat>, bill: nat)
    requires RowsKept(p, q) && forall k :: 0 <= k < |applied| ==> applied[k] < |p|
    ensures AppliedOnce(p, applied, bill) <==> AppliedOnce(q, applied, bill)
  {
  }

  lemma OnceAppend(payments: seq<Payment>, applied: seq<nat>, id: nat, bill: nat)
    requires id < |payments|
    ensures AppliedOnce(payments, applied + [id], bill)
      <==> AppliedOnce(payments, applied, bill) && !(id in applied && payments[id].bill == bill)
  {
    var more := applied + [id];
    assert forall k :: 0 <= k < |applied| ==> more[k] == applied[k];
    if id in applied {
      var k :| 0 <= k < |applied| && applied[k] == id;
      assert more[k] == more[|applied|];
    }
  }

  lemma CounterApplies(b: Books, r: Request, bill: nat, toRupee: bool)
    requires MoneyOk(b) && r.PayAtCounter?
    ensures var after := DoPayAtCounter(b, r, toRupee);
      AppliedOnce(after.payments, after.applied, bill) <==> AppliedOnce(b.payments, b.applied, bill)
  {
    var after := DoPayAtCounter(b, r, toRupee);
    PositiveFromOk(b);
    CounterKeepsPayments(b, r, toRupee);
    OnceFrame(b.payments, after.payments, b.applied, bill);
    if after.applied != b.applied {
      OnceAppend(after.payments, b.applied, |b.payments|, bill);
      assert |b.payments| !in b.applied;
    }
  }

  lemma GatewayApplies(b: Books, r: Request, bill: nat, toRupee: bool)
    requires MoneyOk(b) && (r.Verify? || r.Capture?)
    ensures var after := DoTakeMoney(b, r, toRupee);
      AppliedOnce(after.payments, after.applied, bill)
      <==> AppliedOnce(b.payments, b.applied, bill) && !ReappliesRefunded(b, r, bill, toRupee)
  {
    var after := DoTakeMoney(b, r, toRupee);
    PositiveFromOk(b);
    MoneyKeepsPayments(b, r, toRupee);
    OnceFrame(b.payments, after.payments, b.applied, bill);
    if Confirmable(b, r.payment) {
      assert PaymentOk(b.payments[r.payment], GivenBack(b.refunds, r.payment), r.payment in b.applied);
      OnceAppend(after.payments, b.applied, r.payment, bill);
    }
  }

  lemma OthersApplyNone(b: Books, r: Request, bill: nat, toRupee: bool)
    requires MoneyOk(b) && !TakesMoney(r)
    ensures var after := Step(b, r, toRupee);
      AppliedOnce(after.payments, after.applied, bill) <==> AppliedOnce(b.payments, b.applied, bill)
  {
    PositiveFromOk(b);
    StepKeepsPayments(b, r, toRupee);
    OnceFrame(b.payments, Step(b, r, toRupee).payments, b.applied, bill);
  }

  lemma StepApplies(b: Books, r: Request, bill: nat, toRupee: bool)
    requires MoneyOk(b)
    ensures var after := Step(b, r, toRupee);
      AppliedOnce(after.payments, after.applied, bill)
      <==> AppliedOnce(b.payments, b.applied, bill) && !ReappliesRefunded(b, r, bill, toRupee)
  {
    if r.PayAtCounter? {
      CounterApplies(b, r, bill, toRupee);
    } else if TakesMoney(r) {
      GatewayApplies(b, r, bill, toRupee);
    } else {
      OthersApplyNone(b, r, bill, toRupee);
    }
  }

  /** The payments of a bill are applied to it at most once in a run exactly when
      the run never confirms one that had already been refunded in full. */
  lemma {:induction false} AppliedOnceIff(b: Books, run: seq<Turn>, bill: nat)
    requires MoneyOk(b)
    ensures var end := Exec(b, run);
      AppliedOnce(end.payments, end.applied, bill)
      <==> AppliedOnce(b.payments, b.applied, bill) && !Reapplying(b, run, bill)
    decreases |run|
  {
    if run == [] {
    } else {
      StepApplies(b, run[0].request, bill, run[0].toRupee);
      StepKeepsMoney(b, run[0].request, run[0].toRupee);
      AppliedOnceIff(After(b, run[0]), run[1..], bill);
    }
  }

  // ---------- The paid column ----------

  /** A payment that ever succeeded, read off the rows: it stands, or some of it
      was handed back. */
  predicate EverSucceeded(p: Payment, given: nat) { p.status.Success? || given > 0 }

  /** The bill's payments among the first n that ever succeeded, each counted once. */
  function TakenOnce(payments: seq<Payment>, refunds: seq<Refund>, bill: nat, n: nat): nat
    requires n <= |payments|
  {
    if n == 0 then 0
    else
      var p := payments[n - 1];
      TakenOnce(payments, refunds, bill, n - 1)
        + if p.bill == bill && EverSucceeded(p, GivenBack(refunds, n - 1)) then p.amount else 0
  }

  /** The same by the history of applications. */
  function PaidOnce(payments: seq<Payment>, applied: seq<nat>, bill: nat, n: nat): nat
    requires n <= |payments|
  {
    if n == 0 then 0
    else
      var p := payments[n - 1];
      PaidOnce(payments, applied, bill, n - 1) + if p.bill == bill && n - 1 in applied then p.amount else 0
  }

  function GivenSum(payments: seq<Payment>, refunds: seq<Refund>, bill: nat, n: nat): nat
    requires n <= |payments|
  {
    if n == 0 then 0
    else
      GivenSum(payments, refunds, bill, n - 1) + if payments[n - 1].bill == bill then GivenBack(refunds, n - 1) else 0
  }

  lemma {:induction false} HeldSplits(payments: seq<Payment>, refunds: seq<Refund>, applied: seq<nat>, bill: nat, n: nat)
    requires PaymentsOk(payments, refunds, applied) && n <= |payments|
    ensures TakenOnce(payments, refunds, bill, n) == PaidOnce(payments, applied, bill, n)
    ensures StillHeld(payments, refunds, applied, bill, n)
      == PaidOnce(payments, applied, bill, n) - GivenSum(payments, refunds, bill, n)
  {
    if n == 0 {
    } else {
      HeldSplits(payments, refunds, applied, bill, n - 1);
      assert PaymentOk(payments[n - 1], GivenBack(refunds, n - 1), n - 1 in applied);
    }
  }

  lemma {:induction false} GivenSumAppend(payments: seq<Payment>, refunds: seq<Refund>, r: Refund, bill: nat, n: nat)
    requires n <= |payments| && r.payment < |payments|
    ensures GivenSum(payments, refunds + [r], bill, n)
      == GivenSum(payments, refunds, bill, n) + if r.payment < n && payments[r.payment].bill == bill then r.amount else 0
  {
    if n == 0 {
    } else {
      GivenSumAppend(payments, refunds, r, bill, n - 1);
      GivenBackAppend(refunds, r, n - 1);
    }
  }

  lemma {:induction false} GivenSumNone(payments: seq<Payment>, bill: nat, n: nat)
    requires n <= |payments|
    ensures GivenSum(payments, [], bill, n) == 0
  {
    if n == 0 {
    } else {
      GivenSumNone(payments, bill, n - 1);
    }
  }

  lemma {:induction false} RefundsByPayment(payments: seq<Payment>, refunds: seq<Refund>, bill: nat)
    requires forall k :: 0 <= k < |refunds| ==>
      refunds[k].payment < |payments| && refunds[k].bill == payments[refunds[k].payment].bill
    ensures GivenSum(payments, refunds, bill, |payments|) == RefundedFrom(refunds, bill)
    decreases |refunds|
  {
    if refunds == [] {
      GivenSumNone(payments, bill, |payments|);
    } else {
      var rest, last := refunds[..|refunds| - 1], refunds[|refunds| - 1];
      RefundsByPayment(payments, rest, bill);
      assert refunds == rest + [last];
      GivenSumAppend(payments, rest, last, bill, |payments|);
    }
  }

  lemma {:induction false} PaidOnceAppend(payments: seq<Payment>, applied: seq<nat>, id: nat, bill: nat, n: nat)
    requires n <= |payments| && id < |payments|
    ensures PaidOnce(payments, applied + [id], bill, n) == PaidOnce(payments, applied, bill, n)
      + if id < n && id !in applied && payments[id].bill == bill then payments[id].amount else 0
  {
    if n == 0 {
    } else {
      PaidOnceAppend(payments, applied, id, bill, n - 1);
      assert n - 1 in applied + [id] <==> n - 1 in applied || n - 1 == id;
    }
  }

  lemma {:induction false} PaidOnceNone(payments: seq<Payment>, bill: nat, n: nat)
    requires n <= |payments|
    ensures PaidOnce(payments, [], bill, n) == 0
  {
    if n == 0 {
    } else {
      PaidOnceNone(payments, bill, n - 1);
    }
  }

  /** Every second application adds to the column and to nothing else. */
  lemma {:induction false} PaidIntoOnce(payments: seq<Payment>, applied: seq<nat>, bill: nat)
    requires PositivePayments(payments) && forall k :: 0 <= k < |applied| ==> applied[k] < |payments|
    ensures PaidOnce(payments, applied, bill, |payments|) <= PaidInto(payments, applied, bill)
    ensures PaidOnce(payments, applied, bill, |payments|) == PaidInto(payments, applied, bill)
      <==> AppliedOnce(payments, applied, bill)
    decreases |applied|
  {
    if applied == [] {
      PaidOnceNone(payments, bill, |payments|);
    } else {
      var rest, last := applied[..|applied| - 1], applied[|applied| - 1];
      PaidIntoOnce(payments, rest, bill);
      assert applied == rest + [last];
      PaidIntoAppend(payments, rest, last, bill);
      PaidOnceAppend(payments, rest, last, bill, |payments|);
      OnceAppend(payments, rest, last, bill);
    }
  }

  /** In every reachable state a bill's paid column is the sum of its payments that
      ever succeeded, each counted once, and paid less refunded is what is still
      held of them, exactly when the run never re-confirmed a payment of the bill
      that had been refunded in full. Otherwise both are above. */
  lemma PaidColumnIff(run: seq<Turn>, i: nat)
    ensures var b := Exec(EMPTY, run);
      i < |b.bills| ==>
        var taken := TakenOnce(b.payments, b.refunds, i, |b.payments|);
        var held := StillHeld(b.payments, b.refunds, b.applied, i, |b.payments|);
        && taken <= b.bills[i].amountPaid && held <= b.bills[i].amountPaid - b.bills[i].amountRefunded
        && (b.bills[i].amountPaid == taken <==> !Reapplying(EMPTY, run, i))
        && (b.bills[i].amountPaid - b.bills[i].amountRefunded == held <==> !Reapplying(EMPTY, run, i))
  {
    RunKeepsMoney(EMPTY, run);
    AppliedOnceIff(EMPTY, run, i);
    var b := Exec(EMPTY, run);
    if i < |b.bills| {
      PositiveFromOk(b);
      assert BillSum(b, i);
      HeldSplits(b.payments, b.refunds, b.applied, i, |b.payments|);
      RefundsByPayment(b.payments, b.refunds, i);
      PaidIntoOnce(b.payments, b.applied, i);
    }
  }

  // ---------- It does happen ----------

  lemma WholeRefund(b: Books, back: Request)
    requires Rows(b) && back.GiveBack? && back.allowed && !back.needShift && back.back.None?
    requires back.payment < |b.payments| && b.payments[back.payment].status.Success?
    requires GivenBack(b.refunds, back.payment) + back.amount == b.payments[back.payment].amount
    ensures var b1 := DoGiveBack(b, back); var p := b.payments[back.payment];
      && b1.payments == SetStatus(b.payments, back.payment, Refunded)
      && GivenBack(b1.refunds, back.payment) == p.amount
      && b1.bills == WithRefund(b.bills, p.bill, back.amount)
  {
    GivenBackAppend(b.refunds, DoGiveBack(b, back).refunds[|b.refunds|], back.payment);
  }

  lemma ClosedCapture(b: Books, id: nat, year: Year, toRupee: bool)
    requires Confirmable(b, id) && b.bills[b.payments[id].bill].Closed()
    ensures var after := DoCapture(b, Capture(id, year), toRupee); var bill := b.payments[id].bill;
      bill < |after.bills| && after.bills[bill].amountPaid == b.bills[bill].amountPaid + b.payments[id].amount
  {
  }

  lemma CaptureAfterWholeRefund(b: Books, back: Request, year: Year, toRupee: bool)
    requires Rows(b) && back.GiveBack? && back.allowed && !back.needShift && back.back.None?
    requires back.payment < |b.payments| && b.payments[back.payment].status.Success?
    requires b.payments[back.payment].gateway && b.payments[back.payment].hasOrder
    requires b.bills[b.payments[back.payment].bill].Closed()
    requires GivenBack(b.refunds, back.payment) + back.amount == b.payments[back.payment].amount
    ensures var b1, again := DoGiveBack(b, back), Capture(back.payment, year);
      var after, bill := DoCapture(b1, again, toRupee), b.payments[back.payment].bill;
      && ReappliesRefunded(b1, again, bill, toRupee)
      && bill < |after.bills| && after.bills[bill].amountPaid == b.bills[bill].amountPaid + b.payments[back.payment].amount
  {
    WholeRefund(b, back);
    ClosedCapture(DoGiveBack(b, back), back.payment, year, toRupee);
  }

  lemma PlainSteps(b: Books, r: Request, toRupee: bool)
    ensures r.GiveBack? ==> Step(b, r, toRupee) == DoGiveBack(b, r)
    ensures r.Capture? ==> Step(b, r, toRupee) == DoCapture(b, r, toRupee)
  {
  }

  lemma TwoTurns(b: Books, x: Turn, y: Turn, bill: nat)
    ensures Exec(b, [x, y]) == After(After(b, x), y)
    ensures ReappliesRefunded(After(b, x), y.request, bill, y.toRupee) ==> Reapplying(b, [x, y], bill)
  {
    var run, next := [x, y], After(b, x);
    assert run[1..] == [y] && [y][1..] == [];
    assert Exec(next, [y]) == Exec(After(next, y), []);
    assert Reapplying(next, [y], bill) <==> ReappliesRefunded(next, y.request, bill, y.toRupee);
  }

  function GiveRestBack(b: Books, id: nat, staff: nat): Request
    requires id < |b.payments| && GivenBack(b.refunds, id) <= b.payments[id].amount
  {
    GiveBack(id, b.payments[id].amount - GivenBack(b.refunds, id), None, staff, true, false)
  }

  /** Hand a standing gateway payment of a closed bill back whole, and its next
      capture is applied again. */
  lemma RefundThenCaptureReapplies(b: Books, id: nat, staff: nat, year: Year, x: bool, y: bool)
    requires MoneyOk(b) && id < |b.payments| && b.payments[id].status.Success?
    requires b.payments[id].gateway && b.payments[id].hasOrder && b.bills[b.payments[id].bill].Closed()
    ensures GivenBack(b.refunds, id) <= b.payments[id].amount
    ensures var run := [Turn(GiveRestBack(b, id, staff), x), Turn(Capture(id, year), y)];
      var end, bill := Exec(b, run), b.payments[id].bill;
      && Reapplying(b, run, bill)
      && bill < |end.bills| && end.bills[bill].amountPaid == b.bills[bill].amountPaid + b.payments[id].amount
  {
    assert PaymentOk(b.payments[id], GivenBack(b.refunds, id), id in b.applied);
    var back := GiveRestBack(b, id, staff);
    CaptureAfterWholeRefund(b, back, year, y);
    TwoTurns(b, Turn(back, x), Turn(Capture(id, year), y), b.payments[id].bill);
    PlainSteps(b, back, x);
    PlainSteps(DoGiveBack(b, back), Capture(id, year), y);
  }
}
