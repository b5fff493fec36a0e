/** The payment ledger over whole serial runs: what each bill says was paid and
    refunded is what the payment and refund rows add up to. */
module LedgerMoney {
  import opened Common
  import opened BillTotals
  import opened InvoiceNumber
  import opened Ledger
  import opened LedgerBills
  import Ops = BillOperations

  /** Money ever applied to a bill: the amounts of its applied payments, one
      term for each application. */
  function PaidInto(payments: seq<Payment>, applied: seq<nat>, bill: nat): nat {
    if applied == [] then 0
    else
      var last := applied[|applied| - 1];
      PaidInto(payments, applied[..|applied| - 1], bill)
        + if last < |payments| && payments[last].bill == bill then payments[last].amount else 0
  }

  function RefundedFrom(refunds: seq<Refund>, bill: nat): nat {
    if refunds == [] then 0
    else
      var last := refunds[|refunds| - 1];
      RefundedFrom(refunds[..|refunds| - 1], bill) + if last.bill == bill then last.amount else 0
  }

  /** What the business still holds of a bill's applied payments among the first n,
      counting each payment once. */
  function StillHeld(payments: seq<Payment>, refunds: seq<Refund>, applied: seq<nat>, bill: nat, n: nat): int
    requires n <= |payments|
  {
    if n == 0 then 0
    else
      var p := payments[n - 1];
      StillHeld(payments, refunds, applied, bill, n - 1)
        + if p.bill == bill && n - 1 in applied then p.amount - GivenBack(refunds, n - 1) else 0
  }

  // ---------- The invariant ----------

  ghost predicate Rows(b: Books) {
    && (forall k :: 0 <= k < |b.applied| ==> b.applied[k] < |b.payments|)
    && (forall p :: 0 <= p < |b.payments| ==> b.payments[p].bill < |b.bills|)
    && (forall k :: 0 <= k < |b.refunds| ==>
      b.refunds[k].payment < |b.payments| && b.refunds[k].bill == b.payments[b.refunds[k].payment].bill)
  }

  predicate PaymentOk(p: Payment, given: nat, applied: bool) {
    && 0 < p.amount
    && given <= p.amount
    && (given > 0 ==> applied)
    && (p.status.Success? || p.status.Refunded? ==> applied)
    && (applied && !p.status.Success? ==> given == p.amount)
    && (!p.gateway ==> p.status.Success? || p.status.Refunded?)
  }

  ghost predicate PaymentsOk(payments: seq<Payment>, refunds: seq<Refund>, applied: seq<nat>) {
    forall p :: 0 <= p < |payments| ==> PaymentOk(payments[p], GivenBack(refunds, p), p in applied)
  }

  predicate BillSum(b: Books, i: nat)
    requires i < |b.bills|
  {
    && b.bills[i].amountPaid == PaidInto(b.payments, b.applied, i)
    && b.bills[i].amountRefunded == RefundedFrom(b.refunds, i)
    && b.bills[i].amountRefunded + StillHeld(b.payments, b.refunds, b.applied, i, |b.payments|) <= b.bills[i].amountPaid
  }

  ghost predicate BillSums(b: Books) {
    forall i :: 0 <= i < |b.bills| ==> BillSum(b, i)
  }

  ghost predicate MoneyOk(b: Books) {
    Rows(b) && PaymentsOk(b.payments, b.refunds, b.applied) && BillSums(b)
  }

  // ---------- How the sums move ----------

  lemma {:induction false} PaidIntoFrame(p: seq<Payment>, q: seq<Payment>, applied: seq<nat>, bill: nat)
    requires RowsKept(p, q) && forall k :: 0 <= k < |applied| ==> applied[k] < |p|
    ensures PaidInto(p, applied, bill) == PaidInto(q, applied, bill)
    decreases |applied|
  {
    if applied == [] {
    } else {
      PaidIntoFrame(p, q, applied[..|applied| - 1], bill);
    }
  }

  lemma PaidIntoAppend(payments: seq<Payment>, applied: seq<nat>, id: nat, bill: nat)
    requires id < |payments|
    ensures PaidInto(payments, applied + [id], bill)
      == PaidInto(payments, applied, bill) + if payments[id].bill == bill then payments[id].amount else 0
  {
  }

  lemma {:induction false} StillHeldFrame(
    p: seq<Payment>, q: seq<Payment>, refunds: seq<Refund>, applied: seq<nat>, bill: nat, n: nat)
    requires RowsKept(p, q) && n <= |p|
    ensures StillHeld(p, refunds, applied, bill, n) == StillHeld(q, refunds, applied, bill, n)
  {
    if n == 0 {
    } else {
      StillHeldFrame(p, q, refunds, applied, bill, n - 1);
    }
  }

  /** Applying a payment adds at most its amount. */
  lemma {:induction false} StillHeldApply(
    payments: seq<Payment>, refunds: seq<Refund>, applied: seq<nat>, id: nat, bill: nat, n: nat)
    requires n <= |payments| && id < |payments|
    ensures StillHeld(payments, refunds, applied + [id], bill, n)
      <= StillHeld(payments, refunds, applied, bill, n) + if id < n && payments[id].bill == bill then payments[id].amount else 0
  {
    if n == 0 {
    } else {
      StillHeldApply(payments, refunds, applied, id, bill, n - 1);
      assert n - 1 in applied + [id] <==> n - 1 in applied || n - 1 == id;
    }
  }

  lemma GivenBackAppend(refunds: seq<Refund>, r: Refund, p: nat)
    ensures GivenBack(refunds + [r], p) == GivenBack(refunds, p) + if r.payment == p then r.amount else 0
    ensures RefundedFrom(refunds + [r], p) == RefundedFrom(refunds, p) + if r.bill == p then r.amount else 0
  {
  }

  /** Handing money back takes exactly that much away. */
  lemma {:induction false} StillHeldRefund(
    payments: seq<Payment>, refunds: seq<Refund>, applied: seq<nat>, r: Refund, bill: nat, n: nat)
    requires n <= |payments| && r.payment < |payments| && r.payment in applied
    ensures StillHeld(payments, refunds + [r], applied, bill, n)
      == StillHeld(payments, refunds, applied, bill, n) - if r.payment < n && payments[r.payment].bill == bill then r.amount else 0
  {
    if n == 0 {
    } else {
      StillHeldRefund(payments, refunds, applied, r, bill, n - 1);
      GivenBackAppend(refunds, r, n - 1);
    }
  }

  lemma {:induction false} StillHeldNonNegative(
    payments: seq<Payment>, refunds: seq<Refund>, applied: seq<nat>, bill: nat, n: nat)
    requires PaymentsOk(payments, refunds, applied) && n <= |payments|
    ensures StillHeld(payments, refunds, applied, bill, n) >= 0
  {
    if n == 0 {
    } else {
      StillHeldNonNegative(payments, refunds, applied, bill, n - 1);
      assert PaymentOk(payments[n - 1], GivenBack(refunds, n - 1), n - 1 in applied);
    }
  }

  lemma {:induction false} NothingPaid(payments: seq<Payment>, applied: seq<nat>, bill: nat)
    requires forall p :: 0 <= p < |payments| ==> payments[p].bill != bill
    ensures PaidInto(payments, applied, bill) == 0
    decreases |applied|
  {
    if applied == [] {
    } else {
      NothingPaid(payments, applied[..|applied| - 1], bill);
    }
  }

  lemma {:induction false} NothingRefunded(refunds: seq<Refund>, bill: nat)
    requires forall k :: 0 <= k < |refunds| ==> refunds[k].bill != bill
    ensures RefundedFrom(refunds, bill) == 0
    decreases |refunds|
  {
    if refunds == [] {
    } else {
      NothingRefunded(refunds[..|refunds| - 1], bill);
    }
  }

  lemma {:induction false} NothingIntoNewBill(b: Books, bill: nat, n: nat)
    requires Rows(b) && bill >= |b.bills| && n <= |b.payments|
    ensures PaidInto(b.payments, b.applied, bill) == 0 && RefundedFrom(b.refunds, bill) == 0
    ensures StillHeld(b.payments, b.refunds, b.applied, bill, n) == 0
  {
    NothingPaid(b.payments, b.applied, bill);
    NothingRefunded(b.refunds, bill);
    if n == 0 {
    } else {
      NothingIntoNewBill(b, bill, n - 1);
    }
  }

  lemma {:induction false} NotRefundedYet(refunds: seq<Refund>, p: nat)
    requires forall k :: 0 <= k < |refunds| ==> refunds[k].payment != p
    ensures GivenBack(refunds, p) == 0
    decreases |refunds|
  {
    if refunds == [] {
    } else {
      NotRefundedYet(refunds[..|refunds| - 1], p);
    }
  }

  // ---------- The requests ----------

  predicate SameSums(a: seq<BillState>, b: seq<BillState>) {
    && |a| <= |b|
    && (forall i :: 0 <= i < |a| ==> b[i].amountPaid == a[i].amountPaid && b[i].amountRefunded == a[i].amountRefunded)
    && (forall i :: |a| <= i < |b| ==> b[i].amountPaid == 0 && b[i].amountRefunded == 0)
  }

  /** Requests that move no money. */
  lemma MoneyFrame(b: Books, after: Books)
    requires MoneyOk(b) && SameSums(b.bills, after.bills)
    requires after.payments == b.payments && after.refunds == b.refunds && after.applied == b.applied
    ensures MoneyOk(after)
  {
    forall i | 0 <= i < |after.bills|
      ensures BillSum(after, i)
    {
      if i < |b.bills| {
        assert BillSum(b, i);
      } else {
        NothingIntoNewBill(b, i, |b.payments|);
      }
    }
  }

  lemma EditKeepsMoney(b: BillState, r: Request, toRupee: bool)
    requires IsEdit(r)
    ensures Edit(b, r, toRupee).Done? ==> SameMoney(b, Edit(b, r, toRupee).bill)
  {
  }

  lemma OneBillKeepsSums(bills: seq<BillState>, i: nat, o: Ops.Outcome)
    requires i < |bills| && (o.Done? ==> SameMoney(bills[i], o.bill))
    ensures o.Done? ==> SameSums(bills, bills[i := o.bill])
  {
  }

  lemma EditKeepsSums(b: Books, r: Request, toRupee: bool)
    requires IsEdit(r)
    ensures SameSums(b.bills, DoEdit(b, r, toRupee).bills)
  {
    if r.bill < |b.bills| {
      EditKeepsMoney(b.bills[r.bill], r, toRupee);
      OneBillKeepsSums(b.bills, r.bill, Edit(b.bills[r.bill], r, toRupee));
    }
  }

  lemma GenerateKeepsSums(b: Books, r: Request, toRupee: bool)
    requires r.Generate?
    ensures SameSums(b.bills, DoGenerate(b, r, toRupee).bills)
  {
  }

  /** A new payment row that is not applied: a gateway order. */
  lemma AddedRowKeepsMoney(b: Books, p: Payment)
    requires MoneyOk(b) && p.bill < |b.bills| && 0 < p.amount && p.gateway && (p.status.Pending? || p.status.Failed?)
    ensures MoneyOk(b.(payments := b.payments + [p]))
  {
    var n, more := |b.payments|, b.payments + [p];
    NotRefundedYet(b.refunds, n);
    assert n !in b.applied;
    forall i | 0 <= i < |b.bills|
      ensures BillSum(b.(payments := more), i)
    {
      assert BillSum(b, i);
      PaidIntoFrame(b.payments, more, b.applied, i);
      StillHeldFrame(b.payments, more, b.refunds, b.applied, i, n);
    }
    forall k | 0 <= k < |more|
      ensures PaymentOk(more[k], GivenBack(b.refunds, k), k in b.applied)
    {
      if k < n {
        assert PaymentOk(b.payments[k], GivenBack(b.refunds, k), k in b.applied);
      }
    }
  }

  lemma OrderKeepsMoney(b: Books, r: Request)
    requires MoneyOk(b) && r.CreateOrder?
    ensures MoneyOk(DoCreateOrder(b, r))
  {
    var after := DoCreateOrder(b, r);
    if after != b {
      var p := after.payments[|b.payments|];
      AddedRowKeepsMoney(b, p);
      MoneyFrame(b.(payments := b.payments + [p]), after);
    }
  }

  /** A failed signature check, on a payment in any state but SUCCESS. */
  lemma FailingKeepsMoney(b: Books, id: nat)
    requires MoneyOk(b) && id < |b.payments| && b.payments[id].gateway && !b.payments[id].status.Success?
    ensures MoneyOk(b.(payments := SetStatus(b.payments, id, Failed)))
  {
    var rows := SetStatus(b.payments, id, Failed);
    forall i | 0 <= i < |b.bills|
      ensures BillSum(b.(payments := rows), i)
    {
      assert BillSum(b, i);
      PaidIntoFrame(b.payments, rows, b.applied, i);
      StillHeldFrame(b.payments, rows, b.refunds, b.applied, i, |rows|);
    }
    forall k | 0 <= k < |rows|
      ensures PaymentOk(rows[k], GivenBack(b.refunds, k), k in b.applied)
    {
      assert PaymentOk(b.payments[k], GivenBack(b.refunds, k), k in b.applied);
    }
  }

  /** The row an application is about, written as SUCCESS: new, or confirmed. */
  ghost predicate Arrives(before: Books, rows: seq<Payment>, id: nat) {
    && RowsKept(before.payments, rows) && id < |rows| && |rows| <= |before.payments| + 1
    && rows[id].status.Success? && rows[id].bill < |before.bills| && 0 < rows[id].amount
    && (forall k :: 0 <= k < |rows| && k != id ==> k < |before.payments| && rows[k] == before.payments[k])
  }

  lemma ApplyKeepsPayments(b: Books, rows: seq<Payment>, id: nat)
    requires MoneyOk(b) && Arrives(b, rows, id)
    ensures PaymentsOk(rows, b.refunds, b.applied + [id])
  {
    if id == |b.payments| {
      NotRefundedYet(b.refunds, id);
    } else {
      assert PaymentOk(b.payments[id], GivenBack(b.refunds, id), id in b.applied);
    }
    forall k | 0 <= k < |rows|
      ensures PaymentOk(rows[k], GivenBack(b.refunds, k), k in b.applied + [id])
    {
      if k != id {
        assert k < |b.payments| && rows[k] == b.payments[k];
        assert PaymentOk(b.payments[k], GivenBack(b.refunds, k), k in b.applied);
        assert k in b.applied + [id] <==> k in b.applied;
      }
    }
  }

  lemma NewRowHoldsNothing(b: Books, rows: seq<Payment>, i: nat)
    requires Rows(b) && RowsKept(b.payments, rows) && |rows| <= |b.payments| + 1
    ensures StillHeld(rows, b.refunds, b.applied, i, |rows|) == StillHeld(b.payments, b.refunds, b.applied, i, |b.payments|)
  {
    StillHeldFrame(b.payments, rows, b.refunds, b.applied, i, |b.payments|);
    assert |b.payments| !in b.applied;
  }

  lemma ApplyMovesSums(b: Books, rows: seq<Payment>, id: nat, i: nat)
    requires MoneyOk(b) && Arrives(b, rows, id) && i < |b.bills|
    ensures var gain := if rows[id].bill == i then rows[id].amount else 0;
      && PaidInto(rows, b.applied + [id], i) == PaidInto(b.payments, b.applied, i) + gain
      && StillHeld(rows, b.refunds, b.applied + [id], i, |rows|)
        <= StillHeld(b.payments, b.refunds, b.applied, i, |b.payments|) + gain
  {
    PaidIntoFrame(b.payments, rows, b.applied, i);
    PaidIntoAppend(rows, b.applied, id, i);
    StillHeldApply(rows, b.refunds, b.applied, id, i, |rows|);
    NewRowHoldsNothing(b, rows, i);
  }

  lemma LandAdds(b: Books, id: nat, amount: nat, year: Year, toRupee: bool)
    requires id < |b.bills|
    ensures forall i :: 0 <= i < |b.bills| ==>
      var after := Landed(b, id, amount, year, toRupee).bills[i];
      && after.amountPaid == b.bills[i].amountPaid + (if i == id then amount else 0)
      && after.amountRefunded == b.bills[i].amountRefunded
  {
  }

  lemma ApplyKeepsMoney(b: Books, taken: Books, id: nat, year: Year, toRupee: bool)
    requires MoneyOk(b) && Arrives(b, taken.payments, id)
    requires taken.bills == b.bills && taken.refunds == b.refunds && taken.applied == b.applied + [id]
    ensures MoneyOk(Landed(taken, taken.payments[id].bill, taken.payments[id].amount, year, toRupee))
  {
    var p := taken.payments[id];
    var after := Landed(taken, p.bill, p.amount, year, toRupee);
    ApplyKeepsPayments(b, taken.payments, id);
    LandAdds(taken, p.bill, p.amount, year, toRupee);
    forall i | 0 <= i < |b.bills|
      ensures BillSum(after, i)
    {
      assert BillSum(b, i);
      ApplyMovesSums(b, taken.payments, id, i);
    }
  }

  lemma GiveBackKeepsPayments(b: Books, after: Books, r: Refund)
    requires MoneyOk(b) && r.payment < |b.payments| && b.payments[r.payment].status.Success?
    requires GivenBack(b.refunds, r.payment) + r.amount <= b.payments[r.payment].amount
    requires after.refunds == b.refunds + [r] && after.applied == b.applied
    requires after.payments == if GivenBack(b.refunds, r.payment) + r.amount >= b.payments[r.payment].amount
      then SetStatus(b.payments, r.payment, Refunded) else b.payments
    ensures PaymentsOk(after.payments, after.refunds, after.applied)
    ensures r.payment in b.applied
  {
  }

  lemma GiveBackKeepsMoney(b: Books, r: Request)
    requires MoneyOk(b) && r.GiveBack?
    ensures MoneyOk(DoGiveBack(b, r))
  {
    var after := DoGiveBack(b, r);
    if after.refunds != b.refunds {
      var refund := after.refunds[|b.refunds|];
      assert after.refunds == b.refunds + [refund];
      GiveBackKeepsPayments(b, after, refund);
      forall i | 0 <= i < |b.bills|
        ensures BillSum(after, i)
      {
        assert BillSum(b, i);
        GivenBackAppend(b.refunds, refund, i);
        PaidIntoFrame(b.payments, after.payments, b.applied, i);
        StillHeldFrame(b.payments, after.payments, b.refunds, b.applied, i, |b.payments|);
        StillHeldRefund(after.payments, b.refunds, b.applied, refund, i, |b.payments|);
      }
    }
  }

  lemma ConfirmationKeepsMoney(b: Books, r: Request, toRupee: bool)
    requires MoneyOk(b) && (r.Verify? || r.Capture?)
    ensures MoneyOk(DoTakeMoney(b, r, toRupee))
  {
    if Confirmable(b, r.payment) {
      assert PaymentOk(b.payments[r.payment], GivenBack(b.refunds, r.payment), r.payment in b.applied);
      FailingKeepsMoney(b, r.payment);
      ApplyKeepsMoney(b, Confirmed(b, r.payment), r.payment, r.year, toRupee);
    }
  }

  lemma PaymentKeepsMoney(b: Books, r: Request, toRupee: bool)
    requires MoneyOk(b) && TakesMoney(r)
    ensures MoneyOk(DoTakeMoney(b, r, toRupee))
  {
    if r.PayAtCounter? {
      if r.bill < |b.bills| && r.amount > 0 {
        ApplyKeepsMoney(b, CounterTaken(b, r), |b.payments|, r.year, toRupee);
      }
    } else {
      ConfirmationKeepsMoney(b, r, toRupee);
    }
  }

  lemma ShiftKeepsMoney(b: Books, r: Request, toRupee: bool)
    requires MoneyOk(b) && (r.OpenShift? || r.CloseShift?)
    ensures MoneyOk(Step(b, r, toRupee))
  {
    MoneyFrame(b, Step(b, r, toRupee));
  }

  lemma StepKeepsMoney(b: Books, r: Request, toRupee: bool)
    requires MoneyOk(b)
    ensures MoneyOk(Step(b, r, toRupee))
  {
    if TakesMoney(r) {
      PaymentKeepsMoney(b, r, toRupee);
    } else if r.GiveBack? {
      GiveBackKeepsMoney(b, r);
    } else if r.CreateOrder? {
      OrderKeepsMoney(b, r);
    } else if IsEdit(r) {
      EditKeepsSums(b, r, toRupee);
      MoneyFrame(b, DoEdit(b, r, toRupee));
    } else if r.Generate? {
      GenerateKeepsSums(b, r, toRupee);
      MoneyFrame(b, DoGenerate(b, r, toRupee));
    } else {
      ShiftKeepsMoney(b, r, toRupee);
    }
  }

  // ---------- Whole runs ----------

  lemma PositiveFromOk(b: Books)
    requires MoneyOk(b)
    ensures PositivePayments(b.payments)
  {
  }

  lemma {:induction false} RunKeepsMoney(b: Books, run: seq<Turn>)
    requires MoneyOk(b)
    ensures MoneyOk(Exec(b, run))
    decreases |run|
  {
    if run == [] {
    } else {
      StepKeepsMoney(b, run[0].request, run[0].toRupee);
      RunKeepsMoney(After(b, run[0]), run[1..]);
    }
  }

  /** In every reachable state: a bill's paid column is the sum of the payments
      applied to it, its refunded column the sum of its refunds, which never
      exceeds it; refunds of one payment never exceed that payment, and a payment
      marked REFUNDED has been handed back whole. */
  lemma LedgerBalances(run: seq<Turn>)
    ensures var b := Exec(EMPTY, run);
      && (forall i :: 0 <= i < |b.bills| ==>
        && b.bills[i].amountPaid == PaidInto(b.payments, b.applied, i)
        && b.bills[i].amountRefunded == RefundedFrom(b.refunds, i)
        && b.bills[i].amountRefunded <= b.bills[i].amountPaid)
      && (forall p :: 0 <= p < |b.payments| ==>
        && GivenBack(b.refunds, p) <= b.payments[p].amount
        && (b.payments[p].status.Refunded? ==> GivenBack(b.refunds, p) == b.payments[p].amount)
        && (b.payments[p].status.Success? ==> p in b.applied))
  {
    RunKeepsMoney(EMPTY, run);
    var b := Exec(EMPTY, run);
    forall i | 0 <= i < |b.bills|
      ensures BillSum(b, i) && b.bills[i].amountRefunded <= b.bills[i].amountPaid
    {
      StillHeldNonNegative(b.payments, b.refunds, b.applied, i, |b.payments|);
    }
    forall p | 0 <= p < |b.payments|
      ensures PaymentOk(b.payments[p], GivenBack(b.refunds, p), p in b.applied)
    {
    }
  }

  // ---------- Gateway payments ----------

  predicate Confirms(r: Request, id: nat) { (r.Verify? || r.Capture?) && r.payment == id }

  /** Once a payment stands as SUCCESS, verifying or capturing it again, in any
      order and however often, changes nothing. */
  lemma {:induction false} ReconfirmIsNoOp(b: Books, id: nat, run: seq<Turn>)
    requires id < |b.payments| && b.payments[id].status.Success?
    requires forall i :: 0 <= i < |run| ==> Confirms(run[i].request, id)
    ensures Exec(b, run) == b
    decreases |run|
  {
    if run == [] {
    } else {
      assert Confirms(run[0].request, id) && !Confirmable(b, id);
      ReconfirmIsNoOp(b, id, run[1..]);
    }
  }

  lemma KeysStay(b: Books, r: Request, key: string, toRupee: bool)
    requires key != "" && key in b.orderKeys
    ensures key in Step(b, r, toRupee).orderKeys && Step(b, r, toRupee).orderKeys[key] == b.orderKeys[key]
  {
  }

  /** A gateway order's key stays with its payment: in no run does asking again
      under it, for whatever bill, create a second one. */
  lemma {:induction false} KeyedOrderOnce(b: Books, run: seq<Turn>, key: string, bill: nat, provider: Provider, toRupee: bool)
    requires key != "" && key in b.orderKeys
    ensures var end := Exec(b, run);
      && key in end.orderKeys && end.orderKeys[key] == b.orderKeys[key]
      && Step(end, CreateOrder(bill, provider, key), toRupee) == end
    decreases |run|
  {
    if run == [] {
    } else {
      KeysStay(b, run[0].request, key, run[0].toRupee);
      KeyedOrderOnce(After(b, run[0]), run[1..], key, bill, provider, toRupee);
    }
  }

  /** What a capture that brings the paid column to the asked total does: now is
      the total under the switch as it stands. */
  predicate SettlesWhenCovered(b: Books, after: Books, bill: nat, asked: nat, year: Year, toRupee: bool)
    requires bill < |b.bills|
  {
    var now, n := PriceOf(b.bills[bill], toRupee).totals.grand, LastNumber(b.counters, year) + 1;
    && bill < |after.bills|
    && after.bills[bill].amountPaid == asked && after.bills[bill].totals.grand == now
    && after.bills[bill].status == (if now <= asked then Paid else PartiallyPaid)
    && after.bills[bill].invoice == (if now <= asked && !TooLong(b.counters, year) then Some(InvoiceId(year, n)) else None)
    && after.counters == if now <= asked then b.counters[year := n] else b.counters
  }

  lemma OrderAsksRest(b: Books, bill: nat)
    requires bill < |b.bills| && !b.bills[bill].Closed() && b.bills[bill].amountPaid < b.bills[bill].totals.grand
    ensures var ordered, p := DoCreateOrder(b, CreateOrder(bill, Created, "")), |b.payments|;
      && ordered.bills == b.bills && ordered.counters == b.counters && Confirmable(ordered, p)
      && ordered.payments[p].bill == bill
      && ordered.payments[p].amount == b.bills[bill].totals.grand - b.bills[bill].amountPaid
  {
  }

  lemma LandOn(b: Books, id: nat, amount: nat, year: Year, toRupee: bool)
    requires id < |b.bills|
    ensures var after := Landed(b, id, amount, year, toRupee); var n := LastNumber(b.counters, year) + 1;
      var taken := Ops.TakePayment(b.bills[id], amount, toRupee);
      if Ops.NeedsNumber(b.bills[id], amount, toRupee)
      then after.bills[id] == taken.(invoice := if TooLong(b.counters, year) then None else Some(InvoiceId(year, n)))
           && after.counters == b.counters[year := n]
      else after.bills[id] == taken && after.counters == b.counters
  {
  }

  lemma PaidWhenCovered(b: BillState, amount: nat, toRupee: bool)
    requires BillOk(b) && !b.Closed() && 0 < amount
    ensures var after, now := Ops.TakePayment(b, amount, toRupee), PriceOf(b, toRupee).totals.grand;
      && after.amountPaid == b.amountPaid + amount && after.totals.grand == now && after.invoice.None?
      && after.status == (if now <= after.amountPaid then Paid else PartiallyPaid)
      && (Ops.NeedsNumber(b, amount, toRupee) <==> now <= after.amountPaid)
  {
  }

  lemma CaptureSettles(b: Books, id: nat, year: Year, toRupee: bool)
    requires AllBillsOk(b.bills) && Confirmable(b, id) && !b.bills[b.payments[id].bill].Closed()
    requires 0 < b.payments[id].amount
    ensures var bill := b.payments[id].bill;
      SettlesWhenCovered(b, DoCapture(b, Capture(id, year), toRupee), bill,
                         b.bills[bill].amountPaid + b.payments[id].amount, year, toRupee)
  {
    var bill, amount := b.payments[id].bill, b.payments[id].amount;
    PaidWhenCovered(b.bills[bill], amount, toRupee);
    LandOn(Confirmed(b, id), bill, amount, year, toRupee);
  }

  /** A gateway order asks for exactly what is missing. Captured next it brings the
      paid column to the asked total, and settles the bill exactly when the total
      under the switch of that moment is still covered; the bill then carries the
      next number, taken from the counter, exactly when that is not too long. */
  lemma OrderThenCaptureSettles(b: Books, bill: nat, year: Year, toRupee: bool)
    requires AllBillsOk(b.bills) && bill < |b.bills| && !b.bills[bill].Closed()
    requires b.bills[bill].amountPaid < b.bills[bill].totals.grand
    ensures var ordered := DoCreateOrder(b, CreateOrder(bill, Created, ""));
      var captured := DoCapture(ordered, Capture(|b.payments|, year), toRupee);
      SettlesWhenCovered(ordered, captured, bill, b.bills[bill].totals.grand, year, toRupee)
    ensures Derived(b.bills[bill], toRupee) ==> PriceOf(b.bills[bill], toRupee).totals.grand == b.bills[bill].totals.grand
  {
    OrderAsksRest(b, bill);
    CaptureSettles(DoCreateOrder(b, CreateOrder(bill, Created, "")), |b.payments|, year, toRupee);
  }
}
