/** The cash drawer equation over whole serial runs: what a shift is expected to
    hold against what is physically in its drawer. */
module LedgerDrawer {
  import opened Common
  import opened Ledger
  import opened LedgerBills
  import opened LedgerMoney

  // ---------- The invariant ----------

  ghost predicate ShiftRows(b: Books) {
    && |b.drawers| == |b.shifts|
    && (forall p :: 0 <= p < |b.payments| && b.payments[p].shift.Some? ==>
      b.payments[p].shift.value < |b.shifts| && !b.payments[p].gateway)
    && (forall k :: 0 <= k < |b.refunds| && b.refunds[k].shift.Some? ==> b.refunds[k].shift.value < |b.shifts|)
  }

  /** The drawer holds its float, plus the cash recorded on it, minus the cash
      refunds paid from it. */
  predicate Balanced(b: Books, s: nat)
    requires s < |b.shifts| == |b.drawers|
  {
    b.drawers[s] == b.shifts[s].float + CashIn(b.payments, s, Recorded) - CashOut(b.refunds, s)
  }

  ghost predicate DrawersOk(b: Books) {
    && ShiftRows(b)
    && (forall s :: 0 <= s < |b.shifts| ==> Balanced(b, s))
    && (forall s, t :: 0 <= s < t < |b.shifts| && b.shifts[s].open && b.shifts[t].open ==> b.shifts[s].user != b.shifts[t].user)
  }

  // ---------- How the sums move ----------

  lemma {:induction false} CashInFrame(p: seq<Payment>, q: seq<Payment>, s: nat)
    requires RowsKept(p, q) && |p| == |q|
    ensures CashIn(p, s, Recorded) == CashIn(q, s, Recorded)
    decreases |p|
  {
    if p == [] {
    } else {
      CashInFrame(p[..|p| - 1], q[..|q| - 1], s);
    }
  }

  lemma CashInAppend(payments: seq<Payment>, p: Payment, s: nat)
    ensures CashIn(payments + [p], s, Recorded) == CashIn(payments, s, Recorded) + if Counts(p, s, Recorded) then p.amount else 0
  {
  }

  lemma CashOutAppend(refunds: seq<Refund>, r: Refund, s: nat)
    ensures CashOut(refunds + [r], s) == CashOut(refunds, s) + if r.tender.Cash? && r.shift == Some(s) then r.amount else 0
  {
  }

  lemma {:induction false} NoCashYet(payments: seq<Payment>, refunds: seq<Refund>, s: nat)
    requires forall p :: 0 <= p < |payments| ==> payments[p].shift != Some(s)
    requires forall k :: 0 <= k < |refunds| ==> refunds[k].shift != Some(s)
    ensures CashIn(payments, s, Recorded) == 0 && CashOut(refunds, s) == 0
    decreases |payments| + |refunds|
  {
    if payments == [] {
    } else {
      NoCashYet(payments[..|payments| - 1], refunds, s);
    }
    if refunds == [] {
    } else {
      NoCashYet(payments, refunds[..|refunds| - 1], s);
    }
  }

  // ---------- The requests ----------

  /** Requests that touch no drawer. */
  lemma DrawerFrame(b: Books, after: Books)
    requires DrawersOk(b) && RowsKept(b.payments, after.payments) && |after.payments| == |b.payments|
    requires after.refunds == b.refunds && after.shifts == b.shifts && after.drawers == b.drawers
    ensures DrawersOk(after)
  {
    forall s | 0 <= s < |b.shifts|
      ensures Balanced(after, s)
    {
      assert Balanced(b, s);
      CashInFrame(b.payments, after.payments, s);
    }
  }

  /** A new payment row: counter cash goes into the drawer, a gateway order into none. */
  lemma NewRowKeepsDrawers(b: Books, p: Payment)
    requires DrawersOk(b)
    requires p.shift.Some? ==> p.shift.value < |b.shifts| && !p.gateway
    ensures DrawersOk(b.(payments := b.payments + [p], drawers := MoveCash(b.drawers, p.shift, p.tender, p.amount)))
  {
    var after := b.(payments := b.payments + [p], drawers := MoveCash(b.drawers, p.shift, p.tender, p.amount));
    forall s | 0 <= s < |b.shifts|
      ensures Balanced(after, s)
    {
      assert Balanced(b, s);
      CashInAppend(b.payments, p, s);
    }
  }

  lemma RefundKeepsDrawers(b: Books, r: Refund)
    requires DrawersOk(b) && (r.shift.Some? ==> r.shift.value < |b.shifts|)
    ensures DrawersOk(b.(refunds := b.refunds + [r], drawers := MoveCash(b.drawers, r.shift, r.tender, -(r.amount as int))))
  {
    var after := b.(refunds := b.refunds + [r], drawers := MoveCash(b.drawers, r.shift, r.tender, -(r.amount as int)));
    forall s | 0 <= s < |b.shifts|
      ensures Balanced(after, s)
    {
      assert Balanced(b, s);
      CashOutAppend(b.refunds, r, s);
    }
  }

  lemma OpenKeepsDrawers(b: Books, r: Request)
    requires DrawersOk(b) && r.OpenShift?
    ensures DrawersOk(DoOpenShift(b, r))
  {
    var after := DoOpenShift(b, r);
    if after != b {
      NoCashYet(b.payments, b.refunds, |b.shifts|);
      forall s | 0 <= s < |after.shifts|
        ensures Balanced(after, s)
      {
        assert s < |b.shifts| ==> Balanced(b, s);
      }
    }
  }

  lemma CloseKeepsDrawers(b: Books, r: Request)
    requires DrawersOk(b) && r.CloseShift?
    ensures DrawersOk(DoCloseShift(b, r))
  {
    forall s | 0 <= s < |b.shifts|
      ensures Balanced(DoCloseShift(b, r), s)
    {
      assert Balanced(b, s);
    }
  }

  lemma CounterKeepsDrawers(b: Books, r: Request)
    requires DrawersOk(b) && r.PayAtCounter?
    ensures DrawersOk(CounterTaken(b, r))
  {
    var p := Payment(r.bill, r.tender, Success, r.amount, false, false, DrawerOf(b.shifts, r.staff));
    NewRowKeepsDrawers(b, p);
    var written := b.(payments := b.payments + [p], drawers := MoveCash(b.drawers, p.shift, p.tender, p.amount));
    DrawerFrame(written, CounterTaken(b, r));
  }

  lemma PaymentKeepsDrawers(b: Books, r: Request, toRupee: bool)
    requires DrawersOk(b) && TakesMoney(r)
    ensures DrawersOk(DoTakeMoney(b, r, toRupee))
  {
    if r.PayAtCounter? {
      CounterKeepsDrawers(b, r);
      if DoTakeMoney(b, r, toRupee) != b {
        DrawerFrame(CounterTaken(b, r), DoTakeMoney(b, r, toRupee));
      }
    } else {
      DrawerFrame(b, DoTakeMoney(b, r, toRupee));
    }
  }

  lemma GiveBackKeepsDrawers(b: Books, r: Request)
    requires DrawersOk(b) && r.GiveBack?
    ensures DrawersOk(DoGiveBack(b, r))
  {
    var after := DoGiveBack(b, r);
    if after.refunds != b.refunds {
      var refund := after.refunds[|b.refunds|];
      RefundKeepsDrawers(b, refund);
      DrawerFrame(b.(refunds := after.refunds, drawers := after.drawers), after);
    }
  }

  lemma OrderKeepsDrawers(b: Books, r: Request)
    requires DrawersOk(b) && r.CreateOrder?
    ensures DrawersOk(DoCreateOrder(b, r))
  {
    var after := DoCreateOrder(b, r);
    if after != b {
      var p := after.payments[|b.payments|];
      NewRowKeepsDrawers(b, p);
      DrawerFrame(b.(payments := b.payments + [p]), after);
    }
  }

  lemma StepKeepsDrawers(b: Books, r: Request, toRupee: bool)
    requires DrawersOk(b)
    ensures DrawersOk(Step(b, r, toRupee))
  {
    if TakesMoney(r) {
      PaymentKeepsDrawers(b, r, toRupee);
    } else if r.GiveBack? {
      GiveBackKeepsDrawers(b, r);
    } else if r.OpenShift? {
      OpenKeepsDrawers(b, r);
    } else if r.CloseShift? {
      CloseKeepsDrawers(b, r);
    } else if r.CreateOrder? {
      OrderKeepsDrawers(b, r);
    } else {
      DrawerFrame(b, Step(b, r, toRupee));
    }
  }

  lemma {:induction false} RunKeepsDrawers(b: Books, run: seq<Turn>)
    requires DrawersOk(b)
    ensures DrawersOk(Exec(b, run))
    decreases |run|
  {
    if run == [] {
    } else {
      StepKeepsDrawers(b, run[0].request, run[0].toRupee);
      RunKeepsDrawers(After(b, run[0]), run[1..]);
    }
  }

  // ---------- The drawer equation ----------

  /** A drawer's recorded cash is what still stands plus what was handed back whole. */
  lemma {:induction false} RecordedSplits(payments: seq<Payment>, s: nat)
    requires forall p :: 0 <= p < |payments| && payments[p].shift.Some? ==>
      payments[p].status.Success? || payments[p].status.Refunded?
    ensures CashIn(payments, s, Recorded) == CashIn(payments, s, Standing) + CashIn(payments, s, Returned)
    decreases |payments|
  {
    if payments == [] {
    } else {
      RecordedSplits(payments[..|payments| - 1], s);
    }
  }

  lemma {:induction false} ReturnedZeroIff(payments: seq<Payment>, s: nat)
    requires PositivePayments(payments)
    ensures CashIn(payments, s, Returned) == 0 <==> forall p :: 0 <= p < |payments| ==> !Counts(payments[p], s, Returned)
    decreases |payments|
  {
    if payments == [] {
    } else {
      var rest := payments[..|payments| - 1];
      ReturnedZeroIff(rest, s);
      assert forall p :: 0 <= p < |rest| ==> rest[p] == payments[p];
    }
  }

  /** In every reachable state the expected figure is the physical cash less the
      drawer's cash payments that were since refunded in full, and so is right
      exactly when there are none; and nobody has two drawers open. */
  lemma DrawerEquation(run: seq<Turn>)
    ensures var b := Exec(EMPTY, run);
      && |b.drawers| == |b.shifts|
      && (forall s :: 0 <= s < |b.shifts| ==>
        && ExpectedCash(b, s) == b.drawers[s] - CashIn(b.payments, s, Returned)
        && (ExpectedCash(b, s) == b.drawers[s] <==>
            forall p :: 0 <= p < |b.payments| ==> !Counts(b.payments[p], s, Returned)))
      && (forall s, t :: 0 <= s < t < |b.shifts| && b.shifts[s].open && b.shifts[t].open ==> b.shifts[s].user != b.shifts[t].user)
  {
    RunKeepsMoney(EMPTY, run);
    RunKeepsDrawers(EMPTY, run);
    var b := Exec(EMPTY, run);
    PositiveFromOk(b);
    forall p | 0 <= p < |b.payments| && b.payments[p].shift.Some?
      ensures b.payments[p].status.Success? || b.payments[p].status.Refunded?
    {
      assert PaymentOk(b.payments[p], GivenBack(b.refunds, p), p in b.applied);
    }
    forall s | 0 <= s < |b.shifts|
      ensures Balanced(b, s)
      ensures CashIn(b.payments, s, Recorded) == CashIn(b.payments, s, Standing) + CashIn(b.payments, s, Returned)
      ensures CashIn(b.payments, s, Returned) == 0 <==> forall p :: 0 <= p < |b.payments| ==> !Counts(b.payments[p], s, Returned)
    {
      RecordedSplits(b.payments, s);
      ReturnedZeroIff(b.payments, s);
    }
  }

  // ---------- Closed drawers ----------

  predicate ClosedFrozen(b: Books, after: Books) {
    && |b.shifts| <= |after.shifts| && |b.drawers| <= |after.drawers|
    && (forall s :: 0 <= s < |b.shifts| && !b.shifts[s].open ==> after.shifts[s] == b.shifts[s])
    && (forall s :: 0 <= s < |b.shifts| && s < |b.drawers| && !b.shifts[s].open ==> after.drawers[s] == b.drawers[s])
  }

  lemma MoneyFreezesClosed(b: Books, r: Request, toRupee: bool)
    requires DrawersOk(b) && TakesMoney(r)
    ensures ClosedFrozen(b, DoTakeMoney(b, r, toRupee))
  {
    if r.PayAtCounter? {
      var after := DoPayAtCounter(b, r, toRupee);
      assert after.drawers == b.drawers || after.drawers == CounterTaken(b, r).drawers;
    }
  }

  lemma StepFreezesClosed(b: Books, r: Request, toRupee: bool)
    requires DrawersOk(b)
    ensures ClosedFrozen(b, Step(b, r, toRupee))
  {
    if TakesMoney(r) {
      MoneyFreezesClosed(b, r, toRupee);
    }
  }

  /** A closed shift's figures never change again, and no cash enters or leaves
      its drawer. */
  lemma {:induction false} ClosedShiftsFrozen(b: Books, run: seq<Turn>)
    requires DrawersOk(b)
    ensures ClosedFrozen(b, Exec(b, run))
    decreases |run|
  {
    if run == [] {
    } else {
      StepFreezesClosed(b, run[0].request, run[0].toRupee);
      StepKeepsDrawers(b, run[0].request, run[0].toRupee);
      ClosedShiftsFrozen(After(b, run[0]), run[1..]);
    }
  }
}
