/** Exactly when each payment, refund or shift request goes through, and the row it
    writes. */
module LedgerRows {
  import opened Common
  import opened BillTotals
  import opened Ledger
  import Ops = BillOperations

  /** The user has this drawer open. */
  predicate Mans(shifts: seq<Shift>, s: nat, user: nat) {
    s < |shifts| && shifts[s].open && shifts[s].user == user
  }

  predicate HasDrawer(shifts: seq<Shift>, user: nat) {
    exists s :: 0 <= s < |shifts| && shifts[s].open && shifts[s].user == user
  }

  lemma DrawerIff(shifts: seq<Shift>, user: nat)
    ensures DrawerOf(shifts, user).Some? <==> HasDrawer(shifts, user)
    ensures DrawerOf(shifts, user).Some? ==> Mans(shifts, DrawerOf(shifts, user).value, user)
  {
  }

  // ---------- Payments ----------

  predicate MayPay(b: Books, bill: nat) {
    bill < |b.bills| && (b.bills[bill].status == Open || b.bills[bill].status == PartiallyPaid)
  }

  /** The row of a counter payment. */
  predicate CounterRow(b: Books, row: Payment, r: Request)
    requires r.PayAtCounter?
  {
    && row.bill == r.bill && row.amount == r.amount && row.tender == r.tender && row.status == Success && !row.gateway
    && (if row.shift.Some? then Mans(b.shifts, row.shift.value, r.staff) else !HasDrawer(b.shifts, r.staff))
  }

  predicate PaymentAdded(b: Books, after: Books) {
    |after.payments| == |b.payments| + 1 && after.payments[..|b.payments|] == b.payments
  }

  /** A counter payment goes through exactly on an open bill, for a positive amount,
      with a drawer or without needing one, unless the number it is due is too long;
      it then adds one standing payment row with its tender and drawer. */
  lemma CounterAdds(b: Books, r: Request, toRupee: bool)
    requires r.PayAtCounter?
    ensures var after := DoPayAtCounter(b, r, toRupee);
      if MayPay(b, r.bill) && r.amount > 0 && (r.needShift ==> HasDrawer(b.shifts, r.staff))
         && !Overflows(b, r.bill, r.amount, r.year, toRupee)
      then
        && PaymentAdded(b, after) && CounterRow(b, after.payments[|b.payments|], r)
        && after.refunds == b.refunds && after.shifts == b.shifts && after.orderKeys == b.orderKeys
      else after == b
  {
    DrawerIff(b.shifts, r.staff);
  }

  /** A gateway order goes through exactly on an open bill that still owes something,
      under a new key, unless the provider is not set up; it adds one row for what is
      missing, to be confirmed if the provider took the order and FAILED if not. */
  lemma OrderAdds(b: Books, r: Request)
    requires r.CreateOrder?
    ensures var after, n := DoCreateOrder(b, r), |b.payments|;
      if !(r.key != "" && r.key in b.orderKeys) && MayPay(b, r.bill)
         && b.bills[r.bill].amountPaid < b.bills[r.bill].totals.grand && r.provider != Unconfigured
      then
        && PaymentAdded(b, after)
        && after.payments[n] == Payment(r.bill, Online, if r.provider == Created then Pending else Failed,
             b.bills[r.bill].totals.grand - b.bills[r.bill].amountPaid, true, r.provider == Created, None)
        && after.orderKeys == (if r.provider == Created && r.key != "" then b.orderKeys[r.key := n] else b.orderKeys)
        && after == b.(payments := after.payments, orderKeys := after.orderKeys)
      else after == b
  {
  }

  predicate Awaits(b: Books, id: nat) {
    && id < |b.payments| && b.payments[id].gateway && b.payments[id].hasOrder && b.payments[id].status != Success
    && b.payments[id].bill < |b.bills|
  }

  predicate OnlyStatus(b: Books, after: Books, id: nat, status: PayStatus) {
    id < |b.payments| && after.payments == b.payments[id := b.payments[id].(status := status)]
  }

  /** The browser's confirmation: a bad signature only marks the payment FAILED, a
      good one makes it SUCCESS and lands its amount, unless the number is too long. */
  lemma VerifyWrites(b: Books, r: Request, toRupee: bool)
    requires r.Verify?
    ensures var after := DoVerify(b, r, toRupee);
      if !Awaits(b, r.payment) || !r.orderMatches then after == b
      else if !r.signed then OnlyStatus(b, after, r.payment, Failed) && after == b.(payments := after.payments)
      else if Overflows(b, b.payments[r.payment].bill, b.payments[r.payment].amount, r.year, toRupee) then after == b
      else
        && OnlyStatus(b, after, r.payment, Success)
        && after.refunds == b.refunds && after.shifts == b.shifts && after.orderKeys == b.orderKeys
        && after.bills[b.payments[r.payment].bill].amountPaid
             == b.bills[b.payments[r.payment].bill].amountPaid + b.payments[r.payment].amount
  {
  }

  /** The provider's: the same, whatever happens to the number. */
  lemma CaptureWrites(b: Books, r: Request, toRupee: bool)
    requires r.Capture?
    ensures var after := DoCapture(b, r, toRupee);
      if !Awaits(b, r.payment) then after == b
      else
        && OnlyStatus(b, after, r.payment, Success)
        && after.refunds == b.refunds && after.shifts == b.shifts && after.orderKeys == b.orderKeys
        && after.bills[b.payments[r.payment].bill].amountPaid
             == b.bills[b.payments[r.payment].bill].amountPaid + b.payments[r.payment].amount
  {
  }

  // ---------- Refunds ----------

  predicate CanGiveBack(b: Books, r: Request)
    requires r.GiveBack?
  {
    && r.allowed && r.payment < |b.payments| && b.payments[r.payment].status == Success
    && b.payments[r.payment].bill < |b.bills|
    && GivenBack(b.refunds, r.payment) + r.amount <= b.payments[r.payment].amount
    && (r.needShift ==> HasDrawer(b.shifts, r.staff))
  }

  /** The row a refund adds, and what else it writes. */
  predicate RefundAdded(b: Books, after: Books, r: Request)
    requires r.GiveBack? && r.payment < |b.payments|
  {
    var p, n := b.payments[r.payment], |b.refunds|;
    && |after.refunds| == n + 1 && after.refunds[..n] == b.refunds
    && after.refunds[n].bill == p.bill && after.refunds[n].payment == r.payment && after.refunds[n].amount == r.amount
    && after.refunds[n].tender == (if r.back.Some? then r.back.value else p.tender)
    && (if after.refunds[n].shift.Some? then Mans(b.shifts, after.refunds[n].shift.value, r.staff)
        else !HasDrawer(b.shifts, r.staff))
    && after.payments == (if GivenBack(b.refunds, r.payment) + r.amount == p.amount
                          then b.payments[r.payment := p.(status := Refunded)] else b.payments)
    && p.bill < |b.bills|
    && after.bills == b.bills[p.bill := b.bills[p.bill].(amountRefunded := b.bills[p.bill].amountRefunded + r.amount)]
    && after == b.(refunds := after.refunds, payments := after.payments, bills := after.bills, drawers := after.drawers)
  }

  /** A refund goes through exactly when refunds are on, the payment stands, that
      much of it is left, and the user has a drawer or needs none; it then adds one
      row, with the tender that was asked for. Else nothing happens. */
  lemma RefundAdds(b: Books, r: Request)
    requires r.GiveBack?
    ensures if CanGiveBack(b, r) then RefundAdded(b, DoGiveBack(b, r), r) else DoGiveBack(b, r) == b
  {
    DrawerIff(b.shifts, r.staff);
  }

  // ---------- Shifts ----------

  /** A shift opens exactly for a user with no drawer open, with the float counted in. */
  lemma OpenAdds(b: Books, r: Request)
    requires r.OpenShift?
    ensures var after, n := DoOpenShift(b, r), |b.shifts|;
      if HasDrawer(b.shifts, r.user) then after == b
      else
        && |after.shifts| == n + 1 && after.shifts[..n] == b.shifts
        && after.shifts[n].user == r.user && after.shifts[n].open && after.shifts[n].float == r.float
        && after == b.(shifts := after.shifts, drawers := b.drawers + [r.float])
  {
    DrawerIff(b.shifts, r.user);
  }
}
