/** The payment, invoice and shift services as they work: tables that are updated
    in place, with an explicit rollback where the request's transaction fails.
    Every method is proved to take the step the Ledger specification gives it. */
module TillService {
  import opened Common
  import opened BillTotals
  import opened InvoiceNumber
  import opened Ledger
  import opened BillService
  import Ops = BillOperations

  class Till {
    var bills: seq<BillState>
    var payments: seq<Payment>
    var refunds: seq<Refund>
    var shifts: seq<Shift>
    var counters: map<string, nat>
    var orderKeys: map<string, nat>
    ghost var applied: seq<nat>
    ghost var drawers: seq<int>

    ghost function State(): Books
      reads this
    {
      Books(bills, payments, refunds, shifts, counters, orderKeys, applied, drawers)
    }

    constructor ()
      ensures State() == EMPTY
    {
      bills, payments, refunds, shifts, counters, orderKeys := [], [], [], [], map[], map[];
      applied, drawers := [], [];
    }

    /** The next number of a series, or None when it would be too long. The row
        is created on first use. */
    method Allocate(year: Year) returns (number: Option<InvoiceId>)
      modifies `counters
      ensures var n := LastNumber(old(counters), year) + 1;
        && counters == old(counters)[year := n]
        && number == if TooLong(old(counters), year) then None else Some(InvoiceId(year, n))
    {
      if year !in counters {
        counters := counters[year := 0];
      }
      var last := counters[year] + 1;
      counters := counters[year := last];
      if |Format(SERIES, year, last)| > LONGEST {
        return None;
      }
      return Some(InvoiceId(year, last));
    }

    /** False when the number is too long: the request fails, with the bill written
        and the counter moved on, and its transaction is rolled back or not. */
    method RecordPaymentApplied(id: nat, amount: nat, year: Year, toRupee: bool) returns (ok: bool)
      requires id < |bills|
      modifies `bills, `counters
      ensures State() == Landed(old(State()), id, amount, year, toRupee)
      ensures ok <==> !Overflows(old(State()), id, amount, year, toRupee)
    {
      var row := new Bill.Load(bills[id]);
      var unnumbered := row.TakePayment(amount, toRupee);
      bills := bills[id := row.State()];
      if unnumbered {
        var number := Allocate(year);
        if number.None? {
          return false;
        }
        row.Finalise(number.value);
      }
      bills := bills[id := row.State()];
      return true;
    }

    /** The user's open drawer, the latest first. */
    method FindDrawer(user: nat) returns (drawer: Option<nat>)
      ensures drawer == DrawerOf(shifts, user)
    {
      var n := |shifts|;
      assert shifts[..n] == shifts;
      while n > 0
        invariant 0 <= n <= |shifts| && DrawerOf(shifts, user) == DrawerOf(shifts[..n], user)
      {
        assert shifts[..n][..n - 1] == shifts[..n - 1];
        if shifts[n - 1].user == user && shifts[n - 1].open {
          return Some(n - 1);
        }
        n := n - 1;
      }
      return None;
    }

    /** What was handed back against one payment so far. */
    method SumRefunds(payment: nat) returns (total: nat)
      ensures total == GivenBack(refunds, payment)
    {
      total := 0;
      for i := 0 to |refunds|
        invariant total == GivenBack(refunds[..i], payment)
      {
        assert refunds[..i + 1][..i] == refunds[..i];
        if refunds[i].payment == payment {
          total := total + refunds[i].amount;
        }
      }
      assert refunds[..|refunds|] == refunds;
    }

    /** The end of a payment transaction: the money lands, or everything is undone. */
    method LandOrRollBack(id: nat, amount: nat, year: Year, rows: seq<Payment>, ghost was: Books, toRupee: bool)
      returns (ok: bool)
      requires id < |bills|
      requires was == State().(payments := rows, applied := was.applied, drawers := was.drawers)
      modifies this
      ensures State() == OrElse(Land(old(State()), id, amount, year, toRupee), was)
      ensures ok <==> Land(old(State()), id, amount, year, toRupee).Some?
    {
      var oldBills, oldCounters := bills, counters;
      ok := RecordPaymentApplied(id, amount, year, toRupee);
      if !ok {
        bills, payments, counters := oldBills, rows, oldCounters;
        applied, drawers := was.applied, was.drawers;
      }
    }

    /** Writes the row of a payment that is about to be applied. */
    method AddPayment(p: Payment)
      modifies `payments, `applied, `drawers
      ensures payments == old(payments) + [p] && applied == old(applied) + [|old(payments)|]
      ensures drawers == MoveCash(old(drawers), p.shift, p.tender, p.amount)
    {
      applied := applied + [|payments|];
      drawers := MoveCash(drawers, p.shift, p.tender, p.amount);
      payments := payments + [p];
    }

    method RecordCashPayment(bill: nat, amount: nat, tender: Tender, staff: nat, needShift: bool, year: Year, toRupee: bool)
      returns (ok: bool)
      modifies this
      ensures State() == DoPayAtCounter(old(State()), PayAtCounter(bill, amount, tender, staff, needShift, year), toRupee)
    {
      if bill >= |bills| || bills[bill].status.Paid? || bills[bill].status.Cancelled? || amount == 0 {
        return false;
      }
      var drawer := FindDrawer(staff);
      if drawer.None? && needShift {
        return false;
      }
      var rows := payments;
      ghost var was := State();
      AddPayment(Payment(bill, tender, Success, amount, false, false, drawer));
      ok := LandOrRollBack(bill, amount, year, rows, was, toRupee);
    }

    method CreateGatewayOrder(bill: nat, provider: Provider, key: string) returns (payment: Option<nat>)
      modifies this
      ensures State() == DoCreateOrder(old(State()), CreateOrder(bill, provider, key))
      ensures key != "" && key in old(orderKeys) ==> payment == Some(old(orderKeys)[key])
      ensures !(key != "" && key in old(orderKeys)) ==>
        payment == if |payments| > |old(payments)| && provider.Created? then Some(|old(payments)|) else None
    {
      if key != "" && key in orderKeys {
        return Some(orderKeys[key]);
      }
      if bill >= |bills| || bills[bill].status.Paid? || bills[bill].status.Cancelled? {
        return None;
      }
      var remaining := bills[bill].totals.grand - bills[bill].amountPaid;
      if remaining <= 0 || provider.Unconfigured? {
        return None;
      }
      payments := payments + [Payment(bill, Online, Pending, remaining, true, false, None)];
      var id := |payments| - 1;
      if provider.Errored? {
        payments := payments[id := payments[id].(status := Failed)];
        return None;
      }
      payments := payments[id := payments[id].(hasOrder := true)];
      if key != "" {
        orderKeys := orderKeys[key := id];
      }
      return Some(id);
    }

    /** A payment that the guest's browser confirms becomes SUCCESS and lands on its bill. */
    method ConfirmPayment(id: nat, year: Year, toRupee: bool) returns (ok: bool)
      requires Confirmable(State(), id)
      modifies this
      ensures State() == OrElse(Confirm(old(State()), id, year, toRupee), old(State()))
    {
      var rows := payments;
      ghost var was := State();
      payments := payments[id := payments[id].(status := Success)];
      applied := applied + [id];
      ok := LandOrRollBack(payments[id].bill, payments[id].amount, year, rows, was, toRupee);
    }

    method VerifyPayment(id: nat, orderMatches: bool, signed: bool, year: Year, toRupee: bool) returns (ok: bool)
      requires forall p :: 0 <= p < |payments| ==> payments[p].bill < |bills|
      modifies this
      ensures State() == DoVerify(old(State()), Verify(id, orderMatches, signed, year), toRupee)
    {
      if id >= |payments| || !payments[id].gateway {
        return false;
      }
      if payments[id].status.Success? {
        return true;
      }
      if !payments[id].hasOrder || !orderMatches {
        return false;
      }
      if !signed {
        payments := payments[id := payments[id].(status := Failed)];
        return false;
      }
      ok := ConfirmPayment(id, year, toRupee);
    }

    /** Whatever goes wrong is committed too. */
    method CaptureWebhook(id: nat, year: Year, toRupee: bool) returns (ok: bool)
      requires forall p :: 0 <= p < |payments| ==> payments[p].bill < |bills|
      modifies this
      ensures State() == DoCapture(old(State()), Capture(id, year), toRupee)
    {
      if id >= |payments| || !payments[id].gateway || !payments[id].hasOrder || payments[id].status.Success? {
        return true;
      }
      payments := payments[id := payments[id].(status := Success)];
      applied := applied + [id];
      ok := RecordPaymentApplied(payments[id].bill, payments[id].amount, year, toRupee);
    }

    method RefundPayment(id: nat, amount: nat, back: Option<Tender>, staff: nat, allowed: bool, needShift: bool)
      returns (ok: bool)
      requires forall p :: 0 <= p < |payments| ==> payments[p].bill < |bills|
      modifies this
      ensures State() == DoGiveBack(old(State()), GiveBack(id, amount, back, staff, allowed, needShift))
    {
      if !allowed || id >= |payments| || !payments[id].status.Success? {
        return false;
      }
      var already := SumRefunds(id);
      var remaining := payments[id].amount - already;
      if amount > remaining {
        return false;
      }
      var drawer := FindDrawer(staff);
      if drawer.None? && needShift {
        return false;
      }
      var p := payments[id];
      var tender := if back.Some? then back.value else p.tender;
      refunds := refunds + [Refund(p.bill, id, amount, tender, drawer)];
      drawers := MoveCash(drawers, drawer, tender, -(amount as int));
      if already + amount >= p.amount {
        payments := payments[id := p.(status := Refunded)];
      }
      bills := bills[p.bill := bills[p.bill].(amountRefunded := bills[p.bill].amountRefunded + amount)];
      return true;
    }

    method StartShift(user: nat, float: nat) returns (shift: Option<nat>)
      modifies this
      ensures State() == DoOpenShift(old(State()), OpenShift(user, float))
    {
      var drawer := FindDrawer(user);
      if drawer.Some? {
        return None;
      }
      shifts := shifts + [Shift(user, true, float, 0, 0, 0)];
      drawers := drawers + [float];
      return Some(|shifts| - 1);
    }

    /** Sums the drawer's rows, as the two queries of the shift service do. */
    method CashMovement(shift: nat) returns (taken: nat, returned: nat)
      ensures taken == CashIn(payments, shift, Standing) && returned == CashOut(refunds, shift)
    {
      taken, returned := 0, 0;
      for i := 0 to |payments|
        invariant taken == CashIn(payments[..i], shift, Standing)
      {
        assert payments[..i + 1][..i] == payments[..i];
        if payments[i].shift == Some(shift) && payments[i].status.Success? && payments[i].tender.Cash? {
          taken := taken + payments[i].amount;
        }
      }
      for i := 0 to |refunds|
        invariant returned == CashOut(refunds[..i], shift)
      {
        assert refunds[..i + 1][..i] == refunds[..i];
        if refunds[i].shift == Some(shift) && refunds[i].tender.Cash? {
          returned := returned + refunds[i].amount;
        }
      }
      assert payments[..|payments|] == payments && refunds[..|refunds|] == refunds;
    }

    method EndShift(shift: nat, declared: nat) returns (ok: bool)
      modifies this
      ensures State() == DoCloseShift(old(State()), CloseShift(shift, declared))
    {
      if shift >= |shifts| || !shifts[shift].open {
        return false;
      }
      var taken, returned := CashMovement(shift);
      var expected := shifts[shift].float + taken - returned;
      shifts := shifts[shift := shifts[shift].(
        open := false, declared := declared, expected := expected, variance := declared - expected)];
      return true;
    }
  }
}
