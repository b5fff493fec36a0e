/** The order and ticket services, updating their tables in place. */
module KitchenService {
  import opened Common
  import opened Kitchen
  import Bills = BillTotals

  class Floor {
    var sessions: seq<Session>
    var orders: seq<Order>
    var lines: seq<nat>
    var kots: seq<Kot>
    var bills: seq<Bill>

    function Rows(): State
      reads this
    {
      State(sessions, orders, lines, kots, bills)
    }

    constructor ()
      ensures Rows() == EMPTY
    {
      sessions, orders, lines, kots, bills := [], [], [], [], [];
    }

    /** A ticket with one line per item of the order, in item order. */
    method CreateKot(order: nat)
      requires order < |orders|
      modifies `kots
      ensures kots == old(kots) + [Ticket(old(Rows()), order)]
    {
      var ticketLines: seq<nat> := [];
      for i := 0 to |lines|
        invariant ticketLines + LinesOf(lines, order, i) == LinesOf(lines, order, 0)
      {
        if lines[i] == order {
          assert ticketLines + LinesOf(lines, order, i) == ticketLines + [i] + LinesOf(lines, order, i + 1);
          ticketLines := ticketLines + [i];
        }
      }
      assert ticketLines + [] == ticketLines;
      kots := kots + [Kot(order, ticketLines, New, orders[order].place)];
    }

    method FindKot(order: nat) returns (found: bool)
      ensures found <==> HasKot(kots, order)
    {
      for k := 0 to |kots|
        invariant forall j :: 0 <= j < k ==> kots[j].order != order
      {
        if kots[k].order == order {
          return true;
        }
      }
      return false;
    }

    /** Fires a ticket for every live order of the session that has none. */
    method ReleaseHeldKots(session: nat)
      modifies `kots
      ensures kots == Released(old(Rows()), session, |orders|)
    {
      ghost var s := Rows();
      for o := 0 to |orders|
        invariant kots == Released(s, session, o)
      {
        if orders[o].session == session && !orders[o].status.Cancelled? {
          var found := FindKot(o);
          if !found {
            CreateKot(o);
          }
        }
      }
    }

    method FindOpenSession(place: nat) returns (at: nat)
      ensures at == OpenSession(sessions, place, 0)
    {
      at := 0;
      while at < |sessions| && !(!sessions[at].closed && sessions[at].place == Some(place))
        invariant at <= |sessions|
        invariant OpenSession(sessions, place, 0) == OpenSession(sessions, place, at)
      {
        at := at + 1;
      }
    }

    /** The order joins the place's open session or starts one; its ticket is
        fired at once unless it is held. */
    method CreateOrder(place: Option<nat>, persistent: bool, count: nat, hold: bool, delivered: bool)
      modifies this
      ensures Rows() == DoCreate(old(Rows()), place, persistent, count, hold, delivered)
    {
      var at := |sessions|;
      if place.Some? && persistent {
        at := FindOpenSession(place.value);
      }
      if at == |sessions| {
        sessions := sessions + [Session(place, false)];
      }
      var id := |orders|;
      var delivery := if delivered then Some(DeliveryStatus.Placed) else None;
      orders := orders + [Order(at, place, OrderStatus.Placed, hold, delivery)];
      ghost var was := lines;
      for i := 0 to count
        invariant lines == was + seq(i, _ => id)
        modifies `lines
      {
        lines := lines + [id];
        assert seq(i + 1, _ => id) == seq(i, _ => id) + [id];
      }
      if !hold {
        CreateKot(id);
      }
    }

    method CancelOrder(order: nat) returns (ok: bool)
      modifies `orders
      ensures Rows() == DoCancel(old(Rows()), order)
      ensures ok ==> order < |orders| && orders[order].status.Cancelled?
      ensures !ok ==> Rows() == old(Rows())
    {
      if order >= |orders| {
        return false;
      }
      var status := orders[order].status;
      if status.Served? || status.Delivered? || status.Completed? {
        return false;
      }
      orders := orders[order := orders[order].(status := OrderStatus.Cancelled)];
      return true;
    }

    method UpdateKotStatus(kot: nat, status: KotStatus) returns (ok: bool)
      modifies `kots, `orders
      ensures Rows() == DoUpdateKot(old(Rows()), kot, status)
      ensures ok <==> kot < |old(kots)| && Allowed(old(kots)[kot].status, status)
    {
      if kot >= |kots| || !Allowed(kots[kot].status, status) {
        return false;
      }
      kots := kots[kot := kots[kot].(status := status)];
      var order := kots[kot].order;
      if order < |orders| {
        orders := orders[order := orders[order].(status := FromKot(status))];
      }
      return true;
    }

    method HasBill(session: nat) returns (found: bool)
      ensures found <==> Billed(Rows(), session)
    {
      for b := 0 to |bills|
        invariant forall c :: 0 <= c < b ==> bills[c].session != session
      {
        if bills[b].session == session {
          return true;
        }
      }
      return false;
    }

    /** The tickets still in the kitchen follow the orders about to move. */
    method RedirectKots(from: nat, place: Option<nat>)
      modifies `kots
      ensures kots == MoveAll(old(Rows()), from, from, place).kots
    {
      for k := 0 to |kots|
        invariant |kots| == |old(kots)|
        invariant forall j :: 0 <= j < k ==> kots[j] == MovedKot(old(Rows()), old(kots)[j], from, place)
        invariant forall j :: k <= j < |kots| ==> kots[j] == old(kots)[j]
      {
        var ticket := kots[k];
        if ticket.order < |orders| && orders[ticket.order].session == from && !orders[ticket.order].status.Cancelled?
           && !ticket.status.Served? && !ticket.status.Cancelled? {
          kots := kots[k := ticket.(place := place)];
        }
      }
    }

    method MoveOrders(from: nat, into: nat, place: Option<nat>)
      modifies `orders
      ensures orders == MoveAll(old(Rows()), from, into, place).orders
    {
      for o := 0 to |orders|
        invariant |orders| == |old(orders)|
        invariant forall j :: 0 <= j < o ==> orders[j] == Moved(old(orders)[j], from, into, place)
        invariant forall j :: o <= j < |orders| ==> orders[j] == old(orders)[j]
      {
        if orders[o].session == from && !orders[o].status.Cancelled? {
          orders := orders[o := orders[o].(session := into, place := place)];
        }
      }
    }

    method TransferSession(session: nat, place: nat, available: bool) returns (ok: bool)
      modifies this
      ensures ok <==> CanTransfer(old(Rows()), session, place, available)
      ensures Rows() == DoTransfer(old(Rows()), session, place, available)
    {
      if session >= |sessions| || sessions[session].closed || sessions[session].place.None? {
        return false;
      }
      if sessions[session].place.value == place || !available {
        return false;
      }
      var billed := HasBill(session);
      if billed {
        return false;
      }
      RedirectKots(session, Some(place));
      MoveOrders(session, session, Some(place));
      sessions := sessions[session := sessions[session].(place := Some(place))];
      return true;
    }

    method MergeSessions(from: nat, into: nat) returns (ok: bool)
      modifies this
      ensures ok <==> CanMerge(old(Rows()), from, into)
      ensures Rows() == DoMerge(old(Rows()), from, into)
    {
      if from == into || from >= |sessions| || into >= |sessions| {
        return false;
      }
      if sessions[from].closed || sessions[into].closed || sessions[from].place.None? || sessions[into].place.None? {
        return false;
      }
      var fromBilled := HasBill(from);
      var intoBilled := HasBill(into);
      if fromBilled || intoBilled {
        return false;
      }
      RedirectKots(from, sessions[into].place);
      MoveOrders(from, into, sessions[into].place);
      sessions := sessions[from := sessions[from].(closed := true)];
      return true;
    }

    /** The billing side of settling: the bill closes, then the tickets are released. */
    method SettleByPayment(bill: nat, full: bool)
      modifies `bills, `kots
      ensures Rows() == DoPay(old(Rows()), bill, full)
    {
      if bill >= |bills| {
        return;
      }
      var wasPaid := bills[bill].status.Paid?;
      var b := bills[bill].(taken := true);
      if !b.status.Paid? && !b.status.Cancelled? {
        b := b.(status := if full then Bills.Paid else Bills.PartiallyPaid, settled := b.settled || full);
      }
      bills := bills[bill := b];
      if b.status.Paid? && !wasPaid {
        ReleaseHeldKots(b.session);
      }
    }

    /** The same for a no-charge mark: no money, but the kitchen still cooks. */
    method SettleByNoCharge(bill: nat, allowed: bool) returns (ok: bool)
      modifies `bills, `kots
      ensures ok == CanNoCharge(old(Rows()), bill, allowed)
      ensures Rows() == DoNoCharge(old(Rows()), bill, allowed)
    {
      if bill >= |bills| || bills[bill].status.Cancelled? || bills[bill].settled || bills[bill].taken || !allowed {
        return false;
      }
      bills := bills[bill := bills[bill].(status := Bills.Paid, settled := true)];
      ReleaseHeldKots(bills[bill].session);
      return true;
    }
  }
}
