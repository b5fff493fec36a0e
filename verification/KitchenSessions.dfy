/** Which session an order joins, what a request writes on orders and tickets, and
    when a place comes to have two open sessions. */
module KitchenSessions {
  import opened Common
  import opened Kitchen
  import opened KitchenLaws
  import Bills = BillTotals

  // ---------- Joining a session ----------

  predicate OpenAt(x: Session, place: nat) { !x.closed && x.place == Some(place) }

  predicate HasOpen(s: State, place: nat) {
    exists i :: 0 <= i < |s.sessions| && OpenAt(s.sessions[i], place)
  }

  /** One order more, for the place, in one session or another. */
  predicate OrderAdded(s: State, r: State, q: Request)
    requires q.Create?
  {
    var n := |s.orders|;
    && |r.orders| == n + 1 && r.orders[..n] == s.orders
    && r.orders[n].place == q.place && r.orders[n].status == OrderStatus.Placed && r.orders[n].held == q.hold
    && r.orders[n].delivery == (if q.delivered then Some(DeliveryStatus.Placed) else None)
    && |r.lines| == |s.lines| + q.count && r.lines[..|s.lines|] == s.lines
    && (forall i :: |s.lines| <= i < |r.lines| ==> r.lines[i] == n)
    && r.bills == s.bills
  }

  /** An order that stays at its place joins the session that is open there, and no
      session is added. Every other order starts one of its own, at its place. */
  lemma CreateJoins(s: State, q: Request)
    requires q.Create?
    ensures var r, n := Step(s, q), |s.orders|;
      && OrderAdded(s, r, q)
      && (if q.place.Some? && q.persistent && HasOpen(s, q.place.value)
          then r.sessions == s.sessions
               && r.orders[n].session < |s.sessions| && OpenAt(s.sessions[r.orders[n].session], q.place.value)
          else r.sessions == s.sessions + [Session(q.place, false)] && r.orders[n].session == |s.sessions|)
  {
  }

  lemma {:induction false} NewLines(lines: seq<nat>, count: nat, order: nat, from: nat)
    requires order !in lines && from <= |lines| + count
    ensures LinesOf(lines + seq(count, _ => order), order, from)
      == seq(|lines| + count - (if from < |lines| then |lines| else from),
             i requires 0 <= i => (if from < |lines| then |lines| else from) + i)
    decreases |lines| + count - from
  {
    var all := lines + seq(count, _ => order);
    if from == |all| {
    } else {
      NewLines(lines, count, order, from + 1);
      if from < |lines| {
        assert all[from] == lines[from];
      }
    }
  }

  /** A held order gets no ticket; any other gets one at once, new, for its place,
      with exactly the order's own lines in order. */
  lemma CreateFires(s: State, q: Request)
    requires q.Create? && forall i :: 0 <= i < |s.lines| ==> s.lines[i] < |s.orders|
    ensures var r, n := Step(s, q), |s.kots|;
      if q.hold then r.kots == s.kots
      else
        && |r.kots| == n + 1 && r.kots[..n] == s.kots
        && r.kots[n].order == |s.orders| && r.kots[n].status == New && r.kots[n].place == q.place
        && r.kots[n].lines == seq(q.count, i requires 0 <= i < q.count => |s.lines| + i)
  {
    var id := |s.orders|;
    if !q.hold {
      assert id !in s.lines;
      NewLines(s.lines, q.count, id, 0);
      assert |s.lines| - 0 == |s.lines|;
    }
  }

  /** Releasing fires new tickets for the orders' own places and lines. */
  lemma ReleaseFires(s: State, session: nat, k: nat)
    requires OneTicketEach(s) && |s.kots| <= k < |Release(s, session).kots|
    ensures var t := Release(s, session).kots[k];
      && t.order < |s.orders| && s.orders[t.order].session == session && !s.orders[t.order].status.Cancelled?
      && t.status == New && t.place == s.orders[t.order].place
      && (forall i :: i in t.lines <==> 0 <= i < |s.lines| && s.lines[i] == t.order)
  {
    ReleasedExact(s, session, |s.orders|);
    assert NewTicket(s, session, |s.orders|, Release(s, session).kots[k]);
    LinesOfExact(s.lines, Release(s, session).kots[k].order, 0);
  }

  // ---------- Two open sessions at one place ----------

  predicate TwoOpen(s: State, place: nat) {
    exists i, j :: 0 <= i < j < |s.sessions| && OpenAt(s.sessions[i], place) && OpenAt(s.sessions[j], place)
  }

  /** What puts a second session there: an order that does not stay at its place, or
      a session transferred to a place that says it is free. */
  predicate Crowds(s: State, q: Request, place: nat) {
    && HasOpen(s, place)
    && ((q.Create? && q.place == Some(place) && !q.persistent)
        || (q.Transfer? && q.destination == place && CanTransfer(s, q.session, place, q.available)))
  }

  lemma OthersKeepSessions(s: State, q: Request)
    requires !q.Create? && !q.Transfer? && !q.Merge?
    ensures Step(s, q).sessions == s.sessions
  {
  }

  lemma CreateCrowdsIff(s: State, q: Request, place: nat)
    requires q.Create?
    ensures TwoOpen(Step(s, q), place) <==> TwoOpen(s, place) || Crowds(s, q, place)
  {
    CreateJoins(s, q);
    var r := Step(s, q);
    if r.sessions != s.sessions {
      assert r.sessions[|s.sessions|] == Session(q.place, false);
      assert forall i :: 0 <= i < |s.sessions| ==> r.sessions[i] == s.sessions[i];
    }
  }

  lemma TransferCrowdsIff(s: State, q: Request, place: nat)
    requires q.Transfer? && !TwoOpen(s, place)
    ensures TwoOpen(Step(s, q), place) <==> Crowds(s, q, place)
  {
    var r := Step(s, q);
    if CanTransfer(s, q.session, q.destination, q.available) {
      assert r.sessions == s.sessions[q.session := Session(Some(q.destination), false)];
      assert OpenAt(s.sessions[q.session], s.sessions[q.session].place.value);
      if Crowds(s, q, place) {
        var i :| 0 <= i < |s.sessions| && OpenAt(s.sessions[i], place);
        assert OpenAt(r.sessions[i], place) && OpenAt(r.sessions[q.session], place);
      }
    }
  }

  lemma MergeCrowdsNone(s: State, q: Request, place: nat)
    requires q.Merge? && !TwoOpen(s, place)
    ensures !TwoOpen(Step(s, q), place)
  {
  }

  lemma StepCrowdsIff(s: State, q: Request, place: nat)
    requires !TwoOpen(s, place)
    ensures TwoOpen(Step(s, q), place) <==> Crowds(s, q, place)
  {
    if q.Create? {
      CreateCrowdsIff(s, q, place);
    } else if q.Transfer? {
      TransferCrowdsIff(s, q, place);
    } else if q.Merge? {
      MergeCrowdsNone(s, q, place);
    } else {
      OthersKeepSessions(s, q);
    }
  }

  /** At some moment of the run the place has two open sessions. */
  predicate EverTwo(s: State, run: seq<Request>, place: nat)
    decreases |run|
  {
    TwoOpen(s, place) || (run != [] && EverTwo(Step(s, run[0]), run[1..], place))
  }

  predicate EverCrowded(s: State, run: seq<Request>, place: nat)
    decreases |run|
  {
    run != [] && (Crowds(s, run[0], place) || EverCrowded(Step(s, run[0]), run[1..], place))
  }

  lemma {:induction false} TwoOpenFrom(s: State, run: seq<Request>, place: nat)
    requires !TwoOpen(s, place)
    ensures EverTwo(s, run, place) <==> EverCrowded(s, run, place)
    decreases |run|
  {
    if run == [] {
    } else {
      StepCrowdsIff(s, run[0], place);
      if !Crowds(s, run[0], place) {
        TwoOpenFrom(Step(s, run[0]), run[1..], place);
      } else {
        assert TwoOpen(Step(s, run[0]), place) ==> EverTwo(Step(s, run[0]), run[1..], place);
      }
    }
  }

  /** Over every run a place comes to have two open sessions exactly when, while one
      was open there, an order that does not stay was placed there or a session was
      transferred to it; orders that stay never do it. */
  lemma TwoOpenIff(run: seq<Request>, place: nat)
    ensures EverTwo(EMPTY, run, place) <==> EverCrowded(EMPTY, run, place)
  {
    TwoOpenFrom(EMPTY, run, place);
  }

  // ---------- Statuses ----------

  /** A ticket goes one step on at a time, and can be called off until it is ready. */
  lemma AllowedIff(a: KotStatus, b: KotStatus)
    ensures Allowed(a, b) <==>
      if b.Cancelled? then a.New? || a.Accepted? || a.Preparing? else !a.Cancelled? && Rank(b) == Rank(a) + 1
  {
  }

  function DeliveryRank(d: DeliveryStatus): nat {
    match d
    case Placed => 0
    case Confirmed => 1
    case Preparing => 2
    case Ready => 3
    case OutForDelivery => 4
    case Delivered => 5
    case Cancelled => 5
  }

  /** So does a delivery, which can be called off until it is done. */
  lemma DeliveryAllowedIff(a: DeliveryStatus, b: DeliveryStatus)
    ensures DeliveryAllowed(a, b) <==>
      if b.Cancelled? then DeliveryRank(a) < 5 else !a.Cancelled? && DeliveryRank(b) == DeliveryRank(a) + 1
  {
  }

  /** The order is as far as the ticket. */
  predicate AsFar(o: OrderStatus, k: KotStatus) {
    && (o == OrderStatus.Placed <==> k == New) && (o == OrderStatus.Confirmed <==> k == Accepted)
    && (o == OrderStatus.Preparing <==> k == KotStatus.Preparing) && (o == OrderStatus.Ready <==> k == KotStatus.Ready)
    && (o == OrderStatus.Served <==> k == KotStatus.Served) && (o == OrderStatus.Cancelled <==> k == KotStatus.Cancelled)
  }

  predicate AsFarAs(o: OrderStatus, d: DeliveryStatus) {
    && (o == OrderStatus.Placed <==> d == DeliveryStatus.Placed)
    && (o == OrderStatus.Confirmed <==> d == DeliveryStatus.Confirmed)
    && (o == OrderStatus.Preparing <==> d == DeliveryStatus.Preparing) && (o == OrderStatus.Ready <==> d == DeliveryStatus.Ready)
    && (o == OrderStatus.OutForDelivery <==> d == DeliveryStatus.OutForDelivery)
    && (o == OrderStatus.Delivered <==> d == DeliveryStatus.Delivered)
    && (o == OrderStatus.Cancelled <==> d == DeliveryStatus.Cancelled)
  }

  /** A ticket move is accepted exactly when it is allowed, and takes its order along;
      nothing else is written. */
  lemma KotMoves(s: State, kot: nat, status: KotStatus)
    ensures var r := DoUpdateKot(s, kot, status);
      if kot < |s.kots| && Allowed(s.kots[kot].status, status) then
        var o := s.kots[kot].order;
        && r.kots == s.kots[kot := s.kots[kot].(status := status)] && |r.orders| == |s.orders|
        && (o < |s.orders| ==> AsFar(r.orders[o].status, status) && r.orders[o] == s.orders[o].(status := r.orders[o].status))
        && (forall i :: 0 <= i < |s.orders| && i != o ==> r.orders[i] == s.orders[i])
        && r == s.(kots := r.kots, orders := r.orders)
      else r == s
  {
  }

  lemma DeliveryMoves(s: State, o: nat, status: DeliveryStatus)
    ensures var r := DoUpdateDelivery(s, o, status);
      if o < |s.orders| && s.orders[o].delivery.Some? && DeliveryAllowed(s.orders[o].delivery.value, status) then
        && |r.orders| == |s.orders| && AsFarAs(r.orders[o].status, status)
        && r.orders[o] == s.orders[o].(status := r.orders[o].status, delivery := Some(status))
        && r == s.(orders := s.orders[o := r.orders[o]])
      else r == s
  {
  }

  /** An order is called off exactly until it was served, delivered or completed. */
  lemma CancelIff(s: State, o: nat)
    ensures var r := DoCancel(s, o);
      if o < |s.orders| && s.orders[o].status !in {OrderStatus.Served, OrderStatus.Delivered, OrderStatus.Completed}
      then |r.orders| == |s.orders| && r.orders[o] == s.orders[o].(status := OrderStatus.Cancelled)
           && r == s.(orders := s.orders[o := r.orders[o]])
      else r == s
  {
  }

  /** Requests that set the order's status past its ticket. */
  predicate Overrides(q: Request, o: nat) {
    (q.Cancel? && q.order == o) || (q.UpdateDelivery? && q.order == o)
  }

  /** The order's tickets are as far as it is; without one it is as it was placed. */
  ghost predicate InStep(s: State, o: nat) {
    o < |s.orders| ==>
      && (forall k :: 0 <= k < |s.kots| && s.kots[k].order == o ==> AsFar(s.orders[o].status, s.kots[k].status))
      && (!HasKot(s.kots, o) ==> s.orders[o].status == OrderStatus.Placed)
  }

  lemma ReleaseInStep(s: State, session: nat, o: nat)
    requires TicketsOk(s) && InStep(s, o)
    ensures InStep(Release(s, session), o)
  {
    var r := Release(s, session);
    ReleasedExact(s, session, |s.orders|);
    KeptTickets(s.kots, r.kots, o);
    forall k | 0 <= k < |r.kots| && r.kots[k].order == o && o < |s.orders|
      ensures AsFar(r.orders[o].status, r.kots[k].status)
    {
      if k < |s.kots| {
        assert r.kots[k] == s.kots[k];
      } else {
        assert NewTicket(s, session, |s.orders|, r.kots[k]);
      }
    }
  }

  lemma KotInStep(s: State, q: Request, o: nat)
    requires TicketsOk(s) && InStep(s, o) && q.UpdateKot?
    ensures InStep(Step(s, q), o)
  {
    var r := Step(s, q);
    KotMoves(s, q.kot, q.kotStatus);
    if r != s {
      assert forall k :: 0 <= k < |s.kots| ==> r.kots[k].order == s.kots[k].order;
    }
  }

  lemma AddedInStep(s: State, r: State, o: nat)
    requires InStep(s, o) && s.orders <= r.orders && |r.orders| == |s.orders| + 1
    requires r.orders[|s.orders|].status == OrderStatus.Placed
    requires s.kots <= r.kots && forall k :: 0 <= k < |s.kots| ==> s.kots[k].order < |s.orders|
    requires forall k :: |s.kots| <= k < |r.kots| ==> r.kots[k].order == |s.orders| && r.kots[k].status == New
    ensures InStep(r, o)
  {
    if o < |s.orders| {
      KeptTickets(s.kots, r.kots, o);
      assert r.orders[o] == s.orders[o];
    }
  }

  lemma CreateInStep(s: State, q: Request, o: nat)
    requires TicketsOk(s) && InStep(s, o) && q.Create?
    ensures InStep(Step(s, q), o)
  {
    CreateJoins(s, q);
    CreateFires(s, q);
    forall k | 0 <= k < |s.kots|
      ensures s.kots[k].order < |s.orders|
    {
      assert TicketOk(s, s.kots[k]);
    }
    AddedInStep(s, Step(s, q), o);
  }

  lemma QuietInStep(s: State, q: Request, o: nat)
    requires TicketsOk(s) && InStep(s, o) && !Overrides(q, o)
    requires !q.Create? && !q.UpdateKot? && !Settles(s, q)
    ensures InStep(Step(s, q), o)
  {
    var r := Step(s, q);
    assert |r.kots| == |s.kots| && |r.orders| == |s.orders|;
    assert forall k :: 0 <= k < |s.kots| ==> r.kots[k].order == s.kots[k].order && r.kots[k].status == s.kots[k].status;
    if o < |s.orders| {
      assert r.orders[o].status == s.orders[o].status;
      assert HasKot(r.kots, o) <==> HasKot(s.kots, o);
    }
  }

  lemma StepInStep(s: State, q: Request, o: nat)
    requires TicketsOk(s) && HeldOk(s) && InStep(s, o) && !Overrides(q, o)
    ensures InStep(Step(s, q), o)
  {
    if q.Create? {
      CreateInStep(s, q, o);
    } else if q.UpdateKot? {
      KotInStep(s, q, o);
    } else if Settles(s, q) {
      var paid := WithStatus(s, q.bill, Bills.Paid, true, q.Pay?);
      BillKeeps(s, paid);
      ReleaseInStep(paid, s.bills[q.bill].session, o);
    } else {
      QuietInStep(s, q, o);
    }
  }

  lemma {:induction false} RunInStep(s: State, run: seq<Request>, o: nat)
    requires TicketsOk(s) && HeldOk(s) && InStep(s, o)
    requires forall k :: 0 <= k < |run| ==> !Overrides(run[k], o)
    ensures InStep(Exec(s, run), o)
    decreases |run|
  {
    if run == [] {
    } else {
      StepInStep(s, run[0], o);
      StepKeeps(s, run[0]);
      RunInStep(Step(s, run[0]), run[1..], o);
    }
  }

  /** In every run in which an order is neither called off nor delivered, it is
      exactly as far as its ticket, and as it was placed while it has none. */
  lemma OrderFollowsTicket(run: seq<Request>, o: nat)
    requires forall k :: 0 <= k < |run| ==> !Overrides(run[k], o)
    ensures InStep(Exec(EMPTY, run), o)
  {
    RunInStep(EMPTY, run, o);
  }

  // ---------- Moves ----------

  predicate NeverBilled(s: State, session: nat) { forall b :: 0 <= b < |s.bills| ==> s.bills[b].session != session }

  predicate AtPlace(s: State, session: nat) {
    session < |s.sessions| && !s.sessions[session].closed && s.sessions[session].place.Some?
  }

  /** A session moves exactly while it is open at another place, never billed, and the
      destination says it is free. Two merge exactly while both are open at places,
      and neither was ever billed. Else nothing happens. */
  lemma MovesIff(s: State, session: nat, place: nat, available: bool, into: nat)
    ensures CanTransfer(s, session, place, available) <==>
      AtPlace(s, session) && s.sessions[session].place.value != place && available && NeverBilled(s, session)
    ensures CanMerge(s, session, into) <==>
      session != into && AtPlace(s, session) && AtPlace(s, into) && NeverBilled(s, session) && NeverBilled(s, into)
    ensures !CanTransfer(s, session, place, available) ==> DoTransfer(s, session, place, available) == s
    ensures !CanMerge(s, session, into) ==> DoMerge(s, session, into) == s
  {
  }

  // ---------- Bills ----------

  predicate StillOpen(b: Bill) { b.status == Bills.Open || b.status == Bills.PartiallyPaid }

  ghost predicate OneOpenBill(s: State) {
    forall i, j :: 0 <= i < j < |s.bills| && s.bills[i].session == s.bills[j].session ==>
      !StillOpen(s.bills[i]) || !StillOpen(s.bills[j])
  }

  /** Money on an open bill settles it when it covers the total, and else leaves it
      part paid; on a closed one it changes no status. A reduction closes only a part-paid
      bill, and a void any bill; neither settles it. */
  lemma BillMoves(s: State, q: Request)
    requires (q.Pay? || q.CoverByReduction? || q.VoidBill?) && q.bill < |s.bills|
    ensures var was, r := s.bills[q.bill], Step(s, q);
      && |r.bills| == |s.bills| && r == s.(bills := s.bills[q.bill := r.bills[q.bill]], kots := r.kots)
      && (if q.VoidBill? then r.bills[q.bill] == was.(status := Bills.Cancelled)
          else if q.CoverByReduction? then
            r.bills[q.bill] == if was.status == Bills.PartiallyPaid then was.(status := Bills.Paid) else was
          else if !StillOpen(was) then r.bills[q.bill] == was.(taken := true)
          else if q.full then r.bills[q.bill] == was.(status := Bills.Paid, settled := true, taken := true)
          else r.bills[q.bill] == was.(status := Bills.PartiallyPaid, taken := true))
      && (!(q.Pay? && q.full && StillOpen(was)) ==> r.kots == s.kots)
  {
  }

  /** A bill is raised for a session exactly while it has none open. */
  lemma BillRaised(s: State, session: nat)
    ensures var r := DoGenerateBill(s, session);
      if session < |s.sessions| && forall b :: 0 <= b < |s.bills| && s.bills[b].session == session ==> !StillOpen(s.bills[b])
      then r == s.(bills := s.bills + [Bill(session, Bills.Open, false, false)])
      else r == s
  {
  }

  lemma BillsStayApart(s: State, q: Request)
    requires OneOpenBill(s)
    ensures OneOpenBill(Step(s, q))
  {
    if q.GenerateBill? {
      BillRaised(s, q.session);
    } else if (q.Pay? || q.CoverByReduction? || q.VoidBill?) && q.bill < |s.bills| {
      BillMoves(s, q);
    }
  }

  /** Over every run a session has at most one open bill. */
  lemma {:induction false} OneBillAtATime(s: State, run: seq<Request>)
    requires OneOpenBill(s)
    ensures OneOpenBill(Exec(s, run))
    decreases |run|
  {
    if run == [] {
    } else {
      BillsStayApart(s, run[0]);
      OneBillAtATime(Step(s, run[0]), run[1..]);
    }
  }
}
