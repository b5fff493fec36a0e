/** What no run of order, kitchen and billing requests can break. */
module KitchenLaws {
  import opened Common
  import opened Kitchen
  import Bills = BillTotals

  // ---------- One ticket per order, each line on at most one ----------

  ghost predicate OneTicketEach(s: State) {
    forall j, k :: 0 <= j < k < |s.kots| ==> s.kots[j].order != s.kots[k].order
  }

  predicate TicketOk(s: State, k: Kot) {
    k.order < |s.orders| && k.lines == LinesOf(s.lines, k.order, 0)
  }

  ghost predicate TicketsOk(s: State) {
    && OneTicketEach(s)
    && (forall k :: 0 <= k < |s.kots| ==> TicketOk(s, s.kots[k]))
    && (forall i :: 0 <= i < |s.lines| ==> s.lines[i] < |s.orders|)
    && (forall o :: 0 <= o < |s.orders| ==> s.orders[o].session < |s.sessions|)
    && (forall o :: 0 <= o < |s.orders| && !s.orders[o].held ==> HasKot(s.kots, o))
  }

  predicate Settled(s: State, session: nat) {
    exists b :: 0 <= b < |s.bills| && s.bills[b].session == session && s.bills[b].settled
  }

  /** A held order has a ticket only once a bill of its session was settled. */
  ghost predicate HeldOk(s: State) {
    forall k :: 0 <= k < |s.kots| && s.kots[k].order < |s.orders| && s.orders[s.kots[k].order].held ==>
      Settled(s, s.orders[s.kots[k].order].session)
  }

  lemma {:induction false} LinesOfExact(lines: seq<nat>, order: nat, from: nat)
    ensures forall i :: i in LinesOf(lines, order, from) <==> from <= i < |lines| && lines[i] == order
    decreases |lines| - from
  {
    if from >= |lines| {
    } else {
      LinesOfExact(lines, order, from + 1);
    }
  }

  lemma {:induction false} LinesOfOrdered(lines: seq<nat>, order: nat, from: nat, i: nat, j: nat)
    requires i < j < |LinesOf(lines, order, from)|
    ensures LinesOf(lines, order, from)[i] < LinesOf(lines, order, from)[j]
    decreases |lines| - from
  {
    var rest := LinesOf(lines, order, from + 1);
    if lines[from] == order {
      LinesOfExact(lines, order, from + 1);
      assert rest[j - 1] in rest;
      if i > 0 {
        LinesOfOrdered(lines, order, from + 1, i - 1, j - 1);
      }
    } else {
      LinesOfOrdered(lines, order, from + 1, i, j);
    }
  }

  lemma {:induction false} LinesOfNone(lines: seq<nat>, order: nat, from: nat)
    requires forall i :: from <= i < |lines| ==> lines[i] != order
    ensures LinesOf(lines, order, from) == []
    decreases |lines| - from
  {
    if from >= |lines| {
    } else {
      LinesOfNone(lines, order, from + 1);
    }
  }

  lemma {:induction false} LinesOfOthers(lines: seq<nat>, more: seq<nat>, order: nat, from: nat)
    requires from <= |lines| && order !in more
    ensures LinesOf(lines + more, order, from) == LinesOf(lines, order, from)
    decreases |lines| + |more| - from
  {
    if from < |lines| {
      LinesOfOthers(lines, more, order, from + 1);
    } else {
      assert forall i :: from <= i < |lines + more| ==> (lines + more)[i] in more;
      LinesOfNone(lines + more, order, from);
    }
  }

  /** Read off the tickets: no order line is printed twice, on one or on two. */
  lemma EachLineOnce(s: State, j: nat, k: nat, x: nat, y: nat)
    requires TicketsOk(s) && j < |s.kots| && k < |s.kots| && x < |s.kots[j].lines| && y < |s.kots[k].lines|
    ensures s.kots[j].lines[x] == s.kots[k].lines[y] ==> j == k && x == y
  {
    assert TicketOk(s, s.kots[j]) && TicketOk(s, s.kots[k]);
    LinesOfExact(s.lines, s.kots[j].order, 0);
    LinesOfExact(s.lines, s.kots[k].order, 0);
    if s.kots[j].lines[x] == s.kots[k].lines[y] {
      assert s.kots[j].lines[x] in s.kots[j].lines && s.kots[k].lines[y] in s.kots[k].lines;
      assert j == k;
      if x != y {
        LinesOfOrdered(s.lines, s.kots[j].order, 0, if x < y then x else y, if x < y then y else x);
        assert false;  // the lines of a ticket ascend
      }
    }
  }

  // ---------- Release ----------

  predicate NewTicket(s: State, session: nat, n: nat, k: Kot) {
    k.order < n && k.order < |s.orders| && k == Ticket(s, k.order) && Due(s, s.kots, session, k.order)
  }

  /** What releasing a session's tickets adds: one for every live order without
      one, among the first n, and nothing else. */
  ghost predicate ReleasedOk(s: State, session: nat, n: nat, kots: seq<Kot>) {
    && |s.kots| <= |kots| && kots[..|s.kots|] == s.kots
    && OneTicketEach(s.(kots := kots))
    && (forall k :: |s.kots| <= k < |kots| ==> NewTicket(s, session, n, kots[k]))
    && (forall o :: 0 <= o < n && o < |s.orders| && Due(s, s.kots, session, o) ==> HasKot(kots, o))
  }

  lemma KeptTickets(before: seq<Kot>, after: seq<Kot>, order: nat)
    requires |before| <= |after| && after[..|before|] == before
    ensures HasKot(before, order) ==> HasKot(after, order)
  {
  }

  lemma OneMoreOk(s: State, session: nat, n: nat, kots: seq<Kot>)
    requires n < |s.orders| && OneTicketEach(s) && ReleasedOk(s, session, n, kots)
    ensures Due(s, kots, session, n) ==> ReleasedOk(s, session, n + 1, kots + [Ticket(s, n)])
    ensures !Due(s, kots, session, n) ==> ReleasedOk(s, session, n + 1, kots)
  {
    var more := kots + [Ticket(s, n)];
    assert more[..|s.kots|] == s.kots;
    KeptTickets(s.kots, kots, n);
    forall o | 0 <= o <= n
      ensures HasKot(kots, o) ==> HasKot(more, o)
    {
      KeptTickets(kots, more, o);
    }
    assert more[|kots|].order == n;
  }

  lemma {:induction false} ReleasedExact(s: State, session: nat, n: nat)
    requires n <= |s.orders| && OneTicketEach(s)
    ensures ReleasedOk(s, session, n, Released(s, session, n))
    decreases n
  {
    if n == 0 {
    } else {
      ReleasedExact(s, session, n - 1);
      OneMoreOk(s, session, n - 1, Released(s, session, n - 1));
    }
  }

  /** A request that closes a bill by taking money or by a no-charge mark. */
  predicate Settles(s: State, q: Request) {
    || (q.Pay? && q.full && q.bill < |s.bills| && !s.bills[q.bill].status.Paid? && !s.bills[q.bill].status.Cancelled?)
    || (q.NoCharge? && CanNoCharge(s, q.bill, q.allowed))
  }

  lemma SettleTickets(s: State, bill: nat, taken: bool, o: nat)
    requires OneTicketEach(s) && bill < |s.bills| && o < |s.orders|
    ensures OneTicketEach(Settle(s, bill, taken))
    ensures HasKot(Settle(s, bill, taken).kots, o)
      <==> HasKot(s.kots, o) || (s.orders[o].session == s.bills[bill].session && !s.orders[o].status.Cancelled?)
  {
    var paid, r := WithStatus(s, bill, Bills.Paid, true, taken), Settle(s, bill, taken);
    ReleasedExact(paid, s.bills[bill].session, |s.orders|);
    KeptTickets(s.kots, r.kots, o);
    if HasKot(r.kots, o) && !HasKot(s.kots, o) {
      var k :| 0 <= k < |r.kots| && r.kots[k].order == o;
      assert NewTicket(paid, s.bills[bill].session, |s.orders|, r.kots[k]);
    }
  }

  /** After settling, by payment or no-charge, every live order of the session has
      exactly one ticket. */
  lemma SettlingReleasesAll(s: State, q: Request, o: nat)
    requires TicketsOk(s) && Settles(s, q)
    requires o < |s.orders| && s.orders[o].session == s.bills[q.bill].session && !s.orders[o].status.Cancelled?
    ensures HasKot(Step(s, q).kots, o) && OneTicketEach(Step(s, q))
  {
    SettleTickets(s, q.bill, q.Pay?, o);
  }

  lemma ReleaseKeeps(s: State, session: nat)
    requires TicketsOk(s) && HeldOk(s) && Settled(s, session)
    ensures TicketsOk(Release(s, session)) && HeldOk(Release(s, session))
  {
    var r := Release(s, session);
    ReleasedExact(s, session, |s.orders|);
    forall k | 0 <= k < |r.kots|
      ensures TicketOk(r, r.kots[k])
      ensures r.orders[r.kots[k].order].held ==> Settled(r, r.orders[r.kots[k].order].session)
    {
      if k < |s.kots| {
        assert r.kots[k] == s.kots[k] && TicketOk(s, s.kots[k]);
      } else {
        assert NewTicket(s, session, |s.orders|, r.kots[k]);
      }
    }
    forall o | 0 <= o < |s.orders| && !s.orders[o].held
      ensures HasKot(r.kots, o)
    {
      KeptTickets(s.kots, r.kots, o);
    }
  }

  // ---------- Each request ----------

  predicate BillsGrow(a: seq<Bill>, b: seq<Bill>) {
    && |a| <= |b|
    && forall i :: 0 <= i < |a| ==> a[i].session == b[i].session && (a[i].settled ==> b[i].settled)
  }

  lemma KeepSettled(s: State, r: State)
    requires BillsGrow(s.bills, r.bills)
    ensures forall session :: Settled(s, session) ==> Settled(r, session)
  {
  }

  lemma CreateKeeps(s: State, place: Option<nat>, persistent: bool, count: nat, hold: bool, delivered: bool)
    requires TicketsOk(s) && HeldOk(s)
    ensures TicketsOk(DoCreate(s, place, persistent, count, hold, delivered))
    ensures HeldOk(DoCreate(s, place, persistent, count, hold, delivered))
  {
    var r, id := DoCreate(s, place, persistent, count, hold, delivered), |s.orders|;
    forall k | 0 <= k < |s.kots|
      ensures TicketOk(r, s.kots[k])
      ensures s.kots[k].order < id
    {
      assert TicketOk(s, s.kots[k]);
      LinesOfOthers(s.lines, seq(count, _ => id), s.kots[k].order, 0);
    }
    forall o | 0 <= o < |r.orders| && !r.orders[o].held
      ensures HasKot(r.kots, o)
    {
      if o < id {
        KeptTickets(s.kots, r.kots, o);
      } else {
        assert r.kots[|s.kots|].order == o;
      }
    }
    KeepSettled(s, r);
  }

  /** Requests that only write statuses, places and sessions of existing rows. */
  ghost predicate SameShape(s: State, r: State) {
    && |r.orders| == |s.orders| && r.lines == s.lines && |r.kots| == |s.kots| && |r.sessions| >= |s.sessions|
    && (forall o :: 0 <= o < |s.orders| ==> r.orders[o].held == s.orders[o].held && r.orders[o].session < |r.sessions|)
    && (forall k :: 0 <= k < |s.kots| ==> r.kots[k].order == s.kots[k].order && r.kots[k].lines == s.kots[k].lines)
  }

  lemma ShapeKeepsTickets(s: State, r: State)
    requires TicketsOk(s) && SameShape(s, r)
    ensures TicketsOk(r)
  {
  }

  /** Only an order of a session that was never billed changes session. */
  lemma MoveKeepsHeld(s: State, r: State)
    requires TicketsOk(s) && HeldOk(s) && SameShape(s, r) && r.bills == s.bills
    requires forall o :: 0 <= o < |s.orders| ==> r.orders[o].session == s.orders[o].session || !Settled(s, s.orders[o].session)
    ensures HeldOk(r)
  {
  }

  lemma MergeKeeps(s: State, from: nat, into: nat)
    requires TicketsOk(s) && HeldOk(s) && CanMerge(s, from, into)
    ensures TicketsOk(DoMerge(s, from, into)) && HeldOk(DoMerge(s, from, into))
  {
    var r := DoMerge(s, from, into);
    assert SameShape(s, r);
    ShapeKeepsTickets(s, r);
    forall o | 0 <= o < |s.orders|
      ensures r.orders[o].session == s.orders[o].session || !Settled(s, s.orders[o].session)
    {
    }
    MoveKeepsHeld(s, r);
  }

  lemma BillKeeps(s: State, r: State)
    requires TicketsOk(s) && HeldOk(s) && r == s.(bills := r.bills) && BillsGrow(s.bills, r.bills)
    ensures TicketsOk(r) && HeldOk(r)
  {
  }

  lemma SettleKeeps(s: State, bill: nat, taken: bool)
    requires TicketsOk(s) && HeldOk(s) && bill < |s.bills|
    ensures TicketsOk(Settle(s, bill, taken)) && HeldOk(Settle(s, bill, taken))
  {
    var paid := WithStatus(s, bill, Bills.Paid, true, taken);
    BillKeeps(s, paid);
    assert paid.bills[bill].settled;
    ReleaseKeeps(paid, s.bills[bill].session);
  }

  lemma StatusKeeps(s: State, r: State)
    requires TicketsOk(s) && HeldOk(s) && SameShape(s, r) && r.bills == s.bills
    requires forall o :: 0 <= o < |s.orders| ==> r.orders[o].session == s.orders[o].session
    ensures TicketsOk(r) && HeldOk(r)
  {
  }

  lemma OrderStepKeeps(s: State, q: Request)
    requires TicketsOk(s) && HeldOk(s)
    requires q.Cancel? || q.UpdateKot? || q.UpdateDelivery? || q.Transfer?
    ensures TicketsOk(Step(s, q)) && HeldOk(Step(s, q))
  {
    assert SameShape(s, Step(s, q));
    StatusKeeps(s, Step(s, q));
  }

  lemma BillStepKeeps(s: State, q: Request)
    requires TicketsOk(s) && HeldOk(s)
    requires q.GenerateBill? || q.Pay? || q.CoverByReduction? || q.NoCharge? || q.VoidBill?
    ensures TicketsOk(Step(s, q)) && HeldOk(Step(s, q))
  {
    if Settles(s, q) {
      SettleKeeps(s, q.bill, q.Pay?);
    } else {
      BillKeeps(s, Step(s, q));
    }
  }

  lemma StepKeeps(s: State, q: Request)
    requires TicketsOk(s) && HeldOk(s)
    ensures TicketsOk(Step(s, q)) && HeldOk(Step(s, q))
  {
    match q
    case Create(place, persistent, count, hold, delivered) => CreateKeeps(s, place, persistent, count, hold, delivered);
    case Merge(from, into) =>
      if CanMerge(s, from, into) {
        MergeKeeps(s, from, into);
      }
    case Cancel(_) => OrderStepKeeps(s, q);
    case UpdateKot(_, _) => OrderStepKeeps(s, q);
    case UpdateDelivery(_, _) => OrderStepKeeps(s, q);
    case Transfer(_, _, _) => OrderStepKeeps(s, q);
    case _ => BillStepKeeps(s, q);
  }

  lemma {:induction false} ExecKeeps(s: State, run: seq<Request>)
    requires TicketsOk(s) && HeldOk(s)
    ensures TicketsOk(Exec(s, run)) && HeldOk(Exec(s, run))
    decreases |run|
  {
    if run == [] {
    } else {
      StepKeeps(s, run[0]);
      ExecKeeps(Step(s, run[0]), run[1..]);
    }
  }

  /** After any run at all: one ticket per order at most, one for every order
      not held, each with exactly the order's lines, and none for a held order
      before a bill of its session was settled. */
  lemma TicketsOverRuns(run: seq<Request>)
    ensures TicketsOk(Exec(EMPTY, run)) && HeldOk(Exec(EMPTY, run))
  {
    ExecKeeps(EMPTY, run);
  }

  // ---------- Merge and transfer ----------

  function LiveIn(s: State, session: nat): set<nat> {
    set o: nat | o < |s.orders| && s.orders[o].session == session && !s.orders[o].status.Cancelled?
  }

  /** A merge gives the other session exactly the live orders of both, loses and
      duplicates none, retires the emptied session and touches no third one. */
  lemma MergeMovesAll(s: State, from: nat, into: nat)
    requires CanMerge(s, from, into)
    ensures var r := DoMerge(s, from, into);
      && LiveIn(r, into) == LiveIn(s, into) + LiveIn(s, from)
      && LiveIn(s, into) !! LiveIn(s, from)
      && LiveIn(r, from) == {} && r.sessions[from].closed
      && |r.orders| == |s.orders| && r.lines == s.lines && |r.kots| == |s.kots|
      && (forall c :: c != from && c != into ==> LiveIn(r, c) == LiveIn(s, c))
      && (forall o :: o in LiveIn(s, from) ==> r.orders[o].place == s.sessions[into].place)
      && (forall k :: 0 <= k < |s.kots| ==> r.kots[k].order == s.kots[k].order && r.kots[k].lines == s.kots[k].lines)
  {
  }

  predicate InKitchen(k: Kot) { !k.status.Served? && !k.status.Cancelled? }

  /** Tickets still in the kitchen follow their live orders; every other ticket
      keeps the place it was printed with. */
  predicate TicketMoved(s: State, r: State, session: nat, place: Option<nat>, k: nat)
    requires k < |s.kots| && k < |r.kots|
  {
    r.kots[k] == if InKitchen(s.kots[k]) && s.kots[k].order in LiveIn(s, session)
                 then s.kots[k].(place := place) else s.kots[k]
  }

  lemma MergeMovesTickets(s: State, from: nat, into: nat)
    requires CanMerge(s, from, into)
    ensures |DoMerge(s, from, into).kots| == |s.kots|
    ensures forall k :: 0 <= k < |s.kots| ==> TicketMoved(s, DoMerge(s, from, into), from, s.sessions[into].place, k)
  {
  }

  /** A transfer takes the session, its live orders and their tickets to the new
      place, and changes no order of any other session. */
  lemma TransferMovesAll(s: State, session: nat, place: nat)
    requires CanTransfer(s, session, place, true)
    ensures var r := DoTransfer(s, session, place, true);
      && r.sessions == s.sessions[session := Session(Some(place), false)]
      && |r.orders| == |s.orders| && r.lines == s.lines && |r.kots| == |s.kots|
      && (forall c :: LiveIn(r, c) == LiveIn(s, c))
      && (forall o: nat :: o < |s.orders| ==>
            r.orders[o] == if o in LiveIn(s, session) then s.orders[o].(place := Some(place)) else s.orders[o])
      && (forall k :: 0 <= k < |s.kots| ==> TicketMoved(s, r, session, Some(place), k))
  {
    var r := DoTransfer(s, session, place, true);
    forall c
      ensures LiveIn(r, c) == LiveIn(s, c)
    {
      assert forall o: nat :: o < |s.orders| ==> (o in LiveIn(r, c) <==> o in LiveIn(s, c));
    }
  }

  lemma BillRowsStay(s: State, q: Request)
    ensures BillsGrow(s.bills, Step(s, q).bills)
  {
  }

  lemma BilledKeepsPlace(s: State, q: Request, session: nat)
    requires session < |s.sessions| && Billed(s, session)
    ensures session < |Step(s, q).sessions| && Step(s, q).sessions[session] == s.sessions[session]
  {
  }

  lemma StillBilled(s: State, r: State, session: nat)
    requires BillsGrow(s.bills, r.bills)
    ensures Billed(s, session) ==> Billed(r, session)
  {
    if Billed(s, session) {
      var b :| 0 <= b < |s.bills| && s.bills[b].session == session;
      assert r.bills[b].session == session;
    }
  }

  /** A session that once had a bill, settled and voided ones included, is never
      moved or merged again. */
  lemma {:induction false} BilledStaysPut(s: State, run: seq<Request>, session: nat)
    requires session < |s.sessions| && Billed(s, session)
    ensures Billed(Exec(s, run), session)
    ensures session < |Exec(s, run).sessions| && Exec(s, run).sessions[session] == s.sessions[session]
    decreases |run|
  {
    if run == [] {
    } else {
      BillRowsStay(s, run[0]);
      BilledKeepsPlace(s, run[0], session);
      StillBilled(s, Step(s, run[0]), session);
      BilledStaysPut(Step(s, run[0]), run[1..], session);
    }
  }

  lemma ClosedStep(s: State, q: Request, session: nat, o: nat)
    requires session < |s.sessions| && s.sessions[session].closed
    ensures session < |Step(s, q).sessions| && Step(s, q).sessions[session].closed
    ensures o < |Step(s, q).orders| && Step(s, q).orders[o].session == session
      ==> o < |s.orders| && s.orders[o].session == session
  {
  }

  /** A closed session never receives an order again, in any run. */
  lemma {:induction false} ClosedReceivesNone(s: State, run: seq<Request>, session: nat, o: nat)
    requires session < |s.sessions| && s.sessions[session].closed
    ensures session < |Exec(s, run).sessions| && Exec(s, run).sessions[session].closed
    ensures o < |Exec(s, run).orders| && Exec(s, run).orders[o].session == session
      ==> o < |s.orders| && s.orders[o].session == session
    decreases |run|
  {
    if run == [] {
    } else {
      ClosedStep(s, run[0], session, o);
      ClosedReceivesNone(Step(s, run[0]), run[1..], session, o);
    }
  }

  // ---------- Held orders ----------

  /** The orders that a request sets free for cooking: the live ones of the session
      whose bill it settles. */
  function Frees(s: State, q: Request): set<nat> {
    if Settles(s, q) then LiveIn(s, s.bills[q.bill].session) else {}
  }

  function Freed(s: State, run: seq<Request>): set<nat>
    decreases |run|
  {
    if run == [] then {} else Frees(s, run[0]) + Freed(Step(s, run[0]), run[1..])
  }

  ghost predicate HeldExactly(s: State, freed: set<nat>) {
    && (forall o :: o in freed ==> o < |s.orders|)
    && (forall o :: 0 <= o < |s.orders| && s.orders[o].held ==> (HasKot(s.kots, o) <==> o in freed))
  }

  lemma SettleFrees(s: State, q: Request, freed: set<nat>)
    requires TicketsOk(s) && HeldExactly(s, freed) && Settles(s, q)
    ensures HeldExactly(Step(s, q), freed + Frees(s, q))
  {
    forall o: nat | o < |s.orders|
      ensures HasKot(Step(s, q).kots, o) <==> HasKot(s.kots, o) || o in LiveIn(s, s.bills[q.bill].session)
    {
      SettleTickets(s, q.bill, q.Pay?, o);
    }
  }

  lemma CreateFrees(s: State, q: Request, freed: set<nat>)
    requires TicketsOk(s) && HeldExactly(s, freed) && q.Create?
    ensures HeldExactly(Step(s, q), freed)
  {
    var r := Step(s, q);
    forall o: nat | o < |s.orders|
      ensures HasKot(r.kots, o) <==> HasKot(s.kots, o)
    {
      KeptTickets(s.kots, r.kots, o);
    }
    assert forall k :: 0 <= k < |s.kots| ==> TicketOk(s, s.kots[k]);
  }

  lemma QuietFrees(s: State, q: Request, freed: set<nat>)
    requires HeldExactly(s, freed) && !q.Create? && !Settles(s, q)
    ensures HeldExactly(Step(s, q), freed)
  {
    var r := Step(s, q);
    assert |r.kots| == |s.kots| && forall k :: 0 <= k < |s.kots| ==> r.kots[k].order == s.kots[k].order;
    assert forall o: nat :: HasKot(r.kots, o) <==> HasKot(s.kots, o);
  }

  lemma StepFrees(s: State, q: Request, freed: set<nat>)
    requires TicketsOk(s) && HeldExactly(s, freed)
    ensures HeldExactly(Step(s, q), freed + Frees(s, q))
  {
    if Settles(s, q) {
      SettleFrees(s, q, freed);
    } else {
      assert freed + {} == freed;
      if q.Create? {
        CreateFrees(s, q, freed);
      } else {
        QuietFrees(s, q, freed);
      }
    }
  }

  lemma {:induction false} ExecFrees(s: State, run: seq<Request>, freed: set<nat>)
    requires TicketsOk(s) && HeldOk(s) && HeldExactly(s, freed)
    ensures HeldExactly(Exec(s, run), freed + Freed(s, run))
    decreases |run|
  {
    if run == [] {
      assert freed + Freed(s, run) == freed;
    } else {
      StepKeeps(s, run[0]);
      StepFrees(s, run[0], freed);
      ExecFrees(Step(s, run[0]), run[1..], freed + Frees(s, run[0]));
      assert freed + Freed(s, run) == freed + Frees(s, run[0]) + Freed(Step(s, run[0]), run[1..]);
    }
  }

  /** Over every run a held order has a ticket exactly when, while it was live, a
      bill of its session was settled by payment or no-charge. */
  lemma HeldTicketIff(run: seq<Request>, o: nat)
    ensures var s := Exec(EMPTY, run);
      o < |s.orders| && s.orders[o].held ==> (HasKot(s.kots, o) <==> o in Freed(EMPTY, run))
  {
    ExecFrees(EMPTY, run, {});
    assert {} + Freed(EMPTY, run) == Freed(EMPTY, run);
  }

  lemma CoveredStep(s: State, q: Request, bill: nat)
    requires bill < |s.bills| && s.bills[bill].taken && !s.bills[bill].settled
    requires s.bills[bill].status.Paid? || s.bills[bill].status.Cancelled?
    ensures var b := Step(s, q).bills;
      bill < |b| && b[bill].taken && !b[bill].settled && (b[bill].status.Paid? || b[bill].status.Cancelled?)
  {
  }

  /** A bill that a discount, void or comp closed never settles: whatever is paid on
      it later, or whoever marks it no-charge, no ticket is released. */
  lemma {:induction false} CoveredNeverReleases(s: State, run: seq<Request>, bill: nat, q: Request)
    requires bill < |s.bills| && s.bills[bill].taken && !s.bills[bill].settled
    requires s.bills[bill].status.Paid? || s.bills[bill].status.Cancelled?
    requires (q.Pay? || q.NoCharge?) && q.bill == bill
    ensures var end := Exec(s, run);
      && bill < |end.bills| && !end.bills[bill].settled
      && Step(end, q).kots == end.kots
    decreases |run|
  {
    if run == [] {
    } else {
      CoveredStep(s, run[0], bill);
      CoveredNeverReleases(Step(s, run[0]), run[1..], bill, q);
    }
  }

  // ---------- Tickets over runs ----------

  function Rank(k: KotStatus): nat {
    match k
    case New => 0
    case Accepted => 1
    case Preparing => 2
    case Ready => 3
    case Served => 4
    case Cancelled => 4
  }

  predicate Onward(a: Kot, b: Kot) {
    && b.order == a.order && b.lines == a.lines
    && (b.status == a.status || Rank(a.status) < Rank(b.status))
  }

  lemma {:induction false} ReleasedExtends(s: State, session: nat, n: nat)
    requires n <= |s.orders|
    ensures s.kots <= Released(s, session, n)
    decreases n
  {
    if n == 0 {
    } else {
      ReleasedExtends(s, session, n - 1);
    }
  }

  lemma StepAdvances(s: State, q: Request, k: nat)
    requires k < |s.kots|
    ensures k < |Step(s, q).kots| && Onward(s.kots[k], Step(s, q).kots[k])
  {
    if Settles(s, q) {
      ReleasedExtends(WithStatus(s, q.bill, Bills.Paid, true, q.Pay?), s.bills[q.bill].session, |s.orders|);
    }
  }

  /** Over any run a ticket stays the ticket of its order and lines, only moves
      forward, and stays where it is once served or cancelled. */
  lemma {:induction false} TicketsOnlyAdvance(s: State, run: seq<Request>, k: nat)
    requires k < |s.kots|
    ensures k < |Exec(s, run).kots| && Onward(s.kots[k], Exec(s, run).kots[k])
    decreases |run|
  {
    if run == [] {
    } else {
      StepAdvances(s, run[0], k);
      TicketsOnlyAdvance(Step(s, run[0]), run[1..], k);
    }
  }

  // ---------- Cancelled orders ----------

  /** What brings a cancelled order back: its ticket, or its delivery, moves on. */
  predicate Revives(s: State, q: Request, o: nat) {
    || (q.UpdateKot? && q.kot < |s.kots| && s.kots[q.kot].order == o
        && Allowed(s.kots[q.kot].status, q.kotStatus) && !q.kotStatus.Cancelled?)
    || (q.UpdateDelivery? && q.order == o && o < |s.orders| && s.orders[o].delivery.Some?
        && DeliveryAllowed(s.orders[o].delivery.value, q.deliveryStatus) && !q.deliveryStatus.Cancelled?)
  }

  lemma RevivedIff(s: State, q: Request, o: nat)
    requires o < |s.orders| && s.orders[o].status.Cancelled?
    ensures |Step(s, q).orders| >= |s.orders|
    ensures !Step(s, q).orders[o].status.Cancelled? <==> Revives(s, q, o)
  {
  }

  predicate AtAnEnd(k: KotStatus) { k.Served? || k.Cancelled? }

  /** Nothing can move the cancelled order's tickets or its delivery any more. */
  predicate Dead(s: State, o: nat) {
    && o < |s.orders| && s.orders[o].status.Cancelled?
    && (forall k :: 0 <= k < |s.kots| && s.kots[k].order == o ==> AtAnEnd(s.kots[k].status))
    && (s.orders[o].delivery.Some? ==> s.orders[o].delivery.value.Delivered? || s.orders[o].delivery.value.Cancelled?)
  }

  lemma {:induction false} ReleaseSkips(s: State, session: nat, n: nat, o: nat)
    requires n <= |s.orders| && Dead(s, o)
    ensures Dead(s.(kots := Released(s, session, n)), o)
    decreases n
  {
    if n == 0 {
    } else {
      ReleaseSkips(s, session, n - 1, o);
    }
  }

  lemma DeadStays(s: State, q: Request, o: nat)
    requires Dead(s, o)
    ensures Dead(Step(s, q), o)
  {
    if Settles(s, q) {
      ReleaseSkips(WithStatus(s, q.bill, Bills.Paid, true, q.Pay?), s.bills[q.bill].session, |s.orders|, o);
    }
  }

  predicate CancelledAfter(s: State, run: seq<Request>, o: nat) {
    o < |Exec(s, run).orders| && Exec(s, run).orders[o].status.Cancelled?
  }

  lemma {:induction false} DeadForEver(s: State, run: seq<Request>, o: nat)
    requires Dead(s, o)
    ensures CancelledAfter(s, run, o)
    decreases |run|
  {
    if run == [] {
    } else {
      DeadStays(s, run[0], o);
      DeadForEver(Step(s, run[0]), run[1..], o);
    }
  }

  function NextKot(k: KotStatus): KotStatus {
    if k.New? then Accepted else if k.Accepted? then KotStatus.Preparing
    else if k.Preparing? then KotStatus.Ready else KotStatus.Served
  }

  function NextDelivery(d: DeliveryStatus): DeliveryStatus {
    if d.Placed? then DeliveryStatus.Confirmed else if d.Confirmed? then DeliveryStatus.Preparing
    else if d.Preparing? then DeliveryStatus.Ready else if d.Ready? then DeliveryStatus.OutForDelivery
    else DeliveryStatus.Delivered
  }

  lemma OneRequestRevives(s: State, q: Request, o: nat)
    requires o < |s.orders| && s.orders[o].status.Cancelled? && Revives(s, q, o)
    ensures !CancelledAfter(s, [q], o)
  {
    RevivedIff(s, q, o);
    assert [q][1..] == [];
    assert Exec(s, [q]) == Exec(Step(s, q), []);
  }

  /** A cancelled order stays cancelled in every run exactly when its tickets have
      reached the end of their line and so has its delivery. */
  lemma CancelledIsFinalIff(s: State, o: nat)
    requires o < |s.orders| && s.orders[o].status.Cancelled?
    ensures (forall run :: CancelledAfter(s, run, o)) <==>
      && (forall k :: 0 <= k < |s.kots| && s.kots[k].order == o ==> s.kots[k].status.Served? || s.kots[k].status.Cancelled?)
      && (s.orders[o].delivery.Some? ==> s.orders[o].delivery.value.Delivered? || s.orders[o].delivery.value.Cancelled?)
  {
    if Dead(s, o) {
      forall run
        ensures CancelledAfter(s, run, o)
      {
        DeadForEver(s, run, o);
      }
    } else if k :| 0 <= k < |s.kots| && s.kots[k].order == o && !AtAnEnd(s.kots[k].status) {
      OneRequestRevives(s, UpdateKot(k, NextKot(s.kots[k].status)), o);
    } else {
      OneRequestRevives(s, UpdateDelivery(o, NextDelivery(s.orders[o].delivery.value)), o);
    }
  }
}
