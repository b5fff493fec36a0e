/** Orders, the table sessions that hold them, and the kitchen tickets (KOTs)
    fired for them. Rows are numbered by their place in their table. */
module Kitchen {
  import opened Common
  import Bills = BillTotals

  datatype OrderStatus =
    | Placed | Confirmed | Preparing | Ready | OutForDelivery | Served | Delivered | Completed | Cancelled

  datatype KotStatus = New | Accepted | Preparing | Ready | Served | Cancelled

  datatype DeliveryStatus = Placed | Confirmed | Preparing | Ready | OutForDelivery | Delivered | Cancelled

  /** place is the table or room; pickup and delivery sessions have none. */
  datatype Session = Session(place: Option<nat>, closed: bool)

  /** held: created with its ticket held back. delivery is None unless delivered. */
  datatype Order = Order(
    session: nat, place: Option<nat>, status: OrderStatus, held: bool, delivery: Option<DeliveryStatus>)

  datatype Kot = Kot(order: nat, lines: seq<nat>, status: KotStatus, place: Option<nat>)

  /** settled: it was paid in full by a payment, or marked no-charge.
      taken: some money was taken on it. */
  datatype Bill = Bill(session: nat, status: Bills.Status, settled: bool, taken: bool)

  /** lines[i] is the order that order line i belongs to. */
  datatype State = State(sessions: seq<Session>, orders: seq<Order>, lines: seq<nat>, kots: seq<Kot>, bills: seq<Bill>)

  datatype Request =
    | Create(place: Option<nat>, persistent: bool, count: nat, hold: bool, delivered: bool)
    | Cancel(order: nat)
    | UpdateKot(kot: nat, kotStatus: KotStatus)
    | UpdateDelivery(order: nat, deliveryStatus: DeliveryStatus)
    | Transfer(session: nat, destination: nat, available: bool)
    | Merge(from: nat, into: nat)
    | GenerateBill(session: nat)
    | Pay(bill: nat, full: bool)             // full: what has been paid now covers the total
    | CoverByReduction(bill: nat)            // a discount, void or comp after which it does
    | NoCharge(bill: nat, allowed: bool)     // allowed: authority and reason given
    | VoidBill(bill: nat)

  // ---------- Tickets ----------

  function LinesOf(lines: seq<nat>, order: nat, from: nat): seq<nat>
    decreases |lines| - from
  {
    if from >= |lines| then []
    else (if lines[from] == order then [from] else []) + LinesOf(lines, order, from + 1)
  }

  predicate HasKot(kots: seq<Kot>, order: nat) {
    exists k :: 0 <= k < |kots| && kots[k].order == order
  }

  function Ticket(s: State, order: nat): Kot
    requires order < |s.orders|
  {
    Kot(order, LinesOf(s.lines, order, 0), New, s.orders[order].place)
  }

  predicate Due(s: State, kots: seq<Kot>, session: nat, order: nat)
    requires order < |s.orders|
  {
    s.orders[order].session == session && !s.orders[order].status.Cancelled? && !HasKot(kots, order)
  }

  /** The tickets once the first n orders have been looked at for release. */
  function Released(s: State, session: nat, n: nat): seq<Kot>
    requires n <= |s.orders|
  {
    if n == 0 then s.kots
    else
      var before := Released(s, session, n - 1);
      if Due(s, before, session, n - 1) then before + [Ticket(s, n - 1)] else before
  }

  function Release(s: State, session: nat): State {
    s.(kots := Released(s, session, |s.orders|))
  }

  predicate Allowed(before: KotStatus, after: KotStatus) {
    match before
    case New => after.Accepted? || after.Cancelled?
    case Accepted => after.Preparing? || after.Cancelled?
    case Preparing => after.Ready? || after.Cancelled?
    case Ready => after.Served?
    case _ => false
  }

  function FromKot(k: KotStatus): OrderStatus {
    match k
    case New => OrderStatus.Placed
    case Accepted => OrderStatus.Confirmed
    case Preparing => OrderStatus.Preparing
    case Ready => OrderStatus.Ready
    case Served => OrderStatus.Served
    case Cancelled => OrderStatus.Cancelled
  }

  predicate DeliveryAllowed(before: DeliveryStatus, after: DeliveryStatus) {
    match before
    case Placed => after.Confirmed? || after.Cancelled?
    case Confirmed => after.Preparing? || after.Cancelled?
    case Preparing => after.Ready? || after.Cancelled?
    case Ready => after.OutForDelivery? || after.Cancelled?
    case OutForDelivery => after.Delivered? || after.Cancelled?
    case _ => false
  }

  function FromDelivery(d: DeliveryStatus): OrderStatus {
    match d
    case Placed => OrderStatus.Placed
    case Confirmed => OrderStatus.Confirmed
    case Preparing => OrderStatus.Preparing
    case Ready => OrderStatus.Ready
    case OutForDelivery => OrderStatus.OutForDelivery
    case Delivered => OrderStatus.Delivered
    case Cancelled => OrderStatus.Cancelled
  }

  // ---------- Sessions ----------

  /** The first open session at a place, or one past the end. */
  function OpenSession(sessions: seq<Session>, place: nat, from: nat): (i: nat)
    requires from <= |sessions|
    ensures from <= i <= |sessions|
    ensures i < |sessions| ==> !sessions[i].closed && sessions[i].place == Some(place)
    ensures forall j :: from <= j < i ==> sessions[j].closed || sessions[j].place != Some(place)
    decreases |sessions| - from
  {
    if from == |sessions| then from
    else if !sessions[from].closed && sessions[from].place == Some(place) then from
    else OpenSession(sessions, place, from + 1)
  }

  predicate Billed(s: State, session: nat) {
    exists b :: 0 <= b < |s.bills| && s.bills[b].session == session
  }

  predicate OpenBill(b: Bill, session: nat) {
    b.session == session && (b.status.Open? || b.status.PartiallyPaid?)
  }

  /** The session's live orders go along; cancelled ones stay behind. */
  function Moved(o: Order, from: nat, into: nat, place: Option<nat>): Order {
    if o.session == from && !o.status.Cancelled? then o.(session := into, place := place) else o
  }

  function MovedKot(s: State, k: Kot, from: nat, place: Option<nat>): Kot {
    if k.order < |s.orders| && s.orders[k.order].session == from && !s.orders[k.order].status.Cancelled?
       && !k.status.Served? && !k.status.Cancelled?
    then k.(place := place)
    else k
  }

  function MoveAll(s: State, from: nat, into: nat, place: Option<nat>): State {
    s.(orders := seq(|s.orders|, i requires 0 <= i < |s.orders| => Moved(s.orders[i], from, into, place)),
       kots := seq(|s.kots|, i requires 0 <= i < |s.kots| => MovedKot(s, s.kots[i], from, place)))
  }

  predicate CanTransfer(s: State, session: nat, place: nat, available: bool) {
    && session < |s.sessions| && !s.sessions[session].closed
    && s.sessions[session].place.Some? && s.sessions[session].place.value != place
    && available && !Billed(s, session)
  }

  predicate CanMerge(s: State, from: nat, into: nat) {
    && from != into && from < |s.sessions| && into < |s.sessions|
    && !s.sessions[from].closed && !s.sessions[into].closed
    && s.sessions[from].place.Some? && s.sessions[into].place.Some?
    && !Billed(s, from) && !Billed(s, into)
  }

  // ---------- Requests ----------

  function DoCreate(s: State, place: Option<nat>, persistent: bool, count: nat, hold: bool, delivered: bool): State {
    var at := if place.Some? && persistent then OpenSession(s.sessions, place.value, 0) else |s.sessions|;
    var id := |s.orders|;
    var added := s.(
      sessions := if at < |s.sessions| then s.sessions else s.sessions + [Session(place, false)],
      orders := s.orders + [Order(at, place, OrderStatus.Placed, hold, if delivered then Some(DeliveryStatus.Placed) else None)],
      lines := s.lines + seq(count, _ => id));
    if hold then added else added.(kots := s.kots + [Ticket(added, id)])
  }

  function DoCancel(s: State, order: nat): State {
    if order >= |s.orders| then s
    else
      var status := s.orders[order].status;
      if status.Served? || status.Delivered? || status.Completed? then s
      else s.(orders := s.orders[order := s.orders[order].(status := OrderStatus.Cancelled)])
  }

  function DoUpdateKot(s: State, kot: nat, status: KotStatus): State {
    if kot >= |s.kots| || !Allowed(s.kots[kot].status, status) then s
    else
      var o := s.kots[kot].order;
      s.(kots := s.kots[kot := s.kots[kot].(status := status)],
         orders := if o < |s.orders| then s.orders[o := s.orders[o].(status := FromKot(status))] else s.orders)
  }

  function DoUpdateDelivery(s: State, order: nat, status: DeliveryStatus): State {
    if order >= |s.orders| || s.orders[order].delivery.None? || !DeliveryAllowed(s.orders[order].delivery.value, status) then s
    else s.(orders := s.orders[order := s.orders[order].(delivery := Some(status), status := FromDelivery(status))])
  }

  function DoTransfer(s: State, session: nat, place: nat, available: bool): State {
    if !CanTransfer(s, session, place, available) then s
    else
      MoveAll(s, session, session, Some(place)).(
        sessions := s.sessions[session := s.sessions[session].(place := Some(place))])
  }

  function DoMerge(s: State, from: nat, into: nat): State {
    if !CanMerge(s, from, into) then s
    else
      MoveAll(s, from, into, s.sessions[into].place).(
        sessions := s.sessions[from := s.sessions[from].(closed := true)])
  }

  function DoGenerateBill(s: State, session: nat): State {
    if session >= |s.sessions| || (exists b :: 0 <= b < |s.bills| && OpenBill(s.bills[b], session)) then s
    else s.(bills := s.bills + [Bill(session, Bills.Open, false, false)])
  }

  function WithStatus(s: State, bill: nat, status: Bills.Status, settled: bool, taken: bool): State
    requires bill < |s.bills|
  {
    s.(bills := s.bills[bill := Bill(s.bills[bill].session, status, settled, taken)])
  }

  /** A payment or a no-charge mark closes the bill and releases its session's tickets. */
  function Settle(s: State, bill: nat, taken: bool): State
    requires bill < |s.bills|
  {
    Release(WithStatus(s, bill, Bills.Paid, true, taken), s.bills[bill].session)
  }

  /** Money may land on a closed bill; only the payment that closes one settles it. */
  function DoPay(s: State, bill: nat, full: bool): State {
    if bill >= |s.bills| then s
    else
      var b := s.bills[bill];
      if b.status.Paid? || b.status.Cancelled? then WithStatus(s, bill, b.status, b.settled, true)
      else if !full then WithStatus(s, bill, Bills.PartiallyPaid, b.settled, true)
      else Settle(s, bill, true)
  }

  /** The recomputation closes the bill: no payment settled it, so no ticket is released. */
  function DoCover(s: State, bill: nat): State {
    if bill >= |s.bills| || !s.bills[bill].status.PartiallyPaid? then s
    else s.(bills := s.bills[bill := s.bills[bill].(status := Bills.Paid)])
  }

  predicate CanNoCharge(s: State, bill: nat, allowed: bool) {
    bill < |s.bills| && !s.bills[bill].status.Cancelled? && !s.bills[bill].settled && !s.bills[bill].taken && allowed
  }

  function DoNoCharge(s: State, bill: nat, allowed: bool): State {
    if CanNoCharge(s, bill, allowed) then Settle(s, bill, false) else s
  }

  function DoVoidBill(s: State, bill: nat): State {
    if bill >= |s.bills| then s
    else s.(bills := s.bills[bill := s.bills[bill].(status := Bills.Cancelled)])
  }

  function Step(s: State, q: Request): State {
    match q
    case Create(place, persistent, count, hold, delivered) => DoCreate(s, place, persistent, count, hold, delivered)
    case Cancel(order) => DoCancel(s, order)
    case UpdateKot(kot, status) => DoUpdateKot(s, kot, status)
    case UpdateDelivery(order, status) => DoUpdateDelivery(s, order, status)
    case Transfer(session, place, available) => DoTransfer(s, session, place, available)
    case Merge(from, into) => DoMerge(s, from, into)
    case GenerateBill(session) => DoGenerateBill(s, session)
    case Pay(bill, full) => DoPay(s, bill, full)
    case CoverByReduction(bill) => DoCover(s, bill)
    case NoCharge(bill, allowed) => DoNoCharge(s, bill, allowed)
    case VoidBill(bill) => DoVoidBill(s, bill)
  }

  function Exec(s: State, run: seq<Request>): State
    decreases |run|
  {
    if run == [] then s else Exec(Step(s, run[0]), run[1..])
  }

  const EMPTY := State([], [], [], [], [])
}
