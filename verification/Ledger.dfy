/** The books of one business: bills, payments, refunds, cash drawers and invoice
    counters, and what every billing, payment and shift request does to them.
    Rows are only ever added, so a row's index is its id. A refused or failed
    request is rolled back and leaves the books as they were, but for the capture
    webhook, which commits what it had done before it failed. */
module Ledger {
  import opened Common
  import opened BillTotals
  import opened InvoiceNumber
  import Ops = BillOperations

  datatype Tender = Cash | Upi | Card | Online | Other

  datatype PayStatus = Pending | Success | Failed | Refunded

  /** hasOrder: the payment provider accepted the order, so it can be verified. */
  datatype Payment = Payment(
    bill: nat, tender: Tender, status: PayStatus, amount: nat, gateway: bool, hasOrder: bool, shift: Option<nat>)

  datatype Refund = Refund(bill: nat, payment: nat, amount: nat, tender: Tender, shift: Option<nat>)

  datatype Shift = Shift(user: nat, open: bool, float: nat, declared: nat, expected: int, variance: int)

  /** orderKeys are the idempotency keys that gateway orders were created under.
      applied and drawers are history: the payments applied to bills, in order,
      and the cash that is physically in each drawer. */
  datatype Books = Books(
    bills: seq<BillState>,
    payments: seq<Payment>,
    refunds: seq<Refund>,
    shifts: seq<Shift>,
    counters: map<string, nat>,
    orderKeys: map<string, nat>,
    applied: seq<nat>,
    drawers: seq<int>)

  const EMPTY := Books([], [], [], [], map[], map[], [], [])

  datatype Provider = Created | Unconfigured | Errored

  type Year = y: string | YearCode(y) witness ""

  datatype Request =
    | Generate(session: nat, lines: seq<Ops.OrderLine>, taxes: seq<Tax>, charges: seq<Charge>)
    | GiveDiscount(bill: nat, off: Option<nat>, percent: Option<nat>)
    | VoidLine(bill: nat, line: nat, who: Ops.Authority)
    | CompLine(bill: nat, line: nat, who: Ops.Authority)
    | UncompLine(bill: nat, line: nat, who: Ops.Authority)
    | MarkNoCharge(bill: nat, who: Ops.Authority)
    | VoidBill(bill: nat, who: Ops.Authority)
    | PayAtCounter(bill: nat, amount: nat, tender: Tender, staff: nat, needShift: bool, year: Year)
    | CreateOrder(bill: nat, provider: Provider, key: string)
    | Verify(payment: nat, orderMatches: bool, signed: bool, year: Year)
    | Capture(payment: nat, year: Year)
    | GiveBack(payment: nat, amount: nat, back: Option<Tender>, staff: nat, allowed: bool, needShift: bool)
    | OpenShift(user: nat, float: nat)
    | CloseShift(shift: nat, declared: nat)

  // ---------- Bills ----------

  /** The session's first bill that is still open, if it has one. */
  function OpenBill(bills: seq<BillState>, session: nat, from: nat): (r: Option<nat>)
    requires from <= |bills|
    ensures r.Some? ==> r.value < |bills| && !bills[r.value].Closed()
    decreases |bills| - from
  {
    if from == |bills| then None
    else if bills[from].session == session && !bills[from].Closed() then Some(from)
    else OpenBill(bills, session, from + 1)
  }

  predicate IsEdit(r: Request) {
    r.GiveDiscount? || r.VoidLine? || r.CompLine? || r.UncompLine? || r.MarkNoCharge? || r.VoidBill?
  }

  function Edit(x: BillState, r: Request, toRupee: bool): Ops.Outcome
    requires IsEdit(r)
  {
    match r
    case GiveDiscount(_, off, percent) => Ops.ApplyDiscount(x, off, percent, toRupee)
    case VoidLine(_, k, who) => Ops.VoidLine(x, k, who, toRupee)
    case CompLine(_, k, who) => Ops.CompLine(x, k, who, toRupee)
    case UncompLine(_, k, who) => Ops.UncompLine(x, k, who, toRupee)
    case MarkNoCharge(_, who) => Ops.MarkNoCharge(x, who, toRupee)
    case VoidBill(_, who) => Ops.VoidBill(x, who)
  }

  function DoEdit(b: Books, r: Request, toRupee: bool): Books
    requires IsEdit(r)
  {
    if r.bill >= |b.bills| then b
    else match Edit(b.bills[r.bill], r, toRupee)
      case Done(after) => b.(bills := b.bills[r.bill := after])
      case Refused(_) => b
  }

  function DoGenerate(b: Books, r: Request, toRupee: bool): Books
    requires r.Generate?
  {
    var found := OpenBill(b.bills, r.session, 0);
    var id := if found.Some? then found.value else |b.bills|;
    var bill := if found.Some? then b.bills[id] else Ops.NewBill(r.session);
    var after := Ops.Refresh(bill, r.lines, r.taxes, r.charges, toRupee).bill;
    b.(bills := if found.Some? then b.bills[id := after] else b.bills + [after])
  }

  // ---------- Payments ----------

  function LastNumber(counters: map<string, nat>, year: string): nat {
    if year in counters then counters[year] else 0
  }

  /** The next number of the year is too long to issue. */
  predicate TooLong(counters: map<string, nat>, year: Year) {
    |Format(SERIES, year, LastNumber(counters, year) + 1)| > LONGEST
  }

  /** The payment settles the bill, but the number it is due is too long. */
  predicate Overflows(b: Books, id: nat, amount: nat, year: Year, toRupee: bool)
    requires id < |b.bills|
  {
    Ops.NeedsNumber(b.bills[id], amount, toRupee) && TooLong(b.counters, year)
  }

  /** Money lands on a bill; the payment that settles it takes a number from the
      counter, and the bill carries it unless it is too long. */
  function Landed(b: Books, id: nat, amount: nat, year: Year, toRupee: bool): (r: Books)
    requires id < |b.bills|
    ensures |r.bills| == |b.bills| && r == b.(bills := r.bills, counters := r.counters)
  {
    var after := Ops.TakePayment(b.bills[id], amount, toRupee);
    if Ops.NeedsNumber(b.bills[id], amount, toRupee) then
      var n := LastNumber(b.counters, year) + 1;
      var number := if Overflows(b, id, amount, year, toRupee) then None else Some(InvoiceId(year, n));
      b.(bills := b.bills[id := after.(invoice := number)], counters := b.counters[year := n])
    else b.(bills := b.bills[id := after])
  }

  /** None when the number would be too long: the request fails. */
  function Land(b: Books, id: nat, amount: nat, year: Year, toRupee: bool): Option<Books>
    requires id < |b.bills|
  {
    if Overflows(b, id, amount, year, toRupee) then None else Some(Landed(b, id, amount, year, toRupee))
  }

  function OrElse(r: Option<Books>, b: Books): Books {
    if r.Some? then r.value else b
  }

  /** The user's open drawer; the latest, though there is never more than one. */
  function DrawerOf(shifts: seq<Shift>, user: nat): (r: Option<nat>)
    ensures r.Some? ==> r.value < |shifts| && shifts[r.value].open && shifts[r.value].user == user
    ensures r.None? ==> forall i :: 0 <= i < |shifts| && shifts[i].user == user ==> !shifts[i].open
  {
    if shifts == [] then None
    else
      var last := shifts[|shifts| - 1];
      if last.user == user && last.open then Some(|shifts| - 1) else DrawerOf(shifts[..|shifts| - 1], user)
  }

  function MoveCash(drawers: seq<int>, shift: Option<nat>, tender: Tender, amount: int): seq<int> {
    if tender.Cash? && shift.Some? && shift.value < |drawers| then
      drawers[shift.value := drawers[shift.value] + amount]
    else drawers
  }

  /** The books once a counter payment's row is written, before it lands. */
  function CounterTaken(b: Books, r: Request): Books
    requires r.PayAtCounter?
  {
    var drawer := DrawerOf(b.shifts, r.staff);
    b.(payments := b.payments + [Payment(r.bill, r.tender, Success, r.amount, false, false, drawer)],
       applied := b.applied + [|b.payments|],
       drawers := MoveCash(b.drawers, drawer, r.tender, r.amount))
  }

  function DoPayAtCounter(b: Books, r: Request, toRupee: bool): Books
    requires r.PayAtCounter?
  {
    if r.bill >= |b.bills| || b.bills[r.bill].Closed() || r.amount == 0 then b
    else if DrawerOf(b.shifts, r.staff).None? && r.needShift then b
    else OrElse(Land(CounterTaken(b, r), r.bill, r.amount, r.year, toRupee), b)
  }

  /** A replayed key is answered with the payment it created and does nothing. */
  function DoCreateOrder(b: Books, r: Request): Books
    requires r.CreateOrder?
  {
    if (r.key != "" && r.key in b.orderKeys) || r.bill >= |b.bills| || b.bills[r.bill].Closed() then b
    else
      var bill := b.bills[r.bill];
      if bill.totals.grand <= bill.amountPaid || r.provider.Unconfigured? then b
      else
        var ok := r.provider.Created?;
        b.(orderKeys := if ok && r.key != "" then b.orderKeys[r.key := |b.payments|] else b.orderKeys,
           payments := b.payments
             + [Payment(r.bill, Online, if ok then Pending else Failed, bill.totals.grand - bill.amountPaid, true, ok, None)])
  }

  /** Whether a gateway confirmation of this payment would be acted on. */
  predicate Confirmable(b: Books, id: nat) {
    && id < |b.payments| && b.payments[id].gateway && b.payments[id].hasOrder && !b.payments[id].status.Success?
    && b.payments[id].bill < |b.bills|
  }

  function SetStatus(payments: seq<Payment>, id: nat, status: PayStatus): seq<Payment>
    requires id < |payments|
  {
    payments[id := payments[id].(status := status)]
  }

  function Confirmed(b: Books, id: nat): Books
    requires Confirmable(b, id)
  {
    b.(payments := SetStatus(b.payments, id, Success), applied := b.applied + [id])
  }

  function Confirm(b: Books, id: nat, year: Year, toRupee: bool): Option<Books>
    requires Confirmable(b, id)
  {
    Land(Confirmed(b, id), b.payments[id].bill, b.payments[id].amount, year, toRupee)
  }

  function DoVerify(b: Books, r: Request, toRupee: bool): Books
    requires r.Verify?
  {
    if !Confirmable(b, r.payment) || !r.orderMatches then b
    else if !r.signed then b.(payments := SetStatus(b.payments, r.payment, Failed))
    else OrElse(Confirm(b, r.payment, r.year, toRupee), b)
  }

  /** The webhook writes down that it failed and commits, and with it whatever the
      payment had already done. */
  function DoCapture(b: Books, r: Request, toRupee: bool): Books
    requires r.Capture?
  {
    if !Confirmable(b, r.payment) then b
    else Landed(Confirmed(b, r.payment), b.payments[r.payment].bill, b.payments[r.payment].amount, r.year, toRupee)
  }

  predicate TakesMoney(r: Request) { r.PayAtCounter? || r.Verify? || r.Capture? }

  function DoTakeMoney(b: Books, r: Request, toRupee: bool): Books
    requires TakesMoney(r)
  {
    if r.PayAtCounter? then DoPayAtCounter(b, r, toRupee)
    else if r.Verify? then DoVerify(b, r, toRupee)
    else DoCapture(b, r, toRupee)
  }

  // ---------- Refunds ----------

  /** What has been handed back against one payment. */
  function GivenBack(refunds: seq<Refund>, payment: nat): nat {
    if refunds == [] then 0
    else
      var last := refunds[|refunds| - 1];
      GivenBack(refunds[..|refunds| - 1], payment) + if last.payment == payment then last.amount else 0
  }

  function DoGiveBack(b: Books, r: Request): Books
    requires r.GiveBack?
  {
    if !r.allowed || r.payment >= |b.payments| || !b.payments[r.payment].status.Success?
       || b.payments[r.payment].bill >= |b.bills| then b
    else
      var p := b.payments[r.payment];
      var already := GivenBack(b.refunds, r.payment);
      if already + r.amount > p.amount then b
      else
        var drawer := DrawerOf(b.shifts, r.staff);
        if drawer.None? && r.needShift then b
        else
          var tender := if r.back.Some? then r.back.value else p.tender;
          var bill := b.bills[p.bill];
          b.(refunds := b.refunds + [Refund(p.bill, r.payment, r.amount, tender, drawer)],
             payments := if already + r.amount >= p.amount then SetStatus(b.payments, r.payment, Refunded) else b.payments,
             bills := b.bills[p.bill := bill.(amountRefunded := bill.amountRefunded + r.amount)],
             drawers := MoveCash(b.drawers, drawer, tender, -(r.amount as int)))
  }

  // ---------- Shifts ----------

  /** Cash payments recorded on a drawer whose status passes the filter. */
  datatype Which = Recorded | Standing | Returned

  predicate Counts(p: Payment, shift: nat, which: Which) {
    && p.tender.Cash? && p.shift == Some(shift)
    && (which.Standing? ==> p.status.Success?) && (which.Returned? ==> p.status.Refunded?)
  }

  function CashIn(payments: seq<Payment>, shift: nat, which: Which): nat {
    if payments == [] then 0
    else
      var last := payments[|payments| - 1];
      CashIn(payments[..|payments| - 1], shift, which) + if Counts(last, shift, which) then last.amount else 0
  }

  function CashOut(refunds: seq<Refund>, shift: nat): nat {
    if refunds == [] then 0
    else
      var last := refunds[|refunds| - 1];
      CashOut(refunds[..|refunds| - 1], shift) + if last.tender.Cash? && last.shift == Some(shift) then last.amount else 0
  }

  function ExpectedCash(b: Books, shift: nat): int
    requires shift < |b.shifts|
  {
    b.shifts[shift].float + CashIn(b.payments, shift, Standing) - CashOut(b.refunds, shift)
  }

  function DoOpenShift(b: Books, r: Request): Books
    requires r.OpenShift?
  {
    if DrawerOf(b.shifts, r.user).Some? then b
    else b.(shifts := b.shifts + [Shift(r.user, true, r.float, 0, 0, 0)], drawers := b.drawers + [r.float])
  }

  function DoCloseShift(b: Books, r: Request): Books
    requires r.CloseShift?
  {
    if r.shift >= |b.shifts| || !b.shifts[r.shift].open then b
    else
      var expected := ExpectedCash(b, r.shift);
      b.(shifts := b.shifts[r.shift := b.shifts[r.shift].(
        open := false, declared := r.declared, expected := expected, variance := r.declared - expected)])
  }

  // ---------- Runs ----------

  function Step(b: Books, r: Request, toRupee: bool): Books {
    if IsEdit(r) then DoEdit(b, r, toRupee)
    else if TakesMoney(r) then DoTakeMoney(b, r, toRupee)
    else if r.Generate? then DoGenerate(b, r, toRupee)
    else if r.CreateOrder? then DoCreateOrder(b, r)
    else if r.GiveBack? then DoGiveBack(b, r)
    else if r.OpenShift? then DoOpenShift(b, r)
    else DoCloseShift(b, r)
  }

  /** One request, and the owner's round-off switch as it stands when it is served. */
  datatype Turn = Turn(request: Request, toRupee: bool)

  function After(b: Books, t: Turn): Books { Step(b, t.request, t.toRupee) }

  /** A serial run. The switch may be flipped between any two requests. */
  function Exec(b: Books, run: seq<Turn>): Books
    decreases |run|
  {
    if run == [] then b else Exec(After(b, run[0]), run[1..])
  }
}
