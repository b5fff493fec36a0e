/** A business's subscription: its status is only brought up to date when it is
    read, and must then say what a clock watching all along would say. */
module SubscriptionClock {
  import opened Common
  import opened Calendar

  const GRACE_DAYS := 3

  datatype Status = Pending | Active | PaymentFailed | Cancelled | Grace | Suspended

  datatype Sub = Sub(status: Status, start: Option<Time>, end: Option<Time>, cancelledAt: Option<Time>)

  /** What a clock says of a period that ends at end. */
  function Classify(end: Time, now: Time): Status {
    if Instant(now) > Instant(end) + GRACE_DAYS * DAY then Suspended
    else if Instant(now) > Instant(end) then Grace
    else Active
  }

  function Refreshed(s: Sub, now: Time): Sub {
    if (!s.status.Active? && !s.status.Grace?) || s.end.None? then s
    else if Instant(now) > Instant(s.end.value) + GRACE_DAYS * DAY then s.(status := Suspended)
    else if Instant(now) > Instant(s.end.value) then s.(status := Grace)
    else s
  }

  function RenewBase(end: Option<Time>, now: Time): Time {
    if end.Some? && Instant(end.value) > Instant(now) then end.value else now
  }

  datatype Request =
    | Read(now: Time)
    | Provision(now: Time, months: nat)
    | Renew(now: Time, months: nat)
    | Suspend(now: Time)
    | Cancel(now: Time)

  /** None: the business has no subscription row yet. */
  function Step(s: Option<Sub>, q: Request): Option<Sub> {
    match q
    case Read(now) => if s.Some? then Some(Refreshed(s.value, now)) else None
    case Provision(now, months) => Some(Sub(Active, Some(now), Some(AddMonths(now, months)), None))
    case Renew(now, months) =>
      if s.None? then None
      else Some(Sub(Active, if s.value.start.None? then Some(now) else s.value.start,
                    Some(AddMonths(RenewBase(s.value.end, now), months)), s.value.cancelledAt))
    case Suspend(now) => if s.None? then None else Some(s.value.(status := Suspended))
    case Cancel(now) =>
      if s.None? || s.value.status.Cancelled? then s
      else Some(s.value.(status := Cancelled, cancelledAt := Some(now)))
  }

  function Exec(s: Option<Sub>, run: seq<Request>): Option<Sub>
    decreases |run|
  {
    if run == [] then s else Exec(Step(s, run[0]), run[1..])
  }

  /** What a plan change writes. A renewal keeps the start and the mark of an earlier
      cancellation, a suspension the whole period; a cancellation is stamped once. */
  lemma RequestsWrite(s: Sub, now: Time, months: nat)
    ensures forall x: Option<Sub> ::
      Step(x, Provision(now, months)) == Some(Sub(Active, Some(now), Some(AddMonths(now, months)), None))
    ensures var r := Step(Some(s), Renew(now, months));
      r.Some? && r.value.status == Active && r.value.cancelledAt == s.cancelledAt
      && r.value.start == (if s.start.Some? then s.start else Some(now))
    ensures Step(Some(s), Suspend(now)) == Some(Sub(Suspended, s.start, s.end, s.cancelledAt))
    ensures Step(Some(s), Cancel(now))
      == Some(if s.status == Cancelled then s else Sub(Cancelled, s.start, s.end, Some(now)))
    ensures Step(None, Renew(now, months)) == None && Step(None, Suspend(now)) == None && Step(None, Cancel(now)) == None
  {
  }

  predicate SetUp(run: seq<Request>) { exists i :: 0 <= i < |run| && run[i].Provision? }

  /** The last plan change was a cancellation. */
  predicate Over(run: seq<Request>) {
    run != [] &&
      (var q := run[|run| - 1]; q.Cancel? || (q.Read? && Over(run[..|run| - 1])))
  }

  /** When a cancellation was stamped, read off the run: at the first Cancel since the
      plan was last set up, renewed or suspended, if any came, and else as before. */
  function Stamp(run: seq<Request>): Option<Time> {
    if run == [] then None
    else
      var past, q := run[..|run| - 1], run[|run| - 1];
      if q.Provision? || !SetUp(past) then None
      else if q.Cancel? && !Over(past) then Some(q.now)
      else Stamp(past)
  }

  lemma {:induction false} ExecLast(s: Option<Sub>, run: seq<Request>, q: Request)
    ensures Exec(s, run + [q]) == Step(Exec(s, run), q)
    decreases |run|
  {
    if run == [] {
      assert run + [q] == [q] && [q][1..] == [];
    } else {
      assert (run + [q])[1..] == run[1..] + [q];
      ExecLast(Step(s, run[0]), run[1..], q);
    }
  }

  /** After any run the row says when it was cancelled, reads and all. */
  lemma {:induction false} CancelledWhen(run: seq<Request>)
    ensures var s := Exec(None, run);
      && (s.Some? <==> SetUp(run))
      && (s.Some? ==> s.value.cancelledAt == Stamp(run) && (s.value.status.Cancelled? <==> Over(run)))
    decreases |run|
  {
    if run == [] {
    } else {
      var past, q := run[..|run| - 1], run[|run| - 1];
      assert run == past + [q];
      CancelledWhen(past);
      ExecLast(None, past, q);
      assert SetUp(run) <==> SetUp(past) || q.Provision?;
    }
  }

  // ---------- The eager clock ----------

  /** A subscription that needs no reads: running until told otherwise. */
  datatype Mode = Running | Stopped | Ended

  datatype Eager = Eager(mode: Mode, end: Time)

  function EagerStatus(e: Eager, now: Time): Status {
    match e.mode
    case Running => Classify(e.end, now)
    case Stopped => Suspended
    case Ended => Cancelled
  }

  function EagerStep(e: Option<Eager>, q: Request): Option<Eager> {
    match q
    case Read(_) => e
    case Provision(now, months) => Some(Eager(Running, AddMonths(now, months)))
    case Renew(now, months) =>
      if e.None? then None else Some(Eager(Running, AddMonths(RenewBase(Some(e.value.end), now), months)))
    case Suspend(_) => if e.None? then None else Some(Eager(Stopped, e.value.end))
    case Cancel(_) => if e.None? then None else Some(Eager(Ended, e.value.end))
  }

  function EagerExec(e: Option<Eager>, run: seq<Request>): Option<Eager>
    decreases |run|
  {
    if run == [] then e else EagerExec(EagerStep(e, run[0]), run[1..])
  }

  ghost predicate InOrder(run: seq<Request>, from: nat, until: nat) {
    && (forall i :: 0 <= i < |run| ==> from <= Instant(run[i].now) <= until)
    && (forall i, j :: 0 <= i < j < |run| ==> Instant(run[i].now) <= Instant(run[j].now))
  }

  function Severity(s: Status): nat {
    if s.Active? then 0 else if s.Grace? then 1 else 2
  }

  function SeverityAt(end: Time, instant: nat): nat {
    if instant > Instant(end) + GRACE_DAYS * DAY then 2 else if instant > Instant(end) then 1 else 0
  }

  /** The row may lag behind the clock but is never ahead of it. */
  predicate Lags(s: Option<Sub>, e: Option<Eager>, last: nat) {
    && (s.None? <==> e.None?)
    && (s.Some? ==>
      && s.value.end == Some(e.value.end)
      && (match e.value.mode
          case Running =>
            (s.value.status.Active? || s.value.status.Grace? || s.value.status.Suspended?)
            && Severity(s.value.status) <= SeverityAt(e.value.end, last)
          case Stopped => s.value.status.Suspended?
          case Ended => s.value.status.Cancelled?))
  }

  lemma StepLags(s: Option<Sub>, e: Option<Eager>, q: Request, last: nat)
    requires Lags(s, e, last) && last <= Instant(q.now)
    ensures Lags(Step(s, q), EagerStep(e, q), Instant(q.now))
  {
  }

  lemma {:induction false} ExecLags(s: Option<Sub>, e: Option<Eager>, run: seq<Request>, last: nat, until: nat)
    requires Lags(s, e, last) && last <= until && InOrder(run, last, until)
    ensures Lags(Exec(s, run), EagerExec(e, run), until)
    decreases |run|
  {
    if run == [] {
    } else {
      var now := Instant(run[0].now);
      StepLags(s, e, run[0], last);
      ExecLags(Step(s, run[0]), EagerStep(e, run[0]), run[1..], now, until);
    }
  }

  /** After any run of requests in time order, a read says what the eager clock
      says at that moment. */
  lemma LazyIsEager(run: seq<Request>, now: Time)
    requires InOrder(run, 0, Instant(now))
    ensures var read := Step(Exec(None, run), Read(now));
      && (read.None? <==> EagerExec(None, run).None?)
      && (read.Some? ==> read.value.status == EagerStatus(EagerExec(None, run).value, now))
  {
    ExecLags(None, None, run, 0, Instant(now));
  }

  /** What a read makes of a running period: ACTIVE to its last microsecond, then in
      grace for three days of 86,400 seconds, then SUSPENDED. */
  lemma GraceIsThreeDays(s: Sub, now: Time)
    requires s.status.Active? && s.end.Some?
    ensures var late, status := Instant(now) - Instant(s.end.value), Refreshed(s, now).status;
      && (status == Active <==> late <= 0)
      && (status == Grace <==> 0 < late <= 3 * 86_400 * 1_000_000)
      && (status == Suspended <==> 3 * 86_400 * 1_000_000 < late)
  {
  }

  // ---------- Renewal ----------

  /** Renewing, from whatever status, moves the end strictly past both today and
      the old end, counts from whichever is later, and the plan reads as active. */
  lemma RenewMovesOn(s: Sub, now: Time, months: nat)
    requires months >= 1
    ensures var r := Step(Some(s), Renew(now, months)).value;
      && r.end.Some? && Instant(now) < Instant(r.end.value)
      && (s.end.Some? ==> Instant(s.end.value) < Instant(r.end.value))
      && (s.end.Some? && Instant(s.end.value) >= Instant(now) ==> r.end.value == AddMonths(s.end.value, months))
      && Refreshed(r, now).status == Active
  {
    AddMonthsMovesOn(RenewBase(s.end, now), months);
    if s.end.Some? && Instant(s.end.value) == Instant(now) {
      InstantOrder(s.end.value, now);
    }
  }

  /** Renewing early in two goes buys the same month as in one, at most three
      days short. */
  lemma RenewTwice(s: Sub, now: Time, a: nat, b: nat)
    requires a >= 1 && s.end.Some? && Instant(s.end.value) > Instant(now)
    ensures var once := Step(Some(s), Renew(now, a + b)).value.end.value;
      var twice := Step(Step(Some(s), Renew(now, a)), Renew(now, b)).value.end.value;
      && Index(twice) == Index(once) && twice.day <= once.day <= twice.day + 3 && twice.tick == once.tick
  {
    AddMonthsMovesOn(s.end.value, a);
    AddMonthsTwice(s.end.value, a, b);
  }

  /** One business's row, in place; present tells whether it exists yet. */
  class Account {
    var present: bool
    var status: Status
    var start: Option<Time>
    var end: Option<Time>
    var cancelledAt: Option<Time>

    function Row(): Option<Sub>
      reads this
    {
      if present then Some(Sub(status, start, end, cancelledAt)) else None
    }

    constructor ()
      ensures Row() == None
    {
      present, status, start, end, cancelledAt := false, Pending, None, None, None;
    }

    method ApplyLazyStatus(now: Time)
      modifies `status
      ensures present ==> Row() == Some(Refreshed(old(Row()).value, now))
      ensures !present ==> Row() == None
    {
      if !status.Active? && !status.Grace? {
        return;
      }
      if end.None? {
        return;
      }
      var deadline := Instant(end.value) + GRACE_DAYS * DAY;
      if Instant(now) > deadline {
        status := Suspended;
      } else if Instant(now) > Instant(end.value) {
        status := Grace;
      }
    }

    method GetStatus(now: Time) returns (s: Option<Status>)
      modifies `status
      ensures Row() == Step(old(Row()), Read(now))
      ensures s == if present then Some(status) else None
    {
      if present {
        ApplyLazyStatus(now);
        s := Some(status);
      } else {
        s := None;
      }
    }

    method ProvisionPlan(now: Time, months: nat)
      modifies this
      ensures Row() == Step(old(Row()), Provision(now, months))
    {
      present, status := true, Active;
      start := Some(now);
      end := Some(AddMonths(now, months));
      cancelledAt := None;
    }

    method RenewPlan(now: Time, months: nat) returns (ok: bool)
      modifies this
      ensures ok == old(present) && Row() == Step(old(Row()), Renew(now, months))
    {
      if !present {
        return false;
      }
      var base := if end.Some? && Instant(end.value) > Instant(now) then end.value else now;
      if start.None? {
        start := Some(now);
      }
      end := Some(AddMonths(base, months));
      status := Active;
      return true;
    }

    method SuspendPlan(now: Time) returns (ok: bool)
      modifies `status
      ensures ok == present && Row() == Step(old(Row()), Suspend(now))
    {
      if present {
        status := Suspended;
      }
      ok := present;
    }

    method CancelPlan(now: Time) returns (ok: bool)
      modifies `status, `cancelledAt
      ensures ok == present && Row() == Step(old(Row()), Cancel(now))
    {
      if present && !status.Cancelled? {
        status := Cancelled;
        cancelledAt := Some(now);
      }
      ok := present;
    }
  }
}
