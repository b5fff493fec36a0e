/** The cash in a drawer, read off what the requests of a run said: the float, the
    cash taken at the counter, and what was asked to be handed back in cash. And the
    figures a drawer is closed with. */
module LedgerCash {
  import opened Common
  import opened Ledger
  import opened LedgerBills
  import opened LedgerMoney
  import opened LedgerDrawer
  import opened LedgerRows

  // ---------- Cash ----------

  /** Asked to hand it back in cash: by name, or as the money came in. */
  predicate BackInCash(b: Books, r: Request)
    requires r.GiveBack?
  {
    if r.back.Some? then r.back.value == Cash else r.payment < |b.payments| && b.payments[r.payment].tender == Cash
  }

  /** What a turn puts into a drawer, or takes out, as its request says it. */
  function CashSaid(b: Books, t: Turn, s: nat): int {
    var r, next := t.request, After(b, t);
    if r.OpenShift? then (if s == |b.shifts| < |next.shifts| then r.float else 0)
    else if r.PayAtCounter? then
      (if |next.payments| > |b.payments| && r.tender == Cash && Mans(b.shifts, s, r.staff) then r.amount else 0)
    else if r.GiveBack? then
      (if |next.refunds| > |b.refunds| && BackInCash(b, r) && Mans(b.shifts, s, r.staff) then -(r.amount as int) else 0)
    else 0
  }

  function CashOver(b: Books, run: seq<Turn>, s: nat): int
    decreases |run|
  {
    if run == [] then 0 else CashSaid(b, run[0], s) + CashOver(After(b, run[0]), run[1..], s)
  }

  function InDrawer(b: Books, s: nat): int { if s < |b.drawers| then b.drawers[s] else 0 }

  lemma OneDrawer(b: Books, user: nat, s: nat)
    requires DrawersOk(b)
    ensures Mans(b.shifts, s, user) <==> DrawerOf(b.shifts, user) == Some(s)
  {
    DrawerIff(b.shifts, user);
  }

  lemma CounterSays(b: Books, t: Turn, s: nat)
    requires DrawersOk(b) && t.request.PayAtCounter?
    ensures InDrawer(DoPayAtCounter(b, t.request, t.toRupee), s) == InDrawer(b, s)
      + if |DoPayAtCounter(b, t.request, t.toRupee).payments| > |b.payments| && t.request.tender == Cash
           && Mans(b.shifts, s, t.request.staff) then t.request.amount else 0
  {
    OneDrawer(b, t.request.staff, s);
  }

  lemma GiveBackSays(b: Books, r: Request, s: nat)
    requires DrawersOk(b) && r.GiveBack?
    ensures InDrawer(DoGiveBack(b, r), s) == InDrawer(b, s)
      - if |DoGiveBack(b, r).refunds| > |b.refunds| && BackInCash(b, r) && Mans(b.shifts, s, r.staff) then r.amount else 0
  {
    OneDrawer(b, r.staff, s);
  }

  lemma OthersSay(b: Books, t: Turn, s: nat)
    requires DrawersOk(b) && !t.request.PayAtCounter? && !t.request.GiveBack?
    ensures InDrawer(After(b, t), s) == InDrawer(b, s) + CashSaid(b, t, s)
  {
  }

  lemma TurnSays(b: Books, t: Turn, s: nat)
    requires DrawersOk(b)
    ensures InDrawer(After(b, t), s) == InDrawer(b, s) + CashSaid(b, t, s)
  {
    if t.request.PayAtCounter? {
      CounterSays(b, t, s);
      assert After(b, t) == DoPayAtCounter(b, t.request, t.toRupee);
    } else if t.request.GiveBack? {
      GiveBackSays(b, t.request, s);
      assert After(b, t) == DoGiveBack(b, t.request);
    } else {
      OthersSay(b, t, s);
    }
  }

  lemma {:induction false} RunSays(b: Books, run: seq<Turn>, s: nat)
    requires DrawersOk(b)
    ensures InDrawer(Exec(b, run), s) == InDrawer(b, s) + CashOver(b, run, s)
    decreases |run|
  {
    if run == [] {
    } else {
      TurnSays(b, run[0], s);
      StepKeepsDrawers(b, run[0].request, run[0].toRupee);
      RunSays(After(b, run[0]), run[1..], s);
    }
  }

  /** In every reachable state the cash in a drawer is its float, plus the cash that
      counter payments put into it, minus what refunds asked to hand back in cash;
      and the expected figure is that, less the drawer's cash payments refunded whole. */
  lemma DrawerHoldsWhatWasSaid(run: seq<Turn>, s: nat)
    ensures var b := Exec(EMPTY, run);
      s < |b.shifts| ==>
        && s < |b.drawers| && b.drawers[s] == CashOver(EMPTY, run, s)
        && ExpectedCash(b, s) == CashOver(EMPTY, run, s) - CashIn(b.payments, s, Returned)
  {
    RunSays(EMPTY, run, s);
    DrawerEquation(run);
  }

  // ---------- Closing ----------

  /** The figures of a shift closed in a state: what was counted, what its drawer
      should have held, and by how much the count is over. */
  predicate ClosedWith(b: Books, s: nat, declared: nat, row: Shift)
    requires s < |b.shifts| && s < |b.drawers|
  {
    && !row.open && row.user == b.shifts[s].user && row.float == b.shifts[s].float
    && row.declared == declared
    && row.expected == b.drawers[s] - CashIn(b.payments, s, Returned)
    && row.variance == declared - row.expected
  }

  /** The run's n-th turn closed the shift, as its row now says. */
  predicate ClosedAt(run: seq<Turn>, n: nat, s: nat, row: Shift) {
    && n < |run| && run[n].request.CloseShift? && run[n].request.shift == s
    && (var b := Exec(EMPTY, run[..n]);
        s < |b.shifts| && s < |b.drawers| && b.shifts[s].open && ClosedWith(b, s, run[n].request.declared, row))
  }

  lemma {:induction false} ExecLast(b: Books, run: seq<Turn>, t: Turn)
    ensures Exec(b, run + [t]) == After(Exec(b, run), t)
    decreases |run|
  {
    if run == [] {
      assert run + [t] == [t] && [t][1..] == [];
    } else {
      assert (run + [t])[1..] == run[1..] + [t];
      ExecLast(After(b, run[0]), run[1..], t);
    }
  }

  lemma TurnCloses(b: Books, t: Turn, s: nat)
    requires s < |After(b, t).shifts| && !After(b, t).shifts[s].open && |b.drawers| == |b.shifts|
    ensures s < |b.shifts|
    ensures After(b, t).shifts[s] == b.shifts[s]
      || (t.request.CloseShift? && t.request.shift == s && b.shifts[s].open)
  {
  }

  lemma CloseWrites(run: seq<Turn>, r: Request)
    requires var b := Exec(EMPTY, run); r.CloseShift? && r.shift < |b.shifts| && b.shifts[r.shift].open
    ensures var b := Exec(EMPTY, run);
      r.shift < |b.drawers| && ClosedWith(b, r.shift, r.declared, DoCloseShift(b, r).shifts[r.shift])
  {
    DrawerEquation(run);
  }

  /** In every reachable state a closed shift was closed by one turn of the run, and
      its row still says what that turn's request declared, what its drawer then held
      less its cash payments refunded whole by then, and the difference. */
  lemma {:induction false} ClosedShiftsTell(run: seq<Turn>, s: nat)
    requires s < |Exec(EMPTY, run).shifts| && !Exec(EMPTY, run).shifts[s].open
    ensures exists n: nat :: ClosedAt(run, n, s, Exec(EMPTY, run).shifts[s])
    decreases |run|
  {
    if run == [] {
    } else {
      var past, t := run[..|run| - 1], run[|run| - 1];
      assert run == past + [t];
      ExecLast(EMPTY, past, t);
      DrawerEquation(past);
      var b, row := Exec(EMPTY, past), Exec(EMPTY, run).shifts[s];
      TurnCloses(b, t, s);
      if b.shifts[s].open {
        CloseWrites(past, t.request);
        assert After(b, t) == DoCloseShift(b, t.request);
        assert run[..|past|] == past;
        assert ClosedAt(run, |past|, s, row);
      } else {
        assert row == b.shifts[s];
        ClosedShiftsTell(past, s);
        var n: nat :| ClosedAt(past, n, s, row);
        assert past[..n] == run[..n];
        assert ClosedAt(run, n, s, row);
      }
    }
  }

  /** So its figures always agree: the variance is the count less the expected cash,
      short when it is negative. */
  lemma VarianceIsCountLessExpected(run: seq<Turn>, s: nat)
    ensures var b := Exec(EMPTY, run);
      s < |b.shifts| && !b.shifts[s].open ==> b.shifts[s].variance == b.shifts[s].declared - b.shifts[s].expected
  {
    var b := Exec(EMPTY, run);
    if s < |b.shifts| && !b.shifts[s].open {
      ClosedShiftsTell(run, s);
      var n: nat :| ClosedAt(run, n, s, b.shifts[s]);
    }
  }

  /** Closing goes through exactly on an open shift; the row then stays for the rest
      of any run. */
  lemma CloseIsForGood(past: seq<Turn>, shift: nat, declared: nat, toRupee: bool, rest: seq<Turn>)
    ensures var b := Exec(EMPTY, past); var after := After(b, Turn(CloseShift(shift, declared), toRupee));
      if shift < |b.shifts| && b.shifts[shift].open then
        && shift < |b.drawers| && shift < |after.shifts| <= |Exec(after, rest).shifts|
        && ClosedWith(b, shift, declared, after.shifts[shift])
        && Exec(after, rest).shifts[shift] == after.shifts[shift]
      else after == b
  {
    var b, r := Exec(EMPTY, past), CloseShift(shift, declared);
    if shift < |b.shifts| && b.shifts[shift].open {
      CloseWrites(past, r);
      RunKeepsDrawers(EMPTY, past);
      StepKeepsDrawers(b, r, toRupee);
      ClosedShiftsFrozen(DoCloseShift(b, r), rest);
    }
  }
}
