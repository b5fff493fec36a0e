/** Stock under concurrent orders: nothing is oversold and nothing is lost. */
module StockConservation {
  import opened Common
  import opened Stock
  import opened OrderIntake

  /** What one committed event does to an item's level. */
  function After(subs: seq<Submission>, before: Option<int>, e: Event, item: nat): Option<int> {
    if e.Level? then (if e.item == item then e.stock else before)
    else if e.txn < |subs| then Less(before, Units(subs[e.txn].lines, item))
    else before
  }

  /** The level an item should have: what it started or was last set at, less
      the units on every order committed since. None while it is not counted. */
  function Remaining(subs: seq<Submission>, start: seq<Row>, log: seq<Event>, item: nat): Option<int>
    requires item < |start|
  {
    if log == [] then start[item].stock
    else After(subs, Remaining(subs, start, log[..|log| - 1], item), log[|log| - 1], item)
  }

  lemma RemainingStep(subs: seq<Submission>, start: seq<Row>, log: seq<Event>, e: Event, item: nat)
    requires item < |start|
    ensures Remaining(subs, start, log + [e], item) == After(subs, Remaining(subs, start, log, item), e, item)
  {
  }

  function SoldUnits(subs: seq<Submission>, log: seq<Event>, item: nat): nat {
    if log == [] then 0
    else
      var last := log[|log| - 1];
      SoldUnits(subs, log[..|log| - 1], item)
        + if last.Sold? && last.txn < |subs| then Units(subs[last.txn].lines, item) else 0
  }

  /** Read as a sentence: the last set level less the units sold after it. */
  lemma {:induction false} LastLevelLessSold(
    subs: seq<Submission>, start: seq<Row>, before: seq<Event>, level: Option<int>, after: seq<Event>, item: nat)
    requires item < |start|
    requires forall e :: e in after ==> e.Level? ==> e.item != item
    ensures Remaining(subs, start, before + [Level(item, level)] + after, item) == Less(level, SoldUnits(subs, after, item))
    decreases |after|
  {
    var head := before + [Level(item, level)];
    if after == [] {
      assert head + after == head;
      RemainingStep(subs, start, before, Level(item, level), item);
    } else {
      var rest, last := after[..|after| - 1], after[|after| - 1];
      LastLevelLessSold(subs, start, before, level, rest, item);
      assert head + after == head + rest + [last];
      RemainingStep(subs, start, head + rest, last, item);
    }
  }

  ghost predicate Counted(rows: seq<Row>) {
    forall i :: 0 <= i < |rows| && rows[i].stock.Some? ==> 0 <= rows[i].stock.value
  }

  /** What the user can check in the database at any moment. */
  ghost predicate Conserved(subs: seq<Submission>, start: seq<Row>, s: State) {
    && |s.rows| == |start|
    && Counted(s.rows)
    && forall i :: 0 <= i < |start| ==> s.rows[i].stock == Remaining(subs, start, s.log, i)
  }

  // ---------- Why it holds ----------

  function Done(sub: Submission, p: Phase): seq<Line> {
    if p.Placing? && p.next <= |sub.lines| then sub.lines[..p.next] else sub.lines
  }

  /** An uncommitted row is the committed one less the units of the lines done. */
  predicate PendingRow(rows: seq<Row>, lines: seq<Line>, i: nat, row: Row) {
    && i < |rows|
    && row.stock == Less(rows[i].stock, Units(lines, i))
    && (row.stock.Some? ==> 0 <= row.stock.value)
  }

  ghost predicate PendingOk(rows: seq<Row>, sub: Submission, p: Phase) {
    p.Working() ==>
      && (p.Placing? ==> p.next <= |sub.lines|)
      && (forall i :: i in p.pending ==> PendingRow(rows, Done(sub, p), i, p.pending[i]))
      && (forall k :: 0 <= k < |Done(sub, p)| ==> Done(sub, p)[k].item in p.pending)
  }

  predicate Apart(p: Phase, q: Phase) {
    p.Working() && q.Working() ==> p.pending.Keys !! q.pending.Keys
  }

  /** No row is locked twice, and every lock holder's view is still true. */
  ghost predicate Locks(subs: seq<Submission>, s: State) {
    && |s.phase| == |subs|
    && (forall t :: 0 <= t < |subs| ==> PendingOk(s.rows, subs[t], s.phase[t]))
    && (forall t, u :: 0 <= t < u < |subs| ==> Apart(s.phase[t], s.phase[u]))
  }

  /** The row a line leaves: one more line's units off it. */
  lemma NextRow(rows: seq<Row>, lines: seq<Line>, done: nat, pending: map<nat, Row>, i: nat)
    requires done < |lines| && i < |rows|
    requires forall k :: 0 <= k < done ==> lines[k].item in pending
    requires i in pending ==> PendingRow(rows, lines[..done], i, pending[i])
    requires rows[i].stock.Some? ==> 0 <= rows[i].stock.value
    ensures var had := if i in pending then pending[i] else rows[i];
      && had.stock == Less(rows[i].stock, Units(lines[..done], i))
      && (lines[done].item != i && i in pending ==> PendingRow(rows, lines[..done + 1], i, had))
      && (lines[done].item == i && Sell(had, lines[done].quantity).Some? ==>
            PendingRow(rows, lines[..done + 1], i, Sell(had, lines[done].quantity).value))
  {
    UnitsStep(lines, done, i);
    if i !in pending {
      UnitsZero(lines[..done], i);
    }
  }

  lemma TakeKeeps(subs: seq<Submission>, s: State, t: nat)
    requires Locks(subs, s) && Counted(s.rows) && t < |subs|
    requires s.phase[t].Placing? && s.phase[t].next < |subs[t].lines|
    ensures PendingOk(s.rows, subs[t], Next(subs, s, t, Take))
    ensures forall u :: 0 <= u < |subs| && u != t ==> Apart(Next(subs, s, t, Take), s.phase[u])
  {
    var p, q, lines := s.phase[t], Next(subs, s, t, Take), subs[t].lines;
    var line := lines[p.next];
    assert PendingOk(s.rows, subs[t], p) && Done(subs[t], p) == lines[..p.next];
    assert forall k :: 0 <= k < p.next ==> Done(subs[t], p)[k] == lines[k] && lines[k].item in p.pending;
    if q.Placing? && q != p {
      assert Done(subs[t], q) == lines[..p.next] + [line];
      forall i | i in q.pending
        ensures PendingRow(s.rows, Done(subs[t], q), i, q.pending[i])
      {
        if i in p.pending {
          assert PendingRow(s.rows, lines[..p.next], i, p.pending[i]);
        }
        NextRow(s.rows, lines, p.next, p.pending, i);
      }
    }
  }

  lemma MoveKeepsLocks(subs: seq<Submission>, s: State, t: nat, kind: Kind)
    requires Locks(subs, s) && Counted(s.rows) && t < |subs| && !(kind.Commit? && MayCommit(subs[t], s.phase[t]))
    ensures Locks(subs, Step(subs, s, Txn(t, kind)))
  {
    var r := Step(subs, s, Txn(t, kind));
    var p := s.phase[t];
    assert PendingOk(s.rows, subs[t], p);
    if kind.Take? && p.Placing? && p.next < |subs[t].lines| {
      TakeKeeps(subs, s, t);
    } else if p.Placing? {
      assert p.next >= |subs[t].lines| ==> Done(subs[t], p) == subs[t].lines;
    }
    assert PendingOk(r.rows, subs[t], r.phase[t]);
    forall u | 0 <= u < |subs| && u != t
      ensures Apart(r.phase[t], r.phase[u])
    {
      assert Apart(p, s.phase[u]) && Apart(s.phase[u], p);
    }
  }

  lemma OthersKeep(rows: seq<Row>, p: Phase, sub: Submission, q: Phase)
    requires p.Working() && PendingOk(rows, sub, q)
    ensures Apart(p, q) || Apart(q, p) ==> PendingOk(Written(rows, p.pending), sub, q)
  {
  }

  lemma CommitKeepsStock(subs: seq<Submission>, start: seq<Row>, s: State, t: nat)
    requires Locks(subs, s) && Conserved(subs, start, s) && t < |subs| && MayCommit(subs[t], s.phase[t])
    ensures Conserved(subs, start, Step(subs, s, Txn(t, Commit)))
    ensures Locks(subs, Step(subs, s, Txn(t, Commit)))
  {
    var r, p := Step(subs, s, Txn(t, Commit)), s.phase[t];
    assert PendingOk(s.rows, subs[t], p);
    assert Done(subs[t], p) == subs[t].lines;
    forall i | 0 <= i < |start|
      ensures r.rows[i].stock == Remaining(subs, start, r.log, i) && (r.rows[i].stock.Some? ==> 0 <= r.rows[i].stock.value)
    {
      RemainingStep(subs, start, s.log, Sold(t), i);
      if i in p.pending {
        assert PendingRow(s.rows, subs[t].lines, i, p.pending[i]);
      } else {
        UnitsZero(subs[t].lines, i);
      }
    }
    forall u | 0 <= u < |subs|
      ensures PendingOk(r.rows, subs[u], r.phase[u])
    {
      OthersKeep(s.rows, p, subs[u], s.phase[u]);
      assert u != t ==> Apart(p, s.phase[u]) || Apart(s.phase[u], p);
    }
  }

  lemma OwnerKeepsStock(subs: seq<Submission>, start: seq<Row>, s: State, item: nat, edit: Edit)
    requires Locks(subs, s) && Conserved(subs, start, s)
    ensures Conserved(subs, start, Step(subs, s, Owner(item, edit)))
    ensures Locks(subs, Step(subs, s, Owner(item, edit)))
  {
  }

  lemma {:induction false} ExecConserves(subs: seq<Submission>, start: seq<Row>, s: State, schedule: seq<Act>)
    requires Locks(subs, s) && Conserved(subs, start, s)
    ensures Conserved(subs, start, Exec(subs, s, schedule))
    decreases |schedule|
  {
    if schedule == [] {
    } else {
      match schedule[0] {
        case Txn(t, kind) =>
          if t < |subs| {
            if kind.Commit? && MayCommit(subs[t], s.phase[t]) {
              CommitKeepsStock(subs, start, s, t);
            } else {
              MoveKeepsLocks(subs, s, t, kind);
            }
          }
        case Owner(item, edit) => OwnerKeepsStock(subs, start, s, item, edit);
      }
      ExecConserves(subs, start, Step(subs, s, schedule[0]), schedule[1..]);
    }
  }

  /** In every reachable state the committed stock of every counted item is its
      last set level less the units on orders committed since, and never negative. */
  lemma StockIsConserved(subs: seq<Submission>, rows: seq<Row>, schedule: seq<Act>)
    requires Counted(rows)
    ensures Conserved(subs, rows, Exec(subs, Initial(subs, rows), schedule))
  {
    ExecConserves(subs, rows, Initial(subs, rows), schedule);
  }
}
