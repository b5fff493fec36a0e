/** The paid column under concurrency. Any number of payment transactions
    interleave their statements. Each reads the bill without a lock and writes back
    what it read plus its own amount; a statement that has to wait for a row lock
    leaves the state as it is. */
module PaymentRace {

  /** A payment row: what it is for. */
  datatype Payment = Payment(bill: nat, amount: nat)

  datatype Phase =
    | Idle
    | Found                // read the payment row: it is not SUCCESS yet
    | Claimed              // wrote it as SUCCESS: holds the payment row's lock
    | Seen(paid: nat)      // read the bill's paid column
    | Written(paid: nat)   // wrote the new column: holds the bill row's lock too
    | AlreadyDone          // read a payment that stood as SUCCESS: nothing to apply
    | Committed
    | Aborted
  {
    predicate HoldsPayment() { Claimed? || Seen? || Written? }
    predicate Over() { Committed? || Aborted? }
  }

  /** The committed rows, and how far each transaction is: the paid columns, and
      the payments that stand as SUCCESS. */
  datatype State = State(paid: map<nat, nat>, done: set<nat>, phase: seq<Phase>)

  /** The payment rows, what was paid on each bill before, and the payment that
      each transaction is about: a counter payment has one transaction, a gateway
      payment one for every confirmation. */
  datatype Setting = Setting(rows: seq<Payment>, opening: map<nat, nat>, jobs: seq<nat>) {
    predicate Valid() {
      && (forall p :: 0 <= p < |rows| ==> 0 < rows[p].amount)
      && (forall t :: 0 <= t < |jobs| ==> jobs[t] < |rows|)
    }

    function Job(t: nat): Payment
      requires Valid() && t < |jobs|
    {
      rows[jobs[t]]
    }
  }

  type World = w: Setting | w.Valid() witness Setting([], map[], [])

  datatype Kind = Find | Claim | Read | Write | Commit | Abort

  datatype Act = Act(txn: nat, kind: Kind)

  function Initial(w: World): State {
    State(w.opening, {}, seq(|w.jobs|, _ => Idle))
  }

  function Column(paid: map<nat, nat>, bill: nat): nat {
    if bill in paid then paid[bill] else 0
  }

  predicate PaymentTaken(w: World, s: State, payment: nat)
    requires |s.phase| == |w.jobs|
  {
    exists u :: 0 <= u < |w.jobs| && w.jobs[u] == payment && s.phase[u].HoldsPayment()
  }

  predicate BillTaken(w: World, s: State, bill: nat)
    requires |s.phase| == |w.jobs|
  {
    exists u :: 0 <= u < |w.jobs| && w.Job(u).bill == bill && s.phase[u].Written?
  }

  /** The phase a statement leads to; the same phase when it cannot run now. */
  function Next(w: World, s: State, t: nat, kind: Kind): Phase
    requires |s.phase| == |w.jobs| && t < |w.jobs|
  {
    var p, job := s.phase[t], w.Job(t);
    match kind
    case Find => if !p.Idle? then p else if w.jobs[t] in s.done then AlreadyDone else Found
    case Claim => if !p.Found? || PaymentTaken(w, s, w.jobs[t]) then p else Claimed
    case Read => if p.Claimed? then Seen(Column(s.paid, job.bill)) else p
    case Write => if !p.Seen? || BillTaken(w, s, job.bill) then p else Written(p.paid + job.amount)
    case Commit => if p.Written? || p.AlreadyDone? then Committed else p
    case Abort => if p.Over() then p else Aborted
  }

  function Step(w: World, s: State, a: Act): (r: State)
    requires |s.phase| == |w.jobs|
    ensures |r.phase| == |w.jobs|
  {
    if a.txn >= |w.jobs| then s
    else
      var t := a.txn;
      var moved := s.(phase := s.phase[t := Next(w, s, t, a.kind)]);
      if a.kind.Commit? && s.phase[t].Written? then
        moved.(paid := s.paid[w.Job(t).bill := s.phase[t].paid], done := s.done + {w.jobs[t]})
      else moved
  }

  function Exec(w: World, s: State, schedule: seq<Act>): (r: State)
    requires |s.phase| == |w.jobs|
    ensures |r.phase| == |w.jobs|
    decreases |schedule|
  {
    if schedule == [] then s else Exec(w, Step(w, s, schedule[0]), schedule[1..])
  }

  // ---------- The property ----------

  /** The bill's payments among the first n rows that stand as SUCCESS. */
  function Received(rows: seq<Payment>, done: set<nat>, bill: nat, n: nat): nat
    requires n <= |rows|
  {
    if n == 0 then 0
    else
      var p := n - 1;
      Received(rows, done, bill, p) + if rows[p].bill == bill && p in done then rows[p].amount else 0
  }

  predicate Agrees(w: World, s: State, bill: nat) {
    Column(s.paid, bill) == Column(w.opening, bill) + Received(w.rows, s.done, bill, |w.rows|)
  }

  /** Every bill's column is what was paid before plus its committed payments. */
  ghost predicate Balanced(w: World, s: State) {
    forall bill: nat :: Agrees(w, s, bill)
  }

  ghost predicate DistinctBills(w: World)
  {
    forall t, u :: 0 <= t < u < |w.jobs| ==> w.Job(t).bill != w.Job(u).bill
  }

  // ---------- Why it holds ----------

  lemma {:induction false} ReceivedMore(rows: seq<Payment>, done: set<nat>, p: nat, bill: nat, n: nat)
    requires n <= |rows| && p < |rows|
    ensures Received(rows, done + {p}, bill, n)
      == Received(rows, done, bill, n) + if p < n && p !in done && rows[p].bill == bill then rows[p].amount else 0
  {
    if n == 0 {
    } else {
      ReceivedMore(rows, done, p, bill, n - 1);
    }
  }

  /** What the transaction read of the bill is still so, and nobody applied its payment. */
  predicate Current(w: World, s: State, t: nat)
    requires t < |w.jobs| && |s.phase| == |w.jobs|
  {
    var p, job := s.phase[t], w.Job(t);
    && (p.Found? || p.Claimed? || p.Seen? || p.Written? ==> w.jobs[t] !in s.done)
    && (p.Seen? ==> p.paid == Column(s.paid, job.bill))
    && (p.Written? ==> p.paid == Column(s.paid, job.bill) + job.amount)
  }

  ghost predicate AllCurrent(w: World, s: State)
    requires |s.phase| == |w.jobs|
  {
    forall t :: 0 <= t < |w.jobs| ==> Current(w, s, t)
  }

  lemma StepKeepsCurrent(w: World, s: State, a: Act)
    requires |s.phase| == |w.jobs| && DistinctBills(w) && AllCurrent(w, s)
    ensures AllCurrent(w, Step(w, s, a))
  {
    if a.txn < |w.jobs| {
      forall u | 0 <= u < |w.jobs|
        ensures Current(w, Step(w, s, a), u)
      {
        assert Current(w, s, u) && Current(w, s, a.txn);
        if u != a.txn {
          assert w.Job(u).bill != w.Job(a.txn).bill;
        }
      }
    }
  }

  lemma StepKeepsBalance(w: World, s: State, a: Act)
    requires |s.phase| == |w.jobs| && AllCurrent(w, s) && Balanced(w, s)
    ensures Balanced(w, Step(w, s, a))
  {
    var r := Step(w, s, a);
    forall bill: nat
      ensures Agrees(w, r, bill)
    {
      assert Agrees(w, s, bill);
      if a.txn < |w.jobs| && a.kind.Commit? && s.phase[a.txn].Written? {
        assert Current(w, s, a.txn);
        ReceivedMore(w.rows, s.done, w.jobs[a.txn], bill, |w.rows|);
      }
    }
  }

  lemma {:induction false} ExecKeepsBalance(w: World, s: State, schedule: seq<Act>)
    requires |s.phase| == |w.jobs| && DistinctBills(w) && AllCurrent(w, s) && Balanced(w, s)
    ensures Balanced(w, Exec(w, s, schedule))
    decreases |schedule|
  {
    if schedule == [] {
    } else {
      StepKeepsCurrent(w, s, schedule[0]);
      StepKeepsBalance(w, s, schedule[0]);
      ExecKeepsBalance(w, Step(w, s, schedule[0]), schedule[1..]);
    }
  }

  lemma {:induction false} NothingReceived(rows: seq<Payment>, bill: nat, n: nat)
    requires n <= |rows|
    ensures Received(rows, {}, bill, n) == 0
  {
    if n == 0 {
    } else {
      NothingReceived(rows, bill, n - 1);
    }
  }

  lemma StartsBalanced(w: World)
    ensures Balanced(w, Initial(w))
  {
    forall bill: nat
      ensures Agrees(w, Initial(w), bill)
    {
      NothingReceived(w.rows, bill, |w.rows|);
    }
  }

  /** A confirmation that first looks once its payment stands writes nothing in any
      schedule: it never gets further than finding that out. */
  lemma {:induction false} DoneIsLeftAlone(w: World, s: State, t: nat, schedule: seq<Act>)
    requires |s.phase| == |w.jobs| && t < |w.jobs| && w.jobs[t] in s.done
    requires s.phase[t].Idle? || s.phase[t].AlreadyDone? || s.phase[t].Over()
    ensures var p := Exec(w, s, schedule).phase[t]; p.Idle? || p.AlreadyDone? || p.Over()
    ensures s.done <= Exec(w, s, schedule).done
    decreases |schedule|
  {
    if schedule == [] {
    } else {
      DoneIsLeftAlone(w, Step(w, s, schedule[0]), t, schedule[1..]);
    }
  }

  // ---------- And when it does not ----------

  lemma {:induction false} ExecConcat(w: World, s: State, x: seq<Act>, y: seq<Act>)
    requires |s.phase| == |w.jobs|
    ensures Exec(w, s, x + y) == Exec(w, Exec(w, s, x), y)
    decreases |x|
  {
    if x == [] {
      assert x + y == y;
    } else {
      assert (x + y)[1..] == x[1..] + y;
      ExecConcat(w, Step(w, s, x[0]), x[1..], y);
    }
  }

  lemma ExecOne(w: World, s: State, a: Act)
    requires |s.phase| == |w.jobs|
    ensures Exec(w, s, [a]) == Step(w, s, a)
  {
    assert Exec(w, Step(w, s, a), [a][1..]) == Step(w, s, a);
  }

  lemma ExecTwo(w: World, s: State, a: Act, b: Act)
    requires |s.phase| == |w.jobs|
    ensures Exec(w, s, [a, b]) == Step(w, Step(w, s, a), b)
  {
    assert [a, b] == [a] + [b];
    ExecConcat(w, s, [a], [b]);
    ExecOne(w, s, a);
    ExecOne(w, Step(w, s, a), b);
  }

  function At(s: State, t: nat, p: Phase): State
    requires t < |s.phase|
  {
    s.(phase := s.phase[t := p])
  }

  function Applied(w: World, s: State, t: nat, read: nat): State
    requires |s.phase| == |w.jobs| && t < |w.jobs|
  {
    At(s, t, Committed).(paid := s.paid[w.Job(t).bill := read + w.Job(t).amount], done := s.done + {w.jobs[t]})
  }

  /** Both read their payment rows before either writes anything. */
  lemma BothFind(w: World, s: State, t: nat, u: nat)
    requires |s.phase| == |w.jobs| && t < u < |w.jobs|
    requires s.phase[t].Idle? && s.phase[u].Idle? && s.done == {}
    ensures Exec(w, s, [Act(t, Find), Act(u, Find)]) == At(At(s, t, Found), u, Found)
  {
    ExecTwo(w, s, Act(t, Find), Act(u, Find));
  }

  lemma ClaimAndRead(w: World, s: State, t: nat)
    requires |s.phase| == |w.jobs| && t < |w.jobs|
    requires s.phase[t].Found? && !PaymentTaken(w, s, w.jobs[t])
    ensures Exec(w, s, [Act(t, Claim), Act(t, Read)]) == At(s, t, Seen(Column(s.paid, w.Job(t).bill)))
  {
    ExecTwo(w, s, Act(t, Claim), Act(t, Read));
    assert Step(w, s, Act(t, Claim)) == At(s, t, Claimed);
  }

  lemma WriteAndCommit(w: World, s: State, t: nat)
    requires |s.phase| == |w.jobs| && t < |w.jobs|
    requires s.phase[t].Seen? && !BillTaken(w, s, w.Job(t).bill)
    ensures Exec(w, s, [Act(t, Write), Act(t, Commit)]) == Applied(w, s, t, s.phase[t].paid)
  {
    ExecTwo(w, s, Act(t, Write), Act(t, Commit));
    assert Step(w, s, Act(t, Write)) == At(s, t, Written(s.phase[t].paid + w.Job(t).amount));
  }

  function Take(t: nat): seq<Act> { [Act(t, Claim), Act(t, Read)] }

  function Finish(t: nat): seq<Act> { [Act(t, Write), Act(t, Commit)] }

  /** Two payments of one bill that both read its column first. */
  function Overlap(t: nat, u: nat): seq<Act> {
    [Act(t, Find), Act(u, Find)] + (Take(t) + (Take(u) + (Finish(t) + Finish(u))))
  }

  /** Two confirmations of one payment that both find it pending. */
  function Twice(t: nat, u: nat): seq<Act> {
    [Act(t, Find), Act(u, Find)] + (Take(t) + (Finish(t) + (Take(u) + Finish(u))))
  }

  lemma ExecFive(w: World, s: State, a: seq<Act>, b: seq<Act>, c: seq<Act>, d: seq<Act>, e: seq<Act>)
    requires |s.phase| == |w.jobs|
    ensures Exec(w, s, a + (b + (c + (d + e)))) == Exec(w, Exec(w, Exec(w, Exec(w, Exec(w, s, a), b), c), d), e)
  {
    ExecConcat(w, s, a, b + (c + (d + e)));
    ExecConcat(w, Exec(w, s, a), b, c + (d + e));
    ExecConcat(w, Exec(w, Exec(w, s, a), b), c, d + e);
    ExecConcat(w, Exec(w, Exec(w, Exec(w, s, a), b), c), d, e);
  }

  lemma BothReceived(w: World, t: nat, u: nat)
    requires t < u < |w.jobs| && w.Job(t).bill == w.Job(u).bill && w.jobs[t] != w.jobs[u]
    ensures Received(w.rows, {w.jobs[t], w.jobs[u]}, w.Job(t).bill, |w.rows|) == w.Job(t).amount + w.Job(u).amount
  {
    var bill, n := w.Job(t).bill, |w.rows|;
    NothingReceived(w.rows, bill, n);
    ReceivedMore(w.rows, {}, w.jobs[t], bill, n);
    ReceivedMore(w.rows, {} + {w.jobs[t]}, w.jobs[u], bill, n);
    assert {} + {w.jobs[t]} + {w.jobs[u]} == {w.jobs[t], w.jobs[u]};
  }

  /** The first of two overlapping payments is lost: the column ends at what was
      there plus the second, and is short by the first. */
  lemma {:induction false} OverlapLosesPayment(w: World, t: nat, u: nat)
    requires t < u < |w.jobs| && w.Job(t).bill == w.Job(u).bill && w.jobs[t] != w.jobs[u]
    ensures var end, bill := Exec(w, Initial(w), Overlap(t, u)), w.Job(t).bill;
      && end.done == {w.jobs[t], w.jobs[u]}
      && Column(end.paid, bill) == Column(w.opening, bill) + w.Job(u).amount
      && Received(w.rows, end.done, bill, |w.rows|) == w.Job(t).amount + w.Job(u).amount
  {
    var s, bill := Initial(w), w.Job(t).bill;
    var read := Column(w.opening, bill);
    var s1 := At(At(s, t, Found), u, Found);
    var s2 := At(s1, t, Seen(read));
    var s3 := At(s2, u, Seen(read));
    var s4 := Applied(w, s3, t, read);
    ExecFive(w, s, [Act(t, Find), Act(u, Find)], Take(t), Take(u), Finish(t), Finish(u));
    BothFind(w, s, t, u);
    ClaimAndRead(w, s1, t);
    ClaimAndRead(w, s2, u);
    WriteAndCommit(w, s3, t);
    WriteAndCommit(w, s4, u);
    BothReceived(w, t, u);
    assert Applied(w, s4, u, read).done == {w.jobs[t], w.jobs[u]};
  }

  lemma OneReceived(w: World, t: nat)
    requires t < |w.jobs|
    ensures Received(w.rows, {w.jobs[t]}, w.Job(t).bill, |w.rows|) == w.Job(t).amount
  {
    NothingReceived(w.rows, w.Job(t).bill, |w.rows|);
    ReceivedMore(w.rows, {}, w.jobs[t], w.Job(t).bill, |w.rows|);
    assert {} + {w.jobs[t]} == {w.jobs[t]};
  }

  /** One payment confirmed twice at once, as by the guest's browser and the
      provider's webhook, is applied twice. */
  lemma {:induction false} ConfirmedTwiceAtOnce(w: World, t: nat, u: nat)
    requires t < u < |w.jobs| && w.jobs[t] == w.jobs[u]
    ensures var end, bill := Exec(w, Initial(w), Twice(t, u)), w.Job(t).bill;
      && end.done == {w.jobs[t]}
      && Column(end.paid, bill) == Column(w.opening, bill) + w.Job(t).amount + w.Job(t).amount
      && Received(w.rows, end.done, bill, |w.rows|) == w.Job(t).amount
  {
    var s, bill := Initial(w), w.Job(t).bill;
    var read := Column(w.opening, bill);
    var s1 := At(At(s, t, Found), u, Found);
    var s2 := At(s1, t, Seen(read));
    var s3 := Applied(w, s2, t, read);
    var s4 := At(s3, u, Seen(read + w.Job(t).amount));
    ExecFive(w, s, [Act(t, Find), Act(u, Find)], Take(t), Finish(t), Take(u), Finish(u));
    BothFind(w, s, t, u);
    ClaimAndRead(w, s1, t);
    WriteAndCommit(w, s2, t);
    ClaimAndRead(w, s3, u);
    WriteAndCommit(w, s4, u);
    OneReceived(w, t);
    assert Applied(w, s4, u, read + w.Job(t).amount).done == {w.jobs[t]};
  }

  /** Over every interleaving the paid columns equal the committed payments exactly
      when no two payment transactions are about the same bill. */
  lemma BalancedIffDistinctBills(w: World)
    ensures (forall schedule :: Balanced(w, Exec(w, Initial(w), schedule))) <==> DistinctBills(w)
  {
    if DistinctBills(w) {
      forall schedule
        ensures Balanced(w, Exec(w, Initial(w), schedule))
      {
        StartsBalanced(w);
        ExecKeepsBalance(w, Initial(w), schedule);
      }
    } else {
      var t, u :| 0 <= t < u < |w.jobs| && w.Job(t).bill == w.Job(u).bill;
      if w.jobs[t] == w.jobs[u] {
        ConfirmedTwiceAtOnce(w, t, u);
        assert !Agrees(w, Exec(w, Initial(w), Twice(t, u)), w.Job(t).bill);
      } else {
        OverlapLosesPayment(w, t, u);
        assert !Agrees(w, Exec(w, Initial(w), Overlap(t, u)), w.Job(t).bill);
      }
    }
  }
}
