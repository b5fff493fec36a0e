/** Invoice numbers under concurrency. Any number of settlement transactions
    interleave their statements on the counter row and on the bill rows; a
    statement that has to wait for a row lock leaves the state as it is. */
module GaplessSeries {

  /** One counter row per business, series and financial year. */
  datatype Scope = Scope(business: nat, series: string, year: string)

  datatype Number = Number(scope: Scope, sequence: nat)

  /** What one settlement transaction is about. */
  datatype Job = Job(bill: nat, scope: Scope)

  datatype Phase =
    | Idle
    | Seen                   // read the bill: it had no number
    | Flushed                // wrote the payment: holds the bill row's lock
    | Inserted(own: bool)    // insert-if-missing done; own: this transaction's insert won
    | Locked(last: nat)      // holds the counter row, read last_number
    | Numbered(n: nat)       // wrote last_number + 1
    | Written(n: nat)        // wrote the number on the bill
    | AlreadyPaid            // read a bill that had its number: nothing to allocate
    | Missing                // found no counter row to lock
    | Committed
    | Aborted
  {
    predicate HoldsCounter() { Locked? || Numbered? || Written? || (Inserted? && own) }
    predicate HoldsBill() { Flushed? || Inserted? || Locked? || Numbered? || Written? || Missing? }
    predicate Over() { Committed? || Aborted? }
  }

  /** The committed rows, and how far each transaction is. A row is locked while
      a transaction is in a phase that holds it; ending the transaction releases it. */
  datatype State = State(counters: map<Scope, nat>, bills: map<nat, Number>, phase: seq<Phase>)

  datatype Kind = Read | Flush | Insert | Lock | Increment | Write | Commit | Abort

  datatype Act = Act(txn: nat, kind: Kind)

  function Initial(jobs: seq<Job>): State {
    State(map[], map[], seq(|jobs|, _ => Idle))
  }

  predicate CounterTaken(jobs: seq<Job>, s: State, scope: Scope)
    requires |s.phase| == |jobs|
  {
    exists u :: 0 <= u < |jobs| && jobs[u].scope == scope && s.phase[u].HoldsCounter()
  }

  predicate BillTaken(jobs: seq<Job>, s: State, bill: nat)
    requires |s.phase| == |jobs|
  {
    exists u :: 0 <= u < |jobs| && jobs[u].bill == bill && s.phase[u].HoldsBill()
  }

  /** The phase a statement leads to; the same phase when it cannot run now. */
  function Next(jobs: seq<Job>, s: State, t: nat, kind: Kind): Phase
    requires |s.phase| == |jobs| && t < |jobs|
  {
    var p, job := s.phase[t], jobs[t];
    match kind
    case Read => if !p.Idle? then p else if job.bill in s.bills then AlreadyPaid else Seen
    case Flush => if !p.Seen? || BillTaken(jobs, s, job.bill) then p else Flushed
    case Insert =>
      if !p.Flushed? then p
      else if job.scope in s.counters then Inserted(false)
      else if CounterTaken(jobs, s, job.scope) then p  // waits for the other insert to end
      else Inserted(true)
    case Lock =>
      if !p.Inserted? then p
      else if p.own then Locked(0)
      else if job.scope !in s.counters then Missing
      else if CounterTaken(jobs, s, job.scope) then p
      else Locked(s.counters[job.scope])
    case Increment => if p.Locked? then Numbered(p.last + 1) else p
    case Write => if p.Numbered? then Written(p.n) else p
    case Commit => if p.Written? || p.AlreadyPaid? then Committed else p
    case Abort => if p.Over() then p else Aborted
  }

  function Step(jobs: seq<Job>, s: State, a: Act): (r: State)
    requires |s.phase| == |jobs|
    ensures |r.phase| == |jobs|
  {
    if a.txn >= |jobs| then s
    else
      var t, job := a.txn, jobs[a.txn];
      var moved := s.(phase := s.phase[t := Next(jobs, s, t, a.kind)]);
      if a.kind.Commit? && s.phase[t].Written? then
        moved.(counters := s.counters[job.scope := s.phase[t].n],
               bills := s.bills[job.bill := Number(job.scope, s.phase[t].n)])
      else moved
  }

  function Exec(jobs: seq<Job>, s: State, schedule: seq<Act>): (r: State)
    requires |s.phase| == |jobs|
    ensures |r.phase| == |jobs|
    decreases |schedule|
  {
    if schedule == [] then s else Exec(jobs, Step(jobs, s, schedule[0]), schedule[1..])
  }

  // ---------- The property ----------

  predicate InRange(s: State, x: Number) {
    x.scope in s.counters && 1 <= x.sequence <= s.counters[x.scope]
  }

  /** The committed serials of every scope are exactly 1..last_number, each on
      one bill. */
  ghost predicate Gapless(s: State) {
    && (forall b :: b in s.bills ==> InRange(s, s.bills[b]))
    && (forall b, c :: b in s.bills && c in s.bills && s.bills[b] == s.bills[c] ==> b == c)
    && (forall x: Number :: InRange(s, x) ==> x in s.bills.Values)
  }

  ghost predicate Distinct(jobs: seq<Job>) {
    forall t, u :: 0 <= t < u < |jobs| ==> jobs[t].bill != jobs[u].bill
  }

  // ---------- Why it holds ----------

  function LastNumber(s: State, scope: Scope): nat {
    if scope in s.counters then s.counters[scope] else 0
  }

  /** What a phase has seen of the counter is still so. */
  predicate Fits(s: State, scope: Scope, p: Phase) {
    match p
    case Inserted(own) => own <==> scope !in s.counters
    case Locked(n) => n == LastNumber(s, scope)
    case Numbered(n) => n == LastNumber(s, scope) + 1
    case Written(n) => n == LastNumber(s, scope) + 1
    case Missing => false
    case _ => true
  }

  ghost predicate OneHolder(jobs: seq<Job>, s: State)
    requires |s.phase| == |jobs|
  {
    forall t, u :: 0 <= t < u < |jobs| && s.phase[t].HoldsCounter() && s.phase[u].HoldsCounter() ==>
      jobs[t].scope != jobs[u].scope
  }

  /** One holder per counter row, and nobody's reading of it is stale. */
  ghost predicate Locking(jobs: seq<Job>, s: State) {
    && |s.phase| == |jobs|
    && OneHolder(jobs, s)
    && (forall t :: 0 <= t < |jobs| ==> Fits(s, jobs[t].scope, s.phase[t]))
  }

  /** A numbered bill's settlement is over. */
  ghost predicate NumberedOnce(jobs: seq<Job>, s: State)
    requires |s.phase| == |jobs|
  {
    forall t :: 0 <= t < |jobs| && jobs[t].bill in s.bills ==> s.phase[t].Over() || s.phase[t].Idle? || s.phase[t].AlreadyPaid?
  }

  lemma OneHolderKept(jobs: seq<Job>, s: State, a: Act)
    requires Locking(jobs, s) && a.txn < |jobs|
    ensures OneHolder(jobs, Step(jobs, s, a))
  {
  }

  lemma LockingKept(jobs: seq<Job>, s: State, a: Act)
    requires Locking(jobs, s)
    ensures Locking(jobs, Step(jobs, s, a))
  {
    if a.txn < |jobs| {
      var t, r := a.txn, Step(jobs, s, a);
      OneHolderKept(jobs, s, a);
      assert Fits(s, jobs[t].scope, s.phase[t]);
      forall u | 0 <= u < |jobs|
        ensures Fits(r, jobs[u].scope, r.phase[u])
      {
        assert Fits(s, jobs[u].scope, s.phase[u]);
      }
    }
  }

  /** Putting last_number + 1 on a fresh bill extends the series by exactly one. */
  lemma CommitKeepsGapless(jobs: seq<Job>, s: State, t: nat)
    requires Locking(jobs, s) && Gapless(s) && NumberedOnce(jobs, s)
    requires t < |jobs| && s.phase[t].Written?
    ensures Gapless(Step(jobs, s, Act(t, Commit)))
  {
    var r, bill, x := Step(jobs, s, Act(t, Commit)), jobs[t].bill, Number(jobs[t].scope, s.phase[t].n);
    assert Fits(s, jobs[t].scope, s.phase[t]);
    assert bill !in s.bills && r.bills == s.bills[bill := x];
    forall y: Number | InRange(r, y)
      ensures y in r.bills.Values
    {
      if y == x {
        assert r.bills[bill] == y;
      } else {
        assert InRange(s, y);
        var b :| b in s.bills && s.bills[b] == y;
        assert r.bills[b] == y;
      }
    }
  }

  lemma GaplessKept(jobs: seq<Job>, s: State, a: Act)
    requires Distinct(jobs) && Locking(jobs, s) && Gapless(s) && NumberedOnce(jobs, s)
    ensures Gapless(Step(jobs, s, a)) && NumberedOnce(jobs, Step(jobs, s, a))
  {
    if a.txn < |jobs| && a.kind.Commit? && s.phase[a.txn].Written? {
      CommitKeepsGapless(jobs, s, a.txn);
    } else {
      var r := Step(jobs, s, a);
      assert r.bills == s.bills && r.counters == s.counters;
      assert forall x: Number :: InRange(r, x) == InRange(s, x);
    }
  }

  lemma {:induction false} ExecKeeps(jobs: seq<Job>, s: State, schedule: seq<Act>)
    requires Distinct(jobs) && Locking(jobs, s) && Gapless(s) && NumberedOnce(jobs, s)
    ensures Gapless(Exec(jobs, s, schedule))
    decreases |schedule|
  {
    if schedule == [] {
    } else {
      LockingKept(jobs, s, schedule[0]);
      GaplessKept(jobs, s, schedule[0]);
      ExecKeeps(jobs, Step(jobs, s, schedule[0]), schedule[1..]);
    }
  }

  /** Insert-if-missing does its job: whatever the jobs and whoever rolls back,
      the row to lock is always there. */
  lemma {:induction false} CounterAlwaysFound(jobs: seq<Job>, s: State, schedule: seq<Act>)
    requires Locking(jobs, s)
    ensures forall t :: 0 <= t < |jobs| ==> !Exec(jobs, s, schedule).phase[t].Missing?
    decreases |schedule|
  {
    if schedule != [] {
      LockingKept(jobs, s, schedule[0]);
      CounterAlwaysFound(jobs, Step(jobs, s, schedule[0]), schedule[1..]);
    } else {
      assert forall t :: 0 <= t < |jobs| ==> Fits(s, jobs[t].scope, s.phase[t]);
    }
  }

  /** A settlement that first reads its bill once it is numbered takes no number in
      any schedule, and holds nobody up. */
  lemma {:induction false} NumberedIsLeftAlone(jobs: seq<Job>, s: State, t: nat, schedule: seq<Act>)
    requires |s.phase| == |jobs| && t < |jobs| && jobs[t].bill in s.bills
    requires s.phase[t].Idle? || s.phase[t].AlreadyPaid? || s.phase[t].Over()
    ensures var p := Exec(jobs, s, schedule).phase[t];
      (p.Idle? || p.AlreadyPaid? || p.Over()) && !p.HoldsCounter() && !p.HoldsBill()
    decreases |schedule|
  {
    if schedule == [] {
    } else {
      NumberedIsLeftAlone(jobs, Step(jobs, s, schedule[0]), t, schedule[1..]);
    }
  }

  // ---------- And when it does not ----------

  lemma {:induction false} ExecConcat(jobs: seq<Job>, s: State, x: seq<Act>, y: seq<Act>)
    requires |s.phase| == |jobs|
    ensures Exec(jobs, s, x + y) == Exec(jobs, Exec(jobs, s, x), y)
    decreases |x|
  {
    if x == [] {
      assert x + y == y;
    } else {
      assert (x + y)[1..] == x[1..] + y;
      ExecConcat(jobs, Step(jobs, s, x[0]), x[1..], y);
    }
  }

  lemma ExecOne(jobs: seq<Job>, s: State, a: Act, rest: seq<Act>)
    requires |s.phase| == |jobs|
    ensures Exec(jobs, s, [a] + rest) == Exec(jobs, Step(jobs, s, a), rest)
  {
  }

  function Settlement(t: nat): seq<Act> {
    [Act(t, Flush)] + ([Act(t, Insert)] + ([Act(t, Lock)] + ([Act(t, Increment)] + ([Act(t, Write)] + ([Act(t, Commit)] + [])))))
  }

  predicate NoLocks(s: State) {
    forall u :: 0 <= u < |s.phase| ==> !s.phase[u].HoldsBill()
  }

  function At(s: State, t: nat, p: Phase): State
    requires t < |s.phase|
  {
    s.(phase := s.phase[t := p])
  }

  function Settled(s: State, t: nat, job: Job): State
    requires t < |s.phase|
  {
    var n := LastNumber(s, job.scope) + 1;
    At(s, t, Committed).(counters := s.counters[job.scope := n], bills := s.bills[job.bill := Number(job.scope, n)])
  }

  /** A settlement that has read its bill and meets no lock numbers it, whatever
      the bill row has come to hold since it was read. */
  lemma UndisturbedSettlement(jobs: seq<Job>, s: State, t: nat)
    requires |s.phase| == |jobs| && t < |jobs| && s.phase[t].Seen? && NoLocks(s)
    ensures Exec(jobs, s, Settlement(t)) == Settled(s, t, jobs[t])
  {
    var n := LastNumber(s, jobs[t].scope) + 1;
    var own := jobs[t].scope !in s.counters;
    var s1, s2, s3 := At(s, t, Flushed), At(s, t, Inserted(own)), At(s, t, Locked(n - 1));
    var s4, s5 := At(s, t, Numbered(n)), At(s, t, Written(n));
    assert Step(jobs, s, Act(t, Flush)) == s1;
    assert Step(jobs, s1, Act(t, Insert)) == s2;
    assert Step(jobs, s2, Act(t, Lock)) == s3;
    assert Step(jobs, s3, Act(t, Increment)) == s4;
    assert Step(jobs, s4, Act(t, Write)) == s5;
    assert Step(jobs, s5, Act(t, Commit)) == Settled(s, t, jobs[t]);
    var c := [Act(t, Commit)] + [];
    var w := [Act(t, Write)] + c;
    var i := [Act(t, Increment)] + w;
    var l := [Act(t, Lock)] + i;
    ExecOne(jobs, s, Act(t, Flush), [Act(t, Insert)] + l);
    ExecOne(jobs, s1, Act(t, Insert), l);
    ExecOne(jobs, s2, Act(t, Lock), i);
    ExecOne(jobs, s3, Act(t, Increment), w);
    ExecOne(jobs, s4, Act(t, Write), c);
    ExecOne(jobs, s5, Act(t, Commit), []);
  }

  /** Two settlements that both read one bill before either writes it. */
  function DoubleRead(t: nat, u: nat): seq<Act> {
    [Act(t, Read)] + ([Act(u, Read)] + (Settlement(t) + Settlement(u)))
  }

  lemma LostSerial(s: State, t: nat, u: nat, first: Job, second: Job)
    requires t < |s.phase| && u < |s.phase| && first.bill == second.bill
    requires s.counters == map[] && s.bills == map[]
    ensures !Gapless(Settled(Settled(s, t, first), u, second))
  {
    var end := Settled(Settled(s, t, first), u, second);
    var lost := Number(first.scope, 1);
    assert InRange(end, lost);
    assert forall b :: b in end.bills ==> end.bills[b] != lost;
  }

  /** The second overwrites the first: its serial is on no bill. */
  lemma {:induction false} SharedBillLosesSerial(jobs: seq<Job>, t: nat, u: nat)
    requires t < u < |jobs| && jobs[t].bill == jobs[u].bill
    ensures !Gapless(Exec(jobs, Initial(jobs), DoubleRead(t, u)))
  {
    var s := Initial(jobs);
    var s1, s2 := At(s, t, Seen), At(At(s, t, Seen), u, Seen);
    ExecOne(jobs, s, Act(t, Read), [Act(u, Read)] + (Settlement(t) + Settlement(u)));
    ExecOne(jobs, s1, Act(u, Read), Settlement(t) + Settlement(u));
    assert Step(jobs, s, Act(t, Read)) == s1 && Step(jobs, s1, Act(u, Read)) == s2;
    ExecConcat(jobs, s2, Settlement(t), Settlement(u));
    UndisturbedSettlement(jobs, s2, t);
    var s3 := Settled(s2, t, jobs[t]);
    UndisturbedSettlement(jobs, s3, u);
    LostSerial(s2, t, u, jobs[t], jobs[u]);
  }

  /** Over every interleaving the series is gapless exactly when no two
      settlements are about the same bill. */
  lemma GaplessIffDistinctBills(jobs: seq<Job>)
    ensures (forall schedule :: Gapless(Exec(jobs, Initial(jobs), schedule))) <==> Distinct(jobs)
  {
    if Distinct(jobs) {
      forall schedule
        ensures Gapless(Exec(jobs, Initial(jobs), schedule))
      {
        ExecKeeps(jobs, Initial(jobs), schedule);
      }
    } else {
      var t, u :| 0 <= t < u < |jobs| && jobs[t].bill == jobs[u].bill;
      SharedBillLosesSerial(jobs, t, u);
    }
  }
}
