/** Exchanges of refresh tokens, and sweeps of a user's tokens, under concurrency.
    The presented row is read without a lock, so several requests may read it
    before any of them writes it; a write that meets another's uncommitted write
    of the row has to wait. A sweep revokes the rows that stood when its statement
    started, however long it waits. */
module RotationRace {
  import opened TokenRotation

  /** The token a request presents: one that stood at the start, or the one that
      another request of the run was answered with. */
  datatype Presented = Known(token: nat) | From(job: nat)

  datatype Job =
    | Exchange(presented: Presented, now: int, active: bool, expires: int)
    | Reset(user: nat)

  datatype Phase =
    | Idle
    | Seen                              // read the row: live, in date, of an enabled user
    | Written                           // revoked it and added its replacement: holds the row's lock
    | Alarmed(user: nat)                // has a user's tokens to sweep
    | Sweeping(user: nat, stood: nat)   // its statement started when so many rows stood
    | Done
  {
    predicate Busy() { Seen? || Written? }
  }

  /** issued: the row of the token each request was answered with. */
  datatype State = State(tokens: seq<Token>, issued: map<nat, nat>, phase: seq<Phase>)

  /** Requests are numbered so that one that presents another's answer comes after it. */
  datatype Setting = Setting(ts: seq<Token>, jobs: seq<Job>) {
    predicate Valid() {
      forall u :: 0 <= u < |jobs| && jobs[u].Exchange? && jobs[u].presented.From? ==> jobs[u].presented.job < u
    }
  }

  type World = w: Setting | w.Valid() witness Setting([], [])

  datatype Kind = Read | Write | Commit | Abort

  datatype Act = Act(txn: nat, kind: Kind)

  function Initial(w: World): State {
    State(w.ts, map[], seq(|w.jobs|, _ => Idle))
  }

  /** The presented token's row; a row that is not there when there is no such token. */
  function Row(w: World, s: State, u: nat): nat
    requires u < |w.jobs|
  {
    if w.jobs[u].Reset? then |s.tokens|
    else match w.jobs[u].presented
      case Known(t) => if t < |w.ts| then t else |s.tokens|
      case From(j) => if j in s.issued then s.issued[j] else |s.tokens|
  }

  function Answered(w: World, s: State, u: nat): Answer
    requires u < |w.jobs| && w.jobs[u].Exchange?
  {
    AnswerTo(s.tokens, Row(w, s, u), w.jobs[u].now, w.jobs[u].active)
  }

  predicate RowLocked(w: World, s: State, t: nat)
    requires |s.phase| == |w.jobs|
  {
    exists u :: 0 <= u < |w.jobs| && s.phase[u].Written? && Row(w, s, u) == t
  }

  predicate SweepWaits(w: World, s: State, user: nat, stood: nat)
    requires |s.phase| == |w.jobs|
  {
    exists t :: 0 <= t < stood && t < |s.tokens| && s.tokens[t].user == user && !s.tokens[t].revoked && RowLocked(w, s, t)
  }

  function SweepFirst(ts: seq<Token>, user: nat, stood: nat): seq<Token> {
    seq(|ts|, i requires 0 <= i < |ts| => if i < stood then Swept(ts[i], user) else ts[i])
  }

  function At(s: State, u: nat, p: Phase): State
    requires u < |s.phase|
  {
    s.(phase := s.phase[u := p])
  }

  function Started(w: World, s: State, u: nat): Phase
    requires u < |w.jobs|
  {
    if w.jobs[u].Reset? then Alarmed(w.jobs[u].user)
    else match Answered(w, s, u)
      case Renewed(_) => Seen
      case Invalid => Done
      case Reuse => Alarmed(s.tokens[Row(w, s, u)].user)
  }

  function Replaced(w: World, s: State, u: nat): State
    requires u < |w.jobs| == |s.phase| && w.jobs[u].Exchange? && Row(w, s, u) < |s.tokens|
  {
    At(s, u, Done).(tokens := Exchanged(s.tokens, Row(w, s, u), w.jobs[u].expires), issued := s.issued[u := |s.tokens|])
  }

  function Committed(w: World, s: State, u: nat): State
    requires u < |w.jobs| == |s.phase|
  {
    match s.phase[u]
    case Written => if w.jobs[u].Exchange? && Row(w, s, u) < |s.tokens| then Replaced(w, s, u) else s
    case Sweeping(user, stood) =>
      if SweepWaits(w, s, user, stood) then s
      else At(s, u, Done).(tokens := SweepFirst(s.tokens, user, stood))
    case _ => s
  }

  function Step(w: World, s: State, a: Act): (r: State)
    requires |s.phase| == |w.jobs|
    ensures |r.phase| == |w.jobs|
  {
    if a.txn >= |w.jobs| then s
    else
      var u, p := a.txn, s.phase[a.txn];
      match a.kind
      case Read => if p.Idle? then At(s, u, Started(w, s, u)) else s
      case Write =>
        if p.Seen? && !RowLocked(w, s, Row(w, s, u)) then At(s, u, Written)
        else if p.Alarmed? then At(s, u, Sweeping(p.user, |s.tokens|))
        else s
      case Commit => Committed(w, s, u)
      case Abort => if p.Idle? then s else At(s, u, Done)
  }

  function Exec(w: World, s: State, schedule: seq<Act>): (r: State)
    requires |s.phase| == |w.jobs|
    ensures |r.phase| == |w.jobs|
    decreases |schedule|
  {
    if schedule == [] then s else Exec(w, Step(w, s, schedule[0]), schedule[1..])
  }

  // ---------- One live token for each login ----------

  ghost predicate LiveOnce(ts: seq<Token>) {
    forall i, j :: 0 <= i < j < |ts| && ts[i].login == ts[j].login ==> ts[i].revoked || ts[j].revoked
  }

  /** The request could be the one that exchanges its token: that token stood live
      and in date at the start, or is the answer to a request that could. */
  predicate CanExchange(w: World, u: nat)
    decreases u
  {
    && u < |w.jobs| && w.jobs[u].Exchange?
    && match w.jobs[u].presented
       case Known(t) => AnswerTo(w.ts, t, w.jobs[u].now, w.jobs[u].active).Renewed?
       case From(j) => j < u && CanExchange(w, j) && w.jobs[j].expires > w.jobs[u].now && w.jobs[u].active
  }

  predicate Rivals(w: World, u: nat, v: nat) {
    CanExchange(w, u) && CanExchange(w, v) && w.jobs[u].presented == w.jobs[v].presented
  }

  /** No two requests present one token that either could exchange. */
  ghost predicate NoRivals(w: World) {
    forall u, v :: 0 <= u < v < |w.jobs| ==> !Rivals(w, u, v)
  }

  // ---------- Why it holds ----------

  predicate Older(was: Token, now: Token) {
    was.user == now.user && was.login == now.login && was.expires == now.expires && (was.revoked ==> now.revoked)
  }

  ghost predicate KeptRows(a: seq<Token>, b: seq<Token>) {
    |a| <= |b| && forall k :: 0 <= k < |a| ==> Older(a[k], b[k])
  }

  predicate IssueOk(w: World, s: State, j: nat)
    requires j in s.issued
  {
    && CanExchange(w, j) && |w.ts| <= s.issued[j] < |s.tokens|
    && s.tokens[s.issued[j]].expires == w.jobs[j].expires
  }

  ghost predicate IssuesOk(w: World, s: State) {
    && |w.ts| <= |s.tokens| && |s.phase| == |w.jobs|
    && (forall j :: j in s.issued ==> IssueOk(w, s, j) && s.phase[j].Done?)
    && (forall j, k :: j in s.issued && k in s.issued && s.issued[j] == s.issued[k] ==> j == k)
  }

  /** A request that read its token live was one that could. */
  predicate BusyOk(w: World, s: State, u: nat)
    requires u < |w.jobs| == |s.phase|
  {
    s.phase[u].Busy() ==> CanExchange(w, u) && Row(w, s, u) < |s.tokens|
  }

  /** What holds in every interleaving whatever. */
  ghost predicate Basic(w: World, s: State) {
    && IssuesOk(w, s) && KeptRows(w.ts, s.tokens)
    && (forall u :: 0 <= u < |w.jobs| ==> BusyOk(w, s, u))
  }

  /** It is the only one of its login with a live one. */
  ghost predicate Sole(w: World, s: State, u: nat)
    requires u < |w.jobs| == |s.phase|
  {
    s.phase[u].Busy() && Row(w, s, u) < |s.tokens| ==>
      forall k :: 0 <= k < |s.tokens| && k != Row(w, s, u) && s.tokens[k].login == s.tokens[Row(w, s, u)].login ==>
        s.tokens[k].revoked
  }

  predicate DifferentLogins(w: World, s: State, u: nat, v: nat)
    requires u < |w.jobs| == |s.phase| && v < |w.jobs|
  {
    s.phase[u].Busy() && s.phase[v].Busy() && Row(w, s, u) < |s.tokens| && Row(w, s, v) < |s.tokens| ==>
      s.tokens[Row(w, s, u)].login != s.tokens[Row(w, s, v)].login
  }

  ghost predicate RaceOk(w: World, s: State) {
    && Basic(w, s) && LiveOnce(s.tokens)
    && (forall u :: 0 <= u < |w.jobs| ==> Sole(w, s, u))
    && (forall u, v :: 0 <= u < v < |w.jobs| ==> DifferentLogins(w, s, u, v))
  }

  /** Whoever is answered with a new token could be. */
  lemma RenewedCan(w: World, s: State, u: nat)
    requires Basic(w, s) && u < |w.jobs| && w.jobs[u].Exchange? && Answered(w, s, u).Renewed?
    ensures CanExchange(w, u)
  {
    match w.jobs[u].presented
    case Known(t) => assert Older(w.ts[t], s.tokens[t]);
    case From(j) => assert IssueOk(w, s, j);
  }

  lemma MoveBasic(w: World, s: State, u: nat, p: Phase)
    requires Basic(w, s) && u < |w.jobs| && (s.phase[u].Done? ==> p.Done?)
    requires p.Busy() ==> CanExchange(w, u) && Row(w, s, u) < |s.tokens|
    ensures Basic(w, At(s, u, p))
  {
    var r := At(s, u, p);
    forall v | 0 <= v < |w.jobs|
      ensures BusyOk(w, r, v)
    {
      assert BusyOk(w, s, v) && Row(w, r, v) == Row(w, s, v);
    }
    forall j | j in r.issued
      ensures IssueOk(w, r, j)
    {
      assert IssueOk(w, s, j);
    }
  }

  lemma SweepBasic(w: World, s: State, user: nat, stood: nat)
    requires Basic(w, s)
    ensures Basic(w, s.(tokens := SweepFirst(s.tokens, user, stood)))
  {
    var r := s.(tokens := SweepFirst(s.tokens, user, stood));
    forall k | 0 <= k < |w.ts|
      ensures Older(w.ts[k], r.tokens[k])
    {
      assert Older(w.ts[k], s.tokens[k]);
    }
    forall j | j in r.issued
      ensures IssueOk(w, r, j)
    {
      assert IssueOk(w, s, j);
    }
    forall v | 0 <= v < |w.jobs|
      ensures BusyOk(w, r, v)
    {
      assert BusyOk(w, s, v) && Row(w, r, v) == Row(w, s, v);
    }
  }

  /** A row that is there stays the one presented. */
  lemma RowStays(w: World, s: State, u: nat, v: nat)
    requires u < |w.jobs| == |s.phase| && v < |w.jobs| && w.jobs[u].Exchange? && Row(w, s, u) < |s.tokens|
    requires u !in s.issued && Row(w, s, v) < |s.tokens|
    ensures Row(w, Replaced(w, s, u), v) == Row(w, s, v)
  {
  }

  lemma ReplaceBasic(w: World, s: State, u: nat)
    requires Basic(w, s) && u < |w.jobs| && s.phase[u].Written?
    ensures w.jobs[u].Exchange? && Row(w, s, u) < |s.tokens| && u !in s.issued
    ensures Basic(w, Replaced(w, s, u))
  {
    assert BusyOk(w, s, u);
    var r := Replaced(w, s, u);
    forall k | 0 <= k < |w.ts|
      ensures Older(w.ts[k], r.tokens[k])
    {
      assert Older(w.ts[k], s.tokens[k]);
    }
    forall j | j in r.issued
      ensures IssueOk(w, r, j)
    {
      assert j in s.issued ==> IssueOk(w, s, j);
    }
    forall v | 0 <= v < |w.jobs|
      ensures BusyOk(w, r, v)
    {
      assert BusyOk(w, s, v);
      if r.phase[v].Busy() {
        RowStays(w, s, u, v);
      }
    }
  }

  lemma StepBasic(w: World, s: State, a: Act)
    requires Basic(w, s)
    ensures Basic(w, Step(w, s, a))
  {
    if a.txn < |w.jobs| {
      var u, p := a.txn, s.phase[a.txn];
      assert BusyOk(w, s, u);
      match a.kind
      case Read =>
        if p.Idle? {
          if Started(w, s, u).Seen? {
            RenewedCan(w, s, u);
          }
          MoveBasic(w, s, u, Started(w, s, u));
        }
      case Write =>
        if p.Seen? {
          MoveBasic(w, s, u, Written);
        } else if p.Alarmed? {
          MoveBasic(w, s, u, Sweeping(p.user, |s.tokens|));
        }
      case Commit =>
        if p.Written? {
          ReplaceBasic(w, s, u);
        } else if p.Sweeping? {
          MoveBasic(w, s, u, Done);
          SweepBasic(w, At(s, u, Done), p.user, p.stood);
        }
      case Abort => MoveBasic(w, s, u, Done);
    }
  }

  lemma {:induction false} ExecBasic(w: World, s: State, schedule: seq<Act>)
    requires Basic(w, s)
    ensures Basic(w, Exec(w, s, schedule))
    decreases |schedule|
  {
    if schedule == [] {
    } else {
      StepBasic(w, s, schedule[0]);
      ExecBasic(w, Step(w, s, schedule[0]), schedule[1..]);
    }
  }

  // ---------- Without rivals ----------

  lemma SameRowSameToken(w: World, s: State, u: nat, v: nat)
    requires IssuesOk(w, s) && u < |w.jobs| && v < |w.jobs| && w.jobs[u].Exchange? && w.jobs[v].Exchange?
    requires Row(w, s, u) == Row(w, s, v) < |s.tokens|
    ensures w.jobs[u].presented == w.jobs[v].presented
  {
  }

  lemma ReadKeeps(w: World, s: State, u: nat)
    requires RaceOk(w, s) && NoRivals(w)
    requires u < |w.jobs| && w.jobs[u].Exchange? && Answered(w, s, u).Renewed?
    requires s.phase[u].Idle?
    ensures RaceOk(w, At(s, u, Seen))
  {
    var r, t := At(s, u, Seen), Row(w, s, u);
    RenewedCan(w, s, u);
    MoveBasic(w, s, u, Seen);
    forall v | 0 <= v < |w.jobs| && v != u && s.phase[v].Busy()
      ensures Row(w, s, v) < |s.tokens| && s.tokens[Row(w, s, v)].login != s.tokens[t].login
    {
      assert BusyOk(w, s, v) && Sole(w, s, v) && !Rivals(w, if u < v then u else v, if u < v then v else u);
      if s.tokens[Row(w, s, v)].login == s.tokens[t].login {
        SameRowSameToken(w, s, u, v);
      }
    }
    forall v | 0 <= v < |w.jobs|
      ensures Sole(w, r, v)
    {
      assert Sole(w, s, v) && Row(w, r, v) == Row(w, s, v);
    }
    forall v, x | 0 <= v < x < |w.jobs|
      ensures DifferentLogins(w, r, v, x)
    {
      assert DifferentLogins(w, s, v, x) && Row(w, r, v) == Row(w, s, v) && Row(w, r, x) == Row(w, s, x);
    }
  }

  lemma MoveKeeps(w: World, s: State, u: nat, p: Phase)
    requires RaceOk(w, s) && u < |w.jobs| && (p.Busy() ==> s.phase[u].Busy()) && (s.phase[u].Done? ==> p.Done?)
    ensures RaceOk(w, At(s, u, p))
  {
    var r := At(s, u, p);
    assert BusyOk(w, s, u);
    MoveBasic(w, s, u, p);
    forall v | 0 <= v < |w.jobs|
      ensures Sole(w, r, v)
    {
      assert Sole(w, s, v) && Row(w, r, v) == Row(w, s, v);
    }
    forall v, x | 0 <= v < x < |w.jobs|
      ensures DifferentLogins(w, r, v, x)
    {
      assert DifferentLogins(w, s, v, x) && Row(w, r, v) == Row(w, s, v) && Row(w, r, x) == Row(w, s, x);
    }
  }

  lemma SweepKeeps(w: World, s: State, user: nat, stood: nat)
    requires RaceOk(w, s)
    ensures RaceOk(w, s.(tokens := SweepFirst(s.tokens, user, stood)))
  {
    var r := s.(tokens := SweepFirst(s.tokens, user, stood));
    SweepBasic(w, s, user, stood);
    forall v | 0 <= v < |w.jobs|
      ensures Sole(w, r, v)
    {
      assert Sole(w, s, v) && Row(w, r, v) == Row(w, s, v);
    }
    forall v, x | 0 <= v < x < |w.jobs|
      ensures DifferentLogins(w, r, v, x)
    {
      assert DifferentLogins(w, s, v, x) && Row(w, r, v) == Row(w, s, v) && Row(w, r, x) == Row(w, s, x);
    }
  }

  lemma ReplaceKeepsLiveOnce(w: World, s: State, u: nat)
    requires u < |w.jobs| == |s.phase| && s.phase[u].Written? && w.jobs[u].Exchange? && Row(w, s, u) < |s.tokens|
    requires LiveOnce(s.tokens) && Sole(w, s, u)
    ensures LiveOnce(Replaced(w, s, u).tokens)
  {
  }

  lemma ReplaceKeepsSole(w: World, s: State, u: nat, v: nat)
    requires u < |w.jobs| == |s.phase| && v < |w.jobs| && u != v && u !in s.issued
    requires s.phase[u].Written? && s.phase[v].Busy() && w.jobs[u].Exchange?
    requires Row(w, s, u) < |s.tokens| && Row(w, s, v) < |s.tokens|
    requires Sole(w, s, u) && Sole(w, s, v) && s.tokens[Row(w, s, v)].login != s.tokens[Row(w, s, u)].login
    ensures Row(w, Replaced(w, s, u), v) == Row(w, s, v) && Sole(w, Replaced(w, s, u), v)
  {
    RowStays(w, s, u, v);
  }

  lemma ReplaceKeepsOther(w: World, s: State, u: nat, v: nat)
    requires RaceOk(w, s) && u < |w.jobs| && v < |w.jobs| && u != v && s.phase[u].Written? && s.phase[v].Busy()
    requires w.jobs[u].Exchange? && Row(w, s, u) < |s.tokens| && u !in s.issued
    ensures Row(w, Replaced(w, s, u), v) == Row(w, s, v) < |s.tokens| && Sole(w, Replaced(w, s, u), v)
  {
    assert BusyOk(w, s, v) && Sole(w, s, v) && Sole(w, s, u);
    assert v < u ==> DifferentLogins(w, s, v, u);
    assert u < v ==> DifferentLogins(w, s, u, v);
    ReplaceKeepsSole(w, s, u, v);
  }

  lemma ReplaceKeeps(w: World, s: State, u: nat)
    requires RaceOk(w, s) && u < |w.jobs| && s.phase[u].Written?
    ensures w.jobs[u].Exchange? && Row(w, s, u) < |s.tokens|
    ensures RaceOk(w, Replaced(w, s, u))
  {
    ReplaceBasic(w, s, u);
    assert Sole(w, s, u);
    var r := Replaced(w, s, u);
    ReplaceKeepsLiveOnce(w, s, u);
    forall v | 0 <= v < |w.jobs| && r.phase[v].Busy()
      ensures Row(w, r, v) == Row(w, s, v) < |s.tokens| && Sole(w, r, v)
    {
      ReplaceKeepsOther(w, s, u, v);
    }
    forall v, x | 0 <= v < x < |w.jobs| && r.phase[v].Busy() && r.phase[x].Busy()
      ensures DifferentLogins(w, r, v, x)
    {
      assert DifferentLogins(w, s, v, x);
    }
  }

  lemma StepKeeps(w: World, s: State, a: Act)
    requires RaceOk(w, s) && NoRivals(w)
    ensures RaceOk(w, Step(w, s, a))
  {
    if a.txn < |w.jobs| {
      var u, p := a.txn, s.phase[a.txn];
      match a.kind
      case Read =>
        if p.Idle? {
          if Started(w, s, u).Seen? {
            ReadKeeps(w, s, u);
          } else {
            MoveKeeps(w, s, u, Started(w, s, u));
          }
        }
      case Write =>
        if p.Seen? {
          MoveKeeps(w, s, u, Written);
        } else if p.Alarmed? {
          MoveKeeps(w, s, u, Sweeping(p.user, |s.tokens|));
        }
      case Commit =>
        if p.Written? {
          ReplaceKeeps(w, s, u);
        } else if p.Sweeping? {
          MoveKeeps(w, s, u, Done);
          SweepKeeps(w, At(s, u, Done), p.user, p.stood);
        }
      case Abort => MoveKeeps(w, s, u, Done);
    }
  }

  lemma {:induction false} ExecKeeps(w: World, s: State, schedule: seq<Act>)
    requires RaceOk(w, s) && NoRivals(w)
    ensures RaceOk(w, Exec(w, s, schedule))
    decreases |schedule|
  {
    if schedule == [] {
    } else {
      StepKeeps(w, s, schedule[0]);
      ExecKeeps(w, Step(w, s, schedule[0]), schedule[1..]);
    }
  }

  // ---------- And when it does not ----------

  lemma {:induction false} ExecConcat(w: World, s: State, x: seq<Act>, y: seq<Act>)
    requires |s.phase| == |w.jobs|
    ensures Exec(w, s, x + y) == Exec(w, Exec(w, s, x), y)
    decreases |x|
  {
    if x == [] {
      assert x + y == y;
    } else {
      assert (x + y)[1..] == x[1..] + y;
      ExecConcat(w, Step(w, s, x[0]), x[1..], y);
    }
  }

  lemma ExecOne(w: World, s: State, a: Act)
    requires |s.phase| == |w.jobs|
    ensures Exec(w, s, [a]) == Step(w, s, a)
  {
    assert Exec(w, Step(w, s, a), [a][1..]) == Step(w, s, a);
  }

  lemma ExecTwo(w: World, s: State, a: Act, b: Act)
    requires |s.phase| == |w.jobs|
    ensures Exec(w, s, [a, b]) == Step(w, Step(w, s, a), b)
  {
    assert [a, b] == [a] + [b];
    ExecConcat(w, s, [a], [b]);
    ExecOne(w, s, a);
    ExecOne(w, Step(w, s, a), b);
  }

  predicate NoneWritten(s: State) {
    forall u :: 0 <= u < |s.phase| ==> !s.phase[u].Written?
  }

  function Finish(u: nat): seq<Act> { [Act(u, Write), Act(u, Commit)] }

  /** A request that read its token live and meets no lock gets its new token,
      whatever has become of the row since. */
  lemma FinishReplaces(w: World, s: State, u: nat)
    requires u < |w.jobs| == |s.phase| && s.phase[u].Seen? && !RowLocked(w, s, Row(w, s, u))
    requires w.jobs[u].Exchange? && Row(w, s, u) < |s.tokens|
    ensures Exec(w, s, Finish(u)) == Replaced(w, s, u)
  {
    ExecTwo(w, s, Act(u, Write), Act(u, Commit));
    assert Step(w, s, Act(u, Write)) == At(s, u, Written);
    assert Row(w, At(s, u, Written), u) == Row(w, s, u);
  }

  predicate Presentable(w: World, s: State, u: nat) {
    u < |w.jobs| == |s.phase| && s.phase[u].Idle? && w.jobs[u].Exchange? && Answered(w, s, u).Renewed?
  }

  /** Two requests that both read their token before either writes it. */
  function DoubleRead(u: nat, v: nat): seq<Act> {
    [Act(u, Read), Act(v, Read)] + (Finish(u) + Finish(v))
  }

  lemma {:induction false} BothGetTokens(w: World, s: State, u: nat, v: nat)
    requires Presentable(w, s, u) && Presentable(w, s, v) && u < v && NoneWritten(s) && IssuesOk(w, s)
    requires w.jobs[u].presented == w.jobs[v].presented
    ensures !LiveOnce(Exec(w, s, DoubleRead(u, v)).tokens)
  {
    var s2 := At(At(s, u, Seen), v, Seen);
    ExecConcat(w, s, [Act(u, Read), Act(v, Read)], Finish(u) + Finish(v));
    ExecTwo(w, s, Act(u, Read), Act(v, Read));
    assert Step(w, s, Act(u, Read)) == At(s, u, Seen) && Step(w, At(s, u, Seen), Act(v, Read)) == s2;
    ExecConcat(w, s2, Finish(u), Finish(v));
    FinishReplaces(w, s2, u);
    var s3 := Replaced(w, s2, u);
    assert Row(w, s3, v) == Row(w, s2, v);
    FinishReplaces(w, s3, v);
    var n := |s.tokens|;
    var end := Replaced(w, s3, v).tokens;
    assert !end[n].revoked && !end[n + 1].revoked && end[n].login == end[n + 1].login;
  }

  function Undisturbed(u: nat): seq<Act> { [Act(u, Read)] + Finish(u) }

  /** The request, after those whose answers it needs. */
  function Chain(w: World, u: nat): seq<Act>
    requires CanExchange(w, u)
    decreases u
  {
    if w.jobs[u].presented.From? then Chain(w, w.jobs[u].presented.job) + Undisturbed(u) else Undisturbed(u)
  }

  /** What a schedule leads to in which only requests up to some one have run. */
  ghost predicate Fresh(w: World, s: State, from: nat) {
    && IssuesOk(w, s) && NoneWritten(s)
    && (forall u :: from <= u < |w.jobs| ==> s.phase[u].Idle?)
  }

  ghost predicate Holds(w: World, s: State, u: nat) {
    && u in s.issued && s.issued[u] < |s.tokens| && u < |w.jobs| && w.jobs[u].Exchange?
    && !s.tokens[s.issued[u]].revoked && s.tokens[s.issued[u]].expires == w.jobs[u].expires
  }

  lemma UndisturbedHolds(w: World, s: State, u: nat)
    requires Presentable(w, s, u) && Fresh(w, s, u) && CanExchange(w, u)
    ensures var r := Exec(w, s, Undisturbed(u)); Fresh(w, r, u + 1) && Holds(w, r, u)
  {
    ExecConcat(w, s, [Act(u, Read)], Finish(u));
    ExecOne(w, s, Act(u, Read));
    FinishReplaces(w, At(s, u, Seen), u);
    var s1 := At(s, u, Seen);
    var r := Replaced(w, s1, u);
    forall j | j in r.issued
      ensures IssueOk(w, r, j)
    {
      assert j in s.issued ==> IssueOk(w, s, j);
    }
  }

  lemma {:induction false} ChainHolds(w: World, u: nat)
    requires CanExchange(w, u)
    ensures var r := Exec(w, Initial(w), Chain(w, u)); Fresh(w, r, u + 1) && Holds(w, r, u)
    decreases u
  {
    if w.jobs[u].presented.From? {
      var j := w.jobs[u].presented.job;
      ChainHolds(w, j);
      ExecConcat(w, Initial(w), Chain(w, j), Undisturbed(u));
      UndisturbedHolds(w, Exec(w, Initial(w), Chain(w, j)), u);
    } else {
      UndisturbedHolds(w, Initial(w), u);
    }
  }

  /** Each of two rivals gets a live token of the login. */
  lemma RivalsBothWin(w: World, u: nat, v: nat)
    requires u < v && Rivals(w, u, v)
    ensures exists schedule :: !LiveOnce(Exec(w, Initial(w), schedule).tokens)
  {
    if w.jobs[u].presented.From? {
      var j := w.jobs[u].presented.job;
      ChainHolds(w, j);
      var s := Exec(w, Initial(w), Chain(w, j));
      BothGetTokens(w, s, u, v);
      ExecConcat(w, Initial(w), Chain(w, j), DoubleRead(u, v));
    } else {
      BothGetTokens(w, Initial(w), u, v);
    }
  }

  /** Over every interleaving of exchanges and sweeps each login keeps at most one
      live token exactly when no two requests present one token that both could
      exchange, a token issued on the way included. */
  lemma OneLiveTokenIff(w: World)
    requires LiveOnce(w.ts)
    ensures (forall schedule :: LiveOnce(Exec(w, Initial(w), schedule).tokens)) <==> NoRivals(w)
  {
    if NoRivals(w) {
      forall schedule
        ensures LiveOnce(Exec(w, Initial(w), schedule).tokens)
      {
        ExecKeeps(w, Initial(w), schedule);
      }
    } else {
      var u, v :| 0 <= u < v < |w.jobs| && Rivals(w, u, v);
      RivalsBothWin(w, u, v);
    }
  }

  // ---------- Sweeps ----------

  ghost predicate NoneLive(ts: seq<Token>, user: nat) {
    forall t :: 0 <= t < |ts| && ts[t].user == user ==> ts[t].revoked
  }

  /** The request read a token of the user live and is not answered yet. */
  predicate InFlight(w: World, s: State, u: nat, user: nat) {
    u < |w.jobs| == |s.phase| && s.phase[u].Busy() && Row(w, s, u) < |s.tokens| && s.tokens[Row(w, s, u)].user == user
  }

  /** The user's token was issued since so many rows stood, and is live. */
  predicate IssuedSince(ts: seq<Token>, user: nat, stood: nat, t: nat) {
    stood <= t < |ts| && ts[t].user == user && !ts[t].revoked
  }

  ghost predicate NoneLeft(w: World, s: State, user: nat) {
    NoneLive(s.tokens, user) && forall u :: 0 <= u < |w.jobs| ==> !InFlight(w, s, u, user)
  }

  lemma MoveLeavesNone(w: World, s: State, u: nat, p: Phase, user: nat)
    requires Basic(w, s) && NoneLeft(w, s, user) && u < |w.jobs|
    requires p.Busy() && Row(w, s, u) < |s.tokens| ==> s.tokens[Row(w, s, u)].user != user
    ensures NoneLeft(w, At(s, u, p), user)
  {
    forall v | 0 <= v < |w.jobs|
      ensures !InFlight(w, At(s, u, p), v, user)
    {
      assert !InFlight(w, s, v, user) && Row(w, At(s, u, p), v) == Row(w, s, v);
    }
  }

  lemma SweepLeavesNone(w: World, s: State, other: nat, stood: nat, user: nat)
    requires Basic(w, s) && NoneLeft(w, s, user)
    ensures NoneLeft(w, s.(tokens := SweepFirst(s.tokens, other, stood)), user)
  {
    var r := s.(tokens := SweepFirst(s.tokens, other, stood));
    forall v | 0 <= v < |w.jobs|
      ensures !InFlight(w, r, v, user)
    {
      assert !InFlight(w, s, v, user) && Row(w, r, v) == Row(w, s, v);
    }
  }

  lemma ReplaceLeavesNone(w: World, s: State, u: nat, user: nat)
    requires Basic(w, s) && NoneLeft(w, s, user) && u < |w.jobs| && s.phase[u].Written?
    ensures w.jobs[u].Exchange? && Row(w, s, u) < |s.tokens|
    ensures NoneLeft(w, Replaced(w, s, u), user)
  {
    ReplaceBasic(w, s, u);
    assert !InFlight(w, s, u, user);
    forall v | 0 <= v < |w.jobs|
      ensures !InFlight(w, Replaced(w, s, u), v, user)
    {
      assert BusyOk(w, s, v) && !InFlight(w, s, v, user);
      if v != u && s.phase[v].Busy() {
        RowStays(w, s, u, v);
      }
    }
  }

  lemma StepLeavesNone(w: World, s: State, a: Act, user: nat)
    requires Basic(w, s) && NoneLeft(w, s, user)
    ensures NoneLeft(w, Step(w, s, a), user)
  {
    if a.txn < |w.jobs| {
      var u, p := a.txn, s.phase[a.txn];
      assert BusyOk(w, s, u) && !InFlight(w, s, u, user);
      match a.kind
      case Read =>
        if p.Idle? {
          MoveLeavesNone(w, s, u, Started(w, s, u), user);
        }
      case Write =>
        if p.Seen? {
          MoveLeavesNone(w, s, u, Written, user);
        } else if p.Alarmed? {
          MoveLeavesNone(w, s, u, Sweeping(p.user, |s.tokens|), user);
        }
      case Commit =>
        if p.Written? {
          ReplaceLeavesNone(w, s, u, user);
        } else if p.Sweeping? {
          MoveLeavesNone(w, s, u, Done, user);
          MoveBasic(w, s, u, Done);
          SweepLeavesNone(w, At(s, u, Done), p.user, p.stood, user);
        }
      case Abort => MoveLeavesNone(w, s, u, Done, user);
    }
  }

  lemma {:induction false} ExecLeavesNone(w: World, s: State, schedule: seq<Act>, user: nat)
    requires Basic(w, s) && NoneLeft(w, s, user)
    ensures NoneLive(Exec(w, s, schedule).tokens, user)
    decreases |schedule|
  {
    if schedule == [] {
    } else {
      StepBasic(w, s, schedule[0]);
      StepLeavesNone(w, s, schedule[0], user);
      ExecLeavesNone(w, Step(w, s, schedule[0]), schedule[1..], user);
    }
  }

  lemma WrittenLandsLive(w: World, s: State, u: nat, user: nat)
    requires Basic(w, s) && InFlight(w, s, u, user) && s.phase[u].Written?
    ensures !NoneLive(Exec(w, s, [Act(u, Commit)]).tokens, user)
  {
    assert BusyOk(w, s, u);
    ExecOne(w, s, Act(u, Commit));
    assert !Replaced(w, s, u).tokens[|s.tokens|].revoked;
  }

  /** An exchange under way can still put a live token of its user into the table. */
  lemma InFlightCanLand(w: World, s: State, u: nat, user: nat)
    requires Basic(w, s) && InFlight(w, s, u, user)
    ensures exists schedule :: !NoneLive(Exec(w, s, schedule).tokens, user)
  {
    assert BusyOk(w, s, u);
    if s.phase[u].Written? {
      WrittenLandsLive(w, s, u, user);
    } else if RowLocked(w, s, Row(w, s, u)) {
      var v :| 0 <= v < |w.jobs| && s.phase[v].Written? && Row(w, s, v) == Row(w, s, u);
      WrittenLandsLive(w, s, v, user);
    } else {
      FinishReplaces(w, s, u);
      assert !Replaced(w, s, u).tokens[|s.tokens|].revoked;
    }
  }

  /** The state in which a sweep has just committed. */
  function AfterSweep(w: World, s: State, x: nat): State
    requires x < |w.jobs| == |s.phase| && s.phase[x].Sweeping?
  {
    At(s, x, Done).(tokens := SweepFirst(s.tokens, s.phase[x].user, s.phase[x].stood))
  }

  /** An exchange of the swept user is under way, or was answered since the sweep's
      statement started. */
  ghost predicate Outrun(w: World, s: State, user: nat, stood: nat) {
    || (exists u :: 0 <= u < |w.jobs| && InFlight(w, s, u, user))
    || (exists t: nat :: IssuedSince(s.tokens, user, stood, t))
  }

  lemma SweepMovesNothingElse(w: World, s: State, x: nat, u: nat)
    requires x < |w.jobs| == |s.phase| && s.phase[x].Sweeping? && u < |w.jobs|
    ensures InFlight(w, AfterSweep(w, s, x), u, s.phase[x].user) <==> InFlight(w, s, u, s.phase[x].user)
  {
    assert Row(w, AfterSweep(w, s, x), u) == Row(w, s, u);
  }

  lemma OutrunLeavesLive(w: World, s: State, x: nat)
    requires x < |w.jobs| == |s.phase| && s.phase[x].Sweeping? && Basic(w, AfterSweep(w, s, x))
    requires Outrun(w, s, s.phase[x].user, s.phase[x].stood)
    ensures exists after :: !NoneLive(Exec(w, AfterSweep(w, s, x), after).tokens, s.phase[x].user)
  {
    var user, stood, r := s.phase[x].user, s.phase[x].stood, AfterSweep(w, s, x);
    if t: nat :| IssuedSince(s.tokens, user, stood, t) {
      assert !r.tokens[t].revoked && Exec(w, r, []) == r;
    } else {
      var u :| 0 <= u < |w.jobs| && InFlight(w, s, u, user);
      SweepMovesNothingElse(w, s, x, u);
      InFlightCanLand(w, r, u, user);
    }
  }

  lemma NotOutrunLeavesNone(w: World, s: State, x: nat, after: seq<Act>)
    requires x < |w.jobs| == |s.phase| && s.phase[x].Sweeping? && Basic(w, AfterSweep(w, s, x))
    requires !Outrun(w, s, s.phase[x].user, s.phase[x].stood)
    ensures NoneLive(Exec(w, AfterSweep(w, s, x), after).tokens, s.phase[x].user)
  {
    var user, stood, r := s.phase[x].user, s.phase[x].stood, AfterSweep(w, s, x);
    forall u | 0 <= u < |w.jobs|
      ensures !InFlight(w, r, u, user)
    {
      SweepMovesNothingElse(w, s, x, u);
    }
    forall t | stood <= t < |s.tokens| && s.tokens[t].user == user
      ensures s.tokens[t].revoked
    {
      assert !IssuedSince(s.tokens, user, stood, t);
    }
    ExecLeavesNone(w, r, after, user);
  }

  /** In every interleaving: once a sweep commits, after a reuse or a password
      reset, its user has no live token in any continuation, exactly when no
      exchange of the user is under way at that moment and none was answered since
      the sweep's statement started. */
  lemma SweepIsFinalIff(w: World, before: seq<Act>, x: nat)
    requires x < |w.jobs|
    requires var s := Exec(w, Initial(w), before);
      s.phase[x].Sweeping? && !SweepWaits(w, s, s.phase[x].user, s.phase[x].stood)
    ensures var s := Exec(w, Initial(w), before); var user, stood := s.phase[x].user, s.phase[x].stood;
      (forall after :: NoneLive(Exec(w, Step(w, s, Act(x, Commit)), after).tokens, user))
      <==> !Outrun(w, s, user, stood)
  {
    var s := Exec(w, Initial(w), before);
    ExecBasic(w, Initial(w), before);
    StepBasic(w, s, Act(x, Commit));
    assert Step(w, s, Act(x, Commit)) == AfterSweep(w, s, x);
    if Outrun(w, s, s.phase[x].user, s.phase[x].stood) {
      OutrunLeavesLive(w, s, x);
    } else {
      forall after
        ensures NoneLive(Exec(w, AfterSweep(w, s, x), after).tokens, s.phase[x].user)
      {
        NotOutrunLeavesNone(w, s, x, after);
      }
    }
  }
}
