/** The refresh queue and the token table together, over a network that delays
    and loses: one client, the server, and everyone else, the client's other tabs
    included, which share its persisted refresh token. */
module SingleFlight {
  import opened Common
  import opened RefreshQueue
  import Server = TokenRotation

  /** What became of a refresh post. */
  datatype Stage = OnWire | Replied(next: Option<nat>) | Over

  /** stage[i] is about client.sent[i]; mine are the logins made by this client;
      reuses counts how often the server took one of its posts for a reuse. */
  datatype System = System(
    tokens: seq<Server.Token>, client: Client, stage: seq<Stage>, mine: set<nat>, reuses: nat)

  datatype Act =
    | Fails(request: nat, exempt: bool)                     // a request of the client is answered 401
    | Arrives(post: nat, now: int, active: bool, expires: int)  // a post reaches the server
    | Comes(post: nat)                                      // a reply reaches the client
    | Timeout                                               // the client gives up waiting
    | Wakes
    | Login(user: nat, expires: int)
    | SignOut                                               // the session store is cleared
    | Logout(token: nat)                                    // the server is told to revoke
    | Reset(user: nat)
    | Elsewhere(q: Server.Request)                          // another device, or another tab of this one

  function Initial(requests: nat): System {
    System([], NewClient(requests), [], {}, 0)
  }

  /** Others log in and exchange tokens, those of this client's logins included. */
  predicate FromOthers(q: Server.Request) { q.Issue? || q.Rotate? }

  function ReplyFor(a: Server.Answer): Option<nat> {
    if a.Renewed? then Some(a.token) else None
  }

  function Arrive(s: System, i: nat, now: int, active: bool, expires: int): System
    requires i < |s.stage| && i < |s.client.sent|
  {
    var t := s.client.sent[i];
    var answer := Server.AnswerTo(s.tokens, t, now, active);
    s.(tokens := Server.Rotated(s.tokens, t, now, active, expires),
       stage := s.stage[i := Replied(ReplyFor(answer))],
       reuses := if answer.Reuse? then s.reuses + 1 else s.reuses)
  }

  function Come(s: System, i: nat): System
    requires i < |s.stage| && i < |s.client.sent| && s.stage[i].Replied?
  {
    var over := s.(stage := s.stage[i := Over]);
    if s.client.phase.Sent? && s.client.phase.token == s.client.sent[i]
    then over.(client := Back(s.client, s.stage[i].next)) else over
  }

  function Fail(s: System, r: nat, exempt: bool): System {
    var after := Unauthorized(s.client, r, exempt);
    s.(client := after, stage := if |after.sent| > |s.client.sent| then s.stage + [OnWire] else s.stage)
  }

  function Step(s: System, a: Act): System {
    match a
    case Fails(r, exempt) => Fail(s, r, exempt)
    case Arrives(i, now, active, expires) =>
      if i < |s.stage| && i < |s.client.sent| && s.stage[i].OnWire? then Arrive(s, i, now, active, expires) else s
    case Comes(i) => if i < |s.stage| && i < |s.client.sent| && s.stage[i].Replied? then Come(s, i) else s
    case Timeout => s.(client := Back(s.client, None))
    case Wakes => s.(client := Wake(s.client))
    case Login(user, expires) =>
      s.(tokens := Server.Step(s.tokens, Server.Issue(user, expires)),
         client := s.client.(store := Some(|s.tokens|)), mine := s.mine + {|s.tokens|})
    case SignOut => s.(client := s.client.(store := None))
    case Logout(t) => s.(tokens := Server.Step(s.tokens, Server.Revoke(t)))
    case Reset(user) => s.(tokens := Server.Step(s.tokens, Server.SweepUser(user)))
    case Elsewhere(q) => if FromOthers(q) then s.(tokens := Server.Step(s.tokens, q)) else s
  }

  function Exec(s: System, run: seq<Act>): System
    decreases |run|
  {
    if run == [] then s else Exec(Step(s, run[0]), run[1..])
  }

  // ---------- Invariant ----------

  /** A token of one of this client's logins. */
  predicate Own(s: System, t: nat) {
    t < |s.tokens| && s.tokens[t].login in s.mine
  }

  predicate PostOk(s: System, i: nat)
    requires i < |s.stage| && |s.stage| == |s.client.sent|
  {
    && Own(s, s.client.sent[i])
    && (s.stage[i].Replied? && s.stage[i].next.Some? ==>
          var n := s.stage[i].next.value;
          Own(s, n) && n !in s.client.sent && s.client.store != Some(n))
  }

  predicate Distinct(stage: seq<Stage>, sent: seq<nat>, i: nat, j: nat)
    requires i < |stage| && j < |stage| && |stage| == |sent|
  {
    && sent[i] != sent[j]
    && (stage[i].Replied? && stage[j].Replied? && stage[i].next.Some? ==> stage[i].next != stage[j].next)
  }

  predicate StoreOk(s: System) {
    s.client.store.Some? ==>
      if s.client.store.value in s.client.sent
      then s.client.phase.Sent? && s.client.phase.token == s.client.store.value && Own(s, s.client.store.value)
      else Own(s, s.client.store.value)
  }

  ghost predicate SystemOk(s: System) {
    && |s.stage| == |s.client.sent|
    && ClientOk(s.client)
    && (forall l :: l in s.mine ==> l < |s.tokens|)
    && (forall t :: 0 <= t < |s.tokens| ==> s.tokens[t].login <= t)
    && (forall i :: 0 <= i < |s.stage| ==> PostOk(s, i))
    && (forall i, j :: 0 <= i < j < |s.stage| ==> Distinct(s.stage, s.client.sent, i, j))
    && StoreOk(s)
  }

  /** What the server did left every token in its login. */
  ghost predicate Spares(s: System, tokens: seq<Server.Token>) {
    && |s.tokens| <= |tokens|
    && (forall t :: 0 <= t < |s.tokens| ==> tokens[t].login == s.tokens[t].login)
    && (forall t :: |s.tokens| <= t < |tokens| ==> tokens[t].login <= t)
  }

  lemma ServerElsewhere(s: System, tokens: seq<Server.Token>)
    requires SystemOk(s) && Spares(s, tokens)
    ensures SystemOk(s.(tokens := tokens))
  {
    forall i | 0 <= i < |s.stage|
      ensures PostOk(s.(tokens := tokens), i)
    {
      assert PostOk(s, i);
    }
  }

  lemma FailKeeps(s: System, r: nat, exempt: bool)
    requires SystemOk(s)
    ensures SystemOk(Fail(s, r, exempt))
  {
    var d := Fail(s, r, exempt);
    UnauthorizedKeeps(s.client, r, exempt);
    forall i | 0 <= i < |d.stage|
      ensures PostOk(d, i)
    {
      if i < |s.stage| {
        assert PostOk(s, i);
      }
    }
    forall i, j | 0 <= i < j < |d.stage|
      ensures Distinct(d.stage, d.client.sent, i, j)
    {
      if j < |s.stage| {
        assert Distinct(s.stage, s.client.sent, i, j);
      }
    }
  }

  lemma SentAreIssued(s: System)
    requires SystemOk(s)
    ensures forall t :: t in s.client.sent ==> t < |s.tokens|
  {
    forall i | 0 <= i < |s.stage|
      ensures s.client.sent[i] < |s.tokens|
    {
      assert PostOk(s, i);
    }
  }

  lemma ArriveKeeps(s: System, i: nat, now: int, active: bool, expires: int)
    requires SystemOk(s) && i < |s.stage| && s.stage[i].OnWire?
    ensures SystemOk(Arrive(s, i, now, active, expires))
  {
    var d := Arrive(s, i, now, active, expires);
    assert PostOk(s, i);
    SentAreIssued(s);
    var t := s.client.sent[i];
    assert forall u :: 0 <= u < |s.tokens| && u != t && Own(s, u) ==> Own(d, u);
    forall k | 0 <= k < |d.stage|
      ensures PostOk(d, k)
    {
      assert PostOk(s, k);
      assert k < i ==> Distinct(s.stage, s.client.sent, k, i);
      assert i < k ==> Distinct(s.stage, s.client.sent, i, k);
    }
    forall j, k | 0 <= j < k < |d.stage|
      ensures Distinct(d.stage, d.client.sent, j, k)
    {
      assert Distinct(s.stage, s.client.sent, j, k);
      assert PostOk(s, j) && PostOk(s, k);
    }
  }

  lemma ComeKeeps(s: System, i: nat)
    requires SystemOk(s) && i < |s.stage| && s.stage[i].Replied?
    ensures SystemOk(Come(s, i))
  {
    var d := Come(s, i);
    BackKeeps(s.client, s.stage[i].next);
    assert PostOk(s, i);
    forall k | 0 <= k < |d.stage|
      ensures PostOk(d, k)
    {
      assert PostOk(s, k);
      assert k < i ==> Distinct(s.stage, s.client.sent, k, i);
      assert i < k ==> Distinct(s.stage, s.client.sent, i, k);
    }
    forall j, k | 0 <= j < k < |d.stage|
      ensures Distinct(d.stage, d.client.sent, j, k)
    {
      assert Distinct(s.stage, s.client.sent, j, k);
    }
  }

  /** The client forgets its token, or gets a brand-new one by logging in. */
  lemma StoreKeeps(s: System, d: System)
    requires SystemOk(s) && ClientOk(d.client)
    requires d.client.sent == s.client.sent && d.stage == s.stage && d.reuses == s.reuses
    requires d.client.store.Some? ==>
      Own(d, d.client.store.value) && |s.tokens| <= d.client.store.value
    requires (d.tokens == s.tokens && d.mine == s.mine) ||
      (Spares(s, d.tokens) && |s.tokens| < |d.tokens| && d.mine == s.mine + {|s.tokens|})
    ensures SystemOk(d)
  {
    SentAreIssued(s);
    forall k | 0 <= k < |d.stage|
      ensures PostOk(d, k)
    {
      assert PostOk(s, k);
    }
  }

  lemma WakeKeeps(s: System)
    requires SystemOk(s)
    ensures SystemOk(Step(s, Wakes))
  {
    if s.client.phase.Stored? || s.client.phase.Failed? {
      WakeSettlesAll(s.client);
      forall k | 0 <= k < |s.stage|
        ensures PostOk(Step(s, Wakes), k)
      {
        assert PostOk(s, k);
      }
    }
  }

  lemma SignKeeps(s: System, a: Act)
    requires SystemOk(s) && (a.Login? || a.SignOut? || a.Timeout?)
    ensures SystemOk(Step(s, a))
  {
    var d := Step(s, a);
    if a.Timeout? {
      BackKeeps(s.client, None);
      if s.client.phase.Sent? {
        StoreKeeps(s, d);
      }
    } else {
      forall q | 0 <= q < |s.client.retried|
        ensures SettledOnce(d.client, q)
      {
        assert SettledOnce(s.client, q);
      }
      StoreKeeps(s, d);
    }
  }

  lemma StepKeeps(s: System, a: Act)
    requires SystemOk(s)
    ensures SystemOk(Step(s, a))
  {
    match a
    case Fails(r, exempt) => FailKeeps(s, r, exempt);
    case Arrives(i, now, active, expires) =>
      if i < |s.stage| && s.stage[i].OnWire? {
        ArriveKeeps(s, i, now, active, expires);
      }
    case Comes(i) =>
      if i < |s.stage| && s.stage[i].Replied? {
        ComeKeeps(s, i);
      }
    case Wakes => WakeKeeps(s);
    case Timeout => SignKeeps(s, a);
    case Login(_, _) => SignKeeps(s, a);
    case SignOut => SignKeeps(s, a);
    case _ => ServerElsewhere(s, Step(s, a).tokens);
  }

  lemma {:induction false} ExecKeeps(s: System, run: seq<Act>)
    requires SystemOk(s)
    ensures SystemOk(Exec(s, run))
    decreases |run|
  {
    if run == [] {
    } else {
      StepKeeps(s, run[0]);
      ExecKeeps(Step(s, run[0]), run[1..]);
    }
  }

  // ---------- Posts in flight ----------

  predicate Awaited(s: System, i: nat)
    requires i < |s.client.sent|
  {
    s.client.phase.Sent? && s.client.phase.token == s.client.sent[i]
  }

  /** The posts that an action gives up on: a timeout stops waiting for one. */
  function GivesUp(s: System, a: Act): set<nat> {
    if a.Timeout? && s.client.phase.Sent? then {s.client.phase.token} else {}
  }

  function GivenUp(s: System, run: seq<Act>): set<nat>
    decreases |run|
  {
    if run == [] then {} else GivesUp(s, run[0]) + GivenUp(Step(s, run[0]), run[1..])
  }

  /** A post that is not over is awaited or was given up, and never both. */
  ghost predicate Flights(s: System, givenUp: set<nat>) {
    && |s.stage| == |s.client.sent|
    && (forall t :: t in givenUp ==> t in s.client.sent)
    && (s.client.phase.Sent? ==> s.client.phase.token in s.client.sent && s.client.phase.token !in givenUp)
    && (forall i :: 0 <= i < |s.stage| && !s.stage[i].Over? ==> Awaited(s, i) || s.client.sent[i] in givenUp)
  }

  lemma StepKeepsFlights(s: System, a: Act, givenUp: set<nat>)
    requires SystemOk(s) && Flights(s, givenUp)
    ensures Flights(Step(s, a), givenUp + GivesUp(s, a))
  {
    if a.Comes? && a.post < |s.stage| && s.stage[a.post].Replied? {
      forall k | 0 <= k < |s.stage| && k != a.post
        ensures s.client.sent[k] != s.client.sent[a.post]
      {
        assert k < a.post ==> Distinct(s.stage, s.client.sent, k, a.post);
        assert a.post < k ==> Distinct(s.stage, s.client.sent, a.post, k);
      }
    }
  }

  lemma {:induction false} ExecKeepsFlights(s: System, run: seq<Act>, givenUp: set<nat>)
    requires SystemOk(s) && Flights(s, givenUp)
    ensures Flights(Exec(s, run), givenUp + GivenUp(s, run))
    decreases |run|
  {
    if run == [] {
      assert givenUp + GivenUp(s, run) == givenUp;
    } else {
      StepKeeps(s, run[0]);
      StepKeepsFlights(s, run[0], givenUp);
      ExecKeepsFlights(Step(s, run[0]), run[1..], givenUp + GivesUp(s, run[0]));
      assert givenUp + GivenUp(s, run) == givenUp + GivesUp(s, run[0]) + GivenUp(Step(s, run[0]), run[1..]);
    }
  }

  lemma {:induction false} NoTimeoutGivesUpNone(s: System, run: seq<Act>)
    requires forall k :: 0 <= k < |run| ==> !run[k].Timeout?
    ensures GivenUp(s, run) == {}
    decreases |run|
  {
    if run == [] {
    } else {
      NoTimeoutGivesUpNone(Step(s, run[0]), run[1..]);
    }
  }

  /** Over every run, of the posts that no timeout gave up at most one is in
      flight; without timeouts that is of all posts. */
  lemma OneRefreshInFlight(requests: nat, run: seq<Act>, i: nat, j: nat)
    ensures var s := Exec(Initial(requests), run);
      && |s.stage| == |s.client.sent|
      && (i < j < |s.stage| && !s.stage[i].Over? && !s.stage[j].Over? ==>
            (s.client.sent[i] in GivenUp(Initial(requests), run) || s.client.sent[j] in GivenUp(Initial(requests), run))
            && exists k :: 0 <= k < |run| && run[k].Timeout?)
  {
    var s, givenUp := Exec(Initial(requests), run), GivenUp(Initial(requests), run);
    ExecKeeps(Initial(requests), run);
    ExecKeepsFlights(Initial(requests), run, {});
    assert {} + givenUp == givenUp;
    if i < j < |s.stage| && !s.stage[i].Over? && !s.stage[j].Over? {
      assert Distinct(s.stage, s.client.sent, i, j);
      if forall k :: 0 <= k < |run| ==> !run[k].Timeout? {
        NoTimeoutGivesUpNone(Initial(requests), run);
        assert false;  // both would be the awaited one
      }
    }
  }

  /** Such as a refresh given up, a new login, and that login's first refresh. */
  lemma TimeoutLeavesTwo(s: System, i: nat, r: nat, user: nat, expires: int)
    requires |s.stage| == |s.client.sent| && ClientOk(s.client)
    requires i < |s.stage| && s.stage[i].OnWire? && Awaited(s, i)
    requires r < |s.client.retried| && !s.client.retried[r]
    ensures GivesUp(s, Timeout) == {s.client.sent[i]}
    ensures Step(Step(Step(Step(s, Timeout), Wakes), Login(user, expires)), Fails(r, false)).stage == s.stage + [OnWire]
  {
    var woken := Step(Step(s, Timeout), Wakes);
    assert !woken.client.refreshing && woken.client.retried == s.client.retried && woken.client.sent == s.client.sent;
  }

  /** What a timeout changes: the post it gave up may still reach the server and
      be answered, but its answer no longer reaches the client. */
  lemma LateReplyIgnored(requests: nat, run: seq<Act>, i: nat)
    ensures var s := Exec(Initial(requests), run);
      (i < |s.client.sent| && s.client.sent[i] in GivenUp(Initial(requests), run) ==> Step(s, Comes(i)).client == s.client)
  {
    ExecKeeps(Initial(requests), run);
    ExecKeepsFlights(Initial(requests), run, {});
    assert {} + GivenUp(Initial(requests), run) == GivenUp(Initial(requests), run);
  }

  // ---------- Reuse alarms ----------

  function LiveOf(tokens: seq<Server.Token>, user: nat): set<nat> {
    set t: nat | t < |tokens| && tokens[t].user == user && !tokens[t].revoked
  }

  /** Whom presenting a token strikes: everyone's of its user, if it was revoked. */
  function AlarmStrikes(tokens: seq<Server.Token>, t: nat): set<nat> {
    if t < |tokens| && tokens[t].revoked then LiveOf(tokens, tokens[t].user) else {}
  }

  /** The token that another device or tab exchanges. */
  function TakenBy(s: System, a: Act): set<nat> {
    if a.Elsewhere? && a.q.Rotate? && Server.AnswerTo(s.tokens, a.q.token, a.q.now, a.q.active).Renewed? then {a.q.token}
    else {}
  }

  function Taken(s: System, run: seq<Act>): set<nat>
    decreases |run|
  {
    if run == [] then {} else TakenBy(s, run[0]) + Taken(Step(s, run[0]), run[1..])
  }

  /** The live tokens that an action revokes without this client exchanging them: by
      a logout, by a reset, by the sweep after a reuse, or exchanged by someone else. */
  function Strikes(s: System, a: Act): set<nat> {
    match a
    case Logout(t) => if t < |s.tokens| && !s.tokens[t].revoked then {t} else {}
    case Reset(user) => LiveOf(s.tokens, user)
    case Arrives(i, _, _, _) =>
      if i < |s.stage| && i < |s.client.sent| && s.stage[i].OnWire? then AlarmStrikes(s.tokens, s.client.sent[i]) else {}
    case Elsewhere(q) => if q.Rotate? then AlarmStrikes(s.tokens, q.token) + TakenBy(s, a) else {}
    case _ => {}
  }

  /** A post arrives whose token was struck down while it was under way. */
  predicate Hits(s: System, a: Act, struck: set<nat>) {
    a.Arrives? && a.post < |s.stage| && a.post < |s.client.sent| && s.stage[a.post].OnWire?
    && s.client.sent[a.post] in struck
  }

  predicate Overtaken(s: System, run: seq<Act>, struck: set<nat>)
    decreases |run|
  {
    run != [] && (Hits(s, run[0], struck) || Overtaken(Step(s, run[0]), run[1..], struck + Strikes(s, run[0])))
  }

  /** This client posted the token and the post arrived. */
  predicate Presented(s: System, t: nat) {
    exists i :: 0 <= i < |s.stage| && i < |s.client.sent| && s.client.sent[i] == t && !s.stage[i].OnWire?
  }

  /** A revoked token was struck down, or this client presented it; an exchanged one
      was taken by someone else, or this client presented it. */
  ghost predicate Accounts(s: System, struck: set<nat>, taken: set<nat>) {
    && (forall t: nat :: t in struck ==> t < |s.tokens| && s.tokens[t].revoked)
    && (forall t: nat :: t in taken ==> t < |s.tokens| && s.tokens[t].replacedBy.Some?)
    && (forall t: nat :: t < |s.tokens| && s.tokens[t].revoked ==> t in struck || Presented(s, t))
    && (forall t: nat :: t < |s.tokens| && s.tokens[t].replacedBy.Some? ==> t in taken || Presented(s, t))
  }

  lemma PresentedStays(s: System, a: Act, t: nat)
    requires SystemOk(s) && Presented(s, t)
    ensures Presented(Step(s, a), t)
  {
    var i :| 0 <= i < |s.stage| && s.client.sent[i] == t && !s.stage[i].OnWire?;
    assert Step(s, a).client.sent[i] == t;
  }

  /** What the rows went through is in the accounts. */
  ghost predicate Explains(s: System, tokens: seq<Server.Token>, struck: set<nat>, taken: set<nat>, own: set<nat>) {
    && |s.tokens| <= |tokens|
    && (forall t: nat :: t in struck ==> t < |tokens| && tokens[t].revoked)
    && (forall t: nat :: t in taken ==> t < |tokens| && tokens[t].replacedBy.Some?)
    && (forall t: nat :: t < |s.tokens| && s.tokens[t].revoked ==> tokens[t].revoked)
    && (forall t: nat :: t < |s.tokens| && s.tokens[t].replacedBy.Some? ==> tokens[t].replacedBy.Some?)
    && (forall t: nat :: t < |tokens| && tokens[t].revoked ==>
          (t < |s.tokens| && s.tokens[t].revoked) || t in struck || t in own)
    && (forall t: nat :: t < |tokens| && tokens[t].replacedBy.Some? ==>
          (t < |s.tokens| && s.tokens[t].replacedBy.Some?) || t in taken || t in own)
  }

  lemma RotateExplains(s: System, t: nat, now: int, active: bool, expires: int)
    ensures var tokens := Server.Rotated(s.tokens, t, now, active, expires);
      var given := if Server.AnswerTo(s.tokens, t, now, active).Renewed? then {t} else {};
      Explains(s, tokens, AlarmStrikes(s.tokens, t), {}, given)
      && Explains(s, tokens, AlarmStrikes(s.tokens, t) + given, given, {})
  {
  }

  /** What this client presents with an action. */
  function Presents(s: System, a: Act): set<nat> {
    if a.Arrives? && a.post < |s.stage| && a.post < |s.client.sent| && s.stage[a.post].OnWire?
    then {s.client.sent[a.post]} else {}
  }

  lemma StepExplains(s: System, a: Act)
    requires SystemOk(s)
    ensures Explains(s, Step(s, a).tokens, Strikes(s, a), TakenBy(s, a), Presents(s, a))
  {
    if a.Arrives? && a.post < |s.stage| && s.stage[a.post].OnWire? {
      RotateExplains(s, s.client.sent[a.post], a.now, a.active, a.expires);
    } else if a.Elsewhere? && a.q.Rotate? {
      RotateExplains(s, a.q.token, a.q.now, a.q.active, a.q.expires);
    }
  }

  lemma PresentsIsPresented(s: System, a: Act)
    requires SystemOk(s)
    ensures forall t :: t in Presents(s, a) ==> Presented(Step(s, a), t)
  {
    if Presents(s, a) != {} {
      assert Step(s, a).client.sent[a.post] == s.client.sent[a.post];
    }
  }

  lemma Accounted(s: System, d: System, struck: set<nat>, taken: set<nat>, x: set<nat>, y: set<nat>, own: set<nat>)
    requires Accounts(s, struck, taken) && Explains(s, d.tokens, x, y, own)
    requires forall t: nat :: Presented(s, t) || t in own ==> Presented(d, t)
    ensures Accounts(d, struck + x, taken + y)
  {
  }

  lemma StepAccounts(s: System, a: Act, struck: set<nat>, taken: set<nat>)
    requires SystemOk(s) && Accounts(s, struck, taken)
    ensures Accounts(Step(s, a), struck + Strikes(s, a), taken + TakenBy(s, a))
  {
    StepExplains(s, a);
    PresentsIsPresented(s, a);
    forall t: nat | Presented(s, t)
      ensures Presented(Step(s, a), t)
    {
      PresentedStays(s, a, t);
    }
    Accounted(s, Step(s, a), struck, taken, Strikes(s, a), TakenBy(s, a), Presents(s, a));
  }

  /** A post still on its way is the only one of its token. */
  lemma OnWireNotPresented(s: System, i: nat)
    requires SystemOk(s) && i < |s.stage| && s.stage[i].OnWire?
    ensures !Presented(s, s.client.sent[i])
  {
    forall j | 0 <= j < |s.stage| && !s.stage[j].OnWire?
      ensures s.client.sent[j] != s.client.sent[i]
    {
      assert j < i ==> Distinct(s.stage, s.client.sent, j, i);
      assert i < j ==> Distinct(s.stage, s.client.sent, i, j);
    }
  }

  lemma ArrivalAlarms(s: System, a: Act, struck: set<nat>, taken: set<nat>)
    requires SystemOk(s) && Accounts(s, struck, taken)
    ensures Step(s, a).reuses == s.reuses + if Hits(s, a, struck) then 1 else 0
  {
    if a.Arrives? && a.post < |s.stage| && s.stage[a.post].OnWire? {
      assert PostOk(s, a.post);
      OnWireNotPresented(s, a.post);
    }
  }

  lemma {:induction false} ExecAlarms(s: System, run: seq<Act>, struck: set<nat>, taken: set<nat>)
    requires SystemOk(s) && Accounts(s, struck, taken)
    ensures s.reuses <= Exec(s, run).reuses
    ensures s.reuses == Exec(s, run).reuses <==> !Overtaken(s, run, struck)
    decreases |run|
  {
    if run == [] {
    } else {
      StepKeeps(s, run[0]);
      StepAccounts(s, run[0], struck, taken);
      ArrivalAlarms(s, run[0], struck, taken);
      ExecAlarms(Step(s, run[0]), run[1..], struck + Strikes(s, run[0]), taken + TakenBy(s, run[0]));
    }
  }

  lemma {:induction false} ExecTaken(s: System, run: seq<Act>, struck: set<nat>, taken: set<nat>) returns (all: set<nat>)
    requires SystemOk(s) && Accounts(s, struck, taken)
    ensures Accounts(Exec(s, run), all, taken + Taken(s, run))
    decreases |run|
  {
    if run == [] {
      assert taken + Taken(s, run) == taken;
      all := struck;
    } else {
      StepKeeps(s, run[0]);
      StepAccounts(s, run[0], struck, taken);
      all := ExecTaken(Step(s, run[0]), run[1..], struck + Strikes(s, run[0]), taken + TakenBy(s, run[0]));
      assert taken + Taken(s, run) == taken + TakenBy(s, run[0]) + Taken(Step(s, run[0]), run[1..]);
    }
  }

  // ---------- The protocol ----------

  /** Over any run whatever: requests wait only while a refresh is under way, each
      handled one is waiting or was settled exactly once, no refresh token is ever
      posted twice, and the token of a post still on its way was exchanged exactly
      when another tab or device took it. */
  lemma SingleFlightHolds(requests: nat, run: seq<Act>)
    ensures var s := Exec(Initial(requests), run);
      && ClientOk(s.client) && |s.stage| == |s.client.sent|
      && (forall i, j :: 0 <= i < j < |s.client.sent| ==> s.client.sent[i] != s.client.sent[j])
      && (forall i :: 0 <= i < |s.stage| && s.stage[i].OnWire? ==>
            && s.client.sent[i] < |s.tokens|
            && (s.tokens[s.client.sent[i]].replacedBy.Some? <==> s.client.sent[i] in Taken(Initial(requests), run)))
  {
    var s, taken := Exec(Initial(requests), run), Taken(Initial(requests), run);
    ExecKeeps(Initial(requests), run);
    var struck := ExecTaken(Initial(requests), run, {}, {});
    assert {} + taken == taken;
    forall i, j | 0 <= i < j < |s.client.sent|
      ensures s.client.sent[i] != s.client.sent[j]
    {
      assert Distinct(s.stage, s.client.sent, i, j);
    }
    forall i | 0 <= i < |s.stage| && s.stage[i].OnWire?
      ensures s.client.sent[i] < |s.tokens|
      ensures s.tokens[s.client.sent[i]].replacedBy.Some? <==> s.client.sent[i] in taken
    {
      assert PostOk(s, i);
      OnWireNotPresented(s, i);
    }
  }

  /** Over every run, the server never takes this client for a thief exactly when
      no post arrives whose token a logout, a reset, the sweep after a reuse or
      another tab's exchange struck down first. */
  lemma MistakenForReuseIff(requests: nat, run: seq<Act>)
    ensures Exec(Initial(requests), run).reuses == 0 <==> !Overtaken(Initial(requests), run, {})
  {
    ExecAlarms(Initial(requests), run, {}, {});
  }

  /** The request presents no token of this client's logins. */
  predicate Foreign(s: System, q: Server.Request) {
    q.Rotate? ==> !Own(s, q.token)
  }

  /** No logout and no reset; others may log in and exchange their own tokens, but
      present neither this client's tokens nor revoked ones. */
  predicate Peaceful(s: System, run: seq<Act>)
    decreases |run|
  {
    run == [] ||
      (!run[0].Logout? && !run[0].Reset?
       && (run[0].Elsewhere? ==> Foreign(s, run[0].q))
       && (run[0].Elsewhere? && run[0].q.Rotate? ==>
             !Server.AnswerTo(s.tokens, run[0].q.token, run[0].q.now, run[0].q.active).Reuse?)
       && Peaceful(Step(s, run[0]), run[1..]))
  }

  /** Nothing struck so far is this client's. */
  ghost predicate OthersStruck(s: System, struck: set<nat>) {
    forall t: nat :: t in struck ==> t < |s.tokens| && !Own(s, t)
  }

  lemma NoStrike(s: System, a: Act, struck: set<nat>, taken: set<nat>)
    requires SystemOk(s) && Accounts(s, struck, taken) && OthersStruck(s, struck) && !a.Logout? && !a.Reset?
    requires a.Elsewhere? ==> Foreign(s, a.q)
    requires a.Elsewhere? && a.q.Rotate? ==> !Server.AnswerTo(s.tokens, a.q.token, a.q.now, a.q.active).Reuse?
    ensures !Hits(s, a, struck) && OthersStruck(Step(s, a), struck + Strikes(s, a))
  {
    if a.Arrives? && a.post < |s.stage| && s.stage[a.post].OnWire? {
      assert PostOk(s, a.post);
      OnWireNotPresented(s, a.post);
    }
  }

  lemma {:induction false} PeaceNeverOvertakes(s: System, run: seq<Act>, struck: set<nat>, taken: set<nat>)
    requires SystemOk(s) && Accounts(s, struck, taken) && OthersStruck(s, struck) && Peaceful(s, run)
    ensures !Overtaken(s, run, struck)
    decreases |run|
  {
    if run == [] {
    } else {
      StepKeeps(s, run[0]);
      StepAccounts(s, run[0], struck, taken);
      NoStrike(s, run[0], struck, taken);
      PeaceNeverOvertakes(Step(s, run[0]), run[1..], struck + Strikes(s, run[0]), taken + TakenBy(s, run[0]));
    }
  }

  /** In particular it never happens in peace, however often requests expire,
      however late posts arrive and however many replies are lost. */
  lemma NeverMistakenForReuse(requests: nat, run: seq<Act>)
    requires Peaceful(Initial(requests), run)
    ensures Exec(Initial(requests), run).reuses == 0
  {
    PeaceNeverOvertakes(Initial(requests), run, {}, {});
    MistakenForReuseIff(requests, run);
  }

  /** A logout that overtakes the refresh is enough to set the alarm off. */
  lemma LogoutOvertakesRefresh(s: System, i: nat, now: int, active: bool, expires: int)
    requires SystemOk(s) && i < |s.stage| && s.stage[i].OnWire?
    requires s.client.sent[i] < |s.tokens| && !s.tokens[s.client.sent[i]].revoked
    ensures Step(s, Arrives(i, now, active, expires)).reuses == s.reuses
    ensures Step(Step(s, Logout(s.client.sent[i])), Arrives(i, now, active, expires)).reuses == s.reuses + 1
  {
    assert PostOk(s, i);
  }

  /** So is another tab that refreshes the same session first. */
  lemma TabOvertakesRefresh(s: System, i: nat, now: int, active: bool, expires: int)
    requires SystemOk(s) && i < |s.stage| && s.stage[i].OnWire?
    requires Server.AnswerTo(s.tokens, s.client.sent[i], now, active).Renewed?
    ensures var first := Step(s, Elsewhere(Server.Rotate(s.client.sent[i], now, active, expires)));
      Step(first, Arrives(i, now, active, expires)).reuses == s.reuses + 1
  {
    assert PostOk(s, i);
  }
}
