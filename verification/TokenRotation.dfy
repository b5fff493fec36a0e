/** Refresh tokens on the server: issued at login, exchanged one for the next,
    and revoked. A token is named by its row; its secret is not modelled. */
module TokenRotation {
  import opened Common

  /** login is the first token of the chain this one continues. */
  datatype Token = Token(user: nat, login: nat, expires: int, revoked: bool, replacedBy: Option<nat>)

  datatype Request =
    | Issue(user: nat, expires: int)
    | Rotate(token: nat, now: int, active: bool, expires: int)  // active: the user exists and is enabled
    | Revoke(token: nat)                                          // logout
    | SweepUser(user: nat)                                        // password reset

  datatype Answer = Renewed(token: nat) | Reuse | Invalid

  function Swept(t: Token, user: nat): Token {
    if t.user == user && !t.revoked then t.(revoked := true) else t
  }

  function SweepAll(ts: seq<Token>, user: nat): seq<Token> {
    seq(|ts|, i requires 0 <= i < |ts| => Swept(ts[i], user))
  }

  /** What presenting a token is answered with. */
  function AnswerTo(ts: seq<Token>, t: nat, now: int, active: bool): Answer {
    if t >= |ts| then Invalid
    else if ts[t].revoked then Reuse
    else if ts[t].expires <= now || !active then Invalid
    else Renewed(|ts|)
  }

  /** Only a known, unrevoked token that ends later, of an enabled user, is exchanged;
      any revoked one is taken for a reuse. */
  lemma AnsweredHow(ts: seq<Token>, t: nat, now: int, active: bool)
    ensures var a := AnswerTo(ts, t, now, active);
      && (a == Renewed(|ts|) <==> t < |ts| && !ts[t].revoked && now < ts[t].expires && active)
      && (a == Reuse <==> t < |ts| && ts[t].revoked)
      && (a.Renewed? ==> a == Renewed(|ts|))
  {
  }

  function Exchanged(ts: seq<Token>, t: nat, expires: int): seq<Token>
    requires t < |ts|
  {
    ts[t := ts[t].(revoked := true, replacedBy := Some(|ts|))] + [Token(ts[t].user, ts[t].login, expires, false, None)]
  }

  function Rotated(ts: seq<Token>, t: nat, now: int, active: bool, expires: int): seq<Token> {
    match AnswerTo(ts, t, now, active)
    case Renewed(_) => Exchanged(ts, t, expires)
    case Reuse => SweepAll(ts, ts[t].user)
    case Invalid => ts
  }

  function Step(ts: seq<Token>, q: Request): (r: seq<Token>)
    ensures |ts| <= |r|
  {
    match q
    case Issue(user, expires) => ts + [Token(user, |ts|, expires, false, None)]
    case Rotate(t, now, active, expires) => Rotated(ts, t, now, active, expires)
    case Revoke(t) => if t < |ts| && !ts[t].revoked then ts[t := ts[t].(revoked := true)] else ts
    case SweepUser(user) => SweepAll(ts, user)
  }

  function Exec(ts: seq<Token>, run: seq<Request>): seq<Token>
    decreases |run|
  {
    if run == [] then ts else Exec(Step(ts, run[0]), run[1..])
  }

  /** A login adds one live token of its user, good until it expires, that starts a
      chain; an exchange one that continues its token's, in place of it; a logout only
      revokes the token, and a reset the user's tokens. */
  lemma RequestsWrite(ts: seq<Token>, t: nat, user: nat, expires: int)
    ensures Step(ts, Issue(user, expires)) == ts + [Token(user, |ts|, expires, false, None)]
    ensures t < |ts| ==>
      var r := Exchanged(ts, t, expires);
      && |r| == |ts| + 1 && r[|ts|] == Token(ts[t].user, ts[t].login, expires, false, None)
      && r[t] == Token(ts[t].user, ts[t].login, ts[t].expires, true, Some(|ts|))
      && forall i :: 0 <= i < |ts| && i != t ==> r[i] == ts[i]
    ensures |Step(ts, Revoke(t))| == |ts| == |Step(ts, SweepUser(user))|
    ensures forall i :: 0 <= i < |ts| ==> Step(ts, Revoke(t))[i] == if i == t then ts[i].(revoked := true) else ts[i]
    ensures forall i :: 0 <= i < |ts| ==>
      Step(ts, SweepUser(user))[i] == if ts[i].user == user then ts[i].(revoked := true) else ts[i]
  {
  }

  // ---------- Chains ----------

  predicate LinkOk(ts: seq<Token>, i: nat)
    requires i < |ts|
  {
    && (ts[i].replacedBy.Some? ==>
      && i < ts[i].replacedBy.value < |ts| && ts[i].revoked
      && ts[ts[i].replacedBy.value].login == ts[i].login && ts[ts[i].replacedBy.value].user == ts[i].user)
    && ts[i].login <= i
  }

  predicate Replaces(ts: seq<Token>, i: nat, n: nat) {
    i < n < |ts| && ts[i].replacedBy == Some(n)
  }

  /** Two tokens are never replaced by the same one, nor both live in one login. */
  predicate Apart(a: Token, b: Token) {
    && (a.replacedBy.Some? ==> a.replacedBy != b.replacedBy)
    && (a.login == b.login ==> a.revoked || b.revoked)
  }

  /** Every login is one line of tokens, each replaced by the next, and at most
      its last token is live. */
  ghost predicate Chains(ts: seq<Token>) {
    && (forall i :: 0 <= i < |ts| ==> LinkOk(ts, i))
    && (forall i, j :: 0 <= i < j < |ts| ==> Apart(ts[i], ts[j]))
    && (forall n :: 0 <= n < |ts| && ts[n].login != n ==> exists i: nat :: Replaces(ts, i, n))
  }

  lemma ExchangeApart(ts: seq<Token>, t: nat, expires: int, i: nat, j: nat)
    requires Chains(ts) && t < |ts| && !ts[t].revoked && i < j <= |ts|
    ensures Apart(Exchanged(ts, t, expires)[i], Exchanged(ts, t, expires)[j])
  {
    assert LinkOk(ts, i) && LinkOk(ts, t) && (j < |ts| ==> LinkOk(ts, j));
    if j < |ts| {
      assert Apart(ts[i], ts[j]);
    } else if i < t {
      assert Apart(ts[i], ts[t]);
    } else if t < i {
      assert Apart(ts[t], ts[i]);
    }
  }

  lemma ExchangeKeeps(ts: seq<Token>, t: nat, expires: int)
    requires Chains(ts) && t < |ts| && !ts[t].revoked
    ensures Chains(Exchanged(ts, t, expires))
  {
    var r := Exchanged(ts, t, expires);
    forall i | 0 <= i < |r|
      ensures LinkOk(r, i)
    {
      assert LinkOk(ts, t) && (i < |ts| ==> LinkOk(ts, i));
    }
    forall i, j | 0 <= i < j < |r|
      ensures Apart(r[i], r[j])
    {
      ExchangeApart(ts, t, expires, i, j);
    }
    forall n | 0 <= n < |r| && r[n].login != n
      ensures exists i: nat :: Replaces(r, i, n)
    {
      if n < |ts| {
        var i: nat :| Replaces(ts, i, n);
        assert LinkOk(ts, i);
        assert Replaces(r, i, n);
      } else {
        assert Replaces(r, t, n);
      }
    }
  }

  /** Marking tokens revoked, whichever they are, breaks no chain. */
  ghost predicate OnlyRevokes(ts: seq<Token>, r: seq<Token>) {
    && |r| == |ts|
    && forall i :: 0 <= i < |ts| ==> r[i] == ts[i] || r[i] == ts[i].(revoked := true)
  }

  lemma RevokeKeeps(ts: seq<Token>, r: seq<Token>)
    requires Chains(ts) && OnlyRevokes(ts, r)
    ensures Chains(r)
  {
    forall i | 0 <= i < |r|
      ensures LinkOk(r, i)
    {
      assert LinkOk(ts, i);
    }
    forall i, j | 0 <= i < j < |r|
      ensures Apart(r[i], r[j])
    {
      assert Apart(ts[i], ts[j]);
    }
    forall n | 0 <= n < |r| && r[n].login != n
      ensures exists i: nat :: Replaces(r, i, n)
    {
      var i: nat :| Replaces(ts, i, n);
      assert Replaces(r, i, n);
    }
  }

  lemma IssueKeeps(ts: seq<Token>, user: nat, expires: int)
    requires Chains(ts)
    ensures Chains(Step(ts, Issue(user, expires)))
  {
    var r := Step(ts, Issue(user, expires));
    forall i | 0 <= i < |r|
      ensures LinkOk(r, i)
    {
      assert i < |ts| ==> LinkOk(ts, i);
    }
    forall i, j | 0 <= i < j < |r|
      ensures Apart(r[i], r[j])
    {
      assert LinkOk(ts, i) && (j < |ts| ==> Apart(ts[i], ts[j]));
    }
    forall n | 0 <= n < |ts| && r[n].login != n
      ensures exists i: nat :: Replaces(r, i, n)
    {
      var i: nat :| Replaces(ts, i, n);
      assert Replaces(r, i, n);
    }
  }

  lemma StepKeepsChains(ts: seq<Token>, q: Request)
    requires Chains(ts)
    ensures Chains(Step(ts, q))
  {
    if q.Issue? {
      IssueKeeps(ts, q.user, q.expires);
    } else if q.Rotate? && AnswerTo(ts, q.token, q.now, q.active).Renewed? {
      ExchangeKeeps(ts, q.token, q.expires);
    } else {
      RevokeKeeps(ts, Step(ts, q));
    }
  }

  lemma {:induction false} ExecKeepsChains(ts: seq<Token>, run: seq<Request>)
    requires Chains(ts)
    ensures Chains(Exec(ts, run))
    decreases |run|
  {
    if run == [] {
    } else {
      StepKeepsChains(ts, run[0]);
      ExecKeepsChains(Step(ts, run[0]), run[1..]);
    }
  }

  /** Where following the replacement links from a token ends: links ascend, so
      they never come back. */
  function Tip(ts: seq<Token>, i: nat): (tip: nat)
    requires i < |ts| && Chains(ts)
    ensures i <= tip < |ts| && ts[tip].replacedBy.None? && ts[tip].login == ts[i].login
    decreases |ts| - i
  {
    assert LinkOk(ts, i);
    if ts[i].replacedBy.None? then i else Tip(ts, ts[i].replacedBy.value)
  }

  lemma {:induction false} OneTipPerLogin(ts: seq<Token>, i: nat)
    requires i < |ts| && Chains(ts)
    ensures ts[i].login < |ts| && Tip(ts, i) == Tip(ts, ts[i].login)
    decreases i
  {
    assert LinkOk(ts, i);
    if ts[i].login == i {
    } else {
      var p: nat :| Replaces(ts, p, i);
      assert LinkOk(ts, p);
      OneTipPerLogin(ts, p);
    }
  }

  /** Over any run, following the links from any token of a login ends at one and
      the same token, and only that one can still be live. */
  lemma LoginsAreLines(run: seq<Request>, i: nat, j: nat)
    requires i < |Exec([], run)| && j < |Exec([], run)| && Exec([], run)[i].login == Exec([], run)[j].login
    ensures Chains(Exec([], run))
    ensures Tip(Exec([], run), i) == Tip(Exec([], run), j)
    ensures !Exec([], run)[j].revoked ==> j == Tip(Exec([], run), i)
  {
    var ts := Exec([], run);
    ExecKeepsChains([], run);
    OneTipPerLogin(ts, i);
    OneTipPerLogin(ts, j);
    assert LinkOk(ts, j);
  }

  /** Presenting a revoked token leaves its user with no live token, and every
      other user's tokens as they were; any other refusal changes nothing. */
  lemma ReuseRevokesAll(ts: seq<Token>, t: nat, now: int, active: bool, expires: int)
    requires t < |ts|
    ensures var r := Rotated(ts, t, now, active, expires);
      && (ts[t].revoked <==> AnswerTo(ts, t, now, active).Reuse?)
      && (ts[t].revoked ==> |r| == |ts| && forall i :: 0 <= i < |ts| ==>
            if ts[i].user == ts[t].user then r[i].revoked else r[i] == ts[i])
      && (AnswerTo(ts, t, now, active).Invalid? ==> r == ts)
  {
  }

  /** The rows in place. */
  class TokenTable {
    var tokens: seq<Token>

    constructor ()
      ensures tokens == []
    {
      tokens := [];
    }

    method IssueToken(user: nat, expires: int) returns (t: nat)
      modifies this
      ensures t == |old(tokens)| && tokens == Step(old(tokens), Issue(user, expires))
    {
      t := |tokens|;
      tokens := tokens + [Token(user, t, expires, false, None)];
    }

    method RevokeAllOf(user: nat)
      modifies this
      ensures tokens == SweepAll(old(tokens), user)
    {
      for i := 0 to |tokens|
        invariant |tokens| == |old(tokens)|
        invariant forall k :: 0 <= k < i ==> tokens[k] == Swept(old(tokens)[k], user)
        invariant forall k :: i <= k < |tokens| ==> tokens[k] == old(tokens)[k]
      {
        if tokens[i].user == user && !tokens[i].revoked {
          tokens := tokens[i := tokens[i].(revoked := true)];
        }
      }
    }

    method RotateToken(t: nat, now: int, active: bool, expires: int) returns (answer: Answer)
      modifies this
      ensures answer == AnswerTo(old(tokens), t, now, active)
      ensures tokens == Step(old(tokens), Rotate(t, now, active, expires))
    {
      if t >= |tokens| {
        return Invalid;
      }
      if tokens[t].revoked {
        RevokeAllOf(tokens[t].user);
        return Reuse;
      }
      if tokens[t].expires <= now || !active {
        return Invalid;
      }
      var next := |tokens|;
      tokens := tokens + [Token(tokens[t].user, tokens[t].login, expires, false, None)];
      tokens := tokens[t := tokens[t].(revoked := true)];
      tokens := tokens[t := tokens[t].(replacedBy := Some(next))];
      return Renewed(next);
    }

    method RevokeToken(t: nat)
      modifies this
      ensures tokens == Step(old(tokens), Revoke(t))
    {
      if t < |tokens| && !tokens[t].revoked {
        tokens := tokens[t := tokens[t].(revoked := true)];
      }
    }
  }
}
