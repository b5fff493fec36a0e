/** The browser client's answer to an expired access token: one refresh at a
    time, with the requests that fail meanwhile waiting in a queue. */
module RefreshQueue {
  import opened Common

  /** Where the refresh is: sent and awaited, or its outcome noted in the session
      store and not yet told to the waiting requests. */
  datatype Phase = Calm | Sent(leader: nat, token: nat) | Stored(leader: nat) | Failed(leader: nat)

  /** retried and answers are per request: whether its first 401 was handled, and
      how that handling was settled (true: replayed with a new token). sent lists
      the refresh tokens posted so far. */
  datatype Client = Client(
    refreshing: bool, queue: seq<nat>, store: Option<nat>, phase: Phase,
    retried: seq<bool>, answers: seq<seq<bool>>, sent: seq<nat>)

  function NewClient(requests: nat): Client {
    Client(false, [], None, Calm, seq(requests, _ => false), seq(requests, _ => []), [])
  }

  function Told(answers: seq<seq<bool>>, r: nat, ok: bool): seq<seq<bool>> {
    if r < |answers| then answers[r := answers[r] + [ok]] else answers
  }

  /** The answers once the first n in the queue have been told. */
  function ToldFirst(answers: seq<seq<bool>>, queue: seq<nat>, n: nat, ok: bool): (r: seq<seq<bool>>)
    requires n <= |queue|
    ensures |r| == |answers|
  {
    if n == 0 then answers else Told(ToldFirst(answers, queue, n - 1, ok), queue[n - 1], ok)
  }

  /** A 401 on a request; login and refresh calls themselves are exempt. */
  function Unauthorized(c: Client, r: nat, exempt: bool): Client {
    if r >= |c.retried| || c.retried[r] || exempt then c
    else
      var marked := c.(retried := c.retried[r := true]);
      if c.refreshing then marked.(queue := c.queue + [r])
      else if c.store.None? then marked.(refreshing := true, phase := Failed(r))
      else marked.(refreshing := true, phase := Sent(r, c.store.value), sent := c.sent + [c.store.value])
  }

  /** The refresh call comes back, with the next token or with an error. */
  function Back(c: Client, next: Option<nat>): Client {
    if !c.phase.Sent? then c
    else c.(store := next, phase := if next.Some? then Stored(c.phase.leader) else Failed(c.phase.leader))
  }

  /** The waiting requests are told, and then the one that started the refresh. */
  function Wake(c: Client): Client {
    if c.phase.Calm? || c.phase.Sent? then c
    else
      var ok := c.phase.Stored?;
      c.(answers := Told(ToldFirst(c.answers, c.queue, |c.queue|, ok), c.phase.leader, ok),
         queue := [], refreshing := false, phase := Calm)
  }

  /** Only a request's first 401, and not one of the exempt calls, is handled: it waits
      if a refresh is under way, and else starts one, posting the stored token if there
      is one. */
  lemma FirstFailureOnly(c: Client, r: nat, exempt: bool)
    ensures var d := Unauthorized(c, r, exempt);
      if r >= |c.retried| || c.retried[r] || exempt then d == c
      else
        && d.retried == c.retried[r := true] && d.refreshing && d.store == c.store && d.answers == c.answers
        && (if c.refreshing then d.queue == c.queue + [r] && d.phase == c.phase && d.sent == c.sent
            else
              && d.queue == c.queue
              && (c.store.Some? ==> d.phase == Sent(r, c.store.value) && d.sent == c.sent + [c.store.value])
              && (c.store.None? ==> d.phase == Failed(r) && d.sent == c.sent))
  {
  }

  // ---------- What always holds ----------

  predicate Waiting(c: Client, r: nat) {
    r in c.queue || (!c.phase.Calm? && c.phase.leader == r)
  }

  /** Every handled request is waiting, or was settled exactly once. */
  predicate SettledOnce(c: Client, r: nat)
    requires r < |c.retried| && r < |c.answers|
  {
    |c.answers[r]| == if c.retried[r] && !Waiting(c, r) then 1 else 0
  }

  ghost predicate ClientOk(c: Client) {
    && |c.answers| == |c.retried|
    && (c.refreshing <==> !c.phase.Calm?)
    && (c.queue != [] ==> c.refreshing)
    && (forall i :: 0 <= i < |c.queue| ==> c.queue[i] < |c.retried| && c.retried[c.queue[i]])
    && (forall i, j :: 0 <= i < j < |c.queue| ==> c.queue[i] != c.queue[j])
    && (!c.phase.Calm? ==> c.phase.leader < |c.retried| && c.retried[c.phase.leader] && c.phase.leader !in c.queue)
    && (forall r :: 0 <= r < |c.retried| ==> SettledOnce(c, r))
  }

  lemma {:induction false} ToldExact(answers: seq<seq<bool>>, queue: seq<nat>, n: nat, ok: bool, r: nat)
    requires n <= |queue| && r < |answers|
    requires forall i, j :: 0 <= i < j < |queue| ==> queue[i] != queue[j]
    ensures ToldFirst(answers, queue, n, ok)[r] == if r in queue[..n] then answers[r] + [ok] else answers[r]
    decreases n
  {
    if n == 0 {
    } else {
      ToldExact(answers, queue, n - 1, ok, r);
      assert queue[..n] == queue[..n - 1] + [queue[n - 1]];
      assert queue[n - 1] !in queue[..n - 1];
    }
  }

  lemma UnauthorizedKeeps(c: Client, r: nat, exempt: bool)
    requires ClientOk(c)
    ensures ClientOk(Unauthorized(c, r, exempt))
  {
    var d := Unauthorized(c, r, exempt);
    if r < |c.retried| && !c.retried[r] && !exempt {
      assert !Waiting(c, r) && SettledOnce(c, r);
      forall q | 0 <= q < |d.retried|
        ensures SettledOnce(d, q)
      {
        assert SettledOnce(c, q);
        assert q in d.queue <==> q in c.queue || (c.refreshing && q == r);
      }
    }
  }

  lemma BackKeeps(c: Client, next: Option<nat>)
    requires ClientOk(c)
    ensures ClientOk(Back(c, next))
  {
    forall q | 0 <= q < |c.retried|
      ensures SettledOnce(Back(c, next), q)
    {
      assert SettledOnce(c, q);
    }
  }

  /** Waking settles everyone who was waiting, alike and once, and nobody else. */
  lemma WakeSettlesAll(c: Client)
    requires ClientOk(c) && (c.phase.Stored? || c.phase.Failed?)
    ensures ClientOk(Wake(c)) && Wake(c).queue == []
    ensures forall r: nat :: r < |c.answers| ==>
      Wake(c).answers[r] == if Waiting(c, r) then c.answers[r] + [c.phase.Stored?] else c.answers[r]
  {
    var d := Wake(c);
    forall r: nat | r < |c.answers|
      ensures d.answers[r] == if Waiting(c, r) then c.answers[r] + [c.phase.Stored?] else c.answers[r]
      ensures SettledOnce(d, r)
    {
      ToldExact(c.answers, c.queue, |c.queue|, c.phase.Stored?, r);
      assert c.queue[..|c.queue|] == c.queue;
      assert SettledOnce(c, r);
    }
  }

  /** The module-level variables and the session store, in place. */
  class AuthClient {
    var refreshing: bool
    var queue: seq<nat>
    var store: Option<nat>
    var phase: Phase
    var retried: seq<bool>
    var answers: seq<seq<bool>>
    var sent: seq<nat>

    function State(): Client
      reads this
    {
      Client(refreshing, queue, store, phase, retried, answers, sent)
    }

    constructor (requests: nat)
      ensures State() == NewClient(requests)
    {
      refreshing, queue, store, phase := false, [], None, Calm;
      retried, answers, sent := seq(requests, _ => false), seq(requests, _ => []), [];
    }

    method FlushQueue(ok: bool)
      modifies `queue, `answers
      ensures queue == [] && answers == ToldFirst(old(answers), old(queue), |old(queue)|, ok)
    {
      for i := 0 to |queue|
        invariant queue == old(queue)
        invariant answers == ToldFirst(old(answers), old(queue), i, ok)
      {
        var r := queue[i];
        if r < |answers| {
          answers := answers[r := answers[r] + [ok]];
        }
      }
      queue := [];
    }

    /** The error interceptor, up to the point where it waits. */
    method OnUnauthorized(r: nat, exempt: bool)
      modifies this
      ensures State() == Unauthorized(old(State()), r, exempt)
    {
      if r >= |retried| || retried[r] || exempt {
        return;
      }
      retried := retried[r := true];
      if refreshing {
        queue := queue + [r];
        return;
      }
      refreshing := true;
      if store.None? {
        phase := Failed(r);
      } else {
        sent := sent + [store.value];
        phase := Sent(r, store.value);
      }
    }

    method OnRefreshBack(next: Option<nat>)
      modifies this
      ensures State() == Back(old(State()), next)
    {
      if phase.Sent? {
        store := next;
        if next.Some? {
          phase := Stored(phase.leader);
        } else {
          phase := Failed(phase.leader);
        }
      }
    }

    method OnWake()
      modifies this
      ensures State() == Wake(old(State()))
    {
      if phase.Stored? || phase.Failed? {
        var ok, leader := phase.Stored?, phase.leader;
        FlushQueue(ok);
        if leader < |answers| {
          answers := answers[leader := answers[leader] + [ok]];
        }
        refreshing := false;
        phase := Calm;
      }
    }
  }
}
