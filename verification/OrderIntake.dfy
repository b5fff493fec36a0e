/** Partner order intake under concurrency. Submissions interleave statement by
    statement with each other and with the owner's stock edits. A statement that
    has to wait, for a row lock or for another transaction's uncommitted key,
    leaves the state as it is. */
module OrderIntake {
  import opened Common
  import opened Stock

  /** An idempotency key belongs to a business; an empty client key is no key. */
  datatype Key = Key(business: nat, client: string)

  datatype Submission = Submission(key: Key, lines: seq<Line>) {
    predicate Keyed() { key.client != "" }
  }

  datatype Phase =
    | Idle
    | Placing(pending: map<nat, Row>, next: nat)  // rows locked and rewritten, lines done so far
    | KeyWritten(pending: map<nat, Row>)          // the key row is inserted, not yet committed
    | Clashed                                     // the insert met another key row: rolled back
    | Answered(order: nat, replayed: bool)        // 200 with this order
    | Refused                                     // an error answer, rolled back
    | Raised                                      // the conflict surfaced after all
  {
    predicate Over() { Answered? || Refused? || Raised? }
    predicate Working() { Placing? || KeyWritten? }
  }

  /** What was committed, in order. An order is named by the transaction that made it. */
  datatype Event = Level(item: nat, stock: Option<int>) | Sold(txn: nat)

  datatype State = State(rows: seq<Row>, keys: map<Key, nat>, log: seq<Event>, phase: seq<Phase>)

  datatype Kind = Look | Take | InsertKey | Reread | Commit | Abort

  datatype Act = Txn(txn: nat, kind: Kind) | Owner(item: nat, edit: Edit)

  function Initial(subs: seq<Submission>, rows: seq<Row>): State {
    State(rows, map[], [], seq(|subs|, _ => Idle))
  }

  predicate RowLocked(s: State, item: nat) {
    exists u :: 0 <= u < |s.phase| && s.phase[u].Working() && item in s.phase[u].pending
  }

  predicate KeyPending(subs: seq<Submission>, s: State, key: Key)
    requires |s.phase| == |subs|
  {
    exists u :: 0 <= u < |subs| && s.phase[u].KeyWritten? && subs[u].key == key
  }

  /** The line's turn: the row this transaction already holds, or else the committed one. */
  function TakeLine(s: State, p: Phase, line: Line): Phase
    requires p.Placing?
  {
    if line.item >= |s.rows| then Refused
    else if line.item !in p.pending && RowLocked(s, line.item) then p
    else
      var sold := Sell(if line.item in p.pending then p.pending[line.item] else s.rows[line.item], line.quantity);
      if sold.None? || !line.priced then Refused else Placing(p.pending[line.item := sold.value], p.next + 1)
  }

  predicate Complete(sub: Submission, p: Phase) { p.Placing? && p.next >= |sub.lines| }

  predicate MayCommit(sub: Submission, p: Phase) {
    p.KeyWritten? || (Complete(sub, p) && !sub.Keyed())
  }

  function Next(subs: seq<Submission>, s: State, t: nat, kind: Kind): Phase
    requires |s.phase| == |subs| && t < |subs|
  {
    var p, sub := s.phase[t], subs[t];
    match kind
    case Look =>
      if !p.Idle? then p
      else if sub.Keyed() && sub.key in s.keys then Answered(s.keys[sub.key], true)
      else Placing(map[], 0)
    case Take => if p.Placing? && p.next < |sub.lines| then TakeLine(s, p, sub.lines[p.next]) else p
    case InsertKey =>
      if !Complete(sub, p) || !sub.Keyed() then p
      else if sub.key in s.keys then Clashed
      else if KeyPending(subs, s, sub.key) then p
      else KeyWritten(p.pending)
    case Reread =>
      if !p.Clashed? then p
      else if sub.key in s.keys then Answered(s.keys[sub.key], true)
      else Raised
    case Commit => if MayCommit(sub, p) then Answered(t, false) else p
    case Abort => if p.Over() then p else Refused
  }

  function Written(rows: seq<Row>, pending: map<nat, Row>): seq<Row> {
    seq(|rows|, i requires 0 <= i < |rows| => if i in pending then pending[i] else rows[i])
  }

  function Step(subs: seq<Submission>, s: State, a: Act): (r: State)
    requires |s.phase| == |subs|
    ensures |r.phase| == |subs| && |r.rows| == |s.rows|
  {
    match a
    case Txn(t, kind) =>
      if t >= |subs| then s
      else
        var moved := s.(phase := s.phase[t := Next(subs, s, t, kind)]);
        if kind.Commit? && MayCommit(subs[t], s.phase[t]) then
          moved.(rows := Written(s.rows, s.phase[t].pending),
                 keys := if subs[t].Keyed() then s.keys[subs[t].key := t] else s.keys,
                 log := s.log + [Sold(t)])
        else moved
    case Owner(item, edit) =>
      if item >= |s.rows| || RowLocked(s, item) then s
      else
        s.(rows := s.rows[item := Apply(s.rows[item], edit)],
           log := if edit.stock.Some? then s.log + [Level(item, edit.Level())] else s.log)
  }

  function Exec(subs: seq<Submission>, s: State, schedule: seq<Act>): (r: State)
    requires |s.phase| == |subs|
    ensures |r.phase| == |subs| && |r.rows| == |s.rows|
    decreases |schedule|
  {
    if schedule == [] then s else Exec(subs, Step(subs, s, schedule[0]), schedule[1..])
  }

  // ---------- Exactly once ----------

  ghost predicate AnswerOk(subs: seq<Submission>, s: State, t: nat)
    requires |s.phase| == |subs| && t < |subs|
  {
    s.phase[t].Answered? ==>
      var o := s.phase[t].order;
      && o < |subs| && Sold(o) in s.log && subs[o].key == subs[t].key
      && (if s.phase[t].replayed then subs[t].Keyed() && o != t else o == t)
  }

  /** What a client can hold against the service: no two committed orders share a
      key, an answer names a committed order placed under the same key, and an
      order was committed exactly when its own submission was told it is new. */
  ghost predicate ExactlyOnce(subs: seq<Submission>, s: State)
    requires |s.phase| == |subs|
  {
    && (forall t, u :: 0 <= t < u < |subs| && Sold(t) in s.log && Sold(u) in s.log && subs[t].Keyed() ==>
      subs[t].key != subs[u].key)
    && (forall i, j :: 0 <= i < j < |s.log| && s.log[i].Sold? ==> s.log[i] != s.log[j])
    && (forall t :: 0 <= t < |subs| ==> AnswerOk(subs, s, t))
    && (forall t :: 0 <= t < |subs| ==> (Sold(t) in s.log <==> s.phase[t] == Answered(t, false)))
    && (forall t :: 0 <= t < |subs| ==> !s.phase[t].Raised?)
  }

  predicate Stance(s: State, sub: Submission, p: Phase) {
    && (p.KeyWritten? ==> sub.Keyed() && sub.key !in s.keys)
    && (p.Clashed? ==> sub.Keyed() && sub.key in s.keys)
  }

  /** The unique index, and that a clash is only ever with a committed key. */
  ghost predicate KeyTable(subs: seq<Submission>, s: State)
    requires |s.phase| == |subs|
  {
    && (forall k :: k in s.keys ==> s.keys[k] < |subs| && subs[s.keys[k]].key == k && Sold(s.keys[k]) in s.log)
    && (forall t :: 0 <= t < |subs| && Sold(t) in s.log && subs[t].Keyed() ==> subs[t].key in s.keys && s.keys[subs[t].key] == t)
    && (forall t :: 0 <= t < |subs| ==> Stance(s, subs[t], s.phase[t]))
    && (forall t, u :: 0 <= t < u < |subs| && s.phase[t].KeyWritten? && s.phase[u].KeyWritten? ==> subs[t].key != subs[u].key)
  }

  ghost predicate IntakeOk(subs: seq<Submission>, s: State) {
    |s.phase| == |subs| && ExactlyOnce(subs, s) && KeyTable(subs, s)
  }

  lemma CommitKeepsAnswers(subs: seq<Submission>, s: State, t: nat)
    requires IntakeOk(subs, s) && t < |subs| && MayCommit(subs[t], s.phase[t])
    ensures ExactlyOnce(subs, Step(subs, s, Txn(t, Commit)))
  {
    var r := Step(subs, s, Txn(t, Commit));
    assert Stance(s, subs[t], s.phase[t]);
    assert Sold(t) !in s.log;
    assert forall e :: e in r.log <==> e in s.log || e == Sold(t);
    forall u | 0 <= u < |subs|
      ensures AnswerOk(subs, r, u)
    {
      assert AnswerOk(subs, s, u);
    }
  }

  lemma CommitKeepsKeys(subs: seq<Submission>, s: State, t: nat)
    requires IntakeOk(subs, s) && t < |subs| && MayCommit(subs[t], s.phase[t])
    ensures KeyTable(subs, Step(subs, s, Txn(t, Commit)))
  {
    var r := Step(subs, s, Txn(t, Commit));
    assert Stance(s, subs[t], s.phase[t]);
    assert forall e :: e in r.log <==> e in s.log || e == Sold(t);
    forall u | 0 <= u < |subs|
      ensures Stance(r, subs[u], r.phase[u])
    {
      assert Stance(s, subs[u], s.phase[u]);
    }
  }

  lemma MoveKeepsOnce(subs: seq<Submission>, s: State, t: nat, kind: Kind)
    requires IntakeOk(subs, s) && t < |subs| && !(kind.Commit? && MayCommit(subs[t], s.phase[t]))
    ensures IntakeOk(subs, Step(subs, s, Txn(t, kind)))
  {
    var r := Step(subs, s, Txn(t, kind));
    assert Stance(s, subs[t], s.phase[t]);
    forall u | 0 <= u < |subs|
      ensures AnswerOk(subs, r, u) && Stance(r, subs[u], r.phase[u]) && !r.phase[u].Raised?
    {
      assert AnswerOk(subs, s, u) && Stance(s, subs[u], s.phase[u]);
    }
  }

  lemma OwnerKeepsOnce(subs: seq<Submission>, s: State, item: nat, edit: Edit)
    requires IntakeOk(subs, s)
    ensures IntakeOk(subs, Step(subs, s, Owner(item, edit)))
  {
    var r := Step(subs, s, Owner(item, edit));
    assert forall t :: Sold(t) in r.log <==> Sold(t) in s.log;
    forall u | 0 <= u < |subs|
      ensures AnswerOk(subs, r, u) && Stance(r, subs[u], r.phase[u])
    {
      assert AnswerOk(subs, s, u) && Stance(s, subs[u], s.phase[u]);
    }
  }

  lemma {:induction false} ExecKeepsOnce(subs: seq<Submission>, s: State, schedule: seq<Act>)
    requires IntakeOk(subs, s)
    ensures IntakeOk(subs, Exec(subs, s, schedule))
    decreases |schedule|
  {
    if schedule == [] {
    } else {
      match schedule[0] {
        case Txn(t, kind) =>
          if t < |subs| {
            if kind.Commit? && MayCommit(subs[t], s.phase[t]) {
              CommitKeepsAnswers(subs, s, t);
              CommitKeepsKeys(subs, s, t);
            } else {
              MoveKeepsOnce(subs, s, t, kind);
            }
          }
        case Owner(item, edit) => OwnerKeepsOnce(subs, s, item, edit);
      }
      ExecKeepsOnce(subs, Step(subs, s, schedule[0]), schedule[1..]);
    }
  }

  /** Over every interleaving of every set of submissions: one order per key at
      most, every answer names it, nobody else's order exists, and the conflict
      never surfaces. */
  lemma IntakeExactlyOnce(subs: seq<Submission>, rows: seq<Row>, schedule: seq<Act>)
    ensures ExactlyOnce(subs, Exec(subs, Initial(subs, rows), schedule))
  {
    ExecKeepsOnce(subs, Initial(subs, rows), schedule);
  }

  /** The race, played out: the retry that is placed in full but loses the insert
      is answered with the winner's order, and leaves no mark on stock or log. */
  lemma LoserGetsWinnersOrder(subs: seq<Submission>, s: State, t: nat, u: nat)
    requires |s.phase| == |subs| && t < |subs| && u < |subs| && t != u && subs[t].key == subs[u].key && subs[u].Keyed()
    requires s.phase[t].KeyWritten? && Complete(subs[u], s.phase[u]) && subs[u].key !in s.keys
    ensures Step(subs, s, Txn(u, InsertKey)) == s
    ensures var won := Step(subs, s, Txn(t, Commit));
      Step(subs, Step(subs, won, Txn(u, InsertKey)), Txn(u, Reread))
        == won.(phase := won.phase[u := Answered(t, true)])
  {
  }

  // ---------- Nothing unpriced is sold ----------

  predicate Sellable(line: Line, items: nat) { line.priced && line.item < items }

  predicate SellableSoFar(sub: Submission, p: Phase, items: nat) {
    && (p.Placing? ==> p.next <= |sub.lines| && forall k :: 0 <= k < p.next ==> Sellable(sub.lines[k], items))
    && (p.KeyWritten? ==> forall k :: 0 <= k < |sub.lines| ==> Sellable(sub.lines[k], items))
  }

  ghost predicate OnlySellable(subs: seq<Submission>, s: State)
    requires |s.phase| == |subs|
  {
    && (forall t :: 0 <= t < |subs| ==> SellableSoFar(subs[t], s.phase[t], |s.rows|))
    && (forall t :: 0 <= t < |subs| && Sold(t) in s.log ==>
          forall k :: 0 <= k < |subs[t].lines| ==> Sellable(subs[t].lines[k], |s.rows|))
  }

  lemma StepSellsOnly(subs: seq<Submission>, s: State, a: Act)
    requires |s.phase| == |subs| && OnlySellable(subs, s)
    ensures OnlySellable(subs, Step(subs, s, a))
  {
    if a.Txn? && a.txn < |subs| {
      assert SellableSoFar(subs[a.txn], s.phase[a.txn], |s.rows|);
    }
  }

  lemma {:induction false} ExecSellsOnly(subs: seq<Submission>, s: State, schedule: seq<Act>)
    requires |s.phase| == |subs| && OnlySellable(subs, s)
    ensures OnlySellable(subs, Exec(subs, s, schedule))
    decreases |schedule|
  {
    if schedule == [] {
    } else {
      StepSellsOnly(subs, s, schedule[0]);
      ExecSellsOnly(subs, Step(subs, s, schedule[0]), schedule[1..]);
    }
  }

  /** Over every interleaving, every line of every committed order is of an item on
      the menu and has a price. */
  lemma SoldLinesArePriced(subs: seq<Submission>, rows: seq<Row>, schedule: seq<Act>, t: nat, k: nat)
    requires t < |subs| && k < |subs[t].lines|
    requires Sold(t) in Exec(subs, Initial(subs, rows), schedule).log
    ensures subs[t].lines[k].priced && subs[t].lines[k].item < |rows|
  {
    ExecSellsOnly(subs, Initial(subs, rows), schedule);
  }

  // ---------- Resolving the partner's own item names ----------

  datatype Ref = Ref(external: string, quantity: nat)

  /** The owner's mapping of one name; a variant fixed here is the one ordered. */
  datatype Mapping = Mapping(item: nat, variant: Option<nat>)

  datatype Resolved = Resolved(item: nat, variant: Option<nat>, quantity: nat)

  ghost predicate Resolves(menu: map<string, Mapping>, refs: seq<Ref>, lines: seq<Resolved>) {
    && |lines| == |refs|
    && forall i :: 0 <= i < |refs| ==>
      refs[i].external in menu
      && lines[i] == Resolved(menu[refs[i].external].item, menu[refs[i].external].variant, refs[i].quantity)
  }

  /** All lines in order through the owner's mapping, or the names it lacks. */
  method ResolveLines(menu: map<string, Mapping>, refs: seq<Ref>) returns (lines: seq<Resolved>, unknown: set<string>)
    ensures forall e :: e in unknown <==> e !in menu && exists i :: 0 <= i < |refs| && refs[i].external == e
    ensures if unknown == {} then Resolves(menu, refs, lines) else lines == []
  {
    lines := [];
    unknown := set r | r in refs && r.external !in menu :: r.external;
    assert forall r :: r in refs && r.external !in menu ==> r.external in unknown;
    if unknown != {} {
      return;
    }
    for i := 0 to |refs|
      invariant Resolves(menu, refs[..i], lines)
    {
      assert refs[i] in refs;
      var mapping := menu[refs[i].external];
      lines := lines + [Resolved(mapping.item, mapping.variant, refs[i].quantity)];
    }
    assert refs[..|refs|] == refs;
  }
}
