/** Loyalty accrual: rewards per so many orders or so much spend, and points per
    amount spent, evaluated after every settled bill. Thresholds and point values
    are in hundredths, spend in paise. */
module Loyalty {
  import opened Common
  import Money

  datatype Kind = OrderCount | Spend | PointsPerAmount | OtherKind

  datatype Rule = Rule(kind: Kind, threshold: int, value: Option<nat>, active: bool) {
    predicate Live() { active && threshold > 0 && !kind.OtherKind? }
  }

  /** A points transaction: for how many units it was written. */
  datatype Credit = Credit(rule: nat, units: nat)

  /** rewards lists the rule each reward row came from. */
  datatype Account = Account(orders: nat, spend: nat, points: nat, rewards: seq<nat>, credits: seq<Credit>)

  const NEW_ACCOUNT := Account(0, 0, 0, [], [])

  /** No value, or a value of zero, counts as one point per unit. */
  function PerUnit(rule: Rule): nat {
    if rule.value.None? || rule.value.value == 0 then 100 else rule.value.value
  }

  function Earned(orders: nat, spend: nat, rule: Rule): nat
    requires rule.threshold > 0
  {
    if rule.kind.OrderCount? then orders * 100 / rule.threshold else spend / rule.threshold
  }

  function Given(rewards: seq<nat>, id: nat): nat {
    if rewards == [] then 0 else Given(rewards[..|rewards| - 1], id) + if rewards[|rewards| - 1] == id then 1 else 0
  }

  function Credits(credits: seq<Credit>, id: nat): nat {
    if credits == [] then 0
    else Credits(credits[..|credits| - 1], id) + if credits[|credits| - 1].rule == id then 1 else 0
  }

  function Units(credits: seq<Credit>, id: nat): nat {
    if credits == [] then 0
    else
      var last := credits[|credits| - 1];
      Units(credits[..|credits| - 1], id) + if last.rule == id then last.units else 0
  }

  function Repeat(id: nat, n: nat): seq<nat> { seq(n, _ => id) }

  function Evaluate(a: Account, id: nat, rule: Rule): Account {
    if !rule.Live() then a
    else
      var earned := Earned(a.orders, a.spend, rule);
      if rule.kind.PointsPerAmount? then
        var already := Credits(a.credits, id);
        if earned > already then
          a.(points := a.points + (earned - already) * PerUnit(rule), credits := a.credits + [Credit(id, earned - already)])
        else a
      else
        var already := Given(a.rewards, id);
        if earned > already then a.(rewards := a.rewards + Repeat(id, earned - already)) else a
  }

  function EvaluateFirst(a: Account, rules: seq<Rule>, n: nat): Account
    requires n <= |rules|
  {
    if n == 0 then a else Evaluate(EvaluateFirst(a, rules, n - 1), n - 1, rules[n - 1])
  }

  function Accrue(a: Account, amount: nat): Account {
    a.(orders := a.orders + 1, spend := a.spend + amount)
  }

  function ProcessBill(a: Account, rules: seq<Rule>, amount: nat): Account {
    EvaluateFirst(Accrue(a, amount), rules, |rules|)
  }

  /** The account after a customer's bills, in the order they were settled. */
  function Run(rules: seq<Rule>, bills: seq<nat>): Account {
    if bills == [] then NEW_ACCOUNT else ProcessBill(Run(rules, bills[..|bills| - 1]), rules, bills[|bills| - 1])
  }

  function Total(bills: seq<nat>): nat {
    if bills == [] then 0 else Total(bills[..|bills| - 1]) + bills[|bills| - 1]
  }

  // ---------- Counting ----------

  lemma {:induction false} GivenRepeat(rewards: seq<nat>, giver: nat, n: nat, id: nat)
    ensures Given(rewards + Repeat(giver, n), id) == Given(rewards, id) + if giver == id then n else 0
    decreases n
  {
    if n == 0 {
      assert rewards + Repeat(giver, 0) == rewards;
    } else {
      GivenRepeat(rewards, giver, n - 1, id);
      var all := rewards + Repeat(giver, n);
      assert all[..|all| - 1] == rewards + Repeat(giver, n - 1);
    }
  }

  lemma CreditOne(credits: seq<Credit>, c: Credit, id: nat)
    ensures Credits(credits + [c], id) == Credits(credits, id) + if c.rule == id then 1 else 0
    ensures Units(credits + [c], id) == Units(credits, id) + if c.rule == id then c.units else 0
  {
  }

  /** What evaluating one rule does to its own rows, and to no other rule's. */
  predicate Evaluated(was: Account, now: Account, rule: Rule, own: bool, id: nat) {
    && now.orders == was.orders && now.spend == was.spend
    && (if own && rule.Live() && !rule.kind.PointsPerAmount? && Earned(was.orders, was.spend, rule) > Given(was.rewards, id)
        then Given(now.rewards, id) == Earned(was.orders, was.spend, rule)
        else Given(now.rewards, id) == Given(was.rewards, id))
    && (if own && rule.Live() && rule.kind.PointsPerAmount? && Earned(was.orders, was.spend, rule) > Credits(was.credits, id)
        then Credits(now.credits, id) == Credits(was.credits, id) + 1
          && Units(now.credits, id) == Units(was.credits, id) + Earned(was.orders, was.spend, rule) - Credits(was.credits, id)
        else Credits(now.credits, id) == Credits(was.credits, id) && Units(now.credits, id) == Units(was.credits, id))
  }

  lemma EvaluateOne(a: Account, giver: nat, rule: Rule, id: nat)
    ensures Evaluated(a, Evaluate(a, giver, rule), rule, giver == id, id)
  {
    if rule.Live() {
      var earned := Earned(a.orders, a.spend, rule);
      if rule.kind.PointsPerAmount? {
        if earned > Credits(a.credits, giver) {
          CreditOne(a.credits, Credit(giver, earned - Credits(a.credits, giver)), id);
        }
      } else if earned > Given(a.rewards, giver) {
        GivenRepeat(a.rewards, giver, earned - Given(a.rewards, giver), id);
      }
    }
  }

  /** Evaluating the whole list evaluates each rule as if it were alone. */
  lemma {:induction false} EvaluateAll(a: Account, rules: seq<Rule>, n: nat, id: nat)
    requires id < |rules| && n <= |rules|
    ensures Evaluated(a, EvaluateFirst(a, rules, n), rules[id], id < n, id)
    decreases n
  {
    if n == 0 {
    } else {
      EvaluateAll(a, rules, n - 1, id);
      EvaluateOne(EvaluateFirst(a, rules, n - 1), n - 1, rules[n - 1], id);
    }
  }

  lemma {:induction false} RunTotals(rules: seq<Rule>, bills: seq<nat>, id: nat)
    requires id < |rules|
    ensures Run(rules, bills).orders == |bills| && Run(rules, bills).spend == Total(bills)
    decreases |bills|
  {
    if bills == [] {
    } else {
      RunTotals(rules, bills[..|bills| - 1], id);
      EvaluateAll(Accrue(Run(rules, bills[..|bills| - 1]), bills[|bills| - 1]), rules, |rules|, id);
    }
  }

  lemma DivMonotone(a: nat, b: nat, d: int)
    requires a <= b && d > 0
    ensures a / d <= b / d
  {
    if b / d < a / d {
      Money.StepsApart(b / d, a / d, d);
      assert false;  // b would reach a's multiple of d
    }
  }

  lemma EarnedGrows(bills: seq<nat>, rule: Rule)
    requires bills != [] && rule.threshold > 0
    ensures Earned(|bills| - 1, Total(bills[..|bills| - 1]), rule) <= Earned(|bills|, Total(bills), rule)
  {
    DivMonotone((|bills| - 1) * 100, |bills| * 100, rule.threshold);
    DivMonotone(Total(bills[..|bills| - 1]), Total(bills), rule.threshold);
  }

  // ---------- Rewards ----------

  lemma {:induction false} RewardsAreEarned(rules: seq<Rule>, bills: seq<nat>, id: nat)
    requires id < |rules| && rules[id].Live() && !rules[id].kind.PointsPerAmount?
    ensures Given(Run(rules, bills).rewards, id) == Earned(|bills|, Total(bills), rules[id])
    decreases |bills|
  {
    if bills == [] {
      assert 0 / rules[id].threshold == 0;
    } else {
      var before := bills[..|bills| - 1];
      RewardsAreEarned(rules, before, id);
      RunTotals(rules, before, id);
      EvaluateAll(Accrue(Run(rules, before), bills[|bills| - 1]), rules, |rules|, id);
      EarnedGrows(bills, rules[id]);
    }
  }

  /** A rule that is switched off, has no positive threshold or is of another kind has
      given nothing after any run, neither rewards nor points. */
  lemma {:induction false} IdleRulesGiveNothing(rules: seq<Rule>, bills: seq<nat>, id: nat)
    requires id < |rules| && (!rules[id].active || rules[id].threshold <= 0 || rules[id].kind == OtherKind)
    ensures Given(Run(rules, bills).rewards, id) == 0 && Credits(Run(rules, bills).credits, id) == 0
    decreases |bills|
  {
    if bills == [] {
    } else {
      IdleRulesGiveNothing(rules, bills[..|bills| - 1], id);
      EvaluateAll(Accrue(Run(rules, bills[..|bills| - 1]), bills[|bills| - 1]), rules, |rules|, id);
    }
  }

  lemma QuotientBounds(n: nat, d: nat)
    requires d > 0
    ensures (n / d) * d <= n < (n / d) * d + d
  {
  }

  /** After every bill of every run, each live threshold rule has given exactly as
      many rewards as its threshold, a number of hundredths, goes whole into the
      number of bills, or its amount into what was spent. */
  lemma RewardsAreFloor(rules: seq<Rule>, bills: seq<nat>, id: nat)
    requires id < |rules| && rules[id].Live() && !rules[id].kind.PointsPerAmount?
    ensures var given, d := Given(Run(rules, bills).rewards, id), rules[id].threshold;
      var total := if rules[id].kind.OrderCount? then 100 * |bills| else Total(bills);
      given * d <= total < given * d + d
  {
    RewardsAreEarned(rules, bills, id);
    QuotientBounds(if rules[id].kind.OrderCount? then |bills| * 100 else Total(bills), rules[id].threshold);
  }

  /** So how a spend is split over bills does not matter. */
  lemma SplitDoesNotMatter(rules: seq<Rule>, a: seq<nat>, b: seq<nat>, id: nat)
    requires id < |rules| && rules[id].Live() && rules[id].kind.Spend? && Total(a) == Total(b)
    ensures Given(Run(rules, a).rewards, id) == Given(Run(rules, b).rewards, id)
  {
    RewardsAreEarned(rules, a, id);
    RewardsAreEarned(rules, b, id);
  }

  // ---------- Points ----------

  predicate AddsOneAtMost(bills: seq<nat>, rule: Rule, k: nat)
    requires rule.threshold > 0 && k < |bills|
  {
    Total(bills[..k + 1]) / rule.threshold <= Total(bills[..k]) / rule.threshold + 1
  }

  /** No bill takes the spend past two multiples of the threshold. */
  ghost predicate OneUnitAtATime(bills: seq<nat>, rule: Rule)
    requires rule.threshold > 0
  {
    forall k :: 0 <= k < |bills| ==> AddsOneAtMost(bills, rule, k)
  }

  lemma {:induction false} PointsStep(rules: seq<Rule>, bills: seq<nat>, id: nat)
    requires id < |rules| && rules[id].Live() && rules[id].kind.PointsPerAmount? && bills != []
    ensures var was, now := Run(rules, bills[..|bills| - 1]).credits, Run(rules, bills).credits;
      var units := Total(bills) / rules[id].threshold;
      if units > Credits(was, id)
      then Credits(now, id) == Credits(was, id) + 1 && Units(now, id) == Units(was, id) + units - Credits(was, id)
      else Credits(now, id) == Credits(was, id) && Units(now, id) == Units(was, id)
  {
    var before := bills[..|bills| - 1];
    RunTotals(rules, before, id);
    EvaluateAll(Accrue(Run(rules, before), bills[|bills| - 1]), rules, |rules|, id);
  }

  lemma OneMore(bills: seq<nat>, rule: Rule)
    requires rule.threshold > 0 && bills != []
    ensures var before := bills[..|bills| - 1];
      OneUnitAtATime(bills, rule) <==>
        OneUnitAtATime(before, rule) && Total(bills) / rule.threshold <= Total(before) / rule.threshold + 1
  {
    var before, last := bills[..|bills| - 1], |bills| - 1;
    assert bills[..last + 1] == bills;
    forall k | 0 <= k < last
      ensures AddsOneAtMost(before, rule, k) == AddsOneAtMost(bills, rule, k)
    {
      assert before[..k] == bills[..k] && before[..k + 1] == bills[..k + 1];
    }
    assert AddsOneAtMost(bills, rule, last) <==> Total(bills) / rule.threshold <= Total(before) / rule.threshold + 1;
  }

  /** Points are never short: the units credited are at least the units earned.
      The credits written number at most the units earned, and match the units
      credited exactly while every bill so far added at most one. */
  lemma {:induction false} PointsNeverShort(rules: seq<Rule>, bills: seq<nat>, id: nat)
    requires id < |rules| && rules[id].Live() && rules[id].kind.PointsPerAmount?
    ensures var credits, units := Run(rules, bills).credits, Total(bills) / rules[id].threshold;
      && Credits(credits, id) <= units <= Units(credits, id)
      && (Units(credits, id) == Credits(credits, id) <==> OneUnitAtATime(bills, rules[id]))
    decreases |bills|
  {
    if bills == [] {
      assert 0 / rules[id].threshold == 0;
    } else {
      var before := bills[..|bills| - 1];
      PointsNeverShort(rules, before, id);
      PointsStep(rules, bills, id);
      DivMonotone(Total(before), Total(bills), rules[id].threshold);
      OneMore(bills, rules[id]);
    }
  }

  /** The units credited are the units earned exactly when no earlier bill added
      two units at once; after one that did, even the next small bill overpays. */
  lemma PointsExactIff(rules: seq<Rule>, bills: seq<nat>, id: nat)
    requires id < |rules| && rules[id].Live() && rules[id].kind.PointsPerAmount? && bills != []
    ensures Units(Run(rules, bills).credits, id) == Total(bills) / rules[id].threshold
      <==> OneUnitAtATime(bills[..|bills| - 1], rules[id])
  {
    var before := bills[..|bills| - 1];
    PointsNeverShort(rules, before, id);
    PointsStep(rules, bills, id);
    DivMonotone(Total(before), Total(bills), rules[id].threshold);
  }

  lemma Quotient(k: nat, d: nat)
    requires d > 0
    ensures k * d / d == k
  {
    var q := k * d / d;
    if q < k {
      Money.StepsApart(q, k, d);
    }
  }

  /** Two equal bills, each two thresholds long, are paid for as five units. */
  lemma PointsOverpaid(threshold: nat)
    requires threshold > 0
    ensures var rules := [Rule(PointsPerAmount, threshold, None, true)];
      var bills := [2 * threshold, 2 * threshold];
      && Total(bills) / threshold == 4
      && Units(Run(rules, bills).credits, 0) == 5
  {
    var rules := [Rule(PointsPerAmount, threshold, None, true)];
    var one, two := [2 * threshold], [2 * threshold, 2 * threshold];
    assert two[..1] == one && one[..0] == [];
    assert Total(one) == 2 * threshold && Total(two) == 4 * threshold;
    assert 2 * threshold / threshold == 2 && 4 * threshold / threshold == 4 by {
      Quotient(2, threshold);
      Quotient(4, threshold);
    }
    PointsStep(rules, one, 0);
    PointsStep(rules, two, 0);
  }

  /** In hundredths of a point: one point a unit, unless the rule names another number. */
  lemma UnitIsOnePoint(rule: Rule)
    ensures rule.value == None || rule.value == Some(0) ==> PerUnit(rule) == 100
    ensures rule.value.Some? && rule.value.value > 0 ==> PerUnit(rule) == rule.value.value
  {
  }

  /** The points balance is what the credits of all rules add up to. */
  function CreditedPoints(rules: seq<Rule>, credits: seq<Credit>): nat {
    if credits == [] then 0
    else
      var last := credits[|credits| - 1];
      CreditedPoints(rules, credits[..|credits| - 1])
        + if last.rule < |rules| then last.units * PerUnit(rules[last.rule]) else 0
  }

  lemma {:induction false} BalanceFirst(a: Account, rules: seq<Rule>, n: nat)
    requires n <= |rules| && a.points == CreditedPoints(rules, a.credits)
    ensures EvaluateFirst(a, rules, n).points == CreditedPoints(rules, EvaluateFirst(a, rules, n).credits)
    decreases n
  {
    if n == 0 {
    } else {
      BalanceFirst(a, rules, n - 1);
      var was, now := EvaluateFirst(a, rules, n - 1), EvaluateFirst(a, rules, n);
      if now != was && rules[n - 1].kind.PointsPerAmount? {
        assert now.credits[..|now.credits| - 1] == was.credits;
      }
    }
  }

  lemma {:induction false} BalanceIsCredits(rules: seq<Rule>, bills: seq<nat>)
    ensures Run(rules, bills).points == CreditedPoints(rules, Run(rules, bills).credits)
    decreases |bills|
  {
    if bills == [] {
    } else {
      var before := Run(rules, bills[..|bills| - 1]);
      BalanceIsCredits(rules, bills[..|bills| - 1]);
      BalanceFirst(Accrue(before, bills[|bills| - 1]), rules, |rules|);
    }
  }

  /** A customer's account and its child rows, in place. */
  class LoyaltyAccount {
    var orders: nat
    var spend: nat
    var points: nat
    var rewards: seq<nat>
    var credits: seq<Credit>

    function State(): Account
      reads this
    {
      Account(orders, spend, points, rewards, credits)
    }

    constructor ()
      ensures State() == NEW_ACCOUNT
    {
      orders, spend, points, rewards, credits := 0, 0, 0, [], [];
    }

    method CountRewards(id: nat) returns (n: nat)
      ensures n == Given(rewards, id)
    {
      n := 0;
      for i := 0 to |rewards|
        invariant n == Given(rewards[..i], id)
      {
        assert rewards[..i + 1][..i] == rewards[..i];
        if rewards[i] == id {
          n := n + 1;
        }
      }
      assert rewards[..|rewards|] == rewards;
    }

    method CountCredits(id: nat) returns (n: nat)
      ensures n == Credits(credits, id)
    {
      n := 0;
      for i := 0 to |credits|
        invariant n == Credits(credits[..i], id)
      {
        assert credits[..i + 1][..i] == credits[..i];
        if credits[i].rule == id {
          n := n + 1;
        }
      }
      assert credits[..|credits|] == credits;
    }

    method GiveRewards(id: nat, count: int)
      modifies `rewards
      ensures rewards == if count > 0 then old(rewards) + Repeat(id, count) else old(rewards)
    {
      var i := 0;
      while i < count
        invariant 0 <= i && (count > 0 ==> i <= count) && (count <= 0 ==> i == 0)
        invariant rewards == old(rewards) + Repeat(id, i)
      {
        assert Repeat(id, i + 1) == Repeat(id, i) + [id];
        rewards := rewards + [id];
        i := i + 1;
      }
    }

    method EvaluateRule(id: nat, rule: Rule)
      modifies this
      ensures State() == Evaluate(old(State()), id, rule)
    {
      if !rule.active || rule.kind.OtherKind? || rule.threshold <= 0 {
        return;
      }
      if rule.kind.PointsPerAmount? {
        var units := spend / rule.threshold;
        var written := CountCredits(id);
        var newUnits := units - written;
        if newUnits > 0 {
          points := points + newUnits * PerUnit(rule);
          credits := credits + [Credit(id, newUnits)];
        }
      } else {
        var earned := if rule.kind.OrderCount? then orders * 100 / rule.threshold else spend / rule.threshold;
        var given := CountRewards(id);
        GiveRewards(id, earned - given);
      }
    }

    method ProcessPaidBill(rules: seq<Rule>, amount: nat)
      modifies this
      ensures State() == ProcessBill(old(State()), rules, amount)
    {
      ghost var accrued := Accrue(State(), amount);
      orders := orders + 1;
      spend := spend + amount;
      for i := 0 to |rules|
        invariant State() == EvaluateFirst(accrued, rules, i)
      {
        EvaluateRule(i, rules[i]);
      }
    }
  }
}
