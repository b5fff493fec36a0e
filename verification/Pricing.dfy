/** Price lookup for one line, and the batched lookup behind the public menu,
    which reads the same rules another way. Rules are in the table's row order. */
module Pricing {
  import opened Common

  datatype PriceRule = PriceRule(item: nat, variant: Option<nat>, context: nat, price: nat, active: bool)

  datatype MenuItem = MenuItem(id: nat, basePrice: nat)

  datatype Variant = Variant(item: nat, delta: int)

  predicate Matches(r: PriceRule, item: nat, variant: Option<nat>, context: nat) {
    r.item == item && r.variant == variant && r.context == context && r.active
  }

  /** The first matching row's price, as a query that takes one row gives it. */
  function FirstPrice(rules: seq<PriceRule>, item: nat, variant: Option<nat>, context: nat): (p: Option<nat>)
    ensures p.None? <==> forall i :: 0 <= i < |rules| ==> !Matches(rules[i], item, variant, context)
  {
    if rules == [] then None
    else if Matches(rules[0], item, variant, context) then Some(rules[0].price)
    else
      assert forall i :: 0 < i < |rules| ==> rules[i] == rules[1..][i - 1];
      FirstPrice(rules[1..], item, variant, context)
  }

  /** None for a variant that does not exist or belongs to another item. A rule
      for the variant settles the price before that is looked at. */
  function ResolveUnitPrice(
    rules: seq<PriceRule>, variants: map<nat, Variant>, item: MenuItem, variant: Option<nat>, context: nat): Option<int>
  {
    var exact := FirstPrice(rules, item.id, variant, context);
    if exact.Some? then Some(exact.value)
    else if variant.None? then Some(item.basePrice)
    else
      var v := variant.value;
      var general := FirstPrice(rules, item.id, None, context);
      if general.Some? then Some(general.value + if v in variants then variants[v].delta else 0)
      else if v !in variants || variants[v].item != item.id then None
      else Some(item.basePrice + variants[v].delta)
  }

  lemma {:induction false} FirstIsARow(rules: seq<PriceRule>, item: nat, variant: Option<nat>, context: nat)
    ensures var p := FirstPrice(rules, item, variant, context);
      p.Some? ==> exists i :: 0 <= i < |rules| && Matches(rules[i], item, variant, context) && p == Some(rules[i].price)
    decreases |rules|
  {
    if rules == [] {
    } else if Matches(rules[0], item, variant, context) {
    } else {
      FirstIsARow(rules[1..], item, variant, context);
      var p := FirstPrice(rules[1..], item, variant, context);
      if p.Some? {
        var i :| 0 <= i < |rules[1..]| && Matches(rules[1..][i], item, variant, context) && p == Some(rules[1..][i].price);
        assert rules[i + 1] == rules[1..][i];
      }
    }
  }

  /** A rule that is switched off, or is for another item, variant or context, might as
      well not be there. */
  lemma {:induction false} OtherRulesDontMatter(rules: seq<PriceRule>, k: nat, item: nat, variant: Option<nat>, context: nat)
    requires k < |rules|
    requires !rules[k].active || rules[k].item != item || rules[k].variant != variant || rules[k].context != context
    ensures FirstPrice(rules, item, variant, context) == FirstPrice(rules[..k] + rules[k + 1..], item, variant, context)
    decreases |rules|
  {
    if k == 0 {
      assert rules[..k] + rules[k + 1..] == rules[1..];
    } else {
      var rest := rules[1..];
      assert (rules[..k] + rules[k + 1..])[1..] == rest[..k - 1] + rest[k..];
      OtherRulesDontMatter(rest, k - 1, item, variant, context);
    }
  }

  /** A variant without a rule of its own costs what its item costs plus its delta.
      A rule of its own sets the price outright. One that is not the item's has no
      price, unless a rule prices the item, when only its delta is looked up. */
  lemma VariantCostsItsDelta(
    rules: seq<PriceRule>, variants: map<nat, Variant>, item: MenuItem, v: nat, context: nat)
    ensures var price := ResolveUnitPrice(rules, variants, item, Some(v), context);
      var plain := ResolveUnitPrice(rules, variants, item, None, context);
      var own := exists i :: 0 <= i < |rules| && Matches(rules[i], item.id, Some(v), context);
      var general := exists i :: 0 <= i < |rules| && Matches(rules[i], item.id, None, context);
      && plain.Some?
      && (own ==> exists i :: 0 <= i < |rules| && Matches(rules[i], item.id, Some(v), context) && price == Some(rules[i].price))
      && (!own && v in variants && (variants[v].item == item.id || general) ==> price == Some(plain.value + variants[v].delta))
      && (!own && v !in variants && general ==> price == plain)
      && (!own && !general && (v !in variants || variants[v].item != item.id) ==> price == None)
  {
    FirstIsARow(rules, item.id, Some(v), context);
  }

  /** The last matching row's price: what a dictionary filled row by row keeps. */
  function LastPrice(rules: seq<PriceRule>, item: nat, context: nat): Option<nat> {
    if rules == [] then None
    else
      var r := rules[|rules| - 1];
      if Matches(r, item, None, context) then Some(r.price) else LastPrice(rules[..|rules| - 1], item, context)
  }

  function BulkPrice(rules: seq<PriceRule>, item: MenuItem, context: nat): nat {
    if LastPrice(rules, item.id, context).Some? then LastPrice(rules, item.id, context).value else item.basePrice
  }

  function Ids(items: seq<MenuItem>): set<nat> {
    set i | i in items :: i.id
  }

  method ResolveUnitPricesBulk(rules: seq<PriceRule>, items: seq<MenuItem>, context: nat) returns (prices: map<nat, nat>)
    requires forall i, j :: 0 <= i < j < |items| ==> items[i].id != items[j].id
    ensures prices.Keys == Ids(items)
    ensures forall i :: 0 <= i < |items| ==> prices[items[i].id] == BulkPrice(rules, items[i], context)
  {
    var ids := Ids(items);
    var byItem: map<nat, nat> := map[];
    for k := 0 to |rules|
      invariant forall id :: id in ids ==> (id in byItem <==> LastPrice(rules[..k], id, context).Some?)
      invariant forall id :: id in ids && id in byItem ==> LastPrice(rules[..k], id, context) == Some(byItem[id])
    {
      assert rules[..k + 1][..k] == rules[..k];
      var r := rules[k];
      if r.item in ids && Matches(r, r.item, None, context) {
        byItem := byItem[r.item := r.price];
      }
    }
    assert rules[..|rules|] == rules;
    prices := map[];
    for k := 0 to |items|
      invariant prices.Keys == Ids(items[..k])
      invariant forall i :: 0 <= i < k ==>
        items[i].id in prices && prices[items[i].id] == BulkPrice(rules, items[i], context)
    {
      assert items[..k + 1] == items[..k] + [items[k]];
      assert items[k].id in ids;
      prices := prices[items[k].id := if items[k].id in byItem then byItem[items[k].id] else items[k].basePrice];
    }
    assert items[..|items|] == items;
  }

  lemma {:induction false} LastFinds(rules: seq<PriceRule>, item: nat, context: nat)
    ensures LastPrice(rules, item, context).None? <==> forall i :: 0 <= i < |rules| ==> !Matches(rules[i], item, None, context)
    decreases |rules|
  {
    if rules == [] {
    } else {
      LastFinds(rules[..|rules| - 1], item, context);
    }
  }

  predicate General(r: PriceRule, item: nat, context: nat) { Matches(r, item, None, context) }

  /** Row k is the first, or the last, active rule of the item for the context. */
  predicate IsFirst(rules: seq<PriceRule>, item: nat, context: nat, k: nat) {
    k < |rules| && General(rules[k], item, context) && forall i :: 0 <= i < k ==> !General(rules[i], item, context)
  }

  predicate IsLast(rules: seq<PriceRule>, item: nat, context: nat, k: nat) {
    k < |rules| && General(rules[k], item, context) && forall i :: k < i < |rules| ==> !General(rules[i], item, context)
  }

  lemma {:induction false} FirstIs(rules: seq<PriceRule>, item: nat, context: nat, k: nat)
    requires IsFirst(rules, item, context, k)
    ensures FirstPrice(rules, item, None, context) == Some(rules[k].price)
    decreases |rules|
  {
    assert General(rules[0], item, context) ==> k == 0;
    if k == 0 {
    } else {
      assert forall i :: 0 <= i < k ==> rules[1..][i] == rules[i + 1];
      FirstIs(rules[1..], item, context, k - 1);
    }
  }

  lemma {:induction false} LastIs(rules: seq<PriceRule>, item: nat, context: nat, k: nat)
    requires IsLast(rules, item, context, k)
    ensures LastPrice(rules, item, context) == Some(rules[k].price)
    decreases |rules|
  {
    assert General(rules[|rules| - 1], item, context) ==> k == |rules| - 1;
    if k == |rules| - 1 {
    } else {
      LastIs(rules[..|rules| - 1], item, context, k);
    }
  }

  lemma {:induction false} SomeFirst(rules: seq<PriceRule>, item: nat, context: nat, at: nat) returns (k: nat)
    requires at < |rules| && General(rules[at], item, context)
    ensures IsFirst(rules, item, context, k)
    decreases at
  {
    k := at;
    if i :| 0 <= i < at && General(rules[i], item, context) {
      k := SomeFirst(rules, item, context, i);
    }
  }

  lemma {:induction false} SomeLast(rules: seq<PriceRule>, item: nat, context: nat, at: nat) returns (k: nat)
    requires at < |rules| && General(rules[at], item, context)
    ensures IsLast(rules, item, context, k)
    decreases |rules| - at
  {
    k := at;
    if i :| at < i < |rules| && General(rules[i], item, context) {
      k := SomeLast(rules, item, context, i);
    }
  }

  /** The menu shows what an order without a variant is charged exactly when the
      item's first and last active rows for the context carry one price. */
  lemma BulkShowsWhatIsCharged(rules: seq<PriceRule>, variants: map<nat, Variant>, item: MenuItem, context: nat)
    ensures Some(BulkPrice(rules, item, context) as int) == ResolveUnitPrice(rules, variants, item, None, context)
      <==> forall k: nat, l: nat :: IsFirst(rules, item.id, context, k) && IsLast(rules, item.id, context, l) ==>
        rules[k].price == rules[l].price
  {
    LastFinds(rules, item.id, context);
    if at :| 0 <= at < |rules| && General(rules[at], item.id, context) {
      var first := SomeFirst(rules, item.id, context, at);
      var last := SomeLast(rules, item.id, context, at);
      forall k: nat | IsFirst(rules, item.id, context, k)
        ensures FirstPrice(rules, item.id, None, context) == Some(rules[k].price)
      {
        FirstIs(rules, item.id, context, k);
      }
      forall k: nat | IsLast(rules, item.id, context, k)
        ensures LastPrice(rules, item.id, context) == Some(rules[k].price)
      {
        LastIs(rules, item.id, context, k);
      }
      assert IsFirst(rules, item.id, context, first) && IsLast(rules, item.id, context, last);
    }
  }

  /** One active row per item and context is enough. */
  lemma OneRuleIsEnough(rules: seq<PriceRule>, variants: map<nat, Variant>, item: MenuItem, context: nat)
    requires forall i, j :: 0 <= i < j < |rules| && General(rules[i], item.id, context) ==> !General(rules[j], item.id, context)
    ensures Some(BulkPrice(rules, item, context) as int) == ResolveUnitPrice(rules, variants, item, None, context)
  {
    BulkShowsWhatIsCharged(rules, variants, item, context);
    forall k: nat, l: nat | IsFirst(rules, item.id, context, k) && IsLast(rules, item.id, context, l)
      ensures k == l
    {
    }
  }
}
