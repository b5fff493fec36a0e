/** Owner-defined charge bands: half-open intervals that form a ladder per name
    and context, kept disjoint at write time so that at most one can apply. */
module ChargeLadder {
  import opened Common

  datatype Context = DineIn | Pickup | Delivery | RoomService | SectionA | SectionB | PoolArea | Lounge | Custom

  datatype Basis = PercentBasis | FlatBasis

  /** high is None for an open-ended top; context is None for every fulfilment. */
  datatype Band = Band(
    id: nat, name: string, context: Option<Context>, low: int, high: Option<int>,
    basis: Basis, value: nat, taxable: bool, active: bool)
  {
    predicate Covers(amount: int) { low <= amount && (high.Some? ==> amount < high.value) }
    predicate Proper() { 0 <= low && (high.Some? ==> low < high.value) }
  }

  predicate SameLadder(a: Band, b: Band) { a.name == b.name && a.context == b.context }

  predicate Overlaps(aLow: int, aHigh: Option<int>, bLow: int, bHigh: Option<int>) {
    (bHigh.Some? ==> aLow < bHigh.value) && (aHigh.Some? ==> bLow < aHigh.value)
  }

  predicate Clash(a: Band, b: Band) { Overlaps(a.low, a.high, b.low, b.high) }

  /** The write-time test says exactly that some amount would be charged twice. */
  lemma ClashIff(a: Band, b: Band)
    requires a.Proper() && b.Proper()
    ensures Clash(a, b) <==> exists x: int :: a.Covers(x) && b.Covers(x)
  {
    if Clash(a, b) {
      var x := if a.low <= b.low then b.low else a.low;
      assert a.Covers(x) && b.Covers(x);
    }
  }

  ghost predicate Disjoint(bands: seq<Band>) {
    forall i, j :: 0 <= i < j < |bands| && SameLadder(bands[i], bands[j]) ==> !Clash(bands[i], bands[j])
  }

  /** Disjoint ladders are what makes double charging impossible. */
  lemma DisjointIff(bands: seq<Band>)
    requires forall i :: 0 <= i < |bands| ==> bands[i].Proper()
    ensures Disjoint(bands) <==> forall x: int, i, j ::
      0 <= i < j < |bands| && SameLadder(bands[i], bands[j]) && bands[i].Covers(x) ==> !bands[j].Covers(x)
  {
    forall i, j | 0 <= i < j < |bands|
      ensures Clash(bands[i], bands[j]) <==> exists x: int :: bands[i].Covers(x) && bands[j].Covers(x)
    {
      ClashIff(bands[i], bands[j]);
    }
  }

  ghost predicate WellFormed(bands: seq<Band>) {
    && (forall i :: 0 <= i < |bands| ==> bands[i].Proper())
    && (forall i, j :: 0 <= i < j < |bands| ==> bands[i].id != bands[j].id)
    && Disjoint(bands)
  }

  datatype Problem = EmptyRange | NegativeStart | Overlapping | NoSuchBand

  /** What an update names; a missing field keeps its value. */
  datatype Patch = Patch(
    name: Option<string>, context: Option<Option<Context>>, low: Option<int>, high: Option<Option<int>>,
    basis: Option<Basis>, value: Option<nat>, taxable: Option<bool>, active: Option<bool>)

  function Or<T>(o: Option<T>, default: T): T { if o.Some? then o.value else default }

  function Patched(b: Band, p: Patch): Band {
    Band(b.id, Or(p.name, b.name), Or(p.context, b.context), Or(p.low, b.low), Or(p.high, b.high),
         Or(p.basis, b.basis), Or(p.value, b.value), Or(p.taxable, b.taxable), Or(p.active, b.active))
  }

  predicate Set<T(==)>(given: Option<T>, was: T, now: T) { (given.Some? ==> now == given.value) && (given.None? ==> now == was) }

  /** Each field named is set and each other one kept; the band keeps its id. */
  lemma PatchSetsFields(b: Band, p: Patch)
    ensures var r := Patched(b, p);
      && r.id == b.id && Set(p.name, b.name, r.name) && Set(p.context, b.context, r.context)
      && Set(p.low, b.low, r.low) && Set(p.high, b.high, r.high) && Set(p.basis, b.basis, r.basis)
      && Set(p.value, b.value, r.value) && Set(p.taxable, b.taxable, r.taxable) && Set(p.active, b.active, r.active)
  {
  }

  /** Whether a band may be written beside the others, leaving out one id. */
  ghost predicate Fits(bands: seq<Band>, b: Band, exclude: Option<nat>) {
    && b.Proper()
    && (forall i :: 0 <= i < |bands| && Some(bands[i].id) != exclude && SameLadder(bands[i], b) ==> !Clash(b, bands[i]))
  }

  /** The write-time check: which complaint it raises first, if any. */
  ghost function Verdict(bands: seq<Band>, b: Band, exclude: Option<nat>): Option<Problem> {
    if b.high.Some? && b.high.value <= b.low then Some(EmptyRange)
    else if b.low < 0 then Some(NegativeStart)
    else if Fits(bands, b, exclude) then None
    else Some(Overlapping)
  }

  /** Where the band with an id is, or one past the end. */
  function IndexOf(bands: seq<Band>, id: nat): (at: nat)
    ensures at <= |bands|
    ensures at < |bands| ==> bands[at].id == id
    ensures forall i :: 0 <= i < at ==> bands[i].id != id
  {
    if bands == [] || bands[0].id == id then 0
    else
      assert forall i :: 0 < i < |bands| ==> bands[i] == bands[1..][i - 1];
      1 + IndexOf(bands[1..], id)
  }

  // ---------- Gaps ----------

  /** An uncovered stretch; high is None for infinity. */
  datatype Gap = Gap(low: int, high: Option<int>) {
    predicate Holds(x: int) { low <= x && (high.Some? ==> x < high.value) }
  }

  predicate InSome(gaps: seq<Gap>, x: int) {
    exists g :: 0 <= g < |gaps| && gaps[g].Holds(x)
  }

  predicate Covered(bands: seq<Band>, x: int) {
    exists i :: 0 <= i < |bands| && bands[i].Covers(x)
  }

  ghost predicate Ladder(bands: seq<Band>) {
    && (forall i :: 0 <= i < |bands| ==> bands[i].Proper())
    && (forall i, j :: 0 <= i < j < |bands| ==> !Clash(bands[i], bands[j]))
  }

  predicate SortedByLow(bands: seq<Band>) {
    forall i, j :: 0 <= i < j < |bands| ==> bands[i].low <= bands[j].low
  }

  /** Non-empty intervals, in order, apart from each other. */
  predicate Spread(gaps: seq<Gap>) {
    && (forall g :: 0 <= g < |gaps| ==> 0 <= gaps[g].low && (gaps[g].high.Some? ==> gaps[g].low < gaps[g].high.value))
    && (forall g, h :: 0 <= g < h < |gaps| ==> gaps[g].high.Some? && gaps[g].high.value < gaps[h].low)
  }

  /** In a sorted ladder a later band starts where an earlier one has ended. */
  lemma LaterStartsAfter(bands: seq<Band>, i: nat, j: nat)
    requires Ladder(bands) && SortedByLow(bands) && i < j < |bands|
    ensures bands[i].high.Some? && bands[i].high.value <= bands[j].low
  {
    assert !Clash(bands[i], bands[j]);
  }

  lemma SplitCover(bands: seq<Band>, b: Band, x: int)
    ensures Covered(bands + [b], x) <==> Covered(bands, x) || b.Covers(x)
  {
    var all := bands + [b];
    if Covered(bands, x) {
      var i :| 0 <= i < |bands| && bands[i].Covers(x);
      assert all[i].Covers(x);
    }
    if b.Covers(x) {
      assert all[|bands|].Covers(x);
    }
  }

  lemma SplitGaps(gaps: seq<Gap>, g: Gap, x: int)
    ensures InSome(gaps + [g], x) <==> InSome(gaps, x) || g.Holds(x)
  {
    var all := gaps + [g];
    if InSome(gaps, x) {
      var i :| 0 <= i < |gaps| && gaps[i].Holds(x);
      assert all[i].Holds(x);
    }
    if g.Holds(x) {
      assert all[|gaps|].Holds(x);
    }
  }

  /** One band's turn: what lies below its upper bound is then sorted out. */
  lemma GapStep(was: seq<Gap>, gaps: seq<Gap>, bands: seq<Band>, i: nat, cursor: int)
    requires i < |bands| && 0 <= cursor <= bands[i].low && bands[i].Proper()
    requires gaps == if bands[i].low > cursor then was + [Gap(cursor, Some(bands[i].low))] else was
    requires forall k :: 0 <= k < i ==> bands[k].high.Some? && bands[k].high.value <= cursor
    requires forall g :: 0 <= g < |was| ==> was[g].high.Some? && was[g].high.value < cursor
    requires forall x :: 0 <= x < cursor ==> (InSome(was, x) <==> !Covered(bands[..i], x))
    ensures forall x :: 0 <= x && (bands[i].high.Some? ==> x < bands[i].high.value) ==>
      (InSome(gaps, x) <==> !Covered(bands[..i + 1], x))
  {
    forall x | 0 <= x && (bands[i].high.Some? ==> x < bands[i].high.value)
      ensures InSome(gaps, x) <==> !Covered(bands[..i + 1], x)
    {
      assert bands[..i + 1] == bands[..i] + [bands[i]];
      if x < cursor {
        SplitCover(bands[..i], bands[i], x);
        SplitGaps(was, Gap(cursor, Some(bands[i].low)), x);
      } else {
        assert !Covered(bands[..i], x);
        SplitCover(bands[..i], bands[i], x);
        assert !InSome(was, x);
        SplitGaps(was, Gap(cursor, Some(bands[i].low)), x);
      }
    }
  }

  lemma GapTail(gaps: seq<Gap>, bands: seq<Band>, cursor: int)
    requires 0 <= cursor
    requires forall k :: 0 <= k < |bands| ==> bands[k].high.Some? && bands[k].high.value <= cursor
    requires forall g :: 0 <= g < |gaps| ==> gaps[g].high.Some? && gaps[g].high.value < cursor
    requires forall x :: 0 <= x < cursor ==> (InSome(gaps, x) <==> !Covered(bands, x))
    ensures forall x :: 0 <= x ==> (InSome(gaps + [Gap(cursor, None)], x) <==> !Covered(bands, x))
  {
    forall x | 0 <= x
      ensures InSome(gaps + [Gap(cursor, None)], x) <==> !Covered(bands, x)
    {
      SplitGaps(gaps, Gap(cursor, None), x);
    }
  }

  /** The sweep over a sorted ladder, early return included. */
  method Sweep(bands: seq<Band>) returns (gaps: seq<Gap>)
    requires bands != [] && Ladder(bands) && SortedByLow(bands)
    ensures Spread(gaps)
    ensures forall x :: 0 <= x ==> (InSome(gaps, x) <==> !Covered(bands, x))
  {
    gaps := [];
    var cursor := 0;
    for i := 0 to |bands|
      invariant 0 <= cursor
      invariant forall k :: 0 <= k < i ==> bands[k].high.Some? && bands[k].high.value <= cursor
      invariant forall j :: i <= j < |bands| ==> cursor <= bands[j].low
      invariant cursor == 0 || exists k :: 0 <= k < i && bands[k].high == Some(cursor)
      invariant Spread(gaps)
      invariant forall g :: 0 <= g < |gaps| ==> gaps[g].high.Some? && gaps[g].high.value < cursor
      invariant forall x :: 0 <= x < cursor ==> (InSome(gaps, x) <==> !Covered(bands[..i], x))
    {
      var low := bands[i].low;
      ghost var was := gaps;
      if low > cursor {
        gaps := gaps + [Gap(cursor, Some(low))];
      }
      GapStep(was, gaps, bands, i, cursor);
      if bands[i].high.None? {
        assert i == |bands| - 1 by {
          if i < |bands| - 1 {
            LaterStartsAfter(bands, i, i + 1);
          }
        }
        assert bands[..i + 1] == bands;
        assert forall x :: low <= x ==> bands[i].Covers(x);
        return;
      }
      forall j | i < j < |bands|
        ensures bands[i].high.value <= bands[j].low
      {
        LaterStartsAfter(bands, i, j);
      }
      cursor := if cursor < bands[i].high.value then bands[i].high.value else cursor;
    }
    assert bands[..|bands|] == bands;
    GapTail(gaps, bands, cursor);
    gaps := gaps + [Gap(cursor, None)];
  }

  // ---------- Sorting a ladder ----------

  function Insert(b: Band, bands: seq<Band>): seq<Band> {
    if bands == [] || b.low <= bands[0].low then [b] + bands else [bands[0]] + Insert(b, bands[1..])
  }

  function SortByLow(bands: seq<Band>): seq<Band> {
    if bands == [] then [] else Insert(bands[0], SortByLow(bands[1..]))
  }

  lemma {:induction false} InsertMembers(b: Band, bands: seq<Band>)
    ensures multiset(Insert(b, bands)) == multiset{b} + multiset(bands)
    decreases |bands|
  {
    if bands == [] || b.low <= bands[0].low {
    } else {
      InsertMembers(b, bands[1..]);
      assert bands == [bands[0]] + bands[1..];
    }
  }

  lemma InsertFrom(b: Band, bands: seq<Band>, j: nat)
    requires j < |Insert(b, bands)|
    ensures Insert(b, bands)[j] == b || Insert(b, bands)[j] in bands
  {
    InsertMembers(b, bands);
    assert Insert(b, bands)[j] in multiset(Insert(b, bands));
  }

  lemma ConsKeeps(first: Band, rest: seq<Band>)
    requires SortedByLow(rest) && Ladder(rest) && first.Proper()
    requires forall j :: 0 <= j < |rest| ==> first.low <= rest[j].low && !Clash(first, rest[j])
    ensures SortedByLow([first] + rest) && Ladder([first] + rest)
  {
  }

  lemma {:induction false} InsertKeeps(b: Band, bands: seq<Band>)
    requires SortedByLow(bands) && Ladder(bands) && b.Proper()
    requires forall i :: 0 <= i < |bands| ==> !Clash(b, bands[i])
    ensures SortedByLow(Insert(b, bands)) && Ladder(Insert(b, bands))
    decreases |bands|
  {
    if bands == [] || b.low <= bands[0].low {
    } else {
      InsertKeeps(b, bands[1..]);
      var rest := Insert(b, bands[1..]);
      forall j | 0 <= j < |rest|
        ensures bands[0].low <= rest[j].low && !Clash(bands[0], rest[j])
      {
        InsertFrom(b, bands[1..], j);
      }
      ConsKeeps(bands[0], rest);
    }
  }

  lemma {:induction false} SortKeeps(bands: seq<Band>)
    requires Ladder(bands)
    ensures SortedByLow(SortByLow(bands)) && Ladder(SortByLow(bands))
    ensures multiset(SortByLow(bands)) == multiset(bands)
    decreases |bands|
  {
    if bands == [] {
    } else {
      SortKeeps(bands[1..]);
      assert bands == [bands[0]] + bands[1..];
      var rest := SortByLow(bands[1..]);
      forall j | 0 <= j < |rest|
        ensures !Clash(bands[0], rest[j])
      {
        assert rest[j] in multiset(rest);
        assert rest[j] in bands[1..];
      }
      InsertKeeps(bands[0], rest);
      InsertMembers(bands[0], rest);
    }
  }

  lemma SameCover(a: seq<Band>, b: seq<Band>, x: int)
    requires multiset(a) == multiset(b)
    ensures Covered(a, x) == Covered(b, x)
  {
    if Covered(a, x) {
      var i :| 0 <= i < |a| && a[i].Covers(x);
      assert a[i] in multiset(b);
    }
    if Covered(b, x) {
      var i :| 0 <= i < |b| && b[i].Covers(x);
      assert b[i] in multiset(a);
    }
  }

  // ---------- Selection ----------

  predicate Eligible(b: Band, base: int, context: Option<Context>) {
    b.active && (b.context.None? || b.context == context) && b.Covers(base)
  }

  /** The declarative rule: the active covering band of the bill's own context, or
      else the active covering band for every context. */
  ghost predicate Chosen(candidates: seq<Band>, base: int, context: Option<Context>, b: Band) {
    && b in candidates && Eligible(b, base, context)
    && (b.context.None? ==> forall c :: c in candidates && c.name == b.name && Eligible(c, base, context) ==> c.context.None?)
  }

  /** On disjoint ladders the rule picks at most one band of each name. */
  lemma ChosenUnique(bands: seq<Band>, base: int, context: Option<Context>, a: Band, b: Band)
    requires Disjoint(bands) && Chosen(bands, base, context, a) && Chosen(bands, base, context, b) && a.name == b.name
    ensures a == b
  {
  }

  /** And at least one, whenever any band of the name would do. */
  lemma ChosenExists(bands: seq<Band>, base: int, context: Option<Context>, b: Band)
    requires b in bands && Eligible(b, base, context)
    ensures exists c :: Chosen(bands, base, context, c) && c.name == b.name
  {
  }

  /** What the dictionary of choices means after some of the candidates. */
  ghost predicate Meets(chosen: map<string, Band>, seen: seq<Band>, base: int, context: Option<Context>) {
    && (forall n :: n in chosen ==> chosen[n].name == n && Chosen(seen, base, context, chosen[n]))
    && (forall b :: b in seen && Eligible(b, base, context) ==> b.name in chosen)
  }

  predicate Displaces(chosen: map<string, Band>, b: Band) {
    b.name in chosen ==> chosen[b.name].context.None? && b.context.Some?
  }

  lemma OfferMeets(chosen: map<string, Band>, seen: seq<Band>, base: int, context: Option<Context>, b: Band)
    requires Meets(chosen, seen, base, context)
    ensures Meets(if Eligible(b, base, context) && Displaces(chosen, b) then chosen[b.name := b] else chosen,
                  seen + [b], base, context)
  {
  }

  /** The selection loop, over the active bands in any order. */
  method Choose(candidates: seq<Band>, base: int, context: Option<Context>)
    returns (chosen: map<string, Band>, order: seq<string>)
    requires forall b :: b in candidates ==> b.active
    ensures Meets(chosen, candidates, base, context)
    ensures forall n :: n in order <==> n in chosen
    ensures forall k, l :: 0 <= k < l < |order| ==> order[k] != order[l]
  {
    chosen, order := map[], [];
    for i := 0 to |candidates|
      invariant Meets(chosen, candidates[..i], base, context)
      invariant forall n :: n in order <==> n in chosen
      invariant forall k, l :: 0 <= k < l < |order| ==> order[k] != order[l]
    {
      var band := candidates[i];
      OfferMeets(chosen, candidates[..i], base, context, band);
      assert candidates[..i + 1] == candidates[..i] + [band];
      if (band.context.Some? && band.context != context) || !band.Covers(base) {
        continue;
      }
      if band.name !in chosen {
        order := order + [band.name];
        chosen := chosen[band.name := band];
      } else if chosen[band.name].context.None? && band.context.Some? {
        chosen := chosen[band.name := band];
      }
    }
    assert candidates[..|candidates|] == candidates;
  }

  lemma MeetsIsRule(chosen: map<string, Band>, candidates: seq<Band>, base: int, context: Option<Context>)
    requires Disjoint(candidates) && Meets(chosen, candidates, base, context)
    ensures forall b :: Chosen(candidates, base, context, b) <==> b.name in chosen && chosen[b.name] == b
  {
  }

  /** One band per name: the rule's choice, unless its value is zero. */
  method Select(candidates: seq<Band>, base: int, context: Option<Context>) returns (picked: seq<Band>)
    requires Disjoint(candidates) && forall b :: b in candidates ==> b.active
    ensures forall b :: b in picked <==> Chosen(candidates, base, context, b) && b.value != 0
    ensures forall i, j :: 0 <= i < j < |picked| ==> picked[i].name != picked[j].name
  {
    var chosen, order := Choose(candidates, base, context);
    picked := [];
    for i := 0 to |order|
      invariant forall k :: 0 <= k < |picked| ==>
        picked[k].value != 0 && picked[k].name in order[..i] && chosen[picked[k].name] == picked[k]
      invariant forall k :: 0 <= k < i && chosen[order[k]].value != 0 ==> chosen[order[k]] in picked
      invariant forall k, l :: 0 <= k < l < |picked| ==> picked[k].name != picked[l].name
    {
      assert order[..i + 1] == order[..i] + [order[i]];
      if chosen[order[i]].value != 0 {
        picked := picked + [chosen[order[i]]];
      }
    }
    MeetsIsRule(chosen, candidates, base, context);
  }

  /** The rule reads the candidates as a set, so their order never matters. */
  lemma OrderIndependent(a: seq<Band>, b: seq<Band>, base: int, context: Option<Context>, band: Band)
    requires multiset(a) == multiset(b)
    ensures Chosen(a, base, context, band) <==> Chosen(b, base, context, band)
  {
    assert forall x :: x in a <==> x in multiset(a);
    assert forall x :: x in b <==> x in multiset(b);
  }

  /** What a selection for a discounted value is: each name's band, unless it is free. */
  ghost predicate IsSelection(bands: seq<Band>, base: int, context: Option<Context>, picked: seq<Band>) {
    && (forall b :: b in picked <==> Chosen(bands, base, context, b) && b.value != 0)
    && (forall i, j :: 0 <= i < j < |picked| ==> picked[i].name != picked[j].name)
  }

  /** An amount counts from the low end up to, but without, the high one. */
  predicate Within(b: Band, base: int) { b.low <= base && (b.high == None || base < b.high.value) }

  /** Written out: a band is picked when it is on, costs something, holds the amount,
      and is for the bill's context, or for all where no such band is. */
  lemma SelectionSays(bands: seq<Band>, base: int, context: Option<Context>, picked: seq<Band>, b: Band)
    requires IsSelection(bands, base, context, picked)
    ensures b in picked <==>
      && b in bands && b.active && b.value > 0 && Within(b, base)
      && ((b.context.Some? && b.context == context)
          || (b.context.None? &&
              !exists c :: c in bands && c.active && c.name == b.name && c.context.Some? && c.context == context && Within(c, base)))
  {
    assert forall c: Band :: Eligible(c, base, context) <==> c.active && Within(c, base) && (c.context.None? || c.context == context);
  }

  /** Another band of the name and context holds some amount of this one. */
  ghost predicate ChargedTwice(other: Band, b: Band, exclude: Option<nat>) {
    && Some(other.id) != exclude && other.name == b.name && other.context == b.context
    && exists x: int :: Within(b, x) && Within(other, x)
  }

  /** The complaints, in the order they are raised. */
  lemma VerdictSays(bands: seq<Band>, b: Band, exclude: Option<nat>)
    requires forall i :: 0 <= i < |bands| ==> bands[i].Proper()
    ensures var v := Verdict(bands, b, exclude);
      if b.high.Some? && b.high.value <= b.low then v == Some(EmptyRange)
      else if b.low < 0 then v == Some(NegativeStart)
      else v == if exists i :: 0 <= i < |bands| && ChargedTwice(bands[i], b, exclude) then Some(Overlapping) else None
  {
    if b.Proper() {
      forall i | 0 <= i < |bands|
        ensures Clash(b, bands[i]) <==> exists x: int :: Within(b, x) && Within(bands[i], x)
      {
        ClashIff(b, bands[i]);
        assert forall x: int :: b.Covers(x) == Within(b, x) && bands[i].Covers(x) == Within(bands[i], x);
      }
    }
  }

  /** The active bands of a table, in the table's order. */
  method ActiveOnly(bands: seq<Band>) returns (active: seq<Band>)
    requires Disjoint(bands)
    ensures Disjoint(active)
    ensures forall b :: b in active <==> b in bands && b.active
  {
    active := [];
    ghost var at: seq<int> := [];
    for i := 0 to |bands|
      invariant |at| == |active|
      invariant forall k :: 0 <= k < |at| ==> 0 <= at[k] < i && active[k] == bands[at[k]] && active[k].active
      invariant forall k, l :: 0 <= k < l < |at| ==> at[k] < at[l]
      invariant forall k :: 0 <= k < i && bands[k].active ==> bands[k] in active
    {
      if bands[i].active {
        active := active + [bands[i]];
        at := at + [i];
      }
    }
  }

  lemma WithoutOne(bands: seq<Band>, at: nat)
    requires WellFormed(bands) && at < |bands|
    ensures WellFormed(bands[..at] + bands[at + 1..])
  {
  }

  // ---------- The table ----------

  class ChargeBook {
    var bands: seq<Band>
    var nextId: nat

    ghost predicate Valid()
      reads this
    {
      WellFormed(bands) && forall i :: 0 <= i < |bands| ==> bands[i].id < nextId
    }

    constructor ()
      ensures Valid() && bands == []
    {
      bands, nextId := [], 0;
    }

    method ValidateBand(b: Band, exclude: Option<nat>) returns (problem: Option<Problem>)
      ensures problem == Verdict(bands, b, exclude)
    {
      if b.high.Some? && b.high.value <= b.low {
        return Some(EmptyRange);
      }
      if b.low < 0 {
        return Some(NegativeStart);
      }
      for i := 0 to |bands|
        invariant forall k :: 0 <= k < i && Some(bands[k].id) != exclude && SameLadder(bands[k], b) ==> !Clash(b, bands[k])
      {
        var other := bands[i];
        if SameLadder(other, b) && exclude != Some(other.id) {
          if Overlaps(b.low, b.high, other.low, other.high) {
            return Some(Overlapping);
          }
        }
      }
      return None;
    }

    /** Written as given with a new id, exactly when it fits. */
    method CreateBand(b: Band) returns (problem: Option<Problem>)
      requires Valid()
      modifies this
      ensures Valid()
      ensures problem == Verdict(old(bands), b, None)
      ensures bands == if problem.None? then old(bands) + [b.(id := old(nextId))] else old(bands)
    {
      problem := ValidateBand(b, None);
      if problem.None? {
        bands := bands + [b.(id := nextId)];
        nextId := nextId + 1;
      }
    }

    method FindBand(id: nat) returns (at: nat)
      ensures at == IndexOf(bands, id)
    {
      at := 0;
      while at < |bands| && bands[at].id != id
        invariant 0 <= at <= |bands|
        invariant forall i :: 0 <= i < at ==> bands[i].id != id
      {
        at := at + 1;
      }
    }

    /** Only the named band changes, and only if the patched band fits among the others. */
    method UpdateBand(id: nat, patch: Patch) returns (problem: Option<Problem>)
      requires Valid()
      modifies this
      ensures Valid()
      ensures var was := old(bands); var at := IndexOf(was, id);
        && problem == (if at == |was| then Some(NoSuchBand) else Verdict(was, Patched(was[at], patch), Some(id)))
        && bands == if problem.None? then was[at := Patched(was[at], patch)] else was
    {
      var at := FindBand(id);
      if at == |bands| {
        return Some(NoSuchBand);
      }
      var patched := Patched(bands[at], patch);
      problem := ValidateBand(patched, Some(id));
      if problem.None? {
        bands := bands[at := patched];
      }
    }

    method DeleteBand(id: nat) returns (problem: Option<Problem>)
      requires Valid()
      modifies this
      ensures Valid()
      ensures var was := old(bands); var at := IndexOf(was, id);
        && problem == (if at == |was| then Some(NoSuchBand) else None)
        && bands == if at == |was| then was else was[..at] + was[at + 1..]
    {
      var at := FindBand(id);
      if at == |bands| {
        return Some(NoSuchBand);
      }
      WithoutOne(bands, at);
      bands := bands[..at] + bands[at + 1..];
      return None;
    }

    /** The bands a bill with this discounted value pays: the active choice of each name. */
    method SelectBandsFor(base: int, context: Option<Context>) returns (picked: seq<Band>)
      requires Valid()
      ensures IsSelection(bands, base, context, picked)
    {
      var active := ActiveOnly(bands);
      picked := Select(active, base, context);
    }

    /** Every band sharing a name and context. */
    method LadderOf(name: string, context: Option<Context>) returns (ladder: seq<Band>)
      requires Valid()
      ensures Ladder(ladder)
      ensures forall b :: b in ladder <==> b in bands && b.name == name && b.context == context
    {
      ladder := [];
      ghost var at: seq<int> := [];
      for i := 0 to |bands|
        invariant |at| == |ladder|
        invariant forall k :: 0 <= k < |at| ==> 0 <= at[k] < i && ladder[k] == bands[at[k]]
        invariant forall k, l :: 0 <= k < l < |at| ==> at[k] < at[l]
        invariant forall k :: 0 <= k < |ladder| ==> ladder[k].name == name && ladder[k].context == context
        invariant forall k :: 0 <= k < i && bands[k].name == name && bands[k].context == context ==> bands[k] in ladder
      {
        if bands[i].name == name && bands[i].context == context {
          ladder := ladder + [bands[i]];
          at := at + [i];
        }
      }
    }

    /** For a ladder that has bands, an amount lies in a reported gap exactly when
        no band of the ladder covers it; the gaps come sorted, non-empty, apart. */
    method FindGaps(name: string, context: Option<Context>) returns (gaps: seq<Gap>)
      requires Valid()
      ensures Spread(gaps)
      ensures (exists b :: b in bands && b.name == name && b.context == context) ==>
        forall x :: 0 <= x ==> (InSome(gaps, x) <==>
          !exists b :: b in bands && b.name == name && b.context == context && b.Covers(x))
      ensures (forall b :: b in bands ==> !(b.name == name && b.context == context)) ==> gaps == []
    {
      var ladder := LadderOf(name, context);
      if ladder == [] {
        return [];
      }
      SortKeeps(ladder);
      assert multiset(SortByLow(ladder)) != multiset{} by {
        assert ladder[0] in multiset(ladder);
      }
      gaps := Sweep(SortByLow(ladder));
      assert ladder[0] in ladder;
      forall x | 0 <= x
        ensures InSome(gaps, x) <==> !exists b :: b in bands && b.name == name && b.context == context && b.Covers(x)
      {
        SameCover(SortByLow(ladder), ladder, x);
        CoverByMember(ladder, x);
      }
    }
  }

  lemma CoverByMember(bands: seq<Band>, x: int)
    ensures Covered(bands, x) <==> exists b :: b in bands && b.Covers(x)
  {
  }
}
