/** Stock rows of the menu: what one order line takes, what a whole order takes,
    and what the owner sets. */
module Stock {
  import opened Common

  /** stock is None for an item whose stock is not tracked. */
  datatype Row = Row(stock: Option<int>, soldOut: bool, active: bool)

  /** priced: the line's variant and options belong to the item, so it has a price.
      That is only found out after the units were taken. */
  datatype Line = Line(item: nat, quantity: nat, priced: bool)

  function Less(stock: Option<int>, units: nat): Option<int> {
    if stock.Some? then Some(stock.value - units) else None
  }

  /** The row after a line is taken from it; None when the line is refused. */
  function Sell(row: Row, quantity: nat): (r: Option<Row>)
    ensures r.Some? && row.stock.Some? ==> r.value.stock.Some? && 0 <= r.value.stock.value
    ensures r.Some? ==> r.value.stock == Less(row.stock, quantity) && r.value.active
  {
    if !row.active || row.soldOut then None
    else if row.stock.None? then Some(row)
    else if row.stock.value < quantity then None
    else
      var left := row.stock.value - quantity;
      Some(row.(stock := Some(left), soldOut := left <= 0))
  }

  /** What an owner's edit names. */
  datatype Edit = Edit(stock: Option<Option<nat>>, soldOut: Option<bool>, active: Option<bool>) {
    function Level(): Option<int>
      requires stock.Some?
    {
      if stock.value.Some? then Some(stock.value.value) else None
    }
  }

  /** A fresh positive count also puts the item back on sale, unless the edit says otherwise. */
  function Apply(row: Row, e: Edit): Row {
    Row(if e.stock.Some? then e.Level() else row.stock,
        if e.soldOut.Some? then e.soldOut.value
        else if e.stock.Some? && e.stock.value.Some? && e.stock.value.value > 0 then false
        else row.soldOut,
        if e.active.Some? then e.active.value else row.active)
  }

  /** Each field named is set and each other one kept, but that a count above zero puts
      the item back on sale unless the edit says whether it is sold out. */
  lemma EditSets(row: Row, e: Edit)
    ensures var r := Apply(row, e);
      && (e.stock == None ==> r.stock == row.stock)
      && (e.stock == Some(None) ==> r.stock == None)
      && (e.stock.Some? && e.stock.value.Some? ==> r.stock == Some(e.stock.value.value))
      && r.active == (if e.active.Some? then e.active.value else row.active)
      && (e.soldOut.Some? ==> r.soldOut == e.soldOut.value)
      && (e.soldOut.None? ==>
            (r.soldOut <==> row.soldOut && !(e.stock.Some? && e.stock.value.Some? && e.stock.value.value > 0)))
  {
  }

  /** Units of one item on a list of lines. */
  function Units(lines: seq<Line>, item: nat): nat {
    if lines == [] then 0
    else
      var last := lines[|lines| - 1];
      Units(lines[..|lines| - 1], item) + if last.item == item then last.quantity else 0
  }

  lemma UnitsStep(lines: seq<Line>, k: nat, item: nat)
    requires k < |lines|
    ensures Units(lines[..k + 1], item) == Units(lines[..k], item) + if lines[k].item == item then lines[k].quantity else 0
  {
    assert lines[..k + 1][..k] == lines[..k];
  }

  lemma {:induction false} UnitsZero(lines: seq<Line>, item: nat)
    requires forall k :: 0 <= k < |lines| ==> lines[k].item != item
    ensures Units(lines, item) == 0
    decreases |lines|
  {
    if lines == [] {
    } else {
      UnitsZero(lines[..|lines| - 1], item);
    }
  }

  // ---------- A whole order at once ----------

  function SellAll(rows: seq<Row>, lines: seq<Line>): (r: Option<seq<Row>>)
    ensures r.Some? ==> |r.value| == |rows|
  {
    if lines == [] then Some(rows)
    else
      var before := SellAll(rows, lines[..|lines| - 1]);
      var last := lines[|lines| - 1];
      if before.None? || last.item >= |rows| then None
      else
        var sold := Sell(before.value[last.item], last.quantity);
        if sold.None? || !last.priced then None else Some(before.value[last.item := sold.value])
  }

  predicate CanTake(row: Row, units: nat) {
    row.active && !row.soldOut && (row.stock.Some? ==> units <= row.stock.value)
  }

  /** The condition a caller can read off the rows: every line has a price, and
      every item named is on sale and, where it is counted, has the units of all
      its lines together. */
  ghost predicate Affordable(rows: seq<Row>, lines: seq<Line>) {
    forall k :: 0 <= k < |lines| ==>
      lines[k].priced && lines[k].item < |rows| && CanTake(rows[lines[k].item], Units(lines, lines[k].item))
  }

  /** How a row stands after some lines: less by their units, sold out at zero. */
  predicate RowAfter(was: Row, now: Row, lines: seq<Line>, item: nat) {
    var units := Units(lines, item);
    && now.stock == Less(was.stock, units) && now.active == was.active
    && now.soldOut == (was.soldOut || (units > 0 && was.stock.Some? && was.stock.value <= units))
  }

  ghost predicate Affords(rows: seq<Row>, lines: seq<Line>, taken: Option<seq<Row>>) {
    && (taken.Some? <==> Affordable(rows, lines))
    && (taken.Some? ==> |taken.value| == |rows|)
    && (taken.Some? ==> forall i :: 0 <= i < |rows| ==> RowAfter(rows[i], taken.value[i], lines, i))
  }

  lemma AffordableStep(rows: seq<Row>, lines: seq<Line>, n: nat)
    requires n + 1 == |lines| && lines[n].quantity > 0
    ensures Affordable(rows, lines) <==>
      Affordable(rows, lines[..n]) && lines[n].priced && lines[n].item < |rows|
      && CanTake(rows[lines[n].item], Units(lines[..n], lines[n].item) + lines[n].quantity)
  {
  }

  /** An order goes through exactly when it is affordable, however its lines
      repeat items; each row then gives up exactly the units ordered. */
  lemma {:induction false} SellAllIff(rows: seq<Row>, lines: seq<Line>)
    requires forall k :: 0 <= k < |lines| ==> lines[k].quantity > 0
    ensures Affords(rows, lines, SellAll(rows, lines))
    decreases |lines|
  {
    if lines == [] {
    } else {
      var n := |lines| - 1;
      SellAllIff(rows, lines[..n]);
      assert lines[..n + 1] == lines;
      forall i: nat {
        UnitsStep(lines, n, i);
      }
      AffordableStep(rows, lines, n);
      if Affordable(rows, lines) {
        assert CanTake(rows[lines[n].item], Units(lines, lines[n].item));
      }
    }
  }

  /** The rows in place, one transaction at a time. */
  class StockRoom {
    var rows: seq<Row>

    /** One line: takes its units if the item has them, and succeeds if it also has
        a price; the caller rolls back a line that took units and then failed. */
    method ComputeLine(line: Line) returns (ok: bool)
      modifies this
      ensures var item, was := line.item, old(rows);
        var taken := item < |was| && Sell(was[item], line.quantity).Some?;
        && ok == (taken && line.priced)
        && rows == if taken then was[item := Sell(was[item], line.quantity).value] else was
    {
      var item, quantity := line.item, line.quantity;
      if item >= |rows| || !rows[item].active {
        return false;
      }
      if rows[item].soldOut {
        return false;
      }
      if rows[item].stock.Some? {
        var have := rows[item].stock.value;
        if have < quantity {
          return false;
        }
        rows := rows[item := rows[item].(stock := Some(have - quantity))];
        if have - quantity <= 0 {
          rows := rows[item := rows[item].(soldOut := true)];
        }
      }
      return line.priced;
    }

    /** Every line or none: a refused line rolls the earlier ones back. */
    method TakeOrder(lines: seq<Line>) returns (ok: bool)
      modifies this
      ensures ok <==> SellAll(old(rows), lines).Some?
      ensures rows == if ok then SellAll(old(rows), lines).value else old(rows)
    {
      var saved := rows;
      for k := 0 to |lines|
        invariant SellAll(old(rows), lines[..k]) == Some(rows)
      {
        assert lines[..k + 1][..k] == lines[..k];
        ok := ComputeLine(lines[k]);
        if !ok {
          RefusedPrefix(saved, lines, k + 1);
          rows := saved;
          return false;
        }
      }
      assert lines[..|lines|] == lines;
      return true;
    }
  }

  lemma {:induction false} RefusedPrefix(rows: seq<Row>, lines: seq<Line>, k: nat)
    requires k <= |lines| && SellAll(rows, lines[..k]).None?
    ensures SellAll(rows, lines).None?
    decreases |lines| - k
  {
    if k == |lines| {
      assert lines[..k] == lines;
    } else {
      assert lines[..k + 1][..k] == lines[..k];
      RefusedPrefix(rows, lines, k + 1);
    }
  }
}
