/** The allocation loop of the process-order handler: association rows are walked in
    stored order, and each row of the order being processed whose product is in the
    inventory is granted the smaller of its request and the running stock, which is
    then decremented. */
module Reconcile {
  import opened Records

  /** The in-memory rows after the loop, and the running stock after the loop. */
  datatype Allocation = Allocation(lines: seq<Line>, stock: map<string, int>)

  /** A row the loop acts on: it belongs to order `id` and names a product in the inventory. */
  predicate Applies(row: Line, stock: map<string, int>, id: int) {
    row.orderId == id && row.productName in stock
  }

  /** The row as the loop leaves it: granted the smaller of its request and the stock. */
  function Fill(row: Line, stock: map<string, int>, id: int): Line {
    if Applies(row, stock, id) then row.(quantity := Min(row.quantity, stock[row.productName])) else row
  }

  /** The running stock after the loop has handled `row`. */
  function Take(row: Line, stock: map<string, int>, id: int): (after: map<string, int>)
    ensures after.Keys == stock.Keys
  {
    if Applies(row, stock, id)
    then stock[row.productName := stock[row.productName] - Min(row.quantity, stock[row.productName])]
    else stock
  }

  /** The loop, specified from the front: the first row is handled against the stock
      as it stands, the rest against the stock it leaves. */
  function Allocate(rows: seq<Line>, stock: map<string, int>, id: int): (a: Allocation)
    ensures |a.lines| == |rows| && a.stock.Keys == stock.Keys
    decreases |rows|
  {
    if rows == [] then Allocation([], stock)
    else
      var rest := Allocate(rows[1..], Take(rows[0], stock, id), id);
      Allocation([Fill(rows[0], stock, id)] + rest.lines, rest.stock)
  }

  /** Sum of the quantities of the rows of order `id` that name `name`. */
  function Consumed(rows: seq<Line>, id: int, name: string): int
    decreases |rows|
  {
    if rows == [] then 0
    else (if rows[0].orderId == id && rows[0].productName == name then rows[0].quantity else 0)
         + Consumed(rows[1..], id, name)
  }

  /** Some row of order `id` names product `name`. */
  predicate OrderNames(rows: seq<Line>, id: int, name: string) {
    exists k :: 0 <= k < |rows| && rows[k].orderId == id && rows[k].productName == name
  }

  predicate NonNegativeStock(stock: map<string, int>) {
    forall n :: n in stock ==> stock[n] >= 0
  }

  predicate NonNegativeRows(rows: seq<Line>) {
    forall k :: 0 <= k < |rows| ==> rows[k].quantity >= 0
  }

  /** The loop itself, over an array copy of the rows that it updates in place and a
      running copy of the inventory quantities. */
  method ReconcileRows(rows: seq<Line>, stock: map<string, int>, id: int)
    returns (items: array<Line>, running: map<string, int>)
    ensures items[..] == Allocate(rows, stock, id).lines
    ensures running == Allocate(rows, stock, id).stock
  {
    items := new Line[|rows|](k requires 0 <= k < |rows| => rows[k]);
    running := stock;
    ghost var a := Allocate(rows, stock, id);
    var i := 0;
    while i < items.Length
      invariant 0 <= i <= items.Length == |rows| == |a.lines|
      invariant items[..i] == a.lines[..i]
      invariant items[i..] == rows[i..]
      invariant Allocate(rows[i..], running, id) == Allocation(a.lines[i..], a.stock)
    {
      var item := items[i];
      assert item == rows[i];
      ghost var rest := Allocate(rows[i + 1..], Take(item, running, id), id);
      assert rows[i..][1..] == rows[i + 1..];
      assert a.lines[i..] == [Fill(item, running, id)] + rest.lines;
      assert a.lines[i] == Fill(item, running, id) && a.lines[i + 1..] == rest.lines by {
        assert a.lines[i..][0] == a.lines[i] && a.lines[i..][1..] == a.lines[i + 1..];
      }
      if item.productName in running && item.orderId == id {
        var q := Min(item.quantity, running[item.productName]);
        items[i] := item.(quantity := q);
        running := running[item.productName := running[item.productName] - q];
      }
      assert items[..i + 1] == a.lines[..i + 1] by {
        assert a.lines[..i + 1] == a.lines[..i] + [a.lines[i]];
      }
      i := i + 1;
    }
    assert items[..] == items[..i];
  }

  /** Each row's fulfilled quantity: for a row the loop acts on, the smaller of the
      request and the stock left by the rows before it; every other row keeps its quantity. */
  lemma {:induction false} AllocatedLine(rows: seq<Line>, stock: map<string, int>, id: int, k: nat)
    requires k < |rows|
    ensures var before := Allocate(rows[..k], stock, id).stock;
      Allocate(rows, stock, id).lines[k] ==
        if Applies(rows[k], stock, id)
        then rows[k].(quantity := Min(rows[k].quantity, before[rows[k].productName]))
        else rows[k]
    decreases k
  {
    if k > 0 {
      var row := rows[0];
      var next := Take(row, stock, id);
      assert rows[..k][0] == row && rows[..k][1..] == rows[1..][..k - 1];
      AllocatedLine(rows[1..], next, id, k - 1);
    }
  }

  /** The running stock never drops below zero, and (requests being non-negative) never rises. */
  lemma {:induction false} StockBounds(rows: seq<Line>, stock: map<string, int>, id: int)
    requires NonNegativeStock(stock) && NonNegativeRows(rows)
    ensures var after := Allocate(rows, stock, id).stock;
      forall n :: n in stock ==> 0 <= after[n] <= stock[n]
    decreases |rows|
  {
    if rows != [] {
      var row := rows[0];
      var next := Take(row, stock, id);
      StockBounds(rows[1..], next, id);
    }
  }

  /** Conservation: what leaves a product's stock is exactly the sum of the quantities
      granted to the processed order's rows for that product. */
  lemma {:induction false} StockConservation(rows: seq<Line>, stock: map<string, int>, id: int, name: string)
    requires name in stock
    ensures var a := Allocate(rows, stock, id);
      stock[name] - a.stock[name] == Consumed(a.lines, id, name)
    decreases |rows|
  {
    if rows != [] {
      var row := rows[0];
      var next := Take(row, stock, id);
      StockConservation(rows[1..], next, id, name);
      var a := Allocate(rows, stock, id);
      assert a.lines[1..] == Allocate(rows[1..], next, id).lines;
    }
  }

  /** A product that no row of the processed order names keeps its stock. */
  lemma {:induction false} UnnamedStockUnchanged(rows: seq<Line>, stock: map<string, int>, id: int, name: string)
    requires name in stock
    requires !OrderNames(rows, id, name)
    ensures Allocate(rows, stock, id).stock[name] == stock[name]
    decreases |rows|
  {
    if rows != [] {
      var row := rows[0];
      var next := Take(row, stock, id);
      assert forall k :: 0 <= k < |rows| - 1 ==> rows[1..][k] == rows[k + 1];
      UnnamedStockUnchanged(rows[1..], next, id, name);
    }
  }

  /** When the stock covers every product's total request, every row is granted in full
      and each product's stock drops by exactly its total request. */
  lemma {:induction false} EnoughStock(rows: seq<Line>, stock: map<string, int>, id: int)
    requires NonNegativeRows(rows)
    requires forall n :: n in stock ==> Consumed(rows, id, n) <= stock[n]
    ensures var a := Allocate(rows, stock, id);
      a.lines == rows && forall n :: n in stock ==> a.stock[n] == stock[n] - Consumed(rows, id, n)
    decreases |rows|
  {
    if rows != [] {
      var row := rows[0];
      var next := Take(row, stock, id);
      forall n | n in stock
        ensures next[n] == stock[n] - (if row.orderId == id && row.productName == n then row.quantity else 0)
        ensures Consumed(rows[1..], id, n) <= next[n]
      {
        ConsumedNonNegative(rows[1..], id, n);
      }
      EnoughStock(rows[1..], next, id);
      assert Fill(row, stock, id) == row by {
        if Applies(row, stock, id) {
          ConsumedNonNegative(rows[1..], id, row.productName);
        }
      }
    }
  }

  /** When an order asks for at least the whole stock of a product, that product's stock
      ends at exactly zero. */
  lemma {:induction false} StockRunsOut(rows: seq<Line>, stock: map<string, int>, id: int, name: string)
    requires NonNegativeRows(rows) && name in stock && stock[name] >= 0
    requires Consumed(rows, id, name) >= stock[name]
    ensures Allocate(rows, stock, id).stock[name] == 0
    decreases |rows|
  {
    if rows != [] {
      var row := rows[0];
      var next := Take(row, stock, id);
      if row.orderId == id && row.productName == name && row.quantity >= stock[name] {
        assert next[name] == 0;
        ConsumedNonNegative(rows[1..], id, name);
      }
      StockRunsOut(rows[1..], next, id, name);
    }
  }

  lemma {:induction false} ConsumedNonNegative(rows: seq<Line>, id: int, name: string)
    requires NonNegativeRows(rows)
    ensures Consumed(rows, id, name) >= 0
    decreases |rows|
  {
    if rows != [] {
      ConsumedNonNegative(rows[1..], id, name);
    }
  }

  /** Allocation is sequential, not simultaneous: with 5 in stock, two rows asking
      for 4 each are granted 4 and then 1, and the stock ends at 0. */
  lemma SequentialAllocationExample()
    ensures var rows := [Line(7, "p", 4), Line(7, "p", 4)];
      Allocate(rows, map["p" := 5], 7) == Allocation([Line(7, "p", 4), Line(7, "p", 1)], map["p" := 0])
  {
  }
}
