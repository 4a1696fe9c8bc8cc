/** The store's persisted state as one value, and what the order handlers do to it:
    processing an order, listing an order's lines, and the lines a new order adds. */
module Database {
  import opened Records
  import opened Reconcile

  /** The three tables, and the id the database will give the next order. */
  datatype Db = Db(products: map<string, Product>, orders: map<int, Order>, lines: seq<Line>, nextId: int)

  /** What the process-order handler answers. */
  datatype Reply = InvalidToken(value: string) | AlreadyProcessed(id: int) | Processed(id: int)

  datatype Outcome = Outcome(db: Db, reply: Reply)

  /** One entry of the "products" list of an order as the read-order handler returns it. */
  datatype LineView = LineView(name: string, quantity: int)

  /** What every handler keeps: no negative price or stock, order ids positive and below the next one,
      and every association row belonging to an existing order with a non-negative quantity. */
  predicate Sound(db: Db) {
    && db.nextId > 0
    && (forall n :: n in db.products ==> db.products[n].price >= 0.0 && db.products[n].quantity >= 0)
    && (forall i :: i in db.orders ==> 0 < i < db.nextId)
    && (forall k :: 0 <= k < |db.lines| ==> db.lines[k].orderId in db.orders && db.lines[k].quantity >= 0)
  }

  /** The in-memory inventory the handler builds: each product's quantity by name. */
  function Quantities(products: map<string, Product>): (q: map<string, int>)
    ensures q.Keys == products.Keys
  {
    map n | n in products :: products[n].quantity
  }

  /** The product names that some row names. */
  function Named(rows: seq<Line>): set<string> {
    set k | 0 <= k < |rows| :: rows[k].productName
  }

  /** The write-back: every product that some row names takes its running-stock value. */
  function WriteBack(products: map<string, Product>, running: map<string, int>, named: set<string>): map<string, Product>
    requires products.Keys <= running.Keys
  {
    map n | n in products :: if n in named then products[n].(quantity := running[n]) else products[n]
  }

  /** The process-order handler. It crashes on a missing order once the token is accepted,
      which the precondition excludes. */
  function Process(db: Db, id: int, token: string): Outcome
    requires id in db.orders || !IsTrueToken(token)
  {
    if !IsTrueToken(token) then Outcome(db, InvalidToken(token))
    else if db.orders[id].completed then Outcome(db, AlreadyProcessed(id))
    else
      var a := Allocate(db.lines, Quantities(db.products), id);
      Outcome(db.(products := WriteBack(db.products, a.stock, Named(a.lines)),
                  orders := db.orders[id := db.orders[id].(completed := true)]),
              Processed(id))
  }

  /** The allocation keeps each row's order and product; only quantities change. */
  lemma {:induction false} AllocateKeepsRowKeys(rows: seq<Line>, stock: map<string, int>, id: int)
    ensures var a := Allocate(rows, stock, id);
      forall k :: 0 <= k < |rows| ==>
        a.lines[k].orderId == rows[k].orderId && a.lines[k].productName == rows[k].productName
    decreases |rows|
  {
    if rows != [] {
      AllocateKeepsRowKeys(rows[1..], Take(rows[0], stock, id), id);
    }
  }

  /** What a successful process does: the order is completed and no other order changes;
      every product's stock becomes its running-stock value, having dropped by exactly
      what the order's rows were granted and never below zero; prices, the association
      rows (whose fulfilled quantities are not written back) and products the order
      does not name are untouched. */
  lemma ProcessedState(db: Db, id: int, token: string)
    requires Sound(db) && id in db.orders && IsTrueToken(token) && !db.orders[id].completed
    ensures var o := Process(db, id, token);
      var a := Allocate(db.lines, Quantities(db.products), id);
      && o.reply == Processed(id)
      && o.db.orders.Keys == db.orders.Keys && o.db.orders[id] == db.orders[id].(completed := true)
      && (forall i :: i in db.orders && i != id ==> o.db.orders[i] == db.orders[i])
      && o.db.lines == db.lines && o.db.nextId == db.nextId
      && o.db.products.Keys == db.products.Keys
      && (forall n :: n in db.products ==>
            && o.db.products[n] == db.products[n].(quantity := a.stock[n])
            && 0 <= o.db.products[n].quantity <= db.products[n].quantity
            && db.products[n].quantity - o.db.products[n].quantity == Consumed(a.lines, id, n))
      && (forall n :: n in db.products && !OrderNames(db.lines, id, n) ==> o.db.products[n] == db.products[n])
  {
    var stock := Quantities(db.products);
    var a := Allocate(db.lines, stock, id);
    var o := Process(db, id, token);
    AllocateKeepsRowKeys(db.lines, stock, id);
    StockBounds(db.lines, stock, id);
    forall n | n in db.products
      ensures o.db.products[n] == db.products[n].(quantity := a.stock[n])
      ensures db.products[n].quantity - o.db.products[n].quantity == Consumed(a.lines, id, n)
    {
      StockConservation(db.lines, stock, id, n);
      if n !in Named(a.lines) {
        UnnamedStockUnchanged(db.lines, stock, id, n);
      }
    }
    forall n | n in db.products && !OrderNames(db.lines, id, n)
      ensures o.db.products[n] == db.products[n]
    {
      UnnamedStockUnchanged(db.lines, stock, id, n);
    }
  }

  /** Processing keeps the store sound. */
  lemma ProcessKeepsSound(db: Db, id: int, token: string)
    requires Sound(db) && (id in db.orders || !IsTrueToken(token))
    ensures Sound(Process(db, id, token).db)
  {
    if IsTrueToken(token) && !db.orders[id].completed {
      ProcessedState(db, id, token);
    }
  }

  /** Processing is idempotent: once the token is accepted, a second call answers
      "already processed" and leaves the state as the first call left it. */
  lemma ProcessIdempotent(db: Db, id: int, token: string)
    requires id in db.orders && IsTrueToken(token)
    ensures var first := Process(db, id, token).db;
      Process(first, id, token) == Outcome(first, AlreadyProcessed(id))
  {
  }

  /** The rows of order `id`, in stored order, as the read-order handler lists them. */
  function Listed(rows: seq<Line>, id: int): seq<LineView>
    decreases |rows|
  {
    if rows == [] then []
    else
      var last := rows[|rows| - 1];
      Listed(rows[..|rows| - 1], id) + (if last.orderId == id then [LineView(last.productName, last.quantity)] else [])
  }

  /** Listing distributes over appended rows. */
  lemma {:induction false} ListedAppend(front: seq<Line>, back: seq<Line>, id: int)
    ensures Listed(front + back, id) == Listed(front, id) + Listed(back, id)
    decreases |back|
  {
    if back == [] {
      assert front + back == front;
    } else {
      var last := |back| - 1;
      assert (front + back)[..|front + back| - 1] == front + back[..last];
      assert (front + back)[|front + back| - 1] == back[last];
      ListedAppend(front, back[..last], id);
    }
  }

  /** An entry is listed exactly when some row of the order carries that name and quantity. */
  lemma {:induction false} ListedMembers(rows: seq<Line>, id: int, v: LineView)
    ensures v in Listed(rows, id) <==>
      exists k :: 0 <= k < |rows| && rows[k] == Line(id, v.name, v.quantity)
    decreases |rows|
  {
    if rows != [] {
      var front := rows[..|rows| - 1];
      ListedMembers(front, id, v);
      if exists k :: 0 <= k < |rows| && rows[k] == Line(id, v.name, v.quantity) {
        var k :| 0 <= k < |rows| && rows[k] == Line(id, v.name, v.quantity);
        if k < |rows| - 1 {
          assert front[k] == rows[k];
        }
      }
    }
  }

  /** The association rows a new order `id` adds: one per item, in input order. */
  function NewLines(id: int, items: seq<OrderItem>): (rows: seq<Line>)
    requires forall i :: 0 <= i < |items| ==> items[i].quantity.IntValue?
  {
    seq(|items|, i requires 0 <= i < |items| && items[i].quantity.IntValue? =>
      Line(id, items[i].name, items[i].quantity.n))
  }

  /** The items of a create-order request as the read-order handler would list them. */
  function Requested(items: seq<OrderItem>): seq<LineView>
    requires forall i :: 0 <= i < |items| ==> items[i].quantity.IntValue?
  {
    seq(|items|, i requires 0 <= i < |items| && items[i].quantity.IntValue? =>
      LineView(items[i].name, items[i].quantity.n))
  }

  /** Rows of other orders list nothing. */
  lemma {:induction false} ListedOtherOrders(rows: seq<Line>, id: int)
    requires forall k :: 0 <= k < |rows| ==> rows[k].orderId != id
    ensures Listed(rows, id) == []
    decreases |rows|
  {
    if rows != [] {
      ListedOtherOrders(rows[..|rows| - 1], id);
    }
  }

  /** Reading back a freshly created order lists exactly its items, in input order. */
  lemma {:induction false} CreatedOrderReadsBack(rows: seq<Line>, id: int, items: seq<OrderItem>)
    requires forall k :: 0 <= k < |rows| ==> rows[k].orderId != id
    requires forall i :: 0 <= i < |items| ==> items[i].quantity.IntValue?
    ensures Listed(rows + NewLines(id, items), id) == Requested(items)
    decreases |items|
  {
    ListedAppend(rows, NewLines(id, items), id);
    ListedOtherOrders(rows, id);
    assert rows + NewLines(id, items) == rows + NewLines(id, items);
    if items != [] {
      var front := items[..|items| - 1];
      CreatedOrderReadsBack([], id, front);
      assert [] + NewLines(id, front) == NewLines(id, front);
      assert NewLines(id, items)[..|items| - 1] == NewLines(id, front);
      assert Requested(items) == Requested(front) + [Requested(items)[|items| - 1]];
    }
  }

  /** The order of the end-to-end scenario: a widget at 2.5 with 10 in stock, and one
      pending order asking for 15 of it. Processing grants 10 and empties the stock; the
      stored row still says 15; a second call answers "already processed". */
  lemma WidgetScenario()
    ensures var db := Db(map["widget" := Product(2.5, 10)], map[1 := Order("Ann", "Main St", false)],
                         [Line(1, "widget", 15)], 2);
      var first := Process(db, 1, "true");
      && first.reply == Processed(1)
      && first.db.products["widget"] == Product(2.5, 0)
      && first.db.lines == [Line(1, "widget", 15)]
      && first.db.orders[1].completed
      && Process(first.db, 1, "True") == Outcome(first.db, AlreadyProcessed(1))
  {
    var db := Db(map["widget" := Product(2.5, 10)], map[1 := Order("Ann", "Main St", false)],
                 [Line(1, "widget", 15)], 2);
    assert IsTrueToken("true") && IsTrueToken("True") by {
      TrueTokenCases("true");
      TrueTokenCases("True");
    }
    var a := Allocate(db.lines, Quantities(db.products), 1);
    assert Quantities(db.products) == map["widget" := 10];
    assert a.lines == [Line(1, "widget", 10)];
    assert a.stock == map["widget" := 0];
    assert a.lines[0].productName == "widget";
    assert "widget" in Named(a.lines);
  }
}
