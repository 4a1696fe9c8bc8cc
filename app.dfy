/** The request handlers of the store, lifted out of the web framework: the three tables
    are fields of a Store object, and each handler is a method that checks its input and
    then updates those fields. */
module App {
  import opened Records
  import opened Reconcile
  import opened Database

  /** What the product handlers answer. */
  datatype ProductReply =
    | MissingKey(key: string)
    | InvalidValues
    | ProductAdded
    | ProductEdited(name: string)
    | NoSuchItem(name: string)
    | ProductDeleted(name: string)

  /** What the create-order handler answers. */
  datatype OrderReply = UnknownItem(name: string) | BadQuantity | OrderAdded

  /** What the read-order handler answers for an existing order. */
  datatype OrderView = OrderView(customerName: string, customerAddress: string, completed: bool,
                                 products: seq<LineView>)

  const CreateKeys: seq<string> := ["name", "price", "quantity"]
  const UpdateKeys: seq<string> := ["price", "quantity"]

  /** `key` is the first of `keys` that `body` lacks. */
  predicate FirstMissingIs(keys: seq<string>, body: map<string, Field>, key: string) {
    exists i :: 0 <= i < |keys| && keys[i] == key && key !in body && forall j :: 0 <= j < i ==> keys[j] in body
  }

  /** The key check the create and update handlers run first. */
  method FirstMissingKey(keys: seq<string>, body: map<string, Field>) returns (missing: Option<string>)
    ensures missing.None? <==> forall i :: 0 <= i < |keys| ==> keys[i] in body
    ensures missing.Some? ==> FirstMissingIs(keys, body, missing.value)
  {
    var i := 0;
    while i < |keys|
      invariant 0 <= i <= |keys|
      invariant forall j :: 0 <= j < i ==> keys[j] in body
    {
      if keys[i] !in body {
        return Some(keys[i]);
      }
      i := i + 1;
    }
    return None;
  }

  /** The conversions and sign checks of the create and update handlers: the new price and
      quantity when float() and int() both succeed on non-negative values, None otherwise. */
  function ParseAmounts(body: map<string, Field>): (p: Option<Product>)
    requires "price" in body && "quantity" in body
    ensures p.Some? ==> Some(p.value.price) == body["price"].asFloat && Some(p.value.quantity) == body["quantity"].asInt
    ensures p.Some? ==> p.value.price >= 0.0 && p.value.quantity >= 0
    ensures p.None? ==> body["price"].asFloat.None? || body["quantity"].asInt.None?
                        || body["price"].asFloat.value < 0.0 || body["quantity"].asInt.value < 0
  {
    match (body["price"].asFloat, body["quantity"].asInt)
    case (Some(price), Some(quantity)) =>
      if price < 0.0 || quantity < 0 then None else Some(Product(price, quantity))
    case _ => None
  }

  /** An order item passes the create-order checks: it names a stored product exactly and
      its quantity is a Python int that is not negative. */
  predicate ItemValid(item: OrderItem, names: set<string>) {
    item.name in names && item.quantity.IntValue? && item.quantity.n >= 0
  }

  /** The answer for an item that fails: an unknown name is reported before a bad quantity. */
  function ItemError(item: OrderItem, names: set<string>): OrderReply {
    if item.name !in names then UnknownItem(item.name) else BadQuantity
  }

  /** `err` is the answer for the first item that fails the checks. */
  predicate FirstInvalid(items: seq<OrderItem>, names: set<string>, err: OrderReply) {
    exists i :: 0 <= i < |items| && !ItemValid(items[i], names) && err == ItemError(items[i], names)
      && forall j :: 0 <= j < i ==> ItemValid(items[j], names)
  }

  /** The item checks of the create-order handler, run before anything is stored. */
  method CheckItems(items: seq<OrderItem>, names: set<string>) returns (err: Option<OrderReply>)
    ensures err.None? <==> forall i :: 0 <= i < |items| ==> ItemValid(items[i], names)
    ensures err.Some? ==> FirstInvalid(items, names, err.value)
  {
    var i := 0;
    while i < |items|
      invariant 0 <= i <= |items|
      invariant forall j :: 0 <= j < i ==> ItemValid(items[j], names)
    {
      var item := items[i];
      if item.name !in names {
        return Some(UnknownItem(item.name));
      }
      if !item.quantity.IntValue? || item.quantity.n < 0 {
        return Some(BadQuantity);
      }
      i := i + 1;
    }
    return None;
  }

  class Store {
    var products: map<string, Product>
    var orders: map<int, Order>
    var lines: seq<Line>
    var nextId: int

    function State(): Db
      reads this
    {
      Db(products, orders, lines, nextId)
    }

    ghost predicate Valid()
      reads this
    {
      Sound(State())
    }

    constructor ()
      ensures Valid()
      ensures products == map[] && orders == map[] && lines == [] && nextId == 1
    {
      products, orders, lines, nextId := map[], map[], [], 1;
    }

    /** Fetch a product by the lower-case form of the name; a missing product crashes
        the handler, which the precondition excludes. */
    method GetProduct(name: string) returns (p: Product)
      requires Lower(name) in products
      ensures p == products[Lower(name)]
    {
      p := products[Lower(name)];
    }

    /** Add a product under the name exactly as given. A name already stored clashes with
        the table's key and crashes the handler, which the precondition excludes. */
    method CreateProduct(body: map<string, Field>) returns (r: ProductReply)
      requires Valid()
      requires "name" in body && "price" in body && "quantity" in body && ParseAmounts(body).Some?
               ==> body["name"].text !in products
      modifies this
      ensures Valid()
      ensures orders == old(orders) && lines == old(lines) && nextId == old(nextId)
      ensures r.MissingKey? ==> FirstMissingIs(CreateKeys, body, r.key)
      ensures r == ProductAdded <==>
        "name" in body && "price" in body && "quantity" in body && ParseAmounts(body).Some?
      ensures r == InvalidValues <==>
        "name" in body && "price" in body && "quantity" in body && ParseAmounts(body).None?
      ensures r == ProductAdded ==> products == old(products)[body["name"].text := ParseAmounts(body).value]
      ensures r != ProductAdded ==> products == old(products)
      ensures r.MissingKey? || r == InvalidValues || r == ProductAdded
    {
      var missing := FirstMissingKey(CreateKeys, body);
      if missing.Some? {
        return MissingKey(missing.value);
      }
      assert forall i :: 0 <= i < |CreateKeys| ==> CreateKeys[i] in body;
      assert "name" in body && "price" in body && "quantity" in body by {
        assert CreateKeys[0] == "name" && CreateKeys[1] == "price" && CreateKeys[2] == "quantity";
      }
      var amounts := ParseAmounts(body);
      if amounts.None? {
        return InvalidValues;
      }
      products := products[body["name"].text := amounts.value];
      return ProductAdded;
    }

    /** Replace the price and quantity of the product stored under the lower-case form of
        the name. A missing product crashes the handler, which the precondition excludes. */
    method UpdateProduct(name: string, body: map<string, Field>) returns (r: ProductReply)
      requires Valid()
      requires "price" in body && "quantity" in body && ParseAmounts(body).Some? ==> Lower(name) in products
      modifies this
      ensures Valid()
      ensures orders == old(orders) && lines == old(lines) && nextId == old(nextId)
      ensures r.MissingKey? ==> FirstMissingIs(UpdateKeys, body, r.key)
      ensures r == ProductEdited(Lower(name)) <==> "price" in body && "quantity" in body && ParseAmounts(body).Some?
      ensures r == InvalidValues <==> "price" in body && "quantity" in body && ParseAmounts(body).None?
      ensures r == ProductEdited(Lower(name)) ==> products == old(products)[Lower(name) := ParseAmounts(body).value]
      ensures r != ProductEdited(Lower(name)) ==> products == old(products)
      ensures r.MissingKey? || r == InvalidValues || r == ProductEdited(Lower(name))
    {
      var missing := FirstMissingKey(UpdateKeys, body);
      if missing.Some? {
        return MissingKey(missing.value);
      }
      assert "price" in body && "quantity" in body by {
        assert UpdateKeys[0] == "price" && UpdateKeys[1] == "quantity";
      }
      var amounts := ParseAmounts(body);
      if amounts.None? {
        return InvalidValues;
      }
      var key := Lower(name);
      products := products[key := products[key].(price := amounts.value.price, quantity := amounts.value.quantity)];
      return ProductEdited(key);
    }

    /** Delete a product. The existence check uses the lower-case form of the name, the
        deletion the name as given; when they differ and only the lower-case one is stored
        the handler crashes, which the precondition excludes. */
    method DeleteProduct(name: string) returns (r: ProductReply)
      requires Valid()
      requires Lower(name) in products ==> name in products
      modifies this
      ensures Valid()
      ensures orders == old(orders) && lines == old(lines) && nextId == old(nextId)
      ensures Lower(name) !in old(products) ==> r == NoSuchItem(name) && products == old(products)
      ensures Lower(name) in old(products) ==> r == ProductDeleted(Lower(name)) && products == old(products) - {name}
    {
      if Lower(name) !in products {
        return NoSuchItem(name);
      }
      products := products - {name};
      return ProductDeleted(Lower(name));
    }

    /** Read an order with its rows in stored order; an unknown id is a not-found answer. */
    method GetOrder(id: int) returns (r: Option<OrderView>)
      ensures r.None? <==> id !in orders
      ensures r.Some? ==> r.value.customerName == orders[id].name && r.value.customerAddress == orders[id].address
                          && r.value.completed == orders[id].completed
      ensures r.Some? ==> r.value.products == Listed(lines, id)
    {
      if id !in orders {
        return None;
      }
      var order := orders[id];
      var listed: seq<LineView> := [];
      var i := 0;
      while i < |lines|
        invariant 0 <= i <= |lines|
        invariant listed == Listed(lines[..i], id)
      {
        assert lines[..i + 1][..i] == lines[..i];
        if lines[i].orderId == id {
          listed := listed + [LineView(lines[i].productName, lines[i].quantity)];
        }
        i := i + 1;
      }
      assert lines[..i] == lines;
      return Some(OrderView(order.name, order.address, order.completed, listed));
    }

    /** Create an order once every item passes the checks: one order row, not completed,
        under the next id, and one association row per item, in input order. A failing
        item stores nothing. */
    method CreateOrder(name: string, address: string, items: seq<OrderItem>) returns (r: OrderReply)
      requires Valid()
      modifies this
      ensures Valid()
      ensures products == old(products)
      ensures r == OrderAdded <==> forall i :: 0 <= i < |items| ==> ItemValid(items[i], old(products).Keys)
      ensures r != OrderAdded ==> FirstInvalid(items, old(products).Keys, r)
      ensures r != OrderAdded ==> orders == old(orders) && lines == old(lines) && nextId == old(nextId)
      ensures r == OrderAdded ==>
        && orders == old(orders)[old(nextId) := Order(name, address, false)]
        && nextId == old(nextId) + 1
        && (forall i :: 0 <= i < |items| ==> items[i].quantity.IntValue?)
        && lines == old(lines) + NewLines(old(nextId), items)
    {
      var err := CheckItems(items, products.Keys);
      if err.Some? {
        return err.value;
      }
      assert forall i :: 0 <= i < |items| ==> ItemValid(items[i], products.Keys);
      var id := nextId;
      orders := orders[id := Order(name, address, false)];
      nextId := nextId + 1;
      var i := 0;
      while i < |items|
        invariant 0 <= i <= |items|
        invariant orders == old(orders)[id := Order(name, address, false)] && nextId == id + 1
        invariant products == old(products)
        invariant lines == old(lines) + NewLines(id, items[..i])
        invariant Valid()
      {
        assert NewLines(id, items[..i + 1]) == NewLines(id, items[..i]) + [Line(id, items[i].name, items[i].quantity.n)];
        lines := lines + [Line(id, items[i].name, items[i].quantity.n)];
        i := i + 1;
      }
      assert items[..i] == items;
      return OrderAdded;
    }

    /** The write-back of the process-order handler: for each stored product, the rows
        are scanned and every row naming it writes the running stock into it. */
    method StoreRunningStock(items: array<Line>, running: map<string, int>)
      requires products.Keys <= running.Keys
      modifies this`products
      ensures products == WriteBack(old(products), running, Named(items[..]))
    {
      var todo := products.Keys;
      while todo != {}
        invariant todo <= products.Keys == old(products).Keys
        invariant forall n :: n in products ==>
          products[n] == if n in todo then old(products)[n] else WriteBack(old(products), running, Named(items[..]))[n]
        decreases todo
      {
        var n :| n in todo;
        StoreRunningStockOf(n, items, running);
        todo := todo - {n};
      }
    }

    /** The inner loop of the write-back, for the product named `n`. */
    method StoreRunningStockOf(n: string, items: array<Line>, running: map<string, int>)
      requires n in products && n in running
      modifies this`products
      ensures products == old(products)[n :=
        if n in Named(items[..]) then old(products)[n].(quantity := running[n]) else old(products)[n]]
    {
      var j := 0;
      while j < items.Length
        invariant 0 <= j <= items.Length
        invariant products == old(products)[n :=
          if exists k :: 0 <= k < j && items[k].productName == n
          then old(products)[n].(quantity := running[n]) else old(products)[n]]
      {
        if items[j].productName == n {
          products := products[n := products[n].(quantity := running[n])];
        }
        j := j + 1;
      }
      assert n in Named(items[..]) <==> exists k :: 0 <= k < items.Length && items[k].productName == n by {
        if n in Named(items[..]) {
          var k :| 0 <= k < |items[..]| && items[..][k].productName == n;
          assert items[k].productName == n;
        }
        if exists k :: 0 <= k < items.Length && items[k].productName == n {
          var k :| 0 <= k < items.Length && items[k].productName == n;
          assert items[..][k].productName == n;
        }
      }
    }

    /** Process an order: reject a token whose upper-case form is not "TRUE", answer
        "already processed" for a completed order, and otherwise run the allocation loop,
        write each product named by some row back from the running stock, and mark the
        order completed. */
    method ProcessOrder(id: int, token: string) returns (r: Reply)
      requires Valid()
      requires id in orders || !IsTrueToken(token)
      modifies this
      ensures Valid()
      ensures Outcome(State(), r) == Process(old(State()), id, token)
    {
      if Upper(token) != "TRUE" {
        return InvalidToken(token);
      }
      if orders[id].completed {
        return AlreadyProcessed(id);
      }
      var items, running := ReconcileRows(lines, Quantities(products), id);
      StoreRunningStock(items, running);
      orders := orders[id := orders[id].(completed := true)];
      ProcessKeepsSound(old(State()), id, token);
      return Processed(id);
    }
  }
}
