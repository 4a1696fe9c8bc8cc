/** Rows of the store's three tables, the request values the handlers look at,
    and the string case mapping the handlers apply to names and tokens. */
module Records {

  datatype Option<T> = None | Some(value: T)

  /** A row of the products table. Its name is the key of the map that holds it.
      The price is only checked against zero and stored, so any ordered value will do. */
  datatype Product = Product(price: real, quantity: int)

  /** A row of the orders table. A new order is not completed: this is the
      column's default in the (unmodelled) table definitions, assumed here. */
  datatype Order = Order(name: string, address: string, completed: bool)

  /** A row of the order/product association table. */
  datatype Line = Line(orderId: int, productName: string, quantity: int)

  /** One member of a JSON request body, as far as the product handlers look at it:
      the text stored when it is a name, and what float() and int() make of it
      (None where the conversion raises ValueError). */
  datatype Field = Field(text: string, asFloat: Option<real>, asInt: Option<int>)

  /** The "quantity" of an order item: a value whose Python type is exactly int,
      or any other JSON value (a float, a string, a boolean, null). */
  datatype ItemQuantity = IntValue(n: int) | OtherValue

  /** One element of the "products" list of a create-order request. */
  datatype OrderItem = OrderItem(name: string, quantity: ItemQuantity)

  function Min(a: int, b: int): (m: int)
    ensures m <= a && m <= b && (m == a || m == b)
  {
    if b < a then b else a
  }

  function LowerChar(c: char): char {
    if 'A' <= c <= 'Z' then (c as int + 32) as char else c
  }

  function UpperChar(c: char): char {
    if 'a' <= c <= 'z' then (c as int - 32) as char else c
  }

  /** str.lower(), on ASCII letters. */
  function Lower(s: string): (r: string)
    ensures |r| == |s| && forall i :: 0 <= i < |s| ==> r[i] == LowerChar(s[i])
  {
    seq(|s|, i requires 0 <= i < |s| => LowerChar(s[i]))
  }

  /** str.upper(), on ASCII letters. */
  function Upper(s: string): (r: string)
    ensures |r| == |s| && forall i :: 0 <= i < |s| ==> r[i] == UpperChar(s[i])
  {
    seq(|s|, i requires 0 <= i < |s| => UpperChar(s[i]))
  }

  /** The process-order handler accepts a token exactly when its upper-case form is "TRUE". */
  predicate IsTrueToken(token: string) {
    Upper(token) == "TRUE"
  }

  /** The accepted tokens are the case variants of "true", and nothing else. */
  lemma TrueTokenCases(token: string)
    ensures IsTrueToken(token) <==>
      |token| == 4 && token[0] in "tT" && token[1] in "rR" && token[2] in "uU" && token[3] in "eE"
  {
  }
}
