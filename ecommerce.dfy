/** The e-commerce generator: a pool of customers and `count` orders, each
    referring to a customer of the pool and holding one to four line items
    drawn from a fixed catalog. */
module Ecommerce {
  import opened Values
  import opened Oracle

  datatype Product = Product(sku: string, name: string, priceCents: nat)

  /** `PRODUCTS_SAMPLE`, with prices in cents. */
  const Catalog: seq<Product> := [
    Product("SKU-1001", "T-shirt", 1999),
    Product("SKU-1002", "Pants", 4990),
    Product("SKU-1003", "Sneakers", 7995),
    Product("SKU-1004", "Backpack", 3900)
  ]

  /** One line item: a catalog product and a quantity. */
  datatype Item = Item(sku: string, name: string, unitPriceCents: nat, qty: int)

  /** `(now - timedelta(days=daysAgo)).isoformat()`, kept as its parts;
      `now` is the clock reading. */
  datatype OrderDate = OrderDate(now: string, daysAgo: int)

  datatype Order = Order(
    orderId: string,
    customerId: Value,
    orderDate: OrderDate,
    items: seq<Item>,
    totalCents: int,
    currency: string)

  const CustomerId := VStr("customer_id")

  /** The default customer pool: `max(1, count // 3)` customers, each with
      a uuid, a name and a safe e-mail. Python's `//` floors, as Dafny's
      division by a positive number does. */
  function DefaultPool(count: int, o: Faker): (pool: Table)
    ensures |pool| == Max(1, count / 3) && |pool| >= 1
    ensures forall c :: 0 <= c < |pool| ==>
              pool[c].Keys == {CustomerId, VStr("name"), VStr("email")} && pool[c][CustomerId].VStr?
  {
    seq(Max(1, count / 3), c requires 0 <= c =>
      map[CustomerId := VStr(o.text(Uuid4, [0, c])),
          VStr("name") := VStr(o.text(Name, [0, c])),
          VStr("email") := VStr(o.text(SafeEmail, [0, c]))])
  }

  /** Whether an item is a catalog product, at the catalog's price, in a
      quantity from 1 to 5. */
  predicate ValidItem(it: Item)
  {
    && (exists p :: 0 <= p < |Catalog| && it.sku == Catalog[p].sku && it.name == Catalog[p].name
                                        && it.unitPriceCents == Catalog[p].priceCents)
    && 1 <= it.qty <= 5
  }

  /** Item `j` of order `k`: `random.choice(PRODUCTS_SAMPLE)` and
      `random.randint(1, 5)`. */
  function ItemAt(k: nat, j: nat, o: Faker): (it: Item)
    ensures ValidItem(it)
  {
    var p := Pick(0, |Catalog| - 1, o.raw([2, k, j]));
    var product := Catalog[p];
    Item(product.sku, product.name, product.priceCents, Pick(1, 5, o.raw([3, k, j])))
  }

  /** The items of order `k`: `random.randint(1, 4)` of them. */
  function ItemsOf(k: nat, o: Faker): (items: seq<Item>)
    ensures 1 <= |items| <= 4
    ensures forall j :: 0 <= j < |items| ==> ValidItem(items[j])
  {
    seq(Pick(1, 4, o.raw([1, k, 1])), j requires 0 <= j => ItemAt(k, j, o))
  }

  /** What one line of an order costs: its unit price times its quantity. */
  function LineCents(it: Item): int
  {
    it.unitPriceCents * it.qty
  }

  /** The order total in cents: the sum of price times quantity. */
  function TotalCents(items: seq<Item>): (total: int)
    ensures items == [] ==> total == 0
  {
    if items == [] then 0
    else TotalCents(items[..|items| - 1]) + LineCents(items[|items| - 1])
  }

  /** The total of two item lists together is the sum of their totals, so
      the running total does not depend on how the items are grouped. */
  lemma {:induction false} TotalConcat(a: seq<Item>, b: seq<Item>)
    ensures TotalCents(a + b) == TotalCents(a) + TotalCents(b)
    decreases |b|
  {
    if b == [] {
      assert a + b == a;
    } else {
      var n := |b| - 1;
      assert (a + b)[..|a + b| - 1] == a + b[..n];
      TotalConcat(a, b[..n]);
    }
  }

  /** A valid item costs between the cheapest product once and the dearest
      product five times. */
  lemma ItemCostBounds(it: Item)
    requires ValidItem(it)
    ensures 1999 <= LineCents(it) <= 5 * 7995
  {
    var p :| 0 <= p < |Catalog| && it.unitPriceCents == Catalog[p].priceCents;
    assert it.unitPriceCents in {1999, 4990, 7995, 3900};
  }

  /** A total is at least 19.99 per item and at most five of the dearest
      product per item. */
  lemma {:induction false} TotalBounds(items: seq<Item>)
    requires forall j :: 0 <= j < |items| ==> ValidItem(items[j])
    ensures 1999 * |items| <= TotalCents(items) <= 5 * 7995 * |items|
  {
    if items != [] {
      var n := |items| - 1;
      assert forall j :: 0 <= j < n ==> items[..n][j] == items[j];
      assert TotalCents(items) == TotalCents(items[..n]) + LineCents(items[n]);
      TotalBounds(items[..n]);
      ItemCostBounds(items[n]);
    }
  }

  /** `"USD" if locale.startswith("en") else "EUR"`. */
  function Currency(locale: string): (c: string)
    ensures c == "USD" <==> "en" <= locale
    ensures c == "USD" || c == "EUR"
  {
    if "en" <= locale then "USD" else "EUR"
  }

  /** The customer `customers_df.sample(1)` picks for order `k`. */
  function ChosenCustomer(k: nat, pool: Table, o: Faker): (c: Record)
    requires |pool| > 0
    ensures c in pool
  {
    pool[Choose(o.raw([1, k, 0]), |pool|)]
  }

  /** Order `k` of a run: sampling an empty pool raises; otherwise its
      `customer_id` is the chosen customer's, and reading it raises
      `KeyError` when the customer has no such column. */
  function OrderAt(k: nat, pool: Table, locale: string, o: Faker): (r: Result<Order>)
    ensures |pool| == 0 ==> r == Err(EmptySample)
    ensures |pool| > 0 ==> (r.Ok? <==> CustomerId in ChosenCustomer(k, pool, o))
    ensures |pool| > 0 && r.Err? ==> r.error == KeyError(CustomerId)
    ensures r.Ok? ==> var ord := r.value;
              && |pool| > 0
              && ord.customerId == ChosenCustomer(k, pool, o)[CustomerId]
              && 1 <= |ord.items| <= 4
              && (forall j :: 0 <= j < |ord.items| ==> ValidItem(ord.items[j]))
              && ord.totalCents == TotalCents(ord.items)
              && 0 <= ord.orderDate.daysAgo <= 365
              && ord.currency == Currency(locale)
  {
    if |pool| == 0 then Err(EmptySample)
    else
      var cust := ChosenCustomer(k, pool, o);
      var items := ItemsOf(k, o);
      if CustomerId !in cust then Err(KeyError(CustomerId))
      else
        Ok(Order(
          o.text(Uuid4, [1, k]),
          cust[CustomerId],
          OrderDate(o.text(UtcNow, [1, k]), Pick(0, 365, o.raw([1, k, 2]))),
          items,
          TotalCents(items),
          Currency(locale)))
  }

  /** The body of the order loop, as a function of the order's number. */
  function OrderMaker(pool: Table, locale: string, o: Faker): nat -> Result<Order>
  {
    (k: nat) => OrderAt(k, pool, locale, o)
  }

  /** The order loop from order `k` on, `acc` holding the orders made so
      far; the first order that fails ends the run with its error. */
  function FillOrders(count: int, k: nat, acc: seq<Order>, make: nat -> Result<Order>): Result<seq<Order>>
    decreases count - k
  {
    if k >= count then Ok(acc)
    else
      match make(k)
      case Err(e) => Err(e)
      case Ok(ord) => FillOrders(count, k + 1, acc + [ord], make)
  }

  /** `generate_default`'s orders over a given pool. */
  function Orders(count: int, pool: Table, locale: string, o: Faker): Result<seq<Order>>
  {
    FillOrders(count, 0, [], OrderMaker(pool, locale, o))
  }

  /** The loop finishes exactly when no order fails. */
  lemma {:induction false} FillOrdersOk(count: int, k: nat, acc: seq<Order>, make: nat -> Result<Order>)
    ensures FillOrders(count, k, acc, make).Ok? <==> forall t: nat :: k <= t < count ==> make(t).Ok?
    decreases count - k
  {
    if k < count && make(k).Ok? {
      FillOrdersOk(count, k + 1, acc + [make(k).value], make);
    }
  }

  /** A finished loop holds `acc` followed by order `t` for every `t` from
      `k` below `count`. */
  lemma {:induction false} FillOrdersShape(count: int, k: nat, acc: seq<Order>, make: nat -> Result<Order>)
    requires FillOrders(count, k, acc, make).Ok?
    ensures |FillOrders(count, k, acc, make).value| == |acc| + Max(0, count - k)
    ensures FillOrders(count, k, acc, make).value[..|acc|] == acc
    ensures forall t :: k <= t < count ==> make(t) == Ok(FillOrders(count, k, acc, make).value[|acc| + t - k])
    decreases count - k
  {
    if k < count {
      var ord := make(k).value;
      FillOrdersShape(count, k + 1, acc + [ord], make);
      var res := FillOrders(count, k, acc, make).value;
      assert res[..|acc| + 1] == acc + [ord];
      assert res[..|acc|] == (acc + [ord])[..|acc|];
    }
  }

  /** A run over a pool succeeds exactly when every order does, which for
      `count > 0` excludes an empty pool. */
  lemma OrdersOk(count: int, pool: Table, locale: string, o: Faker)
    ensures Orders(count, pool, locale, o).Ok? <==>
              forall t: nat :: t < count ==> OrderAt(t, pool, locale, o).Ok?
    ensures count > 0 && |pool| == 0 ==> Orders(count, pool, locale, o) == Err(EmptySample)
  {
    var make := OrderMaker(pool, locale, o);
    FillOrdersOk(count, 0, [], make);
    assert forall t: nat :: make(t) == OrderAt(t, pool, locale, o);
  }

  /** A successful run gives `count` orders (none for `count <= 0`), order
      `t` being `OrderAt(t)`. */
  lemma OrdersShape(count: int, pool: Table, locale: string, o: Faker)
    requires Orders(count, pool, locale, o).Ok?
    ensures |Orders(count, pool, locale, o).value| == Max(0, count)
    ensures forall t :: 0 <= t < Max(0, count) ==>
              OrderAt(t, pool, locale, o) == Ok(Orders(count, pool, locale, o).value[t])
  {
    var make := OrderMaker(pool, locale, o);
    FillOrdersShape(count, 0, [], make);
    assert forall t: nat :: make(t) == OrderAt(t, pool, locale, o);
  }

  /** With the default pool every order succeeds: the run yields `count`
      orders. */
  lemma DefaultPoolNeverFails(count: int, locale: string, o: Faker)
    ensures Orders(count, DefaultPool(count, o), locale, o).Ok?
    ensures |Orders(count, DefaultPool(count, o), locale, o).value| == Max(0, count)
  {
    var pool := DefaultPool(count, o);
    forall t: nat | t < count
      ensures OrderAt(t, pool, locale, o).Ok?
    {
      var c := ChosenCustomer(t, pool, o);
      var i :| 0 <= i < |pool| && pool[i] == c;
    }
    OrdersOk(count, pool, locale, o);
    OrdersShape(count, pool, locale, o);
  }

  /** Every order refers to a customer of the pool, and its total is the
      sum of its line items, within the per-item bounds. */
  lemma OrdersConsistent(count: int, pool: Table, locale: string, o: Faker)
    requires Orders(count, pool, locale, o).Ok?
    ensures var res := Orders(count, pool, locale, o).value;
            forall t :: 0 <= t < |res| ==>
              && (exists c :: c in pool && CustomerId in c && res[t].customerId == c[CustomerId])
              && res[t].totalCents == TotalCents(res[t].items)
              && 1999 * |res[t].items| <= res[t].totalCents <= 5 * 7995 * |res[t].items|
              && res[t].currency == Currency(locale)
  {
    OrdersShape(count, pool, locale, o);
    var res := Orders(count, pool, locale, o).value;
    forall t | 0 <= t < |res|
      ensures exists c :: c in pool && CustomerId in c && res[t].customerId == c[CustomerId]
      ensures 1999 * |res[t].items| <= res[t].totalCents <= 5 * 7995 * |res[t].items|
    {
      assert OrderAt(t, pool, locale, o) == Ok(res[t]);
      var c := ChosenCustomer(t, pool, o);
      assert c in pool && CustomerId in c && res[t].customerId == c[CustomerId];
      TotalBounds(res[t].items);
    }
  }

  /** The inner loop of order `k`: its items and their running total. */
  method MakeItems(k: nat, o: Faker) returns (items: seq<Item>, total: int)
    ensures items == ItemsOf(k, o)
    ensures total == TotalCents(items)
  {
    var nitems := Pick(1, 4, o.raw([1, k, 1]));
    items := [];
    total := 0;
    for j := 0 to nitems
      invariant items == ItemsOf(k, o)[..j]
      invariant total == TotalCents(items)
    {
      var p := Catalog[Pick(0, |Catalog| - 1, o.raw([2, k, j]))];
      var qty := Pick(1, 5, o.raw([3, k, j]));
      assert ItemsOf(k, o)[..j + 1] == items + [Item(p.sku, p.name, p.priceCents, qty)];
      items := items + [Item(p.sku, p.name, p.priceCents, qty)];
      assert items[..|items| - 1] == ItemsOf(k, o)[..j];
      total := total + p.priceCents * qty;
    }
    assert ItemsOf(k, o)[..nitems] == ItemsOf(k, o);
  }

  /** One pass of the order loop: sample a customer, build the items with
      their running total, and assemble the order. */
  method MakeOrder(k: nat, pool: Table, locale: string, o: Faker) returns (r: Result<Order>)
    requires |pool| > 0
    ensures r == OrderAt(k, pool, locale, o)
  {
    var cust := pool[Choose(o.raw([1, k, 0]), |pool|)];
    var items, total := MakeItems(k, o);
    if CustomerId !in cust {
      return Err(KeyError(CustomerId));
    }
    r := Ok(Order(
      o.text(Uuid4, [1, k]),
      cust[CustomerId],
      OrderDate(o.text(UtcNow, [1, k]), Pick(0, 365, o.raw([1, k, 2]))),
      items,
      total,
      if "en" <= locale then "USD" else "EUR"));
  }

  /** `generate_default(count, customers_df, locale=locale)`: the pool is
      `customers_df`, or the default pool when none is given. */
  method GenerateDefault(count: int, customers: Option<Table>, locale: string, o: Faker)
    returns (r: Result<seq<Order>>)
    ensures r == Orders(count, if customers.Some? then customers.value else DefaultPool(count, o), locale, o)
  {
    var pool := if customers.Some? then customers.value else DefaultPool(count, o);
    var orders: seq<Order> := [];
    var k: nat := 0;
    while k < count
      invariant Orders(count, pool, locale, o) == FillOrders(count, k, orders, OrderMaker(pool, locale, o))
      decreases count - k
    {
      if |pool| == 0 {
        return Err(EmptySample);
      }
      var next := MakeOrder(k, pool, locale, o);
      assert OrderMaker(pool, locale, o)(k) == next;
      match next {
        case Err(e) => return Err(e);
        case Ok(ord) => orders := orders + [ord];
      }
      k := k + 1;
    }
    return Ok(orders);
  }

  /** `generate_from_schema(schema, count, locale=locale)`: the schema is
      not read; this is `generate_default` with the default pool, so it
      always yields `count` orders. */
  method GenerateFromSchema(schema: Value, count: int, locale: string, o: Faker)
    returns (r: Result<seq<Order>>)
    ensures r == Orders(count, DefaultPool(count, o), locale, o)
    ensures r.Ok? && |r.value| == Max(0, count)
  {
    r := GenerateDefault(count, None, locale, o);
    DefaultPoolNeverFails(count, locale, o);
  }
}
