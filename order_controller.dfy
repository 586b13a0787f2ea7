/**
 * The order controller: `createOrder` checks the request, walks its items
 * (look the product up, check its stock, price the line in the order currency,
 * decrement the stock) and saves the order; `updateOrderStatus` overwrites the
 * status of a stored order.
 *
 * Exchange rates are scaled integers given as a map from currency code to
 * rate; the clock reading that names the order is a parameter.
 */
module OrderController {
  import opened Wrappers
  import opened Text
  import opened Ledger
  import opened OrderModel
  import opened Store

  /** One element of the request's `items`. */
  datatype ItemRequest = ItemRequest(product: ProductId, quantity: int)

  /** The request body; an absent currency is `None` and defaults to `USD`. */
  datatype OrderRequest = OrderRequest(
    items: seq<ItemRequest>,
    shippingAddress: Address,
    paymentMethod: string,
    customerInfo: Customer,
    currency: Option<string>)

  /** The HTTP reply: 201 with the stored order, 200 with an updated one, or an error. */
  datatype Reply =
    | Created(id: OrderId, order: Order)
    | Ok(order: Order)
    | Rejected(status: nat, message: string)

  const BadRequest: nat := 400
  const NotFound: nat := 404
  const InternalServerError: nat := 500

  const SaveFailed: Reply := Rejected(InternalServerError, "Failed to create order")

  function CurrencyOf(req: OrderRequest): string {
    req.currency.GetOr(DefaultCurrency)
  }

  /**
   * The guards that run before any product is read, in order: at least one item,
   * an email and a mobile number, a complete address, a supported currency.
   */
  function GuardError(req: OrderRequest, rates: map<string, int>): (r: Option<Reply>)
    ensures r.None? <==>
      && req.items != []
      && req.customerInfo.email != "" && req.customerInfo.mobile != ""
      && req.shippingAddress.street != "" && req.shippingAddress.city != "" && req.shippingAddress.country != ""
      && CurrencyOf(req) in rates
    ensures req.items == [] ==> r == Some(Rejected(BadRequest, "Order must contain at least one item"))
    ensures req.items != [] && (req.customerInfo.email == "" || req.customerInfo.mobile == "") ==>
      r == Some(Rejected(BadRequest, "Customer email and mobile number are required"))
    ensures r.Some? ==> r.value.Rejected? && r.value.status == BadRequest
  {
    if req.items == [] then
      Some(Rejected(BadRequest, "Order must contain at least one item"))
    else if req.customerInfo.email == "" || req.customerInfo.mobile == "" then
      Some(Rejected(BadRequest, "Customer email and mobile number are required"))
    else if req.shippingAddress.street == "" || req.shippingAddress.city == "" || req.shippingAddress.country == "" then
      Some(Rejected(BadRequest, "Complete shipping address is required"))
    else if CurrencyOf(req) !in rates then
      Some(Rejected(BadRequest, "Invalid currency"))
    else
      None
  }

  /** `product.images[0]`, with an empty string where there is no image. */
  function FirstImage(images: seq<string>): string {
    if images == [] then "" else images[0]
  }

  /** The order line for an accepted item, priced in the order currency. */
  function Line(item: ItemRequest, product: Product, rate: int): OrderItem {
    OrderItem(item.product, item.quantity, product.price * rate, product.name, FirstImage(product.images))
  }

  /** The state of the item loop: the products as stored, the lines and total so far, and how it stopped. */
  datatype Walk = Walk(products: map<ProductId, Product>, lines: seq<OrderItem>, total: int, failure: Option<Reply>)

  /** One pass of the loop body; once the loop has returned, nothing more happens. */
  function Visit(w: Walk, item: ItemRequest, rate: int): Walk {
    if w.failure.Some? then w
    else if item.product !in w.products then
      w.(failure := Some(Rejected(NotFound, "Product not found: " + NatToString(item.product))))
    else
      var product := w.products[item.product];
      if product.stock < item.quantity then
        w.(failure := Some(Rejected(BadRequest, "Insufficient stock for " + product.name)))
      else
        var line := Line(item, product, rate);
        Walk(w.products[item.product := product.(stock := product.stock - item.quantity)],
             w.lines + [line], w.total + line.price * item.quantity, None)
  }

  /**
   * The loop over the items, from the stored products. It accepts a prefix of the
   * items, one line each, and stops early exactly when it rejects one; it changes
   * which products exist no more than the loop body does.
   */
  function WalkItems(products: map<ProductId, Product>, items: seq<ItemRequest>, rate: int): (w: Walk)
    ensures |w.lines| <= |items|
    ensures w.failure.None? <==> |w.lines| == |items|
    ensures w.products.Keys == products.Keys
  {
    if items == [] then Walk(products, [], 0, None)
    else Visit(WalkItems(products, items[..|items| - 1], rate), items[|items| - 1], rate)
  }

  /** An item the loop accepts decrements its product's stock and adds its line and the line's amount. */
  lemma VisitAccepts(w: Walk, item: ItemRequest, rate: int)
    requires w.failure.None? && item.product in w.products && w.products[item.product].stock >= item.quantity
    ensures var product := w.products[item.product];
      var line := Line(item, product, rate);
      Visit(w, item, rate)
        == Walk(w.products[item.product := product.(stock := product.stock - item.quantity)],
                w.lines + [line], w.total + line.price * item.quantity, None)
  {
  }

  /** An item the loop rejects leaves the products and the lines as they were. */
  lemma VisitRejects(w: Walk, item: ItemRequest, rate: int)
    requires Visit(w, item, rate).failure.Some?
    ensures Visit(w, item, rate).products == w.products && Visit(w, item, rate).lines == w.lines
  {
  }

  /** The loop after one more item is the loop body applied to the loop before it. */
  lemma WalkUnfold(products: map<ProductId, Product>, items: seq<ItemRequest>, i: nat, rate: int)
    requires i < |items|
    ensures WalkItems(products, items[..i + 1], rate) == Visit(WalkItems(products, items[..i], rate), items[i], rate)
  {
    assert items[..i + 1][..i] == items[..i];
  }

  /** The total quantity the items ask of product `p`. */
  function Demand(items: seq<ItemRequest>, p: ProductId): int {
    if items == [] then 0
    else
      var last := items[|items| - 1];
      Demand(items[..|items| - 1], p) + (if last.product == p then last.quantity else 0)
  }

  /** Σ price × rate × quantity over the items, at the stored prices. */
  function Charge(products: map<ProductId, Product>, items: seq<ItemRequest>, rate: int): int {
    if items == [] then 0
    else
      var last := items[|items| - 1];
      Charge(products, items[..|items| - 1], rate)
        + (if last.product in products then products[last.product].price * rate * last.quantity else 0)
  }

  /**
   * Every item the loop accepts names a stored product and gets the line built
   * from that product, in order.
   */
  lemma {:induction false} WalkLines(products: map<ProductId, Product>, items: seq<ItemRequest>, rate: int)
    ensures var w := WalkItems(products, items, rate);
      forall i :: 0 <= i < |w.lines| ==>
        items[i].product in products && w.lines[i] == Line(items[i], products[items[i].product], rate)
  {
    if items != [] {
      var front := items[..|items| - 1];
      WalkLines(products, front, rate);
      var v := WalkItems(products, front, rate);
      var w := WalkItems(products, items, rate);
      var last := items[|items| - 1];
      if v.failure.None? && w.failure.None? {
        assert last.product in v.products;
        WalkStockAt(products, front, rate, last.product);
        VisitAccepts(v, last, rate);
        var line := Line(last, products[last.product], rate);
        assert Line(last, v.products[last.product], rate) == line;
        assert w.lines == v.lines + [line];
        forall i | 0 <= i < |w.lines|
          ensures items[i].product in products && w.lines[i] == Line(items[i], products[items[i].product], rate)
        {
          if i < |v.lines| {
            assert front[i] == items[i];
          } else {
            assert i == |front| && items[i] == last;
          }
        }
      } else {
        assert w.lines == v.lines;
        forall i | 0 <= i < |w.lines|
          ensures items[i].product in products && w.lines[i] == Line(items[i], products[items[i].product], rate)
        {
          assert front[i] == items[i];
        }
      }
    }
  }

  /**
   * After the loop, each product's stock has dropped by exactly what the accepted
   * items asked of it, and no other field of any product has changed.
   */
  lemma {:induction false} WalkStock(products: map<ProductId, Product>, items: seq<ItemRequest>, rate: int)
    ensures var w := WalkItems(products, items, rate);
      forall p :: p in products ==>
        w.products[p] == products[p].(stock := products[p].stock - Demand(items[..|w.lines|], p))
  {
    if items != [] {
      var front := items[..|items| - 1];
      WalkStock(products, front, rate);
      var v := WalkItems(products, front, rate);
      var w := WalkItems(products, items, rate);
      if v.failure.Some? {
        assert w == v;
        assert items[..|w.lines|] == front[..|v.lines|];
      } else if w.failure.Some? {
        VisitRejects(v, items[|items| - 1], rate);
        assert front[..|v.lines|] == front == items[..|w.lines|];
      } else {
        assert items[..|w.lines|] == items;
        assert front[..|v.lines|] == front;
        VisitStock(products, v, items, rate);
      }
    }
  }

  /** `WalkStock` for one product. */
  lemma WalkStockAt(products: map<ProductId, Product>, items: seq<ItemRequest>, rate: int, p: ProductId)
    requires p in products
    ensures var w := WalkItems(products, items, rate);
      p in w.products && w.products[p] == products[p].(stock := products[p].stock - Demand(items[..|w.lines|], p))
  {
    WalkStock(products, items, rate);
  }

  /** The stock step of `WalkStock`: accepting one more item takes its quantity off its product. */
  lemma VisitStock(products: map<ProductId, Product>, v: Walk, items: seq<ItemRequest>, rate: int)
    requires items != []
    requires v.failure.None?
    requires items[|items| - 1].product in v.products
    requires v.products[items[|items| - 1].product].stock >= items[|items| - 1].quantity
    requires forall p :: p in products ==>
      p in v.products && v.products[p] == products[p].(stock := products[p].stock - Demand(items[..|items| - 1], p))
    ensures forall p :: p in products ==>
      Visit(v, items[|items| - 1], rate).products[p] == products[p].(stock := products[p].stock - Demand(items, p))
  {
  }

  /** The total step of `WalkTotal`: an accepted item adds its stored price × rate × quantity. */
  lemma VisitTotal(products: map<ProductId, Product>, v: Walk, item: ItemRequest, rate: int)
    requires v.failure.None? && item.product in products && item.product in v.products
    requires v.products[item.product].price == products[item.product].price
    requires Visit(v, item, rate).failure.None?
    ensures Visit(v, item, rate).total == v.total + products[item.product].price * rate * item.quantity
  {
    VisitAccepts(v, item, rate);
  }

  /** The loop's total is the charge of the accepted items at the stored prices. */
  lemma {:induction false} WalkTotal(products: map<ProductId, Product>, items: seq<ItemRequest>, rate: int)
    ensures var w := WalkItems(products, items, rate);
      w.total == Charge(products, items[..|w.lines|], rate)
  {
    if items != [] {
      var front := items[..|items| - 1];
      WalkTotal(products, front, rate);
      var v := WalkItems(products, front, rate);
      var w := WalkItems(products, items, rate);
      if v.failure.Some? {
        assert items[..|w.lines|] == front[..|v.lines|];
      } else {
        assert front[..|v.lines|] == front;
        assert front == items[..|v.lines|];
        if w.failure.None? {
          assert items[..|w.lines|] == items;
          var last := items[|items| - 1];
          assert last.product in v.products;
          WalkStockAt(products, front, rate, last.product);
          VisitTotal(products, v, last, rate);
          assert Charge(products, items, rate)
              == Charge(products, front, rate) + products[last.product].price * rate * last.quantity;
        }
      }
    }
  }

  /**
   * How the loop stops early: at the first item it rejects, with not-found when
   * that item's product does not exist, and otherwise with insufficient stock,
   * naming the product, because the stock left after the accepted items is
   * below the quantity asked.
   */
  lemma {:induction false} WalkFailure(products: map<ProductId, Product>, items: seq<ItemRequest>, rate: int)
    ensures var w := WalkItems(products, items, rate);
      var k := |w.lines|;
      w.failure.Some? ==>
        && k < |items|
        && (items[k].product !in products ==>
              w.failure.value == Rejected(NotFound, "Product not found: " + NatToString(items[k].product)))
        && (items[k].product in products ==>
              && products[items[k].product].stock - Demand(items[..k], items[k].product) < items[k].quantity
              && w.failure.value == Rejected(BadRequest, "Insufficient stock for " + products[items[k].product].name))
  {
    if items != [] {
      var front := items[..|items| - 1];
      WalkFailure(products, front, rate);
      WalkStock(products, front, rate);
      var v := WalkItems(products, front, rate);
      if v.failure.Some? {
        assert items[|v.lines|] == front[|v.lines|];
        assert items[..|v.lines|] == front[..|v.lines|];
      } else {
        assert front[..|v.lines|] == front;
        assert front == items[..|v.lines|];
      }
    }
  }

  /** Accepting an item never takes a stock below zero: non-negative stocks stay non-negative. */
  lemma {:induction false} WalkKeepsStockNonNegative(products: map<ProductId, Product>, items: seq<ItemRequest>, rate: int)
    requires forall p :: p in products ==> products[p].stock >= 0
    ensures var w := WalkItems(products, items, rate);
      forall p :: p in w.products ==> w.products[p].stock >= 0
  {
    if items != [] {
      var front := items[..|items| - 1];
      WalkKeepsStockNonNegative(products, front, rate);
      assert WalkItems(products, items, rate) == Visit(WalkItems(products, front, rate), items[|items| - 1], rate);
    }
  }

  /**
   * The item loop lowers `Product.stock` and leaves the inventory ledger alone:
   * starting from stocks in step with the ledger, each product ends the ledger's
   * sum minus what the accepted items asked of it, so the two stay in step
   * exactly when no accepted item asked for anything.
   */
  lemma WalkLeavesLedgerBehind(products: map<ProductId, Product>, entries: seq<Entry>,
                               items: seq<ItemRequest>, rate: int)
    requires StockInSync(products, entries)
    ensures var w := WalkItems(products, items, rate);
      var accepted := items[..|w.lines|];
      && (forall p :: p in products ==> w.products[p].stock == StockOf(entries, p) - Demand(accepted, p))
      && (StockInSync(w.products, entries) <==> forall p :: p in products ==> Demand(accepted, p) == 0)
  {
    WalkStock(products, items, rate);
  }

  /** After the loop has returned at item `k`, the later items change nothing. */
  lemma {:induction false} FailureSticks(products: map<ProductId, Product>, items: seq<ItemRequest>, k: nat, rate: int)
    requires k <= |items| && WalkItems(products, items[..k], rate).failure.Some?
    ensures WalkItems(products, items, rate) == WalkItems(products, items[..k], rate)
    decreases |items| - k
  {
    if k < |items| {
      assert items[..k + 1][..k] == items[..k];
      FailureSticks(products, items, k + 1, rate);
    } else {
      assert items[..k] == items;
    }
  }

  /** The order `createOrder` builds from the request and the loop's lines and total. */
  function BuildOrder(req: OrderRequest, rate: int, lines: seq<OrderItem>, total: int, now: nat): (o: Order)
    ensures o.status == DefaultStatus
    ensures o.orderNumber == OrderNumber(now)
    ensures o.paymentStatus == "pending" <==> req.paymentMethod == "cod"
    ensures req.paymentMethod != "cod" ==> o.paymentStatus == "completed"
    ensures o.paymentStatus in PaymentStatuses
    ensures o.items == lines && o.totalAmount == total && o.currency == CurrencyOf(req) && o.exchangeRate == rate
    ensures o.shippingAddress == req.shippingAddress && o.customerInfo == req.customerInfo
    ensures o.paymentMethod == req.paymentMethod
  {
    var c := req.customerInfo;
    Order(
      OrderNumber(now), lines, total, CurrencyOf(req), rate, req.shippingAddress,
      Customer(c.firstName, c.lastName, c.email, c.mobile, c.secondaryMobile),
      req.paymentMethod,
      if req.paymentMethod == "cod" then "pending" else "completed",
      "pending")
  }

  /** `ORD${Date.now()}`. */
  function OrderNumber(now: nat): (r: string)
    ensures |r| > 3 && r[..3] == "ORD" && AllDigits(r[3..])
  {
    "ORD" + NatToString(now)
  }

  /** Orders created at different clock readings get different numbers. */
  lemma OrderNumberInjective(a: nat, b: nat)
    requires OrderNumber(a) == OrderNumber(b)
    ensures a == b
  {
    assert OrderNumber(a)[3..] == NatToString(a);
    assert OrderNumber(b)[3..] == NatToString(b);
    RenderingInjective(a, b);
  }

  /**
   * One pass of the `for` loop's body: look the item's product up, check the
   * stock, price the line, and save the decremented stock; or reject the item.
   */
  method ReserveItem(db: Database, item: ItemRequest, rate: int, orderItems: seq<OrderItem>, totalAmount: int)
    returns (orderItems': seq<OrderItem>, totalAmount': int, failure: Option<Reply>)
    requires db.Valid()
    modifies db`products
    ensures db.Valid()
    ensures Visit(Walk(old(db.products), orderItems, totalAmount, None), item, rate)
         == Walk(db.products, orderItems', totalAmount', failure)
  {
    orderItems', totalAmount', failure := orderItems, totalAmount, None;
    if item.product !in db.products {
      failure := Some(Rejected(NotFound, "Product not found: " + NatToString(item.product)));
      return;
    }
    var product := db.products[item.product];
    if product.stock < item.quantity {
      failure := Some(Rejected(BadRequest, "Insufficient stock for " + product.name));
      return;
    }
    VisitAccepts(Walk(db.products, orderItems, totalAmount, None), item, rate);
    var line := Line(item, product, rate);
    totalAmount' := totalAmount + line.price * item.quantity;
    orderItems' := orderItems + [line];
    db.products := db.products[item.product := product.(stock := product.stock - item.quantity)];
  }

  /**
   * The `for` loop of `createOrder`: each item in turn, until one is rejected.
   * It returns the reply of the first item it rejects, with the decrements of
   * the items before it already stored.
   */
  method ReserveItems(db: Database, items: seq<ItemRequest>, rate: int)
    returns (orderItems: seq<OrderItem>, totalAmount: int, failure: Option<Reply>)
    requires db.Valid()
    modifies db`products
    ensures db.Valid()
    ensures WalkItems(old(db.products), items, rate) == Walk(db.products, orderItems, totalAmount, failure)
  {
    totalAmount := 0;
    orderItems := [];
    failure := None;
    var i := 0;
    while i < |items|
      invariant 0 <= i <= |items|
      invariant db.Valid()
      invariant failure.None?
      invariant WalkItems(old(db.products), items[..i], rate) == Walk(db.products, orderItems, totalAmount, None)
    {
      WalkUnfold(old(db.products), items, i, rate);
      orderItems, totalAmount, failure := ReserveItem(db, items[i], rate, orderItems, totalAmount);
      assert WalkItems(old(db.products), items[..i + 1], rate) == Walk(db.products, orderItems, totalAmount, failure);
      if failure.Some? {
        FailureSticks(old(db.products), items, i + 1, rate);
        return;
      }
      i := i + 1;
    }
    assert items[..i] == items;
  }

  /**
   * `createOrder`. A failing guard replies 400 before anything is read. The loop
   * then decrements stock item by item; when it returns early, the decrements
   * already made stay in place and no order is stored. The order is stored only
   * when it passes the schema and its number is unused; otherwise the reply is a
   * 500, again with the decrements kept.
   */
  method CreateOrder(db: Database, req: OrderRequest, rates: map<string, int>, now: nat)
    returns (reply: Reply)
    requires db.Valid()
    modifies db`products, db`orders, db`nextId
    ensures db.Valid()
    ensures db.entries == old(db.entries) && db.history == old(db.history)
    ensures GuardError(req, rates).Some? ==>
      reply == GuardError(req, rates).value
      && db.products == old(db.products) && db.orders == old(db.orders) && db.nextId == old(db.nextId)
    ensures GuardError(req, rates).None? ==>
      var rate := rates[CurrencyOf(req)];
      var w := WalkItems(old(db.products), req.items, rate);
      var o := BuildOrder(req, rate, w.lines, w.total, now);
      && db.products == w.products
      && (w.failure.Some? ==> reply == w.failure.value && db.orders == old(db.orders))
      && (w.failure.None? && Saveable(old(db.orders), o) ==>
            reply == Created(old(db.nextId), o) && db.orders == old(db.orders)[old(db.nextId) := o])
      && (w.failure.None? && !Saveable(old(db.orders), o) ==>
            reply == SaveFailed && db.orders == old(db.orders))
  {
    var guard := GuardError(req, rates);
    if guard.Some? {
      return guard.value;
    }
    var rate := rates[CurrencyOf(req)];
    var orderItems, totalAmount, failure := ReserveItems(db, req.items, rate);
    if failure.Some? {
      return failure.value;
    }
    var order := BuildOrder(req, rate, orderItems, totalAmount, now);
    reply := SaveOrder(db, order);
  }

  /**
   * `order.save()`: the schema's validators and the unique index on the order
   * number either admit the order, which is stored under a fresh id, or the
   * save throws and nothing is stored.
   */
  method SaveOrder(db: Database, order: Order) returns (reply: Reply)
    requires db.Valid()
    modifies db`orders, db`nextId
    ensures db.Valid()
    ensures Saveable(old(db.orders), order) ==>
      reply == Created(old(db.nextId), order) && db.orders == old(db.orders)[old(db.nextId) := order]
    ensures !Saveable(old(db.orders), order) ==>
      reply == SaveFailed && db.orders == old(db.orders) && db.nextId == old(db.nextId)
  {
    if !Saveable(db.orders, order) {
      return SaveFailed;
    }
    var id := db.NewId();
    InsertKeepsNumbersUnique(db.orders, id, order);
    db.orders := db.orders[id := order];
    reply := Created(id, order);
  }

  /**
   * `updateOrderStatus`: an unknown id replies not-found and changes nothing;
   * otherwise the status, and only the status, becomes the value supplied, which
   * the update stores without checking it against the enumeration.
   */
  method UpdateOrderStatus(db: Database, id: OrderId, status: string) returns (reply: Reply)
    requires db.Valid()
    modifies db`orders
    ensures db.Valid()
    ensures id !in old(db.orders) ==> reply == Rejected(NotFound, "Order not found") && db.orders == old(db.orders)
    ensures id in old(db.orders) ==>
      && db.orders == old(db.orders)[id := old(db.orders)[id].(status := status)]
      && reply == Ok(db.orders[id])
  {
    if id !in db.orders {
      return Rejected(NotFound, "Order not found");
    }
    StatusUpdateKeepsNumbersUnique(db.orders, id, status);
    var order := db.orders[id].(status := status);
    db.orders := db.orders[id := order];
    reply := Ok(order);
  }
}
