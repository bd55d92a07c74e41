/** The order handlers: `createOrder` (guards, per-line validation, one order, stock
    decrement) and `getUserOrders` (the user's orders, newest first, with a review flag). */
module Orders {
  import opened Wrappers
  import opened Db

  datatype OrderRequest = OrderRequest(
    orderItems: Option<seq<OrderItem>>,
    shippingAddress: Option<Address>,
    paymentResult: Option<PaymentResult>,
    totalPrice: real)

  datatype Placed = Placed(response: Response, store: Store)

  /** The line names a stored product whose stock covers that line's quantity on its own. */
  predicate ItemOk(products: map<Id, Product>, item: OrderItem) {
    var k := RefId(item.product);
    k.Some? && k.value in products && item.quantity <= products[k.value].stock
  }

  /** The answer to a failing line: 404 when its product is not stored, 400 naming the
      product when the stock is short. */
  function ItemFailure(products: map<Id, Product>, item: OrderItem): Response {
    var k := RefId(item.product);
    if k.None? || k.value !in products then Response(404, ErrorJson("Product not found"))
    else Response(400, ErrorJson("Insufficient stock for " + products[k.value].name))
  }

  /** The first failing line, in order: `None` when every line passes. */
  function CheckItems(products: map<Id, Product>, items: seq<OrderItem>): (r: Option<Response>)
    ensures r.None? <==> forall i :: 0 <= i < |items| ==> ItemOk(products, items[i])
    ensures r.Some? ==>
      exists i :: (0 <= i < |items| && !ItemOk(products, items[i])
                   && (forall j :: 0 <= j < i ==> ItemOk(products, items[j]))
                   && r.value == ItemFailure(products, items[i]))
  {
    if items == [] then None
    else
      var k := RefId(items[0].product);
      if k.None? || k.value !in products then Some(Response(404, ErrorJson("Product not found")))
      else if products[k.value].stock < items[0].quantity then
        Some(Response(400, ErrorJson("Insufficient stock for " + products[k.value].name)))
      else
        var r := CheckItems(products, items[1..]);
        assert forall i :: 1 <= i < |items| ==> items[i] == items[1..][i - 1];
        if r.Some? then
          ghost var i :| 0 <= i < |items[1..]| && !ItemOk(products, items[1..][i])
            && (forall j :: 0 <= j < i ==> ItemOk(products, items[1..][j]))
            && r.value == ItemFailure(products, items[1..][i]);
          assert items[i + 1] == items[1..][i];
          r
        else r
  }

  function ProcessingOrder(user: User, req: OrderRequest, orderId: Id, now: int): Order
    requires req.orderItems.Some?
  {
    Order(orderId, Some(user.id), Some(user.clerkId), req.orderItems.value, req.shippingAddress,
          req.totalPrice, Processing, None, req.paymentResult, now)
  }

  /** The request passes both guards and every line. */
  predicate Accepted(s: Store, req: OrderRequest) {
    && req.shippingAddress.Some? && req.shippingAddress.value.streetAddress != ""
    && req.orderItems.Some? && req.orderItems.value != []
    && CheckItems(s.products, req.orderItems.value).None?
  }

  /** `createOrder`. */
  function CreateOrder(s: Store, user: User, req: OrderRequest, orderId: Id, now: int): (p: Placed)
    // the address guard comes first, then the item guard
    ensures req.shippingAddress.None? || req.shippingAddress.value.streetAddress == "" ==>
      p == Placed(Response(400, ErrorJson("Shipping address is required")), s)
    ensures (req.shippingAddress.Some? && req.shippingAddress.value.streetAddress != ""
             && (req.orderItems.None? || req.orderItems.value == [])) ==>
      p == Placed(Response(400, ErrorJson("No order items")), s)
    // past both guards, the first failing line decides the answer
    ensures (req.shippingAddress.Some? && req.shippingAddress.value.streetAddress != ""
             && req.orderItems.Some? && req.orderItems.value != []
             && CheckItems(s.products, req.orderItems.value).Some?) ==>
      p == Placed(CheckItems(s.products, req.orderItems.value).value, s)
    // a rejected request changes nothing
    ensures !Accepted(s, req) ==> p.store == s && p.response.status in {400, 404}
    // an accepted request stores the client's items, address, payment result and total verbatim
    ensures Accepted(s, req) ==>
      && p.response.status == 201
      && p.response.body == CreatedJson("Order created successfully",
           Order(orderId, Some(user.id), Some(user.clerkId), req.orderItems.value, req.shippingAddress,
                 req.totalPrice, Processing, None, req.paymentResult, now))
      && p.store.orders == s.orders + [p.response.body.order]
      && p.store.users == s.users
    // every line's product loses that line's quantity
    ensures Accepted(s, req) ==>
      && p.store.products == Decrement(s.products, req.orderItems.value)
      && p.store.products.Keys == s.products.Keys
      && forall k :: k in s.products ==>
           p.store.products[k].stock == s.products[k].stock - QtyFor(req.orderItems.value, k)
  {
    if req.shippingAddress.None? || req.shippingAddress.value.streetAddress == "" then
      Placed(Response(400, ErrorJson("Shipping address is required")), s)
    else if req.orderItems.None? || req.orderItems.value == [] then
      Placed(Response(400, ErrorJson("No order items")), s)
    else match CheckItems(s.products, req.orderItems.value)
      case Some(r) => Placed(r, s)
      case None =>
        var order := ProcessingOrder(user, req, orderId, now);
        Placed(Response(201, CreatedJson("Order created successfully", order)),
               Store(Decrement(s.products, req.orderItems.value), s.orders + [order], s.users))
  }

  /** No two lines name the same product. */
  predicate DistinctProducts(items: seq<OrderItem>) {
    forall i, j :: 0 <= i < j < |items| && RefId(items[i].product).Some? ==>
      RefId(items[i].product) != RefId(items[j].product)
  }

  /** With distinct products each line's own stock check is enough: no product the lines
      name is asked for more than its stock. */
  lemma {:induction false} DistinctWithinStock(products: map<Id, Product>, items: seq<OrderItem>, k: Id)
    requires DistinctProducts(items)
    requires forall i :: 0 <= i < |items| ==> ItemOk(products, items[i])
    requires k in products
    ensures QtyFor(items, k) <= products[k].stock || QtyFor(items, k) == 0
    ensures (forall i :: 0 <= i < |items| ==> RefId(items[i].product) != Some(k)) ==> QtyFor(items, k) == 0
  {
    if items != [] {
      var rest := items[1..];
      assert forall i :: 0 <= i < |rest| ==> rest[i] == items[i + 1];
      assert DistinctProducts(rest) by {
        forall i, j | 0 <= i < j < |rest| && RefId(rest[i].product).Some?
          ensures RefId(rest[i].product) != RefId(rest[j].product)
        {
          assert rest[i] == items[i + 1] && rest[j] == items[j + 1];
        }
      }
      DistinctWithinStock(products, rest, k);
      if RefId(items[0].product) == Some(k) {
        forall i | 0 <= i < |rest| ensures RefId(rest[i].product) != Some(k) {
          assert rest[i] == items[i + 1];
        }
      }
    }
  }

  /** With distinct products a successful order never drives stock below zero. */
  lemma DistinctKeepsStock(s: Store, user: User, req: OrderRequest, orderId: Id, now: int)
    requires Accepted(s, req) && DistinctProducts(req.orderItems.value)
    requires forall k :: k in s.products ==> s.products[k].stock >= 0
    ensures
      var p := CreateOrder(s, user, req, orderId, now);
      forall k :: k in p.store.products ==> p.store.products[k].stock >= 0
  {
    var items := req.orderItems.value;
    forall k | k in s.products ensures s.products[k].stock - QtyFor(items, k) >= 0 {
      DistinctWithinStock(s.products, items, k);
    }
  }

  /** The stock check is per line, not cumulative: two lines of one product with stock 1,
      each asking for 1, are accepted and leave the stock at -1. */
  lemma RepeatedProductOverdraws(user: User, orderId: Id, now: int)
    ensures
      var s := Store(map["p" := Product("Mug", 10.0, 1, [])], [], map[]);
      var item := OrderItem(Bare("p"), "Mug", 10.0, 1, None);
      var req := OrderRequest(Some([item, item]), Some(Address("A", "1 Main St", "C", "S", "Z", "P")), None, 20.0);
      var p := CreateOrder(s, user, req, orderId, now);
      p.response.status == 201 && p.store.products["p"].stock == -1
  {
    var item := OrderItem(Bare("p"), "Mug", 10.0, 1, None);
    var products := map["p" := Product("Mug", 10.0, 1, [])];
    assert [item, item][1..] == [item];
    assert [item][1..] == [];
    assert CheckItems(products, [item, item]).None?;
    assert QtyFor([], "p") == 0;
    assert QtyFor([item], "p") == 1;
    assert QtyFor([item, item], "p") == 2;
  }

  // ---------------------------------------------------------------- getUserOrders

  datatype Review = Review(orderId: Id)

  datatype OrderView = OrderView(order: Order, hasReviewed: bool)

  /** `Order.find({ clerkId })`. */
  function OwnedBy(orders: seq<Order>, clerkId: string): (r: seq<Order>)
    ensures forall o :: multiset(r)[o] == if o.clerkId == Some(clerkId) then multiset(orders)[o] else 0
  {
    if orders == [] then []
    else
      var rest := OwnedBy(orders[1..], clerkId);
      assert orders == [orders[0]] + orders[1..];
      if orders[0].clerkId == Some(clerkId) then [orders[0]] + rest else rest
  }

  predicate NewestFirst(s: seq<Order>) {
    forall i, j :: 0 <= i < j < |s| ==> s[i].createdAt >= s[j].createdAt
  }

  function Insert(o: Order, s: seq<Order>): (r: seq<Order>)
    requires NewestFirst(s)
    ensures NewestFirst(r) && multiset(r) == multiset(s) + multiset{o}
  {
    if s == [] || s[0].createdAt <= o.createdAt then
      [o] + s
    else
      var rest := Insert(o, s[1..]);
      assert s == [s[0]] + s[1..];
      ConsNewestFirst(s[0], rest, o, s[1..]);
      [s[0]] + rest
  }

  lemma ConsNewestFirst(head: Order, rest: seq<Order>, o: Order, tail: seq<Order>)
    requires NewestFirst(rest) && multiset(rest) == multiset(tail) + multiset{o}
    requires o.createdAt <= head.createdAt
    requires forall j :: 0 <= j < |tail| ==> tail[j].createdAt <= head.createdAt
    ensures NewestFirst([head] + rest)
  {
    forall j | 0 <= j < |rest| ensures rest[j].createdAt <= head.createdAt {
      assert rest[j] in multiset(rest);
      if rest[j] != o {
        assert rest[j] in multiset(tail);
        var k :| 0 <= k < |tail| && tail[k] == rest[j];
      }
    }
  }

  /** `.sort({ createdAt: -1 })`: a newest-first permutation. */
  function SortNewestFirst(s: seq<Order>): (r: seq<Order>)
    ensures NewestFirst(r) && multiset(r) == multiset(s)
  {
    if s == [] then []
    else
      assert s == [s[0]] + s[1..];
      Insert(s[0], SortNewestFirst(s[1..]))
  }

  /** Whether some review names the order (the `reviewedOrderIds` set lookup). */
  function Reviewed(reviews: seq<Review>, orderId: Id): (b: bool)
    ensures b <==> exists i :: 0 <= i < |reviews| && reviews[i].orderId == orderId
  {
    if reviews == [] then false
    else if reviews[0].orderId == orderId then true
    else
      var b := Reviewed(reviews[1..], orderId);
      assert forall i :: 1 <= i < |reviews| ==> reviews[i] == reviews[1..][i - 1];
      b
  }

  function Flag(orders: seq<Order>, reviews: seq<Review>): (r: seq<OrderView>)
    ensures |r| == |orders|
    ensures forall i :: 0 <= i < |orders| ==> r[i].order == orders[i]
    ensures forall i :: 0 <= i < |orders| ==>
      (r[i].hasReviewed <==> exists j :: 0 <= j < |reviews| && reviews[j].orderId == orders[i].id)
  {
    if orders == [] then [] else [OrderView(orders[0], Reviewed(reviews, orders[0].id))] + Flag(orders[1..], reviews)
  }

  function OrdersOf(views: seq<OrderView>): (r: seq<Order>)
    ensures |r| == |views| && forall i :: 0 <= i < |views| ==> r[i] == views[i].order
  {
    if views == [] then [] else [views[0].order] + OrdersOf(views[1..])
  }

  /** `getUserOrders`: exactly the user's orders (as a multiset), newest first, each flagged
      reviewed iff some review names its id. */
  function GetUserOrders(s: Store, user: User, reviews: seq<Review>): (r: seq<OrderView>)
    ensures forall i, j :: 0 <= i < j < |r| ==> r[i].order.createdAt >= r[j].order.createdAt
    ensures forall o :: multiset(OrdersOf(r))[o] ==
                        (if o.clerkId == Some(user.clerkId) then multiset(s.orders)[o] else 0)
    ensures forall i :: 0 <= i < |r| ==>
      (r[i].hasReviewed <==> exists j :: 0 <= j < |reviews| && reviews[j].orderId == r[i].order.id)
  {
    var sorted := SortNewestFirst(OwnedBy(s.orders, user.clerkId));
    var r := Flag(sorted, reviews);
    assert OrdersOf(r) == sorted;
    r
  }
}
