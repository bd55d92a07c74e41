/** The checkout handler (`createPaymentIntent`) and the payment processor's webhook
    handler (`handleWebhook`) as pure transitions over the store. The processor's calls
    are inputs: whether the webhook signature verified, and what customer and intent
    creation returned (`None` when the call throws). */
module Payment {
  import opened Wrappers
  import opened Db

  const ShippingFee: real := 10.0
  const TaxRate: real := 0.08
  const SucceededEvent: string := "payment_intent.succeeded"
  const CheckoutFailed: string := "Failed to create payment intent"
  const WebhookFailed: string := "Failed to process order"

  /** A cart line as the client sends it. */
  datatype CartLine = CartLine(product: ProductRef, quantity: int)

  datatype CheckoutRequest = CheckoutRequest(cartItems: Option<seq<CartLine>>, shippingAddress: Option<Address>)

  /** A metadata string run through `JSON.parse`: missing (which throws), not JSON
      (which throws), or the parsed value. */
  datatype Field<T> = Absent | Malformed | Parsed(value: T)

  /** Payment-intent metadata as the webhook reads it; `totalPrice` is the result of
      `parseFloat`, `None` standing for NaN. */
  datatype Metadata = Metadata(
    orderId: Option<Id>,
    userId: Option<Id>,
    clerkId: Option<string>,
    orderItems: Field<seq<OrderItem>>,
    shippingAddress: Field<Address>,
    totalPrice: Option<real>)

  datatype IntentRequest = IntentRequest(amount: int, currency: string, customer: Id, metadata: Metadata)

  datatype Intent = Intent(id: Id, clientSecret: string)

  /** What the processor answers: a new customer id and a new intent (`None`: the call throws). */
  datatype Processor = Processor(customer: Option<Id>, intent: Option<Intent>)

  /** The response, the store afterwards, whether a processor customer was requested, and
      the intent request sent to the processor, if one was. */
  datatype Checkout = Checkout(response: Response, store: Store, customerRequested: bool, intent: Option<IntentRequest>)

  /** What `Product.findById(item.product._id)` is asked. */
  datatype Lookup = TypeError | NoId | Key(id: Id)

  function CheckoutKey(r: ProductRef): Lookup {
    match r
    case Missing => TypeError      // reading `_id` of undefined throws
    case Bare(_) => NoId           // a string has no `_id`: nothing is found
    case Populated(id) => Key(id)
  }

  /** The line names a stored product whose stock covers the requested quantity. */
  predicate LineOk(products: map<Id, Product>, line: CartLine) {
    var l := CheckoutKey(line.product);
    l.Key? && l.id in products && line.quantity <= products[l.id].stock
  }

  /** The response to the first line that fails validation. */
  function LineFailure(products: map<Id, Product>, line: CartLine): Response {
    match CheckoutKey(line.product)
    case TypeError => Response(500, ErrorJson(CheckoutFailed))
    case NoId => Response(404, ErrorJson("Product not found"))
    case Key(k) =>
      if k !in products then Response(404, ErrorJson("Product not found"))
      else Response(400, ErrorJson("Insufficient stock for " + products[k].name))
  }

  /** `item` freezes the product `line` names as it is now: id, name, current price and
      first image (if any), with the requested quantity. */
  predicate IsSnapshot(products: map<Id, Product>, line: CartLine, item: OrderItem) {
    var l := CheckoutKey(line.product);
    && l.Key? && l.id in products
    && item.product == Bare(l.id)
    && item.name == products[l.id].name
    && item.price == products[l.id].price
    && item.quantity == line.quantity
    && item.image == (if |products[l.id].images| > 0 then Some(products[l.id].images[0]) else None)
  }

  datatype Validation = Rejected(response: Response) | Validated(items: seq<OrderItem>)

  /** The validation loop: every line is checked in cart order before anything is written;
      the first failing line decides the response. */
  function ValidateCart(products: map<Id, Product>, lines: seq<CartLine>): (v: Validation)
    ensures v.Validated? <==> forall i :: 0 <= i < |lines| ==> LineOk(products, lines[i])
    ensures v.Validated? ==>
      |v.items| == |lines| && forall i :: 0 <= i < |lines| ==> IsSnapshot(products, lines[i], v.items[i])
    ensures v.Rejected? ==>
      exists i :: (0 <= i < |lines| && !LineOk(products, lines[i])
                   && (forall j :: 0 <= j < i ==> LineOk(products, lines[j]))
                   && v.response == LineFailure(products, lines[i]))
  {
    if lines == [] then Validated([])
    else
      var line := lines[0];
      if !LineOk(products, line) then Rejected(LineFailure(products, line))
      else
        var k := CheckoutKey(line.product).id;
        var p := products[k];
        var item := OrderItem(Bare(k), p.name, p.price, line.quantity, if |p.images| > 0 then Some(p.images[0]) else None);
        match ValidateCart(products, lines[1..])
        case Rejected(r) =>
          ghost var i :| 0 <= i < |lines[1..]| && !LineOk(products, lines[1..][i])
            && (forall j :: 0 <= j < i ==> LineOk(products, lines[1..][j]))
            && r == LineFailure(products, lines[1..][i]);
          assert lines[i + 1] == lines[1..][i];
          Rejected(r)
        case Validated(rest) =>
          assert forall i :: 1 <= i < |lines| ==> lines[i] == lines[1..][i - 1];
          Validated([item] + rest)
  }

  /** Σ price · quantity over the items. */
  function Subtotal(items: seq<OrderItem>): real {
    if items == [] then 0.0 else items[0].price * (items[0].quantity as real) + Subtotal(items[1..])
  }

  function TotalPrice(subtotal: real): real {
    subtotal + ShippingFee + subtotal * TaxRate
  }

  /** `Math.round(x * 100)`: the nearest whole number of cents, halves rounding up. */
  function RoundCents(x: real): (r: int)
    ensures (r as real) - 0.5 <= x * 100.0 < (r as real) + 0.5
  {
    (x * 100.0 + 0.5).Floor
  }

  /** The only metadata checkout attaches to an intent. */
  function CheckoutMetadata(orderId: Id, userId: Id): Metadata {
    Metadata(Some(orderId), Some(userId), None, Absent, Absent, None)
  }

  /** `User.findByIdAndUpdate(userId, { stripeCustomerId })`. */
  function SetCustomer(users: map<string, User>, userId: Id, customerId: Id): (r: map<string, User>)
    ensures r.Keys == users.Keys
    ensures forall k :: k in r ==> r[k] == if users[k].id == userId then users[k].(stripeCustomerId := customerId) else users[k]
  {
    map k | k in users :: if users[k].id == userId then users[k].(stripeCustomerId := customerId) else users[k]
  }

  /** The pending order a successful validation writes. */
  function PendingOrder(user: User, items: seq<OrderItem>, req: CheckoutRequest, orderId: Id, now: int): Order {
    Order(orderId, Some(user.id), Some(user.clerkId), items, req.shippingAddress,
          TotalPrice(Subtotal(items)), Pending, Some(false), None, now)
  }

  /** `createPaymentIntent`: validate the cart, persist a pending order, find or create the
      processor customer, then request an intent carrying only the order and user ids. */
  function CreatePaymentIntent(s: Store, user: User, req: CheckoutRequest, orderId: Id, now: int, proc: Processor): (c: Checkout)
    // stock is never touched by checkout
    ensures c.store.products == s.products
    // an empty or missing cart and every invalid line are rejected with nothing written
    ensures req.cartItems.None? || req.cartItems.value == [] ==>
      c == Checkout(Response(400, ErrorJson("Cart is empty")), s, false, None)
    ensures req.cartItems.Some? && ValidateCart(s.products, req.cartItems.value).Rejected? ==>
      && c.store == s && !c.customerRequested && c.intent.None?
      && c.response == ValidateCart(s.products, req.cartItems.value).response
    // a validated cart appends exactly one pending, unpaid order with snapshotted lines
    ensures c.store != s <==> (req.cartItems.Some? && req.cartItems.value != []
                               && ValidateCart(s.products, req.cartItems.value).Validated?)
    ensures c.store != s ==> |c.store.orders| == |s.orders| + 1 && c.store.orders[..|s.orders|] == s.orders
    ensures c.store != s ==>
      var lines := req.cartItems.value;
      var o := c.store.orders[|s.orders|];
      && o.id == orderId && o.user == Some(user.id) && o.clerkId == Some(user.clerkId)
      && o.status == Pending && o.isPaid == Some(false) && o.paymentResult.None?
      && o.shippingAddress == req.shippingAddress
      && |o.items| == |lines| && (forall i :: 0 <= i < |lines| ==> IsSnapshot(s.products, lines[i], o.items[i]))
      && o.totalPrice == Subtotal(o.items) + ShippingFee + Subtotal(o.items) * TaxRate
    // a customer is requested only for a user without one, and its id is stored on the user
    ensures c.customerRequested <==> c.store != s && user.stripeCustomerId == ""
    ensures c.customerRequested && proc.customer.Some? ==>
      c.store.users == SetCustomer(s.users, user.id, proc.customer.value)
    ensures !(c.customerRequested && proc.customer.Some?) ==> c.store.users == s.users
    // the intent asks for the rounded total in cents and carries only { orderId, userId }
    ensures c.intent.Some? <==> c.store != s && (user.stripeCustomerId != "" || proc.customer.Some?)
    ensures c.intent.Some? ==>
      && c.intent.value.amount == RoundCents(c.store.orders[|s.orders|].totalPrice)
      && c.intent.value.currency == "usd"
      && c.intent.value.customer == (if user.stripeCustomerId != "" then user.stripeCustomerId else proc.customer.value)
      && c.intent.value.metadata == CheckoutMetadata(orderId, user.id)
    // success answers with the client secret and the order id; a processor failure is a 500
    // that leaves the pending order in place
    ensures c.response.status == 200 <==> c.intent.Some? && proc.intent.Some?
    ensures c.response.status == 200 ==> c.response.body == SecretJson(proc.intent.value.clientSecret, orderId)
    ensures c.store != s && c.response.status != 200 ==> c.response == Response(500, ErrorJson(CheckoutFailed))
  {
    if req.cartItems.None? || req.cartItems.value == [] then
      Checkout(Response(400, ErrorJson("Cart is empty")), s, false, None)
    else match ValidateCart(s.products, req.cartItems.value)
      case Rejected(r) => Checkout(r, s, false, None)
      case Validated(items) =>
        var order := PendingOrder(user, items, req, orderId, now);
        var s1 := s.(orders := s.orders + [order]);
        assert s1.orders[..|s.orders|] == s.orders;
        assert s1 != s by { assert |s1.orders| != |s.orders|; }
        if user.stripeCustomerId == "" && proc.customer.None? then
          Checkout(Response(500, ErrorJson(CheckoutFailed)), s1, true, None)
        else
          var s2 := if user.stripeCustomerId == "" then s1.(users := SetCustomer(s.users, user.id, proc.customer.value)) else s1;
          var customerId := if user.stripeCustomerId == "" then proc.customer.value else user.stripeCustomerId;
          var intent := IntentRequest(RoundCents(order.totalPrice), "usd", customerId, CheckoutMetadata(orderId, user.id));
          var response := match proc.intent
            case Some(pi) => Response(200, SecretJson(pi.clientSecret, orderId))
            case None => Response(500, ErrorJson(CheckoutFailed));
          assert s2.orders == s1.orders;
          Checkout(response, s2, user.stripeCustomerId == "", Some(intent))
  }

  /** One line at 10.00 × 2: subtotal 20.00, shipping 10.00, tax 1.60, total 31.60,
      an intent for 3160 cents. */
  lemma CheckoutExample(user: User, orderId: Id, now: int, secret: string)
    requires user.stripeCustomerId == "cus_1"
    ensures
      var s := Store(map["p" := Product("Mug", 10.0, 5, ["mug.png"])], [], map[]);
      var req := CheckoutRequest(Some([CartLine(Populated("p"), 2)]), None);
      var c := CreatePaymentIntent(s, user, req, orderId, now, Processor(None, Some(Intent("pi_1", secret))));
      && c.response == Response(200, SecretJson(secret, orderId))
      && |c.store.orders| == 1
      && c.store.orders[0].totalPrice == 31.6
      && c.store.orders[0].items == [OrderItem(Bare("p"), "Mug", 10.0, 2, Some("mug.png"))]
      && c.intent.Some? && c.intent.value.amount == 3160
      && c.store.products["p"].stock == 5
  {
    var products := map["p" := Product("Mug", 10.0, 5, ["mug.png"])];
    var lines := [CartLine(Populated("p"), 2)];
    var item := OrderItem(Bare("p"), "Mug", 10.0, 2, Some("mug.png"));
    assert lines[1..] == [];
    assert ValidateCart(products, lines) == Validated([item]);
    assert [item][1..] == [];
    assert Subtotal([item]) == 20.0;
    assert TotalPrice(20.0) == 31.6;
    assert RoundCents(31.6) == 3160;
  }

  /** What the webhook handler returns and the store it leaves. */
  datatype Webhook = Webhook(response: Response, store: Store)

  datatype Event = Event(kind: string, intentId: Id, metadata: Metadata)

  /** A delivery: whether `constructEvent` accepted the signature (and its error message
      if not), and the event. */
  datatype Delivery = Delivery(signatureValid: bool, signatureError: string, event: Event)

  /** The webhook reaches `Order.create`: a valid, first delivery of a succeeded event
      whose metadata parses. */
  predicate Fabricates(s: Store, d: Delivery) {
    var m := d.event.metadata;
    && d.signatureValid && d.event.kind == SucceededEvent
    && !HasPaymentId(s.orders, d.event.intentId)
    && m.orderItems.Parsed? && m.shippingAddress.Parsed? && m.totalPrice.Some?
  }

  /** `handleWebhook`: verify, filter on the event type, deduplicate on the payment id,
      then fabricate a new order from the metadata and decrement stock. Existing orders,
      including the pending order of checkout, are never touched. */
  function HandleWebhook(s: Store, d: Delivery, orderId: Id, now: int): (w: Webhook)
    ensures !d.signatureValid ==> w == Webhook(Response(400, Text("Webhook Error: " + d.signatureError)), s)
    ensures d.signatureValid && d.event.kind != SucceededEvent ==> w == Webhook(Response(200, ReceivedJson), s)
    ensures d.signatureValid && d.event.kind == SucceededEvent && HasPaymentId(s.orders, d.event.intentId) ==>
      w == Webhook(Response(200, ReceivedJson), s)
    // the only writes: one appended order and the stock decrement, both or neither
    ensures w.store != s <==> Fabricates(s, d)
    ensures w.store.users == s.users
    ensures |w.store.orders| >= |s.orders| && w.store.orders[..|s.orders|] == s.orders
    ensures Fabricates(s, d) ==> |w.store.orders| == |s.orders| + 1
    ensures Fabricates(s, d) ==>
      var m := d.event.metadata;
      var o := w.store.orders[|s.orders|];
      && w.response == Response(200, ReceivedJson)
      && o == Order(orderId, m.userId, m.clerkId, m.orderItems.value, Some(m.shippingAddress.value),
                    m.totalPrice.value, SchemaDefault, None, Some(PaymentResult(d.event.intentId, "succeeded")), now)
      && w.store.products == Decrement(s.products, m.orderItems.value)
    // a succeeded event whose metadata does not parse fails with nothing written
    ensures (d.signatureValid && d.event.kind == SucceededEvent && !HasPaymentId(s.orders, d.event.intentId)
             && !Fabricates(s, d)) ==> w == Webhook(Response(500, ErrorJson(WebhookFailed)), s)
  {
    var m := d.event.metadata;
    if !d.signatureValid then Webhook(Response(400, Text("Webhook Error: " + d.signatureError)), s)
    else if d.event.kind != SucceededEvent then Webhook(Response(200, ReceivedJson), s)
    else if HasPaymentId(s.orders, d.event.intentId) then Webhook(Response(200, ReceivedJson), s)
    else if !m.orderItems.Parsed? || !m.shippingAddress.Parsed? || m.totalPrice.None? then
      // JSON.parse(undefined) throws; Order.create refuses a NaN total
      Webhook(Response(500, ErrorJson(WebhookFailed)), s)
    else
      var order := Order(orderId, m.userId, m.clerkId, m.orderItems.value, Some(m.shippingAddress.value),
                         m.totalPrice.value, SchemaDefault, None, Some(PaymentResult(d.event.intentId, "succeeded")), now);
      var s1 := Store(Decrement(s.products, m.orderItems.value), s.orders + [order], s.users);
      assert s1.orders[..|s.orders|] == s.orders;
      assert s1 != s by { assert |s1.orders| != |s.orders|; }
      Webhook(Response(200, ReceivedJson), s1)
  }

  /** Delivering the same event twice has the effect, and the answer, of delivering it once. */
  lemma WebhookIdempotent(s: Store, d: Delivery, id1: Id, id2: Id, now1: int, now2: int)
    ensures
      var w1 := HandleWebhook(s, d, id1, now1);
      HandleWebhook(w1.store, d, id2, now2) == w1
  {
  }

  /** Checkout's own intent can never settle its order: the metadata checkout writes has
      no `orderItems`, so the webhook for that intent answers 500 and writes nothing, and
      the pending order stays pending and unpaid after any delivery. */
  lemma CheckoutIntentNeverSettles(s: Store, user: User, req: CheckoutRequest, orderId: Id, now: int,
                                   proc: Processor, d: Delivery, id2: Id, now2: int)
    requires
      var c := CreatePaymentIntent(s, user, req, orderId, now, proc);
      c.response.status == 200 && d.event == Event(SucceededEvent, proc.intent.value.id, c.intent.value.metadata)
    ensures
      var c := CreatePaymentIntent(s, user, req, orderId, now, proc);
      var w := HandleWebhook(c.store, d, id2, now2);
      && (d.signatureValid && !HasPaymentId(c.store.orders, d.event.intentId) ==>
            w == Webhook(Response(500, ErrorJson(WebhookFailed)), c.store))
      && w.store.orders[|s.orders|].status == Pending
      && w.store.orders[|s.orders|].isPaid == Some(false)
  {
  }

  /** The stock decrement has no lower bound: a first delivery whose items ask for more
      than is in stock drives the stock negative. */
  lemma WebhookOverdraws(orderId: Id, now: int)
    ensures
      var s := Store(map["p" := Product("Mug", 10.0, 1, [])], [], map[]);
      var items := [OrderItem(Bare("p"), "Mug", 10.0, 3, None)];
      var m := Metadata(None, Some("u"), Some("c"), Parsed(items), Parsed(Address("", "1 Main St", "", "", "", "")), Some(40.0));
      var w := HandleWebhook(s, Delivery(true, "", Event(SucceededEvent, "pi_1", m)), orderId, now);
      w.response.status == 200 && w.store.products["p"].stock == -2
  {
  }
}
