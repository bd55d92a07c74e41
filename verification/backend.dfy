/** The backend as a sequence of requests to the four modelled handlers (checkout, the
    webhook, `createOrder`, `protectRoute`) against one store, and the order invariants
    that hold after any such sequence. The other controllers are not part of this model. */
module Backend {
  import opened Wrappers
  import opened Db
  import Payment
  import Orders
  import Auth

  datatype Request =
    | Checkout(user: User, body: Payment.CheckoutRequest, orderId: Id, now: int, proc: Payment.Processor)
    | Webhook(delivery: Payment.Delivery, orderId: Id, now: int)
    | PlaceOrder(user: User, order: Orders.OrderRequest, orderId: Id, now: int)
    | Authenticate(session: Auth.Session, userId: Id)

  /** No order is marked paid, and every pending order is unpaid without a payment result. */
  predicate NonePaid(s: Store) {
    forall i :: 0 <= i < |s.orders| ==>
      && s.orders[i].isPaid != Some(true)
      && (s.orders[i].status == Pending ==> s.orders[i].isPaid == Some(false) && s.orders[i].paymentResult.None?)
  }

  /** Orders already stored are kept unchanged, in place. */
  predicate Extends(s: Store, t: Store) {
    |t.orders| >= |s.orders| && t.orders[..|s.orders|] == s.orders
  }

  function Step(s: Store, r: Request): (t: Store)
    ensures Extends(s, t)
    ensures NonePaid(s) ==> NonePaid(t)
  {
    match r
    case Checkout(user, body, orderId, now, proc) =>
      Payment.CreatePaymentIntent(s, user, body, orderId, now, proc).store
    case Webhook(d, orderId, now) =>
      Payment.HandleWebhook(s, d, orderId, now).store
    case PlaceOrder(user, body, orderId, now) =>
      var t := Orders.CreateOrder(s, user, body, orderId, now).store;
      assert t != s ==> t.orders == s.orders + [Orders.ProcessingOrder(user, body, orderId, now)];
      t
    case Authenticate(session, userId) =>
      Auth.ProtectRoute(s, session, userId).store
  }

  function Run(s: Store, rs: seq<Request>): Store
    decreases |rs|
  {
    if rs == [] then s else Run(Step(s, rs[0]), rs[1..])
  }

  /** No modelled handler ever rewrites a stored order: every sequence of requests only appends. In
      particular the pending order written at checkout is never updated. */
  lemma {:induction false} OrdersOnlyAppended(s: Store, rs: seq<Request>)
    ensures Extends(s, Run(s, rs))
    decreases |rs|
  {
    if rs != [] {
      var t := Step(s, rs[0]);
      OrdersOnlyAppended(t, rs[1..]);
      assert Run(t, rs[1..]).orders[..|s.orders|] == Run(t, rs[1..]).orders[..|t.orders|][..|s.orders|];
    }
  }

  /** No sequence of requests to the modelled handlers ever marks an order paid: pending
      orders stay unpaid and without a payment result. This rests on webhook orders having
      the schema's default status, which is assumed not to be `Pending`. */
  lemma {:induction false} NoOrderEverPaid(s: Store, rs: seq<Request>)
    requires NonePaid(s)
    ensures NonePaid(Run(s, rs))
    decreases |rs|
  {
    if rs != [] {
      NoOrderEverPaid(Step(s, rs[0]), rs[1..]);
    }
  }
}
