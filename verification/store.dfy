/** The backend's database as an immutable value: the Product, Order and User collections,
    and the HTTP responses the handlers send. */
module Db {
  import opened Wrappers

  type Id = string

  datatype Product = Product(name: string, price: real, stock: int, images: seq<string>)

  /** How a request names a product: absent, a bare id string, or a populated
      product object carrying its `_id`. */
  datatype ProductRef = Missing | Bare(id: Id) | Populated(id: Id)

  datatype OrderItem = OrderItem(
    product: ProductRef,
    name: string,
    price: real,
    quantity: int,
    image: Option<string>)

  datatype Address = Address(
    fullName: string,
    streetAddress: string,
    city: string,
    state: string,
    zipCode: string,
    phoneNumber: string)

  datatype PaymentResult = PaymentResult(id: string, status: string)

  /** The lifecycle status written by each creator; `SchemaDefault` is whatever the
      Order schema defaults to when a creator writes no status. */
  datatype Status = Pending | Processing | SchemaDefault

  datatype Order = Order(
    id: Id,
    user: Option<Id>,
    clerkId: Option<string>,
    items: seq<OrderItem>,
    shippingAddress: Option<Address>,
    totalPrice: real,
    status: Status,
    isPaid: Option<bool>,
    paymentResult: Option<PaymentResult>,
    createdAt: int)

  datatype User = User(
    id: Id,
    clerkId: string,
    email: Option<string>,
    name: string,
    imageUrl: string,
    addresses: seq<Address>,
    wishlist: seq<Id>,
    stripeCustomerId: string)

  /** Products by `_id`, orders in insertion order, users by `clerkId`. */
  datatype Store = Store(products: map<Id, Product>, orders: seq<Order>, users: map<string, User>)

  /** The JSON (or text) bodies the handlers send. */
  datatype Body =
    | ErrorJson(error: string)                  // { error }
    | MessageJson(message: string)              // { message }
    | SessionJson(message: string)              // { success: false, message }
    | Text(text: string)                        // plain text
    | SecretJson(clientSecret: string, orderId: Id)
    | ReceivedJson                              // { received: true }
    | CreatedJson(message: string, order: Order)

  datatype Response = Response(status: int, body: Body)

  /** `item.product?._id || item.product` (also how a bare or populated reference is cast
      to an id by a by-id update): the id the reference names, if any. */
  function RefId(r: ProductRef): Option<Id> {
    match r
    case Missing => None
    case Bare(id) => Some(id)
    case Populated(id) => Some(id)
  }

  /** Total quantity the items ask of product `k`. */
  function QtyFor(items: seq<OrderItem>, k: Id): int {
    if items == [] then 0
    else (if RefId(items[0].product) == Some(k) then items[0].quantity else 0) + QtyFor(items[1..], k)
  }

  /** One `$inc: { stock: -quantity }` per item, in order; an item naming no stored
      product updates nothing. No lower bound is enforced. */
  function Decrement(products: map<Id, Product>, items: seq<OrderItem>): (r: map<Id, Product>)
    ensures r.Keys == products.Keys
    ensures forall k :: k in r ==> r[k].stock == products[k].stock - QtyFor(items, k)
    ensures forall k :: k in r ==> r[k].(stock := 0) == products[k].(stock := 0)
  {
    if items == [] then products
    else
      var it := items[0];
      var next := match RefId(it.product)
        case Some(k) =>
          if k in products then products[k := products[k].(stock := products[k].stock - it.quantity)]
          else products
        case None => products;
      Decrement(next, items[1..])
  }

  /** Some stored order has a payment result carrying `id` (`findOne({"paymentResult.id": id})` finds one). */
  predicate HasPaymentId(orders: seq<Order>, id: string) {
    exists i :: 0 <= i < |orders| && orders[i].paymentResult.Some? && orders[i].paymentResult.value.id == id
  }
}
