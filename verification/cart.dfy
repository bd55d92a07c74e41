/** The mobile cart hook: response unwrapping, the total and item-count folds, and the
    add-to-cart request's default quantity. */
module MobileCart {
  import opened Wrappers

  datatype CartProduct = CartProduct(id: string, price: real)
  datatype CartItem = CartItem(product: CartProduct, quantity: int)
  datatype Cart = Cart(items: seq<CartItem>)

  /** `{ items: [] }`, the placeholder and the fallback. */
  const EmptyCart: Cart := Cart([])

  /** The body of a cart response: null/undefined, some other falsy value, an object with
      a (truthy) `cart` field, or an object that is the cart itself. */
  datatype CartPayload = Nullish | Falsy | Wrapped(cart: Cart) | Plain(cart: Cart)

  datatype Fetched<T> = Data(value: T) | QueryError

  /** `(data.cart || data || { items: [] })`; reading `.cart` of null or undefined throws. */
  function UnwrapCart(data: CartPayload): (r: Fetched<Cart>)
    ensures r == QueryError <==> data.Nullish?
    ensures data.Wrapped? || data.Plain? ==> r == Data(data.cart)
    ensures data.Falsy? ==> r == Data(EmptyCart)
  {
    match data
    case Nullish => QueryError
    case Falsy => Data(EmptyCart)
    case Wrapped(c) => Data(c)
    case Plain(c) => Data(c)
  }

  /** Both response shapes carry the cart through unchanged, and a falsy body shows the
      same total and count as the placeholder and as no cart at all. */
  lemma UnwrapAcceptsBothShapes(c: Cart)
    ensures UnwrapCart(Wrapped(c)) == UnwrapCart(Plain(c)) == Data(c)
    ensures UnwrapCart(Falsy).Data?
    ensures CartTotal(Some(UnwrapCart(Falsy).value)) == CartTotal(None)
    ensures CartItemCount(Some(UnwrapCart(Falsy).value)) == CartItemCount(None)
  {
  }

  /** `items.reduce((sum, item) => sum + item.product.price * item.quantity, 0)`, a left fold. */
  function Total(items: seq<CartItem>): real {
    if items == [] then 0.0
    else
      var last := items[|items| - 1];
      Total(items[..|items| - 1]) + last.product.price * (last.quantity as real)
  }

  /** `items.reduce((sum, item) => sum + item.quantity, 0)`. */
  function Count(items: seq<CartItem>): int {
    if items == [] then 0 else Count(items[..|items| - 1]) + items[|items| - 1].quantity
  }

  /** `cartTotal`: 0 without a cart. */
  function CartTotal(cart: Option<Cart>): (r: real)
    ensures cart.None? ==> r == 0.0
    ensures cart.Some? ==> r == Total(cart.value.items)
  {
    match cart
    case Some(c) => Total(c.items)
    case None => 0.0
  }

  /** `cartItemCount`: 0 without a cart. */
  function CartItemCount(cart: Option<Cart>): (r: int)
    ensures cart.None? ==> r == 0
    ensures cart.Some? ==> r == Count(cart.value.items)
  {
    match cart
    case Some(c) => Count(c.items)
    case None => 0
  }

  /** The total of a concatenation is the sum of the totals. */
  lemma {:induction false} TotalAppend(a: seq<CartItem>, b: seq<CartItem>)
    ensures Total(a + b) == Total(a) + Total(b)
    decreases |b|
  {
    if b == [] {
      assert a + b == a;
    } else {
      var b' := b[..|b| - 1];
      assert (a + b)[..|a + b| - 1] == a + b';
      assert (a + b)[|a + b| - 1] == b[|b| - 1];
      TotalAppend(a, b');
    }
  }

  /** The count of a concatenation is the sum of the counts. */
  lemma {:induction false} CountAppend(a: seq<CartItem>, b: seq<CartItem>)
    ensures Count(a + b) == Count(a) + Count(b)
    decreases |b|
  {
    if b == [] {
      assert a + b == a;
    } else {
      var b' := b[..|b| - 1];
      assert (a + b)[..|a + b| - 1] == a + b';
      assert (a + b)[|a + b| - 1] == b[|b| - 1];
      CountAppend(a, b');
    }
  }

  /** With every quantity at least 1 the count is at least the number of lines. */
  lemma {:induction false} CountAtLeastLines(items: seq<CartItem>)
    requires forall i :: 0 <= i < |items| ==> items[i].quantity >= 1
    ensures Count(items) >= |items|
    decreases |items|
  {
    if items != [] {
      CountAtLeastLines(items[..|items| - 1]);
    }
  }

  /** The placeholder cart shows total 0 and count 0, as a missing cart does. */
  lemma PlaceholderIsEmpty()
    ensures CartTotal(Some(EmptyCart)) == CartTotal(None) == 0.0
    ensures CartItemCount(Some(EmptyCart)) == CartItemCount(None) == 0
  {
  }

  datatype AddRequest = AddRequest(productId: string, quantity: int)

  /** The body `addToCart` posts: quantity defaults to 1 when omitted. */
  function AddToCartBody(productId: string, quantity: Option<int>): (r: AddRequest)
    ensures r.productId == productId
    ensures quantity.None? ==> r.quantity == 1
    ensures quantity.Some? ==> r.quantity == quantity.value
  {
    AddRequest(productId, quantity.GetOr(1))
  }

  /** Omitting the quantity is asking for one: a line added with the default raises the
      item count by exactly one and the total by one unit price. */
  lemma AddDefaultsToOne(productId: string, items: seq<CartItem>, product: CartProduct)
    ensures AddToCartBody(productId, None) == AddToCartBody(productId, Some(1))
    ensures var line := CartItem(product, AddToCartBody(productId, None).quantity);
            && CartItemCount(Some(Cart(items + [line]))) == CartItemCount(Some(Cart(items))) + 1
            && CartTotal(Some(Cart(items + [line]))) == CartTotal(Some(Cart(items))) + product.price
  {
    var line := CartItem(product, 1);
    assert (items + [line])[..|items + [line]| - 1] == items;
  }
}
