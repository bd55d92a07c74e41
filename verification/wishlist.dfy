/** The mobile wishlist hook: membership, toggling, the count, and response unwrapping. */
module MobileWishlist {
  import opened Wrappers
  import opened Arrays

  datatype WishProduct = WishProduct(id: string)

  /** A wishlist response body: null/undefined, another falsy value, an object with a
      `wishlist` array, or the array itself (arrays are truthy even when empty). */
  datatype WishlistPayload = Nullish | Falsy | Wrapped(list: seq<WishProduct>) | Plain(list: seq<WishProduct>)

  /** `data?.wishlist || data || []`, shared by the query and both mutations. */
  function UnwrapWishlist(data: WishlistPayload): (r: seq<WishProduct>)
    ensures data.Wrapped? || data.Plain? ==> r == data.list
    ensures data.Nullish? || data.Falsy? ==> r == []
  {
    match data
    case Wrapped(l) => l
    case Plain(l) => l
    case _ => []
  }

  /** The query: any fetch error yields `[]`. */
  function QueryWishlist(fetched: Option<WishlistPayload>): (r: seq<WishProduct>)
    ensures fetched.None? ==> r == []
    ensures fetched.Some? ==> r == UnwrapWishlist(fetched.value)
  {
    match fetched
    case Some(d) => UnwrapWishlist(d)
    case None => []
  }

  /** `isInWishlist`: `wishlist?.some(...) ?? false`. */
  function IsInWishlist(wishlist: Option<seq<WishProduct>>, productId: string): (b: bool)
    ensures b <==> wishlist.Some? && exists i :: 0 <= i < |wishlist.value| && wishlist.value[i].id == productId
  {
    match wishlist
    case None => false
    case Some(l) => Any(l, (p: WishProduct) => p.id == productId)
  }

  datatype Mutation = Remove(productId: string) | Add(productId: string)

  /** `toggleWishlist`: exactly one mutation, on the given product: remove when listed, add otherwise. */
  function ToggleWishlist(wishlist: Option<seq<WishProduct>>, productId: string): (m: Mutation)
    ensures m.productId == productId
    ensures m.Remove? <==> wishlist.Some? && exists i :: 0 <= i < |wishlist.value| && wishlist.value[i].id == productId
  {
    if IsInWishlist(wishlist, productId) then Remove(productId) else Add(productId)
  }

  /** The hook's exposed `wishlist || []` and `wishlist?.length || 0`. */
  datatype View = View(wishlist: seq<WishProduct>, count: nat)

  function Expose(wishlist: Option<seq<WishProduct>>): (v: View)
    ensures v.count == |v.wishlist|
    ensures wishlist.None? ==> v == View([], 0)
    ensures wishlist.Some? ==> v.wishlist == wishlist.value
  {
    match wishlist
    case Some(l) => View(l, if |l| == 0 then 0 else |l|)
    case None => View([], 0)
  }

  /** The fallbacks agree: both response shapes carry the list through, the count is the
      length of whatever was read, and a failed fetch, the placeholder and a missing list
      all look alike, with nothing listed, so toggling any product adds it. */
  lemma WishlistFallbacks(data: WishlistPayload, l: seq<WishProduct>, productId: string)
    ensures QueryWishlist(Some(Wrapped(l))) == QueryWishlist(Some(Plain(l))) == l
    ensures Expose(Some(QueryWishlist(Some(data)))).count == |UnwrapWishlist(data)|
    ensures Expose(Some(QueryWishlist(None))) == Expose(Some([])) == Expose(None)
    ensures !IsInWishlist(Some(QueryWishlist(None)), productId)
    ensures ToggleWishlist(Some(QueryWishlist(None)), productId) == Add(productId)
  {
  }
}
