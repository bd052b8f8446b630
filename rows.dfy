/** Row shapes of the storefront's tables, written from what the request
    handlers read and write. Money columns are integer cents. A row's id is
    its 1-based position in its table: ids are auto-increment and nothing in
    the modelled handlers deletes a row. */
module Rows {

  datatype Option<T> = None | Some(value: T)

  /** Python truthiness of an optional JSON number: absent, null and 0 are falsy. */
  predicate TruthyInt(v: Option<int>) {
    v.Some? && v.value != 0
  }

  /** Python truthiness of an optional JSON string: absent, null and "" are falsy. */
  predicate TruthyStr(v: Option<string>) {
    v.Some? && v.value != ""
  }

  datatype MediaType = Image | Video

  datatype OrderStatus = Pending | Confirmed | Shipped | Delivered | Cancelled

  /** `provider` is 'google' or 'apple' in the column declaration; the
      handlers never check it. */
  datatype User = User(provider: string, email: string, name: string)

  /** `name` is the column the catalog routes call `product_name` and the
      admin route calls `name`. `sales`, `totalReviews` and
      `currentRatingSum` are read by the listing route only. */
  datatype Product = Product(
    name: string,
    description: Option<string>,
    price: int,
    stockQuantity: Option<int>,
    categoryId: Option<int>,
    featureType: Option<string>,
    gender: Option<string>,
    sales: int,
    totalReviews: nat,
    currentRatingSum: int)

  datatype Variant = Variant(productId: int, size: Option<string>, color: Option<string>)

  /** The listing route reads `name`, the cart route and the admin route use `url`. */
  datatype Media = Media(
    productId: Option<int>,
    variantId: Option<int>,
    mediaType: MediaType,
    name: Option<string>,
    url: Option<string>)

  datatype Cart = Cart(userId: int)

  /** `subtotal` is what the add-to-cart route accumulates; `priceAtAdded`
      is what the cart view multiplies, and the add route never sets it. */
  datatype CartItem = CartItem(
    cartId: int,
    productId: int,
    variantId: Option<int>,
    quantity: int,
    subtotal: int,
    priceAtAdded: Option<int>)

  datatype Saved = Saved(userId: Option<int>)

  datatype SavedItem = SavedItem(savedId: int, productId: Option<int>, variantId: Option<int>)

  datatype Order = Order(userId: Option<int>, status: OrderStatus, totalAmount: int)

  datatype OrderItem = OrderItem(orderId: int, productId: int, quantity: int, priceAtPurchase: int)

  /** The whole relational store as one value. */
  datatype Tables = Tables(
    users: seq<User>,
    products: seq<Product>,
    variants: seq<Variant>,
    media: seq<Media>,
    carts: seq<Cart>,
    cartItems: seq<CartItem>,
    saved: seq<Saved>,
    savedItems: seq<SavedItem>,
    orders: seq<Order>,
    orderItems: seq<OrderItem>)
}

/** The three query shapes the handlers use: fetch by primary key,
    `filter_by(...).first()` and `filter_by(...).all()`. */
module Queries {
  import opened Rows

  /** `Model.query.get(id)`: the row whose id is `id`, if there is one. */
  function Lookup<T>(rows: seq<T>, id: int): (r: Option<T>)
    ensures r.Some? <==> 1 <= id <= |rows|
    ensures r.Some? ==> r.value == rows[id - 1]
  {
    if 1 <= id <= |rows| then Some(rows[id - 1]) else None
  }

  /** `filter(p).first()`: the index of the earliest row satisfying `p`. */
  function First<T>(s: seq<T>, p: T -> bool): (r: Option<nat>)
    ensures r.Some? ==> r.value < |s| && p(s[r.value])
    ensures r.Some? ==> forall i :: 0 <= i < r.value ==> !p(s[i])
    ensures r.None? <==> forall i :: 0 <= i < |s| ==> !p(s[i])
    decreases |s|
  {
    if s == [] then None
    else if p(s[0]) then Some(0)
    else
      match First(s[1..], p)
      case None => None
      case Some(i) => Some(i + 1)
  }

  /** `filter(p).all()`: the indices of all rows satisfying `p`, in creation order. */
  function Select<T>(s: seq<T>, p: T -> bool): (r: seq<nat>)
    ensures forall k :: 0 <= k < |r| ==> r[k] < |s| && p(s[r[k]])
    ensures forall i :: 0 <= i < |s| && p(s[i]) ==> i in r
    ensures forall k, l :: 0 <= k < l < |r| ==> r[k] < r[l]
    decreases |s|
  {
    if s == [] then []
    else
      var n := |s| - 1;
      Select(s[..n], p) + (if p(s[n]) then [n] else [])
  }
}
