/** The storefront's request handlers, each a method that answers an HTTP
    status code. Handlers that write take the shared store; the two listing
    handlers only read, and take the store's tables as a value. Request
    fields arrive as optional JSON values; the caller's token identity,
    where a handler reads one, is a parameter. */
module AppRoutes {
  import opened Rows
  import opened Queries
  import opened Catalog
  import opened CartRules
  import opened Accounts
  import opened Db

  // ----- POST /cart/add -----

  /** The quantity an add-to-cart request asks for: 1 when it gives none. */
  function RequestedQuantity(quantity: Option<int>): (q: int)
    ensures quantity.None? ==> q == 1
    ensures quantity.Some? ==> q == quantity.value
  {
    if quantity.Some? then quantity.value else 1
  }

  /** The status the add-to-cart route answers on the tables it starts
      from: the field check, then the product and variant checks, then the
      final commit. */
  function AddToCartStatus(products: seq<Product>, variants: seq<Variant>, userId: Option<int>, productId: Option<int>, variantId: Option<int>,
                           commitOk: bool): (status: int)
    ensures status in {201, 400, 404, 500}
    ensures status == 400 <==> !TruthyInt(userId) || !TruthyInt(productId)
    ensures status == 404 <==>
      && TruthyInt(userId) && TruthyInt(productId)
      && (Lookup(products, productId.value).None? ||
          (TruthyInt(variantId) && Lookup(variants, variantId.value).None?))
    ensures status == 500 <==> status !in {400, 404} && !commitOk
  {
    if !TruthyInt(userId) || !TruthyInt(productId) then 400
    else if Lookup(products, productId.value).None? then 404
    else if TruthyInt(variantId) && Lookup(variants, variantId.value).None? then 404
    else if !commitOk then 500
    else 201
  }

  /** Adds `quantity` of a product (and optional variant) to the user's
      cart, creating the cart on first use. `commitOk` is whether the final
      commit succeeds; when it fails the line-item change is rolled back. */
  method AddProductToCart(db: Store, userId: Option<int>, productId: Option<int>, variantId: Option<int>,
                          quantity: Option<int>, commitOk: bool)
    returns (status: int)
    modifies db`carts, db`cartItems
    ensures status == AddToCartStatus(old(db.products), old(db.variants), userId, productId, variantId, commitOk)
    // Nothing happens without a truthy user and product.
    ensures status == 400 ==> unchanged(db)
    // Past the field check the user's cart is found or created, even if a 404 follows.
    ensures status != 400 ==> db.carts == WithCartFor(old(db.carts), userId.value)
    ensures status != 201 ==> db.cartItems == old(db.cartItems)
    ensures status == 201 ==>
      && FindCart(db.carts, userId.value).Some?
      && var cartId := FindCart(db.carts, userId.value).value + 1;
      && var q := RequestedQuantity(quantity);
      && var price := Lookup(old(db.products), productId.value).value.price;
      && db.cartItems == Upsert(old(db.cartItems), ItemKey(cartId, productId.value, variantId), q, price * q)
  {
    var q := RequestedQuantity(quantity);
    if !TruthyInt(userId) || !TruthyInt(productId) {
      return 400;
    }
    var cartId := FindOrCreateCartRow(db, userId.value);
    assert db.products == old(db.products) && db.variants == old(db.variants);
    status := AddLineItem(db, cartId, productId.value, variantId, q, commitOk);
  }

  /** The rest of the add-to-cart route once the cart is known: the product
      and variant checks, then the line-item upsert priced at the product's
      current price, kept only when the commit succeeds. */
  method AddLineItem(db: Store, cartId: nat, productId: int, variantId: Option<int>, quantity: int, commitOk: bool)
    returns (status: int)
    modifies db`cartItems
    ensures status == 404 <==>
      Lookup(db.products, productId).None? || (TruthyInt(variantId) && Lookup(db.variants, variantId.value).None?)
    ensures status == 500 <==> status != 404 && !commitOk
    ensures status in {201, 404, 500}
    ensures status != 201 ==> db.cartItems == old(db.cartItems)
    ensures status == 201 ==>
      && Lookup(db.products, productId).Some?
      && db.cartItems == Upsert(old(db.cartItems), ItemKey(cartId, productId, variantId), quantity,
                                Lookup(db.products, productId).value.price * quantity)
  {
    var product := Lookup(db.products, productId);
    if product.None? {
      return 404;
    }
    if TruthyInt(variantId) && Lookup(db.variants, variantId.value).None? {
      return 404;
    }
    if !commitOk {
      return 500;
    }
    UpsertCartItem(db, ItemKey(cartId, productId, variantId), quantity, product.value.price * quantity);
    status := 201;
  }

  /** The find-or-create step of the add-to-cart route: the 1-based id of
      the user's first cart, appending one when the user has none. */
  method FindOrCreateCartRow(db: Store, userId: int) returns (cartId: nat)
    modifies db`carts
    ensures db.carts == WithCartFor(old(db.carts), userId)
    ensures FindCart(db.carts, userId).Some? && cartId == FindCart(db.carts, userId).value + 1
    ensures old(OneCartPerUser(db.carts)) ==> OneCartPerUser(db.carts) && HasExactlyOneCart(db.carts, userId)
  {
    ghost var before := db.carts;
    if FindCart(db.carts, userId).None? {
      db.carts := db.carts + [Cart(userId)];
    }
    CartFound(before, userId);
    if OneCartPerUser(before) {
      FindOrCreateCart(before, userId);
    }
    cartId := FindCart(db.carts, userId).value + 1;
  }

  /** The line-item step of the add-to-cart route: raise the quantity and
      subtotal of the item with `key`, or append a new item. */
  method UpsertCartItem(db: Store, key: ItemKey, quantity: int, subtotal: int)
    modifies db`cartItems
    ensures db.cartItems == Upsert(old(db.cartItems), key, quantity, subtotal)
  {
    var existing := FindItem(db.cartItems, key);
    if existing.Some? {
      var item := db.cartItems[existing.value];
      db.cartItems := db.cartItems[existing.value := item.(quantity := item.quantity + quantity, subtotal := item.subtotal + subtotal)];
    } else {
      db.cartItems := db.cartItems + [CartItem(key.cartId, key.productId, key.variantId, quantity, subtotal, None)];
    }
  }

  // ----- POST /add_to_wishlist -----

  /** Saves a product (and optional variant) to the user's saved list,
      creating the list on first use. No field is checked. A repeated save
      changes nothing and still answers 201. */
  method AddToWishlist(db: Store, userId: Option<int>, productId: Option<int>, variantId: Option<int>)
    returns (status: int)
    modifies db`saved, db`savedItems
    ensures status == 201
    ensures db.saved == WithSavedFor(old(db.saved), userId)
    ensures FindSaved(db.saved, userId).Some?
    ensures db.savedItems ==
      SaveItem(old(db.savedItems), SavedKey(FindSaved(db.saved, userId).value + 1, productId, variantId))
  {
    var savedId := FindOrCreateSavedRow(db, userId);
    SaveItemRow(db, SavedKey(savedId, productId, variantId));
    status := 201;
  }

  /** The find-or-create step of the wishlist route: the 1-based id of the
      user's first saved list, appending one when the user has none. */
  method FindOrCreateSavedRow(db: Store, userId: Option<int>) returns (savedId: nat)
    modifies db`saved
    ensures db.saved == WithSavedFor(old(db.saved), userId)
    ensures FindSaved(db.saved, userId).Some? && savedId == FindSaved(db.saved, userId).value + 1
  {
    ghost var before := db.saved;
    if FindSaved(db.saved, userId).None? {
      db.saved := db.saved + [Saved(userId)];
    }
    SavedFound(before, userId);
    savedId := FindSaved(db.saved, userId).value + 1;
  }

  /** The insert step of the wishlist route: append a saved item for `key`
      unless one exists. */
  method SaveItemRow(db: Store, key: SavedKey)
    modifies db`savedItems
    ensures db.savedItems == SaveItem(old(db.savedItems), key)
  {
    if FindSavedItem(db.savedItems, key).None? {
      db.savedItems := db.savedItems + [SavedItem(key.savedId, key.productId, key.variantId)];
    }
  }

  // ----- GET /cart/<user_id> -----

  /** Lists the user's cart items with their media and variant options and
      totals them by `price_at_added * quantity`. A line without
      `price_at_added` makes the multiplication fail, which answers 500. */
  method GetCartItems(t: Tables, userId: int) returns (status: int, view: CartView)
    ensures status == 200 || status == 500
    ensures var idx := UserCartItems(t, userId);
      status == 200 <==> forall k :: 0 <= k < |idx| ==> t.cartItems[idx[k]].priceAtAdded.Some?
    ensures status == 200 ==>
      var idx := UserCartItems(t, userId);
      && view.totalItems == |idx|
      && |view.items| == |idx|
      && (forall k :: 0 <= k < |idx| ==> DescribesLine(view.items[k], t, idx[k]))
      && view.totalPrice == ItemsTotal(t.cartItems, idx)
  {
    var idx := UserCartItems(t, userId);
    status, view := BuildCartView(t, idx);
  }

  /** The loop of the cart view over the joined item rows `idx`: one line
      per row, in order, and the running total. */
  method BuildCartView(t: Tables, idx: seq<nat>) returns (status: int, view: CartView)
    requires forall k :: 0 <= k < |idx| ==> idx[k] < |t.cartItems| && 1 <= t.cartItems[idx[k]].productId <= |t.products|
    ensures status == 200 || status == 500
    ensures status == 200 <==> forall k :: 0 <= k < |idx| ==> t.cartItems[idx[k]].priceAtAdded.Some?
    ensures status == 200 ==>
      && view.totalItems == |idx|
      && |view.items| == |idx|
      && (forall k :: 0 <= k < |idx| ==> DescribesLine(view.items[k], t, idx[k]))
      && view.totalPrice == ItemsTotal(t.cartItems, idx)
  {
    var lines: seq<CartLine> := [];
    var total := 0;
    var k := 0;
    while k < |idx|
      invariant 0 <= k <= |idx|
      invariant forall j :: 0 <= j < k ==> t.cartItems[idx[j]].priceAtAdded.Some?
      invariant |lines| == k
      invariant forall j :: 0 <= j < k ==> DescribesLine(lines[j], t, idx[j])
      invariant total == ItemsTotal(t.cartItems, idx[..k])
    {
      var item := t.cartItems[idx[k]];
      if item.priceAtAdded.None? {
        return 500, CartView([], 0, 0);
      }
      var line := LineFor(t, idx[k]);
      ItemsTotalStep(t.cartItems, idx, k);
      total := total + line.subtotal;
      lines := lines + [line];
      k := k + 1;
    }
    assert idx[..k] == idx;
    return 200, CartView(lines, total, |idx|);
  }

  /** One line of the cart view: the item joined with its product, its media
      urls and every variant of its product. */
  method LineFor(t: Tables, i: nat) returns (line: CartLine)
    requires i < |t.cartItems|
    requires 1 <= t.cartItems[i].productId <= |t.products| && t.cartItems[i].priceAtAdded.Some?
    ensures DescribesLine(line, t, i)
  {
    var item := t.cartItems[i];
    var product := t.products[item.productId - 1];
    var options := VariantOptions(t.variants, item.productId);
    var urls := Urls(t.media, ItemMedia(t.media, item));
    var subtotal := item.priceAtAdded.value * item.quantity;
    line := CartLine(i + 1, item.productId, product.name, item.quantity,
                     item.priceAtAdded.value, subtotal, item.variantId, urls, options);
  }

  // ----- GET /products -----

  /** The variants of a product, each with the names of its own media. */
  method ListVariants(t: Tables, productId: int) returns (entries: seq<VariantEntry>)
    ensures var vs := VariantsOf(t.variants, productId);
      |entries| == |vs| && forall l :: 0 <= l < |vs| ==> DescribesVariant(entries[l], t, vs[l])
  {
    var vs := VariantsOf(t.variants, productId);
    entries := [];
    var l := 0;
    while l < |vs|
      invariant 0 <= l <= |vs|
      invariant |entries| == l
      invariant forall j :: 0 <= j < l ==> DescribesVariant(entries[j], t, vs[j])
    {
      var i := vs[l];
      var names := Names(t.media, MediaOfVariant(t.media, i + 1));
      entries := entries + [VariantEntry(i + 1, t.variants[i], names)];
      l := l + 1;
    }
  }

  /** The product listing: rejects an unknown sort key, keeps the products
      that pass the truthy filters, and assembles each with its media,
      variants and average rating. The chosen ordering is returned; the
      entries are in creation order. */
  method GetProducts(t: Tables, categoryId: Option<int>, sortBy: Option<string>, sortOrder: Option<string>,
                     featureType: Option<string>, gender: Option<string>)
    returns (status: int, sort: Option<Sort>, entries: seq<ProductEntry>)
    ensures status == 400 <==> SortChoice(sortBy, sortOrder).None?
    ensures status == 400 ==> sort.None? && entries == []
    ensures status != 400 ==> status == 200 && sort == SortChoice(sortBy, sortOrder)
    ensures status == 200 ==>
      var idx := MatchingProducts(t.products, ProductFilter(categoryId, featureType, gender));
      |entries| == |idx| && forall k :: 0 <= k < |idx| ==> DescribesProduct(entries[k], t, idx[k])
  {
    sort := SortChoice(sortBy, sortOrder);
    if sort.None? {
      return 400, None, [];
    }
    var idx := MatchingProducts(t.products, ProductFilter(categoryId, featureType, gender));
    entries := [];
    var k := 0;
    while k < |idx|
      invariant 0 <= k <= |idx|
      invariant |entries| == k
      invariant forall j :: 0 <= j < k ==> DescribesProduct(entries[j], t, idx[j])
    {
      var i := idx[k];
      var names := Names(t.media, MediaOfProduct(t.media, i + 1));
      var variants := ListVariants(t, i + 1);
      var rating := AverageRating(t.products[i]);
      entries := entries + [ProductEntry(i + 1, t.products[i], names, rating, variants)];
      k := k + 1;
    }
    status := 200;
  }

  // ----- POST /register -----

  /** Registers a user. Any missing field, or an existing user with the same
      email under any provider, answers 400 and inserts nothing. */
  method Register(db: Store, provider: Option<string>, email: Option<string>, name: Option<string>)
    returns (status: int)
    modifies db`users
    ensures status == 400 || status == 201
    ensures status == 400 <==>
      !TruthyStr(provider) || !TruthyStr(email) || !TruthyStr(name) ||
      FindUserByEmail(old(db.users), email.value).Some?
    ensures status == 400 ==> unchanged(db)
    ensures status == 201 ==> db.users == old(db.users) + [User(provider.value, email.value, name.value)]
  {
    if !TruthyStr(provider) || !TruthyStr(email) || !TruthyStr(name) {
      return 400;
    }
    if FindUserByEmail(db.users, email.value).Some? {
      return 400;
    }
    db.users := db.users + [User(provider.value, email.value, name.value)];
    status := 201;
  }

  // ----- POST /orders -----

  /** One entry of the order payload's `items`; a field is None when the
      key is missing or null. */
  datatype OrderLine = OrderLine(productId: Option<int>, quantity: Option<int>, priceAtPurchase: Option<int>)

  predicate LineComplete(l: OrderLine) {
    l.productId.Some? && l.quantity.Some? && l.priceAtPurchase.Some?
  }

  /** The payload line an order item records. */
  function LineOf(item: OrderItem): OrderLine {
    OrderLine(Some(item.productId), Some(item.quantity), Some(item.priceAtPurchase))
  }

  /** The order item a payload line becomes: the price is the payload's. */
  function ItemOf(orderId: int, l: OrderLine): (r: OrderItem)
    requires LineComplete(l)
    ensures r.orderId == orderId && LineOf(r) == l
  {
    OrderItem(orderId, l.productId.value, l.quantity.value, l.priceAtPurchase.value)
  }

  /** Places an order for `userId` when the caller's identity is that user.
      The header is committed first, with the payload's `total_amount` and
      status pending; the items follow in a second commit, so a payload whose
      items are missing or incomplete leaves the header without items and
      answers 500. */
  method PlaceOrder(db: Store, identity: Option<int>, userId: Option<int>, totalAmount: Option<int>,
                    items: Option<seq<OrderLine>>)
    returns (status: int)
    modifies db`orders, db`orderItems
    ensures status in {201, 401, 500}
    ensures status == 401 <==> identity != userId
    ensures identity != userId || totalAmount.None? ==> unchanged(db)
    ensures identity == userId && totalAmount.Some? ==>
      db.orders == old(db.orders) + [Order(userId, Pending, totalAmount.value)]
    ensures status == 201 <==>
      identity == userId && totalAmount.Some? && items.Some? &&
      forall k :: 0 <= k < |items.value| ==> LineComplete(items.value[k])
    ensures status != 201 ==> db.orderItems == old(db.orderItems)
    ensures status == 201 ==>
      && |db.orderItems| == |old(db.orderItems)| + |items.value|
      && db.orderItems[..|old(db.orderItems)|] == old(db.orderItems)
      && forall k :: 0 <= k < |items.value| ==>
           db.orderItems[|old(db.orderItems)| + k] == ItemOf(|old(db.orders)| + 1, items.value[k])
  {
    if identity != userId {
      return 401;
    }
    if totalAmount.None? {
      return 500;
    }
    var orderId := |db.orders| + 1;
    db.orders := db.orders + [Order(userId, Pending, totalAmount.value)];
    if items.None? {
      return 500;
    }
    var lines := items.value;
    var pending: seq<OrderItem> := [];
    var k := 0;
    while k < |lines|
      invariant 0 <= k <= |lines|
      invariant forall j :: 0 <= j < k ==> LineComplete(lines[j])
      invariant |pending| == k
      invariant forall j :: 0 <= j < k ==> pending[j] == ItemOf(orderId, lines[j])
    {
      if !LineComplete(lines[k]) {
        return 500;
      }
      pending := pending + [ItemOf(orderId, lines[k])];
      k := k + 1;
    }
    db.orderItems := db.orderItems + pending;
    status := 201;
  }
}
