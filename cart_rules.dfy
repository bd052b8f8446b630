/** Cart and wishlist rules: the per-user cart and saved list that the
    handlers find or create, the line-item upsert of the add-to-cart route,
    the idempotent wishlist insert, and the join and totals of the cart view. */
module CartRules {
  import opened Rows
  import opened Queries
  import opened Catalog

  // ----- One cart per user -----

  /** `Cart.query.filter_by(user_id=...).first()`. */
  function FindCart(carts: seq<Cart>, userId: int): (r: Option<nat>)
    ensures r.Some? ==> r.value < |carts| && carts[r.value].userId == userId
    ensures r.Some? ==> forall i :: 0 <= i < r.value ==> carts[i].userId != userId
    ensures r.None? <==> forall i :: 0 <= i < |carts| ==> carts[i].userId != userId
  {
    First(carts, (c: Cart) => c.userId == userId)
  }

  predicate OneCartPerUser(carts: seq<Cart>) {
    forall i, j :: 0 <= i < j < |carts| ==> carts[i].userId != carts[j].userId
  }

  predicate HasExactlyOneCart(carts: seq<Cart>, userId: int) {
    exists i :: 0 <= i < |carts| && carts[i].userId == userId &&
      forall j :: 0 <= j < |carts| && carts[j].userId == userId ==> j == i
  }

  /** The carts after the find-or-create step for `userId`: the existing
      carts, plus one new cart for the user exactly when they had none. */
  function WithCartFor(carts: seq<Cart>, userId: int): (r: seq<Cart>)
    ensures carts <= r && |r| <= |carts| + 1
    ensures |r| == |carts| + 1 <==> FindCart(carts, userId).None?
    ensures forall i :: |carts| <= i < |r| ==> r[i].userId == userId
  {
    if FindCart(carts, userId).Some? then carts else carts + [Cart(userId)]
  }

  /** After find-or-create the user has a cart. */
  lemma CartFound(carts: seq<Cart>, userId: int)
    ensures FindCart(WithCartFor(carts, userId), userId).Some?
  {
    if FindCart(carts, userId).None? {
      assert WithCartFor(carts, userId)[|carts|].userId == userId;
    }
  }

  /** Find-or-create never makes a second cart: from at most one cart per
      user it leads to exactly one cart for `userId` and no other change. */
  lemma FindOrCreateCart(carts: seq<Cart>, userId: int)
    requires OneCartPerUser(carts)
    ensures OneCartPerUser(WithCartFor(carts, userId))
    ensures HasExactlyOneCart(WithCartFor(carts, userId), userId)
    ensures FindCart(WithCartFor(carts, userId), userId).Some?
  {
    var r := WithCartFor(carts, userId);
    CartFound(carts, userId);
    var i := FindCart(r, userId).value;
    if FindCart(carts, userId).None? {
      forall a, b | 0 <= a < b < |r| ensures r[a].userId != r[b].userId {
        if b == |carts| {
          assert r[a] == carts[a];
        } else {
          assert r[a] == carts[a] && r[b] == carts[b];
        }
      }
    }
    assert forall j :: 0 <= j < |r| && r[j].userId == userId ==> j == i;
  }

  // ----- Cart line items -----

  /** The triple a line item is looked up by. */
  datatype ItemKey = ItemKey(cartId: int, productId: int, variantId: Option<int>)

  function KeyOf(item: CartItem): ItemKey {
    ItemKey(item.cartId, item.productId, item.variantId)
  }

  /** `CartItem.query.filter_by(cart_id=..., product_id=..., variant_id=...).first()`;
      a null `variant_id` matches only rows whose `variant_id` is null. */
  function FindItem(items: seq<CartItem>, key: ItemKey): (r: Option<nat>)
    ensures r.Some? ==> r.value < |items| && KeyOf(items[r.value]) == key
    ensures r.Some? ==> forall i :: 0 <= i < r.value ==> KeyOf(items[i]) != key
    ensures r.None? <==> forall i :: 0 <= i < |items| ==> KeyOf(items[i]) != key
  {
    First(items, (it: CartItem) => KeyOf(it) == key)
  }

  predicate DistinctItemKeys(items: seq<CartItem>) {
    forall i, j :: 0 <= i < j < |items| ==> KeyOf(items[i]) != KeyOf(items[j])
  }

  /** The add-to-cart update: the item with `key`, if any, has its quantity
      and subtotal increased; otherwise a new item is appended, with no
      `price_at_added`. */
  function Upsert(items: seq<CartItem>, key: ItemKey, quantity: int, subtotal: int): (r: seq<CartItem>)
    ensures |items| <= |r| <= |items| + 1
    ensures |r| == |items| <==> FindItem(items, key).Some?
    ensures forall i :: 0 <= i < |items| && KeyOf(items[i]) != key ==> r[i] == items[i]
    ensures forall i :: |items| <= i < |r| ==> KeyOf(r[i]) == key && r[i].priceAtAdded.None?
    ensures forall i :: |items| <= i < |r| ==> r[i].quantity == quantity && r[i].subtotal == subtotal
    ensures FindItem(items, key).Some? ==>
      var i := FindItem(items, key).value;
      && r[i].quantity == items[i].quantity + quantity && r[i].subtotal == items[i].subtotal + subtotal
      && forall j :: 0 <= j < |items| && j != i ==> r[j] == items[j]
    ensures forall i :: 0 <= i < |items| ==> KeyOf(r[i]) == KeyOf(items[i]) && r[i].priceAtAdded == items[i].priceAtAdded
    ensures FindItem(r, key).Some?
  {
    match FindItem(items, key)
    case Some(i) =>
      items[i := items[i].(quantity := items[i].quantity + quantity, subtotal := items[i].subtotal + subtotal)]
    case None =>
      var r := items + [CartItem(key.cartId, key.productId, key.variantId, quantity, subtotal, None)];
      assert KeyOf(r[|items|]) == key;
      r
  }

  /** The upsert keeps at most one item per key. */
  lemma UpsertKeepsDistinct(items: seq<CartItem>, key: ItemKey, quantity: int, subtotal: int)
    requires DistinctItemKeys(items)
    ensures DistinctItemKeys(Upsert(items, key, quantity, subtotal))
  {
    var r := Upsert(items, key, quantity, subtotal);
    if FindItem(items, key).None? {
      forall i, j | 0 <= i < j < |r| ensures KeyOf(r[i]) != KeyOf(r[j]) {
        if j == |items| {
          assert KeyOf(r[j]) == key && KeyOf(r[i]) == KeyOf(items[i]);
        }
      }
    }
  }

  /** Total quantity and subtotal of the items with one key. */
  datatype Tally = Tally(quantity: int, subtotal: int)

  function KeyedTally(items: seq<CartItem>, key: ItemKey): Tally
    decreases |items|
  {
    if items == [] then Tally(0, 0)
    else
      var rest := KeyedTally(items[..|items| - 1], key);
      var last := items[|items| - 1];
      if KeyOf(last) == key then Tally(rest.quantity + last.quantity, rest.subtotal + last.subtotal)
      else rest
  }

  lemma TallyOfAppend(items: seq<CartItem>, x: CartItem, key: ItemKey)
    ensures KeyedTally(items + [x], key) ==
      if KeyOf(x) == key
      then Tally(KeyedTally(items, key).quantity + x.quantity, KeyedTally(items, key).subtotal + x.subtotal)
      else KeyedTally(items, key)
  {
    assert (items + [x])[..|items|] == items;
  }

  /** Replacing one item by another with the same key moves that key's tally
      by the difference and leaves every other key's tally alone. */
  lemma {:induction false} TallyOfUpdate(items: seq<CartItem>, i: nat, x: CartItem, key: ItemKey)
    requires i < |items| && KeyOf(x) == KeyOf(items[i])
    ensures KeyedTally(items[i := x], key) ==
      if KeyOf(x) == key
      then Tally(KeyedTally(items, key).quantity - items[i].quantity + x.quantity,
                 KeyedTally(items, key).subtotal - items[i].subtotal + x.subtotal)
      else KeyedTally(items, key)
    decreases |items|
  {
    var n := |items| - 1;
    var u := items[i := x];
    assert u[..n] == if i == n then items[..n] else items[..n][i := x];
    if i < n {
      TallyOfUpdate(items[..n], i, x, key);
    }
  }

  /** Adding `quantity` and `subtotal` for `key` accumulates onto whatever
      that key already held, and no other key's totals move. */
  lemma UpsertAccumulates(items: seq<CartItem>, key: ItemKey, quantity: int, subtotal: int)
    ensures KeyedTally(Upsert(items, key, quantity, subtotal), key) ==
      Tally(KeyedTally(items, key).quantity + quantity, KeyedTally(items, key).subtotal + subtotal)
    ensures forall other :: other != key ==>
      KeyedTally(Upsert(items, key, quantity, subtotal), other) == KeyedTally(items, other)
  {
    UpsertTally(items, key, quantity, subtotal, key);
    forall other
      ensures KeyedTally(Upsert(items, key, quantity, subtotal), other) ==
        if other == key
        then Tally(KeyedTally(items, key).quantity + quantity, KeyedTally(items, key).subtotal + subtotal)
        else KeyedTally(items, other)
    {
      UpsertTally(items, key, quantity, subtotal, other);
    }
  }

  lemma UpsertTally(items: seq<CartItem>, key: ItemKey, quantity: int, subtotal: int, other: ItemKey)
    ensures KeyedTally(Upsert(items, key, quantity, subtotal), other) ==
      if other == key
      then Tally(KeyedTally(items, key).quantity + quantity, KeyedTally(items, key).subtotal + subtotal)
      else KeyedTally(items, other)
  {
    match FindItem(items, key)
    case Some(i) =>
      var x := items[i].(quantity := items[i].quantity + quantity, subtotal := items[i].subtotal + subtotal);
      assert Upsert(items, key, quantity, subtotal) == items[i := x];
      TallyOfUpdate(items, i, x, other);
    case None =>
      var x := CartItem(key.cartId, key.productId, key.variantId, quantity, subtotal, None);
      assert Upsert(items, key, quantity, subtotal) == items + [x];
      TallyOfAppend(items, x, other);
  }

  /** With distinct keys a key's tally is the one item holding it, or zero. */
  lemma {:induction false} TallyOfDistinct(items: seq<CartItem>, key: ItemKey)
    requires DistinctItemKeys(items)
    ensures FindItem(items, key).None? ==> KeyedTally(items, key) == Tally(0, 0)
    ensures FindItem(items, key).Some? ==>
      var it := items[FindItem(items, key).value];
      KeyedTally(items, key) == Tally(it.quantity, it.subtotal)
    decreases |items|
  {
    if items != [] {
      var n := |items| - 1;
      var front := items[..n];
      assert DistinctItemKeys(front);
      TallyOfDistinct(front, key);
      if KeyOf(items[n]) == key {
        assert FindItem(front, key).None?;
      } else if FindItem(items, key).Some? {
        assert FindItem(front, key) == FindItem(items, key);
      }
    }
  }

  /** Adding the same (cart, product, variant) twice, with quantities q1 and
      q2 at unit price `price`, leaves one line item with quantity q1 + q2
      and subtotal price * (q1 + q2). */
  lemma RepeatedAddsMerge(items: seq<CartItem>, key: ItemKey, price: int, q1: int, q2: int)
    requires DistinctItemKeys(items) && FindItem(items, key).None?
    ensures var r := Upsert(Upsert(items, key, q1, price * q1), key, q2, price * q2);
      && DistinctItemKeys(r)
      && |r| == |items| + 1
      && FindItem(r, key) == Some(|items|)
      && r[|items|].quantity == q1 + q2
      && r[|items|].subtotal == price * (q1 + q2)
  {
    var r1 := Upsert(items, key, q1, price * q1);
    var r := Upsert(r1, key, q2, price * q2);
    UpsertKeepsDistinct(items, key, q1, price * q1);
    UpsertKeepsDistinct(r1, key, q2, price * q2);
    UpsertAccumulates(items, key, q1, price * q1);
    UpsertAccumulates(r1, key, q2, price * q2);
    TallyOfDistinct(items, key);
    TallyOfDistinct(r, key);
    assert FindItem(r, key) == Some(|items|) by {
      assert KeyOf(r[|items|]) == key;
    }
    assert price * q1 + price * q2 == price * (q1 + q2);
  }

  /** Every item of product `productId` has subtotal price * quantity. */
  predicate SubtotalsAt(items: seq<CartItem>, productId: int, price: int) {
    forall i :: 0 <= i < |items| && items[i].productId == productId ==>
      items[i].subtotal == price * items[i].quantity
  }

  /** While a product's price stays put, every item of it keeps subtotal
      equal to price times quantity across adds. */
  lemma UpsertKeepsSubtotals(items: seq<CartItem>, key: ItemKey, price: int, quantity: int)
    requires SubtotalsAt(items, key.productId, price)
    ensures SubtotalsAt(Upsert(items, key, quantity, price * quantity), key.productId, price)
  {
    var r := Upsert(items, key, quantity, price * quantity);
    match FindItem(items, key)
    case Some(i) =>
      assert r[i].subtotal == price * items[i].quantity + price * quantity;
      assert price * items[i].quantity + price * quantity == price * (items[i].quantity + quantity);
    case None =>
  }

  // ----- Wishlist -----

  /** `Saved.query.filter_by(user_id=...).first()`; a null user matches null. */
  function FindSaved(saved: seq<Saved>, userId: Option<int>): (r: Option<nat>)
    ensures r.Some? ==> r.value < |saved| && saved[r.value].userId == userId
    ensures r.Some? ==> forall i :: 0 <= i < r.value ==> saved[i].userId != userId
    ensures r.None? <==> forall i :: 0 <= i < |saved| ==> saved[i].userId != userId
  {
    First(saved, (s: Saved) => s.userId == userId)
  }

  predicate OneSavedPerUser(saved: seq<Saved>) {
    forall i, j :: 0 <= i < j < |saved| ==> saved[i].userId != saved[j].userId
  }

  /** The saved lists after the find-or-create step for `userId`: the
      existing lists, plus one new list for the user exactly when they had none. */
  function WithSavedFor(saved: seq<Saved>, userId: Option<int>): (r: seq<Saved>)
    ensures saved <= r && |r| <= |saved| + 1
    ensures |r| == |saved| + 1 <==> FindSaved(saved, userId).None?
    ensures forall i :: |saved| <= i < |r| ==> r[i].userId == userId
  {
    if FindSaved(saved, userId).Some? then saved else saved + [Saved(userId)]
  }

  /** After find-or-create the user has a saved list. */
  lemma SavedFound(saved: seq<Saved>, userId: Option<int>)
    ensures FindSaved(WithSavedFor(saved, userId), userId).Some?
  {
    if FindSaved(saved, userId).None? {
      assert WithSavedFor(saved, userId)[|saved|].userId == userId;
    }
  }

  /** Find-or-create never makes a second saved list for a user. */
  lemma FindOrCreateSaved(saved: seq<Saved>, userId: Option<int>)
    requires OneSavedPerUser(saved)
    ensures OneSavedPerUser(WithSavedFor(saved, userId))
    ensures FindSaved(WithSavedFor(saved, userId), userId).Some?
    ensures forall i :: 0 <= i < |WithSavedFor(saved, userId)| ==>
      (WithSavedFor(saved, userId)[i].userId == userId <==> i == FindSaved(WithSavedFor(saved, userId), userId).value)
  {
    var r := WithSavedFor(saved, userId);
    if FindSaved(saved, userId).None? {
      assert r[|saved|].userId == userId;
    }
  }

  datatype SavedKey = SavedKey(savedId: int, productId: Option<int>, variantId: Option<int>)

  function SavedKeyOf(s: SavedItem): SavedKey {
    SavedKey(s.savedId, s.productId, s.variantId)
  }

  /** `SavedItem.query.filter_by(saved_id=..., product_id=..., variant_id=...).first()`. */
  function FindSavedItem(items: seq<SavedItem>, key: SavedKey): (r: Option<nat>)
    ensures r.Some? ==> r.value < |items| && SavedKeyOf(items[r.value]) == key
    ensures r.None? <==> forall i :: 0 <= i < |items| ==> SavedKeyOf(items[i]) != key
  {
    First(items, (s: SavedItem) => SavedKeyOf(s) == key)
  }

  predicate DistinctSavedKeys(items: seq<SavedItem>) {
    forall i, j :: 0 <= i < j < |items| ==> SavedKeyOf(items[i]) != SavedKeyOf(items[j])
  }

  /** The wishlist insert: append an item for `key` unless one is already there. */
  function SaveItem(items: seq<SavedItem>, key: SavedKey): (r: seq<SavedItem>)
    ensures items <= r && |r| <= |items| + 1
    ensures r == items <==> FindSavedItem(items, key).Some?
    ensures forall i :: |items| <= i < |r| ==> SavedKeyOf(r[i]) == key
    ensures FindSavedItem(r, key).Some?
    ensures DistinctSavedKeys(items) ==> DistinctSavedKeys(r)
  {
    if FindSavedItem(items, key).Some? then items
    else
      var r := items + [SavedItem(key.savedId, key.productId, key.variantId)];
      assert SavedKeyOf(r[|items|]) == key;
      r
  }

  /** Saving the same item twice is the same as saving it once. */
  lemma SaveItemIdempotent(items: seq<SavedItem>, key: SavedKey)
    ensures SaveItem(SaveItem(items, key), key) == SaveItem(items, key)
  {
  }

  // ----- Cart view -----

  /** The join of the cart view: items of one of the user's carts whose
      product exists. */
  predicate InUserCart(t: Tables, userId: int, item: CartItem) {
    && 1 <= item.cartId <= |t.carts|
    && t.carts[item.cartId - 1].userId == userId
    && 1 <= item.productId <= |t.products|
  }

  function UserCartItems(t: Tables, userId: int): (r: seq<nat>)
    ensures forall k :: 0 <= k < |r| ==> r[k] < |t.cartItems| && InUserCart(t, userId, t.cartItems[r[k]])
    ensures forall i :: 0 <= i < |t.cartItems| && InUserCart(t, userId, t.cartItems[i]) ==> i in r
    ensures forall k, l :: 0 <= k < l < |r| ==> r[k] < r[l]
  {
    Select(t.cartItems, (it: CartItem) => InUserCart(t, userId, it))
  }

  datatype VariantOption = VariantOption(variantId: nat, size: Option<string>, color: Option<string>)

  /** Every variant of the product, as the list the cart view offers. */
  function VariantOptions(variants: seq<Variant>, productId: int): (r: seq<VariantOption>)
    ensures var vs := VariantsOf(variants, productId);
      |r| == |vs| &&
      forall k :: 0 <= k < |vs| ==>
        r[k] == VariantOption(vs[k] + 1, variants[vs[k]].size, variants[vs[k]].color)
  {
    var vs := VariantsOf(variants, productId);
    seq(|vs|, k requires 0 <= k < |vs| =>
      VariantOption(vs[k] + 1, variants[vs[k]].size, variants[vs[k]].color))
  }

  datatype CartLine = CartLine(
    cartItemId: nat,
    productId: int,
    productName: string,
    quantity: int,
    priceAtAdded: int,
    subtotal: int,
    variantId: Option<int>,
    media: seq<Option<string>>,
    variants: seq<VariantOption>)

  datatype CartView = CartView(items: seq<CartLine>, totalPrice: int, totalItems: nat)

  /** The media a cart line shows: its variant's when `variant_id` is
      truthy, else its product's. */
  function ItemMedia(media: seq<Media>, item: CartItem): (r: seq<nat>)
    ensures forall k :: 0 <= k < |r| ==> r[k] < |media|
    ensures TruthyInt(item.variantId) ==> r == MediaOfVariant(media, item.variantId.value)
    ensures !TruthyInt(item.variantId) ==> r == MediaOfProduct(media, item.productId)
  {
    if TruthyInt(item.variantId) then MediaOfVariant(media, item.variantId.value)
    else MediaOfProduct(media, item.productId)
  }

  /** `line` shows cart item row `i` of the view's join, priced at its `price_at_added`. */
  predicate DescribesLine(line: CartLine, t: Tables, i: nat) {
    && i < |t.cartItems|
    && var item := t.cartItems[i];
    && 1 <= item.productId <= |t.products|
    && item.priceAtAdded.Some?
    && line.cartItemId == i + 1
    && line.productId == item.productId
    && line.productName == t.products[item.productId - 1].name
    && line.quantity == item.quantity
    && line.priceAtAdded == item.priceAtAdded.value
    && line.subtotal == item.priceAtAdded.value * item.quantity
    && line.variantId == item.variantId
    && line.media == Urls(t.media, ItemMedia(t.media, item))
    && line.variants == VariantOptions(t.variants, item.productId)
  }

  /** Sum of `price_at_added * quantity` over the given cart item rows. */
  function ItemsTotal(items: seq<CartItem>, idx: seq<nat>): int
    requires forall k :: 0 <= k < |idx| ==> idx[k] < |items| && items[idx[k]].priceAtAdded.Some?
  {
    if idx == [] then 0
    else
      var it := items[idx[|idx| - 1]];
      ItemsTotal(items, idx[..|idx| - 1]) + it.priceAtAdded.value * it.quantity
  }

  /** With no negative price or quantity the total is never negative. */
  lemma {:induction false} ItemsTotalNonNegative(items: seq<CartItem>, idx: seq<nat>)
    requires forall k :: 0 <= k < |idx| ==> idx[k] < |items| && items[idx[k]].priceAtAdded.Some?
    requires forall k :: 0 <= k < |idx| ==> items[idx[k]].priceAtAdded.value >= 0 && items[idx[k]].quantity >= 0
    ensures ItemsTotal(items, idx) >= 0
    decreases |idx|
  {
    if idx != [] {
      ItemsTotalNonNegative(items, idx[..|idx| - 1]);
      var it := items[idx[|idx| - 1]];
      assert it.priceAtAdded.value * it.quantity >= 0;
    }
  }

  /** The running total over the first k + 1 rows adds row k's amount. */
  lemma ItemsTotalStep(items: seq<CartItem>, idx: seq<nat>, k: nat)
    requires k < |idx|
    requires forall j :: 0 <= j <= k ==> idx[j] < |items| && items[idx[j]].priceAtAdded.Some?
    ensures ItemsTotal(items, idx[..k + 1]) ==
      ItemsTotal(items, idx[..k]) + items[idx[k]].priceAtAdded.value * items[idx[k]].quantity
  {
    assert idx[..k + 1][..k] == idx[..k];
  }

  /** An item the add-to-cart upsert creates has no `price_at_added`, and it
      joins the owner's cart view when its cart and product exist, so from
      then on that view's total cannot be computed. */
  lemma NewItemBlocksCartView(t: Tables, userId: int, key: ItemKey, quantity: int, subtotal: int)
    requires FindItem(t.cartItems, key).None?
    requires 1 <= key.cartId <= |t.carts| && t.carts[key.cartId - 1].userId == userId
    requires 1 <= key.productId <= |t.products|
    ensures var u := t.(cartItems := Upsert(t.cartItems, key, quantity, subtotal));
      && |t.cartItems| in UserCartItems(u, userId)
      && u.cartItems[|t.cartItems|].priceAtAdded.None?
  {
    var u := t.(cartItems := Upsert(t.cartItems, key, quantity, subtotal));
    assert KeyOf(u.cartItems[|t.cartItems|]) == key;
    assert InUserCart(u, userId, u.cartItems[|t.cartItems|]);
  }
}
