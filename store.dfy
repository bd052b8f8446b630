/** The relational store the handlers share through the database session:
    one table per entity, each a sequence of rows that the handlers extend
    or update. A commit is taken to succeed unless a handler says otherwise. */
module Db {
  import opened Rows
  import opened CartRules
  import opened Accounts

  class Store {
    var users: seq<User>
    var products: seq<Product>
    var variants: seq<Variant>
    var media: seq<Media>
    var carts: seq<Cart>
    var cartItems: seq<CartItem>
    var saved: seq<Saved>
    var savedItems: seq<SavedItem>
    var orders: seq<Order>
    var orderItems: seq<OrderItem>

    /** An empty database. */
    constructor ()
      ensures Snapshot() == Tables([], [], [], [], [], [], [], [], [], [])
      ensures Consistent(Snapshot())
    {
      users, products, variants, media := [], [], [], [];
      carts, cartItems, saved, savedItems := [], [], [], [];
      orders, orderItems := [], [];
    }

    /** All tables as one value. */
    function Snapshot(): Tables
      reads this
    {
      Tables(users, products, variants, media, carts, cartItems, saved, savedItems, orders, orderItems)
    }
  }

  /** The uniqueness rules the handlers keep once they hold: one cart and
      one saved list per user, one line item per (cart, product, variant),
      one saved item per (saved list, product, variant), one user per email. */
  predicate Consistent(t: Tables) {
    && OneCartPerUser(t.carts)
    && DistinctItemKeys(t.cartItems)
    && OneSavedPerUser(t.saved)
    && DistinctSavedKeys(t.savedItems)
    && EmailsDistinct(t.users)
  }

  /** The add-to-cart step keeps the uniqueness rules: find-or-create of the
      cart, then an optional line-item upsert. */
  lemma CartStepKeepsConsistent(t: Tables, userId: int, key: ItemKey, quantity: int, subtotal: int, upsert: bool)
    requires Consistent(t)
    ensures var carts := WithCartFor(t.carts, userId);
      Consistent(t.(carts := carts,
                    cartItems := if upsert then Upsert(t.cartItems, key, quantity, subtotal) else t.cartItems))
  {
    FindOrCreateCart(t.carts, userId);
    UpsertKeepsDistinct(t.cartItems, key, quantity, subtotal);
  }

  /** The wishlist step keeps the uniqueness rules. */
  lemma SavedStepKeepsConsistent(t: Tables, userId: Option<int>, key: SavedKey)
    requires Consistent(t)
    ensures Consistent(t.(saved := WithSavedFor(t.saved, userId), savedItems := SaveItem(t.savedItems, key)))
  {
    FindOrCreateSaved(t.saved, userId);
  }

  /** Registering a user whose email is not taken keeps the uniqueness rules. */
  lemma RegisterKeepsConsistent(t: Tables, u: User)
    requires Consistent(t) && FindUserByEmail(t.users, u.email).None?
    ensures Consistent(t.(users := t.users + [u]))
  {
    RegisterKeepsEmailsDistinct(t.users, u);
  }
}
