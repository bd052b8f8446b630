# brandbox-backend storefront handlers in Dafny

This project models the request handlers of the brandbox storefront backend, a
Flask/SQLAlchemy service. The storefront blueprint covers registration, login,
the product listing, the cart, the wishlist and orders. The admin blueprint
creates products and attaches media to them. All of these are modelled as
operations on one in-memory relational store, with proofs of what each
handler does to it.

- **Rows and queries** (`rows.dfy`):
  - Every table is a sequence of records, and a row's id is its 1-based
    position in its table.
  - Record shapes follow what the handlers read and write, which is more
    than the ORM declarations list. For example, cart items have
    `variant_id` and `subtotal`; products have `sales`, `total_reviews`,
    `current_rating_sum`, `feature_type` and `gender`; media have
    `variant_id` and `url`.
  - Money is integer cents.
  - A JSON value is an `Option`. Python truthiness is `TruthyInt`/`TruthyStr`:
    absent, null, `0` and `""` are falsy.
  - Three generic queries stand for the query shapes the handlers use:
    `Lookup` for `query.get`, `First` for `.first()` and `Select` for `.all()`.
- **Store** (`store.dfy`):
  - `Db.Store` is the shared session. Its ten table fields are reassigned by
    the handlers.
  - Each handler names the tables it may write in a field-level `modifies`
    clause, and says what its tables become.
  - `Snapshot` gives all tables as one value. The empty store's contract and
    the `Consistent` rules below are stated on it.
  - `Consistent` states the uniqueness rules the handlers keep: one cart per
    user, one saved list per user, one item per key, and distinct emails.
- **Catalog** (`catalog.dfy`): the listing route's sort-key whitelist and
  direction, its AND-combined truthy filters, the null-iff-no-reviews rule for
  the average rating, and how a listed product is assembled from its media
  and variants.
- **Cart rules** (`cart_rules.dfy`):
  - find-or-create of the user's cart and saved list;
  - the line-item upsert keyed by (cart, product, variant), with a tally
    function that shows quantities and subtotals accumulate;
  - the idempotent wishlist insert;
  - the cart view's join and its total over `price_at_added * quantity`.
- **Accounts** (`accounts.dfy`): registration's duplicate-email rule and
  login's lookup by (email, provider).
- **Handlers** (`app_routes.dfy`, `admin_routes.dfy`):
  - One method per route answers the HTTP status code.
  - Writing handlers take the store and say exactly what changed. Their
    `modifies` clauses name the tables they may write. On an error they
    leave the store unchanged, except where the source has already
    committed a step.
  - A handler's contract ties the new tables to the rule functions
    (`WithCartFor`, `Upsert`, `WithSavedFor`, `SaveItem`, an append). The
    lemmas about those functions carry the lasting properties: one cart per
    user, one item per key, idempotent saves, accumulation. The `Db` step
    lemmas show that each step of a handler keeps `Consistent`.
  - The two listing handlers only read, so they take the tables as a value.
  - The caller's token identity and the outcome of the cart route's final
    commit are parameters.

Where the ORM declarations and the handlers disagree, the model follows the
handlers:
- The add-to-cart route never sets `price_at_added`, although `app/models.py:97`
  declares it NOT NULL. The cart view multiplies by it. In the model, an item
  created by the add route has no `price_at_added`. `CartRules.NewItemBlocksCartView`
  proves that such an item joins its owner's cart view, and `AppRoutes.GetCartItems`
  then answers 500. The two fields are kept side by side and not reconciled.
- The admin route writes `name` and `id`, while the storefront routes read
  `product_name` and `product_id`. The model has one `name` column and
  position-based ids.
- The admin blueprints are never registered by the app factory
  (`app/__init__.py:18-19`). Their handler logic is modelled as written.

## Model

| member | source | states |
|---|---|---|
| Queries.Lookup | app/app_routes.py:327 | fetch by primary key finds a row exactly when the id is between 1 and the table size, and then the row at that position |
| Queries.First | app/app_routes.py:319 | `.first()` returns the earliest matching row, and none exactly when no row matches |
| Queries.Select | app/app_routes.py:113 | `.all()` returns exactly the matching rows, each once, in creation order |
| Accounts.FindUserByEmail | app/app_routes.py:166 | the duplicate check finds a user with that email under any provider, and none exactly when no user has it |
| Accounts.FindUserByLogin | app/app_routes.py:38 | login's lookup finds the first user matching both email and provider, and none exactly when no user matches both |
| Accounts.Login | app/app_routes.py:27-44 | 400 exactly when email or provider is falsy; otherwise 404 exactly when no user matches (email, provider); otherwise 200 with the matching user's id, email and name |
| Accounts.LoginResult.Status | app/app_routes.py:34-44 | login answers 400 exactly for missing fields, 404 exactly for no matching user and 200 exactly when logged in |
| Accounts.RegisterKeepsEmailsDistinct | app/app_routes.py:165-178 | inserting only after the duplicate check fails keeps emails distinct |
| Accounts.RegisterThenLogin | app/app_routes.py:154-181 | a user registered with an unused email logs in with that email and provider and gets the new row's id |
| Catalog.SortKeyOf | app/app_routes.py:74-79 | the whitelist is exactly sales, price, reviews and created, each mapped to its column |
| Catalog.SortChoice | app/app_routes.py:68-86 | 400 exactly when the effective `sort_by` is outside the whitelist, so an omitted `sort_by` (default `created_at`) is rejected; the order is descending exactly when `sort_order` is `desc` |
| Catalog.MatchingProducts | app/app_routes.py:91-100 | a product is listed exactly when it agrees with every filter whose value is truthy; falsy filters are ignored; creation order is kept |
| Catalog.NoFilterKeepsAll | app/app_routes.py:91-100 | with no truthy filter every product is listed, in order |
| Catalog.MatchingProductsAppend | app/app_routes.py:89-100 | a newly added product is listed last, exactly when it passes the filters |
| Catalog.AverageRating | app/app_routes.py:133-135 | the average rating is null exactly when the product has no reviews, and otherwise is the rating sum over the review count |
| Catalog.MediaOfProduct | app/app_routes.py:109-110 | a product's media are exactly the media rows linked to it, oldest first |
| Catalog.MediaOfProductAppend | app/app_routes.py:109 | a newly added media row comes last among its product's media and joins no other product's |
| Catalog.MediaOfVariant | app/app_routes.py:117-118 | a variant's media are exactly the media rows linked to it, oldest first |
| Catalog.VariantsOf | app/app_routes.py:113 | a product's variants are exactly the variant rows linked to it |
| Catalog.Names | app/app_routes.py:110 | the listing shows each selected media row's `name`, in order |
| Catalog.Urls | app/app_routes.py:280 | the cart view shows each selected media row's `url`, in order |
| CartRules.FindCart | app/app_routes.py:319 | the cart lookup finds the user's first cart, and none exactly when the user has no cart |
| CartRules.WithCartFor | app/app_routes.py:319-324 | find-or-create keeps every existing cart in place and appends one cart, owned by the user, exactly when the user had none |
| CartRules.CartFound | app/app_routes.py:319-324 | after find-or-create the user has a cart |
| CartRules.FindOrCreateCart | app/app_routes.py:319-324 | find-or-create keeps one cart per user and leaves the user with exactly one cart |
| CartRules.FindItem | app/app_routes.py:343 | the item lookup matches on cart, product and variant, where a null variant matches only null |
| CartRules.Upsert | app/app_routes.py:343-357 | when an item has the key, the first such item has the request's quantity and subtotal added, every other item is untouched and nothing is appended; otherwise exactly one item is appended, with the key, the request's quantity and subtotal and no `price_at_added`; every item keeps its key and `price_at_added` |
| CartRules.UpsertKeepsDistinct | app/app_routes.py:343-357 | the upsert keeps at most one item per (cart, product, variant) |
| CartRules.UpsertAccumulates | app/app_routes.py:343-357 | the key's total quantity and subtotal grow by exactly the request's quantity and subtotal; every other key's totals are unchanged |
| CartRules.RepeatedAddsMerge | app/app_routes.py:339-357 | two adds of the same key at one price leave one item with the summed quantity and price times that sum |
| CartRules.UpsertKeepsSubtotals | app/app_routes.py:339-347 | while a product's price is fixed, every item of it keeps subtotal equal to price times quantity |
| CartRules.FindSaved | app/app_routes.py:374 | the saved-list lookup finds the user's first list, and none exactly when there is none |
| CartRules.WithSavedFor | app/app_routes.py:374-378 | find-or-create keeps every existing saved list in place and appends one list, owned by the user, exactly when the user had none |
| CartRules.SavedFound | app/app_routes.py:374-378 | after find-or-create the user has a saved list |
| CartRules.FindOrCreateSaved | app/app_routes.py:374-378 | find-or-create keeps one saved list per user, and the user's list is the only one with that user |
| CartRules.FindSavedItem | app/app_routes.py:381 | the saved-item lookup matches on saved list, product and variant |
| CartRules.SaveItem | app/app_routes.py:381-385 | the insert only ever appends, at most one item and only with the key; the list is left as it is exactly when an item with the key is already there; afterwards the key is present, and distinct keys stay distinct |
| CartRules.SaveItemIdempotent | app/app_routes.py:381-385 | saving the same item twice is the same as saving it once |
| CartRules.UserCartItems | app/app_routes.py:253-259 | the view's join is exactly the items in one of the user's carts whose product exists, in creation order |
| CartRules.VariantOptions | app/app_routes.py:296 | each cart line offers every variant of its product, with id, size and color |
| CartRules.ItemMedia | app/app_routes.py:274-277 | a line's media are its variant's when `variant_id` is truthy, else its product's |
| CartRules.ItemsTotal | app/app_routes.py:262-284 | the cart view's total starts at 0 and adds `price_at_added * quantity` per row; its properties are the two lemmas below |
| CartRules.ItemsTotalNonNegative | app/app_routes.py:283-284 | with no negative price or quantity the cart total is never negative |
| CartRules.ItemsTotalStep | app/app_routes.py:283-284 | the running total over one more item adds that item's `price_at_added * quantity` |
| CartRules.NewItemBlocksCartView | app/app_routes.py:350-357 | an item created by the add route has no `price_at_added` and joins its owner's cart view |
| Db.Store.constructor | app/__init__.py:7 | the session starts on an empty store in which every uniqueness rule holds |
| Db.CartStepKeepsConsistent | app/app_routes.py:319-357 | the add-to-cart steps keep every uniqueness rule of the store |
| Db.SavedStepKeepsConsistent | app/app_routes.py:374-385 | the wishlist steps keep every uniqueness rule of the store |
| Db.RegisterKeepsConsistent | app/app_routes.py:165-178 | inserting a user only after the duplicate check keeps every uniqueness rule of the store |
| AppRoutes.RequestedQuantity | app/app_routes.py:312 | the requested quantity is 1 when the payload gives none, else the payload's |
| AppRoutes.AddToCartStatus | app/app_routes.py:315-364 | 400 exactly when user or product id is falsy; then 404 exactly when the product, or a truthy variant, does not exist; then 500 exactly when the commit fails; else 201 |
| AppRoutes.AddProductToCart | app/app_routes.py:307-364 | answers `AddToCartStatus` on the starting product and variant tables; on 400 nothing changes; otherwise the carts become the find-or-create result, even when a 404 or 500 follows; cart items change only on 201, where they become the upsert of (user's cart, product, variant) with subtotal price times quantity; only carts and cart items may change |
| AppRoutes.AddLineItem | app/app_routes.py:327-364 | once the cart is known: 404 exactly when the product, or a truthy variant, is missing; then 500 exactly when the commit fails; cart items change only on 201, to the upsert priced at the product's price times the quantity |
| AppRoutes.FindOrCreateCartRow | app/app_routes.py:319-324 | returns the id of the user's first cart and creates one only when the user has none |
| AppRoutes.UpsertCartItem | app/app_routes.py:343-357 | the cart items become the upsert of the key, and nothing else changes |
| AppRoutes.AddToWishlist | app/app_routes.py:367-387 | always 201; the saved lists become the find-or-create result and the saved items the idempotent insert into the user's list; only the saved tables may change |
| AppRoutes.FindOrCreateSavedRow | app/app_routes.py:374-378 | returns the id of the user's first saved list and creates one only when the user has none |
| AppRoutes.SaveItemRow | app/app_routes.py:381-385 | the saved items become the idempotent insert of the key, and nothing else changes |
| AppRoutes.GetCartItems | app/app_routes.py:250-304 | 200 exactly when every joined item has `price_at_added`, else 500; on 200 there is one line per joined item in order, `total_items` is their count and `total_price` is the sum of `price_at_added * quantity` |
| AppRoutes.BuildCartView | app/app_routes.py:262-297 | over given joined rows: 200 exactly when each has `price_at_added`, else 500; on 200 one line per row in order, their count, and the sum of `price_at_added * quantity` |
| AppRoutes.LineFor | app/app_routes.py:266-297 | a cart line carries the item's ids, quantity and variant, its product's name, `price_at_added * quantity`, its media urls and its product's variants |
| AppRoutes.ListVariants | app/app_routes.py:113-125 | every variant of the product is listed with the names of its own media |
| AppRoutes.GetProducts | app/app_routes.py:62-151 | 400 exactly when the sort choice is rejected, with nothing listed; otherwise 200 with the chosen ordering and one entry per product that passes the filters, each with its media, rating and variants |
| AppRoutes.Register | app/app_routes.py:154-181 | 400 with nothing inserted exactly when a field is falsy or the email is taken under any provider; otherwise 201 and exactly that user appended; only users may change |
| AppRoutes.ItemOf | app/app_routes.py:210-215 | an order item belongs to the new order and records the payload line's product, quantity and price unchanged |
| AppRoutes.PlaceOrder | app/app_routes.py:196-219 | 401 with nothing changed exactly when identity and payload user differ; otherwise an unchanged total and a pending order are committed; 201 exactly when the items are present and complete, with one order item per payload item carrying the payload's price; otherwise 500 and no order items |
| AdminRoutes.NewProduct | app/admin_routes.py:21-25 | a created product has the payload's name, description and price and no stock, category, feature type, gender, sales or reviews |
| AdminRoutes.AddProduct | app/admin_routes.py:8-31 | 400 with nothing inserted exactly when the name or price is falsy (a price of 0 is rejected); otherwise 201, exactly one product appended and its id returned |
| AdminRoutes.NewProductListed | app/admin_routes.py:21-25 | a created product joins the listing exactly when no listing filter is truthy |
| AdminRoutes.MediaPayloadType | app/admin_routes.py:42-43 | a payload is rejected exactly when `media_type` or `url` is falsy or the type is not image or video |
| AdminRoutes.AddMedia | app/admin_routes.py:34-61 | 400 exactly when the payload is rejected, checked before the product; 404 exactly when a valid payload names a missing product; nothing changes on either; otherwise 201, one media row linked to the product with its type and url appended, its id returned, and it comes last among the product's media |

## Left out

- JWT issuance, `@jwt_required` and `get_jwt_identity` belong to the flask_jwt_extended library. The identity is a parameter of `AppRoutes.PlaceOrder`, and the model does not say what that library does when `/orders`, which lacks `@jwt_required`, reads an identity.
- `verify`: an identity comparison with no store access, the same check that opens `place_order`. It is not modelled separately.
- `home` and `serve_media`: static file serving is file-system I/O.
- `get_all_products` and `get_product_details` are outside the modelled core.
- AppRoutes.GetProducts: does not sort. The entries come in creation order, and the call returns the order key and direction it chose. The database engine applies `order_by`.
- AppRoutes.GetProducts: does not paginate. Flask-SQLAlchemy's `paginate` and its page metadata are left out, so every matching product is returned.
- AdminRoutes.NewProduct: the `sales`, `total_reviews` and `current_rating_sum` columns that the listing reads are not declared on `Product` (`app/models.py:38-51`) and are not set by `add_product`. The model takes them as non-null with default 0, and `totalReviews` as a `nat`. If they defaulted to NULL, the listing's `total_reviews > 0` test (`app/app_routes.py:134`) would raise on a newly added product; the model does not capture that.
- Catalog.AverageRating: gives the exact ratio of rating sum to review count. It does not model the float division and `round(..., 1)`.
- The listing's column-introspection serialisation is left out. A listed product carries the whole modelled row.
- Timestamps (`created_at`, `updated_at`) come from the clock and are left out. Media are ordered by creation, which is position.
- AppRoutes.AddProductToCart: an explicit null `quantity` is taken as absent and defaults to 1. In the source, multiplying by null raises an error.
- AppRoutes.AddProductToCart: `commitOk` stands for any failure of the final commit. The engine's reasons, such as the NOT NULL `price_at_added` column, are not modelled.
- Commits other than the cart route's final one are taken to succeed.
- The engine enforces foreign keys, NOT NULL columns and enum domains. None of this is modelled, so an order or a media row may name any id.
- AppRoutes.GetCartItems: the 500 stands for the error raised when `price_at_added` is null. Flask turns that error into a 500 response; the model returns the code directly.
- AppRoutes.PlaceOrder: a missing `total_amount` or `items` key, or a missing field in an item, answers 500. This stands for the lookup error the source raises. A total that is present but null is not told apart from a missing one.
- JSON values of the wrong type, such as a string id or a fractional quantity, are not modelled. Payload fields are integers or strings.
- Email comparison is exact. The database's case-insensitive collation is not modelled.
- Concurrent requests racing on the same cart or saved list are out of scope for a sequential model.
- Stored media files and their upload are file-system I/O.
