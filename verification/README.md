# DRF shop: cart, checkout, orders and reviews, modelled in Dafny

The system is a Django REST shop. A signed-in user:

- puts products into a cart and changes or removes them (`CartView.post`);
- turns the cart into an order carrying a copy of a shipping address (`CheckoutView.post`);
- looks at the lines of one of their orders by its transaction reference (`OrderItemView.get`);
- has at most one visible review of a product at a time, which they can edit or delete; after deleting it they may review the product again (`CreateReviewView.post` / `put`, `ReviewsView.delete`).

Orders get a random 12-character `tx_ref` on their first save (`generate_unique_code`). Products and reviews are soft-deletable records (`IsDeletedModel`).

The model has one module per source file:

- `Common` (apps/common/models.py):
  - record keys;
  - the soft-delete row `Soft<T>`;
  - the table class `SoftTable<T>` with create, update, soft delete and hard delete.
- `Utils` (apps/common/utils.py):
  - `GenerateUniqueCode` over supplied random draws;
  - `SetDictAttr`, a loop over an object's attribute map.
- `Catalog` (apps/shop/models.py): the product and review records, with the 1–5 rating domain.
- `Profiles` (apps/profiles/models.py):
  - the two status vocabularies;
  - shipping addresses, orders and order lines;
  - the line total, subtotal and total of an order, with lemmas about them.
- `Shop` (apps/shop/views.py):
  - the `Store` class holding the tables, with one method per handler;
  - the table invariants the handlers keep (unique slugs, at most one cart line and at most one visible review per (user, product), unique `tx_ref`, every key below the id counter);
  - value-level relations (`Toggled`, `SnapshotOf`, `MoveCart`) that the methods are proved against.

Modelling choices:

- Prices are integer cents.
- Times are parameters.
- Record keys are naturals drawn from a counter above every key in use, in place of uuid4.
- A call to `secrets.choice` is a draw: an index below 35 into the alphabet. One attempt of `generate_unique_code` consumes one round of twelve draws.
- The default managers of soft-deletable models are taken to hide soft-deleted rows.
- An HTTP response is a status plus a body. The body is a message, "validation errors" or "serialized data".

The checkout handler only checks that the shipping address id exists (apps/shop/views.py:211). Any user's address is accepted and copied. The model follows the code: `Store.Checkout` accepts any stored address.

## Model

| member | source | states |
|---|---|---|
| Common.SoftTable.constructor | apps/common/models.py:9 | A new table is empty and its key counter starts at 0. |
| Common.SoftTable.Create | apps/common/models.py:20-21 | The record is stored under a key no row used before. It starts with is_deleted false and deleted_at null. No other row changes, and keys stay unique (Valid). |
| Common.SoftTable.Update | apps/shop/views.py:347-349 | Saving a loaded record overwrites its fields. Its deletion state and every other row are kept. |
| Common.SoftTable.Delete | apps/common/models.py:29-32 | Soft delete sets is_deleted and stamps deleted_at with the given time. The row stays stored with its fields unchanged, and every other row is unchanged. Deleting a row that is not stored changes nothing. |
| Common.SoftTable.HardDelete | apps/common/models.py:34-35 | The row leaves storage. All other rows keep their keys and values. |
| Utils.Candidate | apps/common/utils.py:7-8 | The code built from one round is 12 characters. Character k is the alphabet letter at draw k. |
| Utils.AlphabetAt | apps/common/utils.py:7 | Every alphabet character is an upper-case letter or a digit 1–9. |
| Utils.CodeAvoidsZeroAndLowerCase | apps/common/utils.py:7-8 | A well-formed code contains neither '0' nor any lower-case letter. |
| Utils.GenerateUniqueCode | apps/common/utils.py:6-13 | A returned code is well-formed and in use by no record. It is the candidate of the first round whose candidate is free, and every earlier candidate was taken, so a colliding candidate is never returned. The result is None exactly when every supplied round collides. |
| Utils.Obj.constructor | apps/common/utils.py:15 | An object starts with the given attributes. |
| Utils.SetDictAttr | apps/common/utils.py:15-18 | Every key of data holds the given value. Every other attribute keeps its value, no attribute is lost, and the very object passed in is returned. |
| Profiles.DeliveryStatus.Label | apps/profiles/models.py:26-32 | Each delivery status is stored as a non-empty string that fits the 20-character column. |
| Profiles.PaymentStatus.Label | apps/profiles/models.py:34-40 | Each payment status is stored as a non-empty string that fits the 20-character column. |
| Profiles.LabelsDistinct | apps/profiles/models.py:26-47 | Distinct statuses are stored as distinct strings, so a stored value determines the choice. |
| Profiles.NewOrder | apps/profiles/models.py:42-57 | A new order belongs to the user and carries the given tx_ref. Both statuses are PENDING, date_delivered is null, and each address field comes from data. |
| Profiles.LineTotal | apps/profiles/models.py:86-87 | get_total is the product's current price times the quantity: 0 for quantity 0, never negative for a non-negative price, and positive for a positive quantity exactly when the price is positive. `Shop.Priced` ties each priced line to its product's price_current. |
| Profiles.Subtotal | apps/profiles/models.py:67-71 | get_cart_subtotal sums price × quantity over the order's lines. It is 0 with no lines or when every quantity is 0. It is additive (SubtotalAppend), independent of listing order (SubtotalPermutation) and non-negative under non-negative prices (SubtotalNonNegative). |
| Profiles.CartTotal | apps/profiles/models.py:73-76 | get_cart_total equals get_cart_subtotal, and it is 0 for an order without lines. |
| Profiles.SubtotalAppend | apps/profiles/models.py:67-71 | The subtotal of two groups of lines is the sum of their subtotals. |
| Profiles.SubtotalRemove | apps/profiles/models.py:67-71 | Removing one line lowers the subtotal by exactly that line's total (price × quantity). |
| Profiles.SubtotalPermutation | apps/profiles/models.py:67-71 | The subtotal does not depend on the order in which the lines are listed. |
| Profiles.SubtotalNonNegative | apps/profiles/models.py:67-71 | With non-negative prices the subtotal is non-negative. With no lines it is 0. |
| Shop.MoveCart | apps/shop/views.py:232 | The bulk update keeps every key, user, product and quantity. Every former cart line of the user now belongs to the order, every other line is unchanged, and the user has no cart left. |
| Shop.OrderLineIds | apps/shop/views.py:270 | filter(order=order) lists exactly the stored lines of the order, each once, in increasing key order. |
| Shop.CartLineIds | apps/shop/views.py:201 | filter(user=user, order=None) lists exactly the user's cart lines, each once, in increasing key order. |
| Shop.Priced | apps/profiles/models.py:86-87 | One priced line per listed id. Each line's total is its product's current price times the item's quantity, as get_total reads self.product.price_current. |
| Shop.IdsBelow | apps/shop/views.py:201 | Every listed key is a stored line that satisfies the filter. |
| Shop.IdsBelowSpec | apps/shop/views.py:270 | The filter lists every stored line that satisfies the predicate and only those. Each appears once, in increasing key order. |
| Shop.IdsBelowCongruent | apps/shop/views.py:232 | Two stores whose filters select the same keys give the same listing. |
| Shop.CartLineOf | apps/shop/views.py:168-173 | The lookup key of update_or_create finds a cart line of the user for the product, or reports that there is none. |
| Shop.ToggleEffect | apps/shop/views.py:168-187 | The handler's steps produce the outcome Toggled describes, with the correct status, message and item in all four cases. |
| Shop.CreatedLineEffect | apps/shop/views.py:175-187 | A created line answers 201. It answers "Item Added To Cart" with the item when the quantity is positive. With quantity 0 it answers "Item Removed From Cart" with a null item, and the store is as before. |
| Shop.ExistingLineEffect | apps/shop/views.py:175-187 | An existing line answers 200. With a positive quantity the line's quantity is updated ("Item Updated In Cart"). With quantity 0 the line is deleted ("Item Removed From Cart", null item). |
| Shop.ToggleLeavesRequestedLine | apps/shop/views.py:168-187 | After a toggle the user has no line for the product when the quantity is 0, and otherwise exactly one line, with the requested quantity. Other lines are untouched. At most one cart line per (user, product) remains. The status is 201 exactly when no line existed. |
| Shop.ToggleKeepsLineInvariants | apps/shop/views.py:168-182 | A toggle never stores a line with quantity 0, a line of an unknown product, or a key at or above the counter. |
| Shop.SoftDeleteKeepsReviewsUnique | apps/shop/views.py:303 | Soft-deleting a review never creates a second visible review for a (user, product). |
| Shop.MoveCartKeepsLineInvariants | apps/shop/views.py:232 | After the bulk move every line still has a key below the counter, a positive quantity and a known product. Order references stay valid, cart lines stay unique, and the user is left without a cart. |
| Shop.MoveCartEmptiesCart | apps/shop/views.py:201-232 | After the move the user's cart is empty. The new order's lines are exactly the former cart lines. |
| Shop.CheckoutKeepsCartValue | apps/shop/views.py:232 | The new order's subtotal equals the subtotal of the cart it came from. |
| Shop.PricedSubtotalNonNegative | apps/profiles/models.py:86-87 | With no negative price, any selection of lines priced at current prices has a non-negative subtotal. |
| Shop.SnapshotFields | apps/shop/views.py:217-229 | The loop fills data with all seven address fields. Each holds the shipping address's value. |
| Shop.Store.constructor | apps/profiles/models.py:9-87 | A new store is empty and satisfies every table invariant. |
| Shop.Store.FindProduct | apps/shop/views.py:164 | get_or_none on the slug finds the product with that slug, or None exactly when no visible product has it. |
| Shop.Store.ToggleCart | apps/shop/views.py:157-187 | An unknown slug answers 404 "No Product with that slug" and changes nothing. Otherwise the cart changes as Toggled describes. Addresses and orders are untouched and the invariants are kept. |
| Shop.Store.UpdateOrCreate | apps/shop/views.py:168-173 | update_or_create sets the quantity of the user's existing cart line for the product. It creates the line under a fresh key exactly when none existed. |
| Shop.Store.ToggleLine | apps/shop/views.py:168-187 | With the product found, the toggle has the Toggled outcome and keeps every table invariant. |
| Shop.Store.CreateOrder | apps/profiles/models.py:62-65 | The first save draws a fresh tx_ref: a well-formed code that no existing order uses. The order is a NewOrder of the data under a new key. Nothing else changes. |
| Shop.Store.SaveOrder | apps/profiles/models.py:62-65 | A later save draws no new code. It writes the instance as it is unless another order holds its tx_ref. Saving an order with its own tx_ref always succeeds and leaves tx_ref unchanged. |
| Shop.Store.Checkout | apps/shop/views.py:199-235 | An empty cart answers 404 "No Items in Cart" and an unknown address id answers 404 "No Shipping Address with this ID". Neither changes anything. Otherwise exactly one new order is created under the next key (the counter advances by one) with the address fields copied, existing orders are unchanged, every cart line moves to the new order and the cart is left empty. |
| Shop.Store.PlaceOrder | apps/shop/views.py:217-232 | The success path creates one order that snapshots the address and moves the whole cart into it. |
| Shop.Store.MoveCartTo | apps/shop/views.py:232 | Every cart line of the user now belongs to the order. Other lines and the orders are unchanged, and the invariants are kept. |
| Shop.Store.OrderSubtotal | apps/profiles/models.py:67-71 | An order with no lines has subtotal 0. With non-negative prices no order's subtotal is negative. |
| Shop.Store.OrderItemsOf | apps/shop/views.py:266-273 | The handler answers 200 exactly when an order with that tx_ref exists and belongs to the user. The lines listed are then exactly that order's lines, each once, in increasing key order. Otherwise it answers 404 "Order does not exist!" with no lines. |
| Shop.Store.CreateReview | apps/shop/views.py:316-332 | An unknown slug answers 404. An existing review answers 400 and changes nothing, and so does invalid input. Otherwise a new visible review is stored under the next key (201) and the review counter advances by one; on every other answer it stays. Afterwards the user has reviewed the product exactly when they had before or the input was valid. |
| Shop.Store.UpdateReview | apps/shop/views.py:334-352 | An unknown slug answers 404. A missing review answers 400 and changes nothing, and so does invalid input. Otherwise only that review's rating and text are overwritten (200). Whether the user has reviewed the product is unchanged. |
| Shop.Store.DeleteReview | apps/shop/views.py:294-304 | An unknown slug answers 404. A missing review answers 400 and changes nothing. Otherwise the review is soft-deleted at the given time (204). Afterwards the user has no visible review of the product. |

## Left out

- Listing, filtering and pagination handlers: categories, products, the cart listing and `OrderView.get`. They are plain queries.
- Routing, schema decorators, image fields, and the serializer field declarations. The ones used are the quantity ≥ 0 of the toggle serializer (a `nat` parameter) and the 1–5 rating domain (the `Rating` type). The float projection of totals in the serializers is floating point and is not modelled.
- Request validation of reviews: the review serializer is not part of this model. Its verdict is an input, where `None` stands for invalid data answered with 400 and the errors.
- Response bodies beyond the message: "serialized" stands for whatever the serializer renders.
- `created_at` / `updated_at` timestamps and the `-created_at` ordering. Listings in the model go by increasing key. `SubtotalPermutation` shows that totals do not depend on the listing order.
- Concurrency and database atomicity, including the race between a review existence check and the insert.
- Randomness: uuid4 keys become a counter. `secrets.choice` becomes a supplied list of rounds of draws.
- `Utils.GenerateUniqueCode`: returns `None` when every supplied round collides. The source instead retries without bound, and its termination is not modelled.
- `Shop.Store.CreateOrder` and `Shop.Store.Checkout`: both require that the supplied rounds contain a code no order uses. For `Checkout` the requirement applies only when the cart is non-empty and the address exists, the one path that creates an order. The never-ending retry of the source is not modelled.
- The internals of `GetOrNoneManager` and `IsDeletedManager` are not part of this model. The default manager is taken to hide soft-deleted rows, and `get_or_none` to return the single match or nothing.
- The branch at apps/shop/views.py:215, taken when there is no shipping id, is not modelled. The serializer requires the id before the branch is reached. In the model the id is always given.
- Cascading deletes: hard-deleting a product or review does not remove dependent rows.
- `Shop.Store.UpdateReview`: `set_dict_attr` also puts the `product_slug` of the request on the review instance. That attribute is not a column and is not saved, so the model overwrites only rating and text. It writes them directly: `Utils.SetDictAttr` is modelled and proved on its own, over a uniform attribute map, and the review update does not go through it because a review's fields have different types.
- `Shop.Store.Checkout`: whether the address belongs to the user is not checked, as in the code.
- The `seller` and `category` of products, `price_old`, and the other user/seller fields are not read by the modelled handlers.
