/**
 * The request handlers of apps/shop/views.py that change or query the shop's
 * tables, as methods of one `Store`:
 *
 *   CartView.post          -> Store.ToggleCart
 *   CheckoutView.post      -> Store.Checkout (with Store.CreateOrder, the
 *                             first save of an Order)
 *   OrderItemView.get      -> Store.OrderItemsOf
 *   CreateReviewView.post  -> Store.CreateReview
 *   CreateReviewView.put   -> Store.UpdateReview
 *   ReviewsView.delete     -> Store.DeleteReview
 *
 * The authenticated user, the clock and the random draws are parameters.  A
 * handler answers a `Response`: the HTTP status and the kind of JSON body.
 */
module Shop {
  import opened Wrappers
  import opened Common
  import opened Utils
  import opened Catalog
  import opened Profiles

  /** The JSON body: a `{"message": ...}` object, the serializer's errors, or serialized records. */
  datatype Body = Message(text: string) | ValidationErrors | Serialized

  datatype Response = Response(status: nat, body: Body)

  /** The validated fields of a review request (rating and text). */
  datatype ReviewInput = ReviewInput(rating: Rating, text: string)

  // ---------------------------------------------------------------------
  // Queries over the tables, as predicates on their values
  // ---------------------------------------------------------------------

  /** A line of `user`'s cart: an order item with no order. */
  predicate InCartOf(it: OrderItem, user: UserId)
  {
    it.user == user && it.order.None?
  }

  /** The cart line of `user` for `product`: the key of `update_or_create`. */
  predicate IsCartLine(it: OrderItem, user: UserId, product: Id)
  {
    InCartOf(it, user) && it.product == product
  }

  /** `OrderItem.objects.filter(user=user, order=None).exists()`. */
  predicate HasCart(items: map<Id, OrderItem>, user: UserId)
  {
    exists i :: i in items && InCartOf(items[i], user)
  }

  /** Row `id` is a product the default manager shows under `slug`. */
  predicate LiveProduct(rows: map<Id, Soft<Product>>, id: Id, slug: string)
  {
    id in rows && rows[id].Live() && rows[id].value.slug == slug
  }

  predicate SlugKnown(rows: map<Id, Soft<Product>>, slug: string)
  {
    exists id :: id in rows && LiveProduct(rows, id, slug)
  }

  /** A slug taken from the request body, which may be missing, names product `id`. */
  predicate Resolves(rows: map<Id, Soft<Product>>, slug: Option<string>, id: Id)
  {
    slug.Some? && LiveProduct(rows, id, slug.value)
  }

  /** Row `id` is a review of `product` by `user` that the default manager shows. */
  predicate LiveReview(rows: map<Id, Soft<Review>>, id: Id, user: UserId, product: Id)
  {
    id in rows && rows[id].Live() && rows[id].value.user == user && rows[id].value.product == product
  }

  /** `product.reviews.filter(user=user).exists()`. */
  predicate Reviewed(rows: map<Id, Soft<Review>>, user: UserId, product: Id)
  {
    exists id :: id in rows && LiveReview(rows, id, user, product)
  }

  /** The `tx_ref` values in use. */
  function TxRefs(orders: map<Id, Order>): set<string>
  {
    set o | o in orders :: orders[o].txRef
  }

  /** `orderitems.update(order=order)`: every line of `user`'s cart now belongs to order `oid`. */
  function MoveCart(items: map<Id, OrderItem>, user: UserId, oid: Id): (r: map<Id, OrderItem>)
    ensures r.Keys == items.Keys
    ensures forall i :: i in r ==> r[i].user == items[i].user && r[i].product == items[i].product
                                    && r[i].quantity == items[i].quantity
    ensures forall i :: i in items && InCartOf(items[i], user) ==> r[i].order == Some(oid)
    ensures forall i :: i in items && !InCartOf(items[i], user) ==> r[i] == items[i]
    ensures !HasCart(r, user)
  {
    map i | i in items :: if InCartOf(items[i], user) then items[i].(order := Some(oid)) else items[i]
  }

  /** The keys below `n` whose item satisfies `keep`, in increasing order. */
  function IdsBelow(items: map<Id, OrderItem>, n: nat, keep: OrderItem -> bool): (r: seq<Id>)
    ensures forall x :: x in r ==> x < n && x in items && keep(items[x])
  {
    if n == 0 then []
    else IdsBelow(items, n - 1, keep) + (if n - 1 in items && keep(items[n - 1]) then [n - 1] else [])
  }

  /** `OrderItem.objects.filter(order=order)`, listed by key. */
  function OrderLineIds(items: map<Id, OrderItem>, oid: Id, n: nat): (r: seq<Id>)
    ensures forall x :: x in r <==> x < n && x in items && items[x].order == Some(oid)
    ensures forall j, k :: 0 <= j < k < |r| ==> r[j] < r[k]
  {
    IdsBelowSpec(items, n, (it: OrderItem) => it.order == Some(oid));
    IdsBelow(items, n, (it: OrderItem) => it.order == Some(oid))
  }

  /** `OrderItem.objects.filter(user=user, order=None)`, listed by key. */
  function CartLineIds(items: map<Id, OrderItem>, user: UserId, n: nat): (r: seq<Id>)
    ensures forall x :: x in r <==> x < n && x in items && InCartOf(items[x], user)
    ensures forall j, k :: 0 <= j < k < |r| ==> r[j] < r[k]
  {
    IdsBelowSpec(items, n, (it: OrderItem) => InCartOf(it, user));
    IdsBelow(items, n, (it: OrderItem) => InCartOf(it, user))
  }

  /** The lines `ids`, each with the current price of its product. */
  function Priced(items: map<Id, OrderItem>, products: map<Id, Soft<Product>>, ids: seq<Id>): (r: seq<PricedLine>)
    requires forall i :: i in ids ==> i in items && items[i].product in products
    ensures |r| == |ids|
    ensures forall k :: 0 <= k < |ids| ==>
              LineTotal(r[k]) == products[items[ids[k]].product].value.priceCurrent * items[ids[k]].quantity
  {
    seq(|ids|, k requires 0 <= k < |ids| =>
      PricedLine(products[items[ids[k]].product].value.priceCurrent, items[ids[k]].quantity))
  }

  // ---------------------------------------------------------------------
  // Invariants of the tables
  // ---------------------------------------------------------------------

  /** `slug` is declared unique. */
  predicate SlugsUnique(rows: map<Id, Soft<Product>>)
  {
    forall a, b :: a in rows && b in rows && rows[a].value.slug == rows[b].value.slug ==> a == b
  }

  /** At most one cart line per (user, product): the key of `update_or_create`. */
  predicate CartLinesUnique(items: map<Id, OrderItem>)
  {
    forall a, b ::
      (a in items && b in items && items[a].order.None? && items[b].order.None?
       && items[a].user == items[b].user && items[a].product == items[b].product) ==> a == b
  }

  /** At most one visible review per (user, product), kept by the handlers' existence checks. */
  predicate ReviewsUnique(rows: map<Id, Soft<Review>>)
  {
    forall a, b ::
      (a in rows && b in rows && rows[a].Live() && rows[b].Live()
       && rows[a].value.user == rows[b].value.user && rows[a].value.product == rows[b].value.product) ==> a == b
  }

  /** Hiding a review never creates a second visible review of the same product by the same user. */
  lemma SoftDeleteKeepsReviewsUnique(rows: map<Id, Soft<Review>>, id: Id, now: Time)
    requires ReviewsUnique(rows) && id in rows
    ensures ReviewsUnique(rows[id := rows[id].(isDeleted := true, deletedAt := Some(now))])
  {
  }

  /** `tx_ref` is declared unique. */
  predicate TxRefsUnique(orders: map<Id, Order>)
  {
    forall a, b :: a in orders && b in orders && orders[a].txRef == orders[b].txRef ==> a == b
  }

  // ---------------------------------------------------------------------
  // The outcome of a cart toggle and of a checkout, as relations on values
  // ---------------------------------------------------------------------

  /** The key of `user`'s cart line for `product`, if there is one. */
  ghost function CartLineOf(items: map<Id, OrderItem>, user: UserId, product: Id): (r: Option<Id>)
    ensures r.Some? ==> r.value in items && IsCartLine(items[r.value], user, product)
    ensures r.None? ==> forall i :: i in items ==> !IsCartLine(items[i], user, product)
  {
    if exists i :: i in items && IsCartLine(items[i], user, product) then
      var i :| i in items && IsCartLine(items[i], user, product); Some(i)
    else None
  }

  /**
   * `update_or_create` on the key (user, product, no order) followed by the
   * deletion of a line whose quantity is 0.  A new line takes the key
   * `newKey`; `created` decides 201 over 200 and "Added To" over "Updated In";
   * a quantity of 0 turns the message into "Removed From" and the item into
   * null, even when the line has just been created.
   */
  ghost predicate Toggled(before: map<Id, OrderItem>, newKey: Id, after: map<Id, OrderItem>, nextAfter: Id,
                          user: UserId, product: Id, quantity: nat, resp: Response, item: Option<OrderItem>)
  {
    match CartLineOf(before, user, product)
    case None =>
      && nextAfter == newKey + 1
      && (quantity > 0 ==>
            && after == before[newKey := OrderItem(user, None, product, quantity)]
            && resp == Response(201, Message("Item Added To Cart"))
            && item == Some(OrderItem(user, None, product, quantity)))
      && (quantity == 0 ==>
            && after == before
            && resp == Response(201, Message("Item Removed From Cart"))
            && item == None)
    case Some(i) =>
      && nextAfter == newKey
      && (quantity > 0 ==>
            && after == before[i := before[i].(quantity := quantity)]
            && resp == Response(200, Message("Item Updated In Cart"))
            && item == Some(before[i].(quantity := quantity)))
      && (quantity == 0 ==>
            && after == before - {i}
            && resp == Response(200, Message("Item Removed From Cart"))
            && item == None)
  }

  /**
   * After a toggle the user has exactly the cart line the request asked for:
   * none for quantity 0, one with the requested quantity otherwise.  Lines
   * under any other key keep their keys and values.
   */
  lemma ToggleLeavesRequestedLine(before: map<Id, OrderItem>, newKey: Id, after: map<Id, OrderItem>, nextAfter: Id,
                                  user: UserId, product: Id, quantity: nat, resp: Response, item: Option<OrderItem>)
    requires newKey !in before
    requires CartLinesUnique(before)
    requires Toggled(before, newKey, after, nextAfter, user, product, quantity, resp, item)
    ensures CartLinesUnique(after)
    ensures quantity == 0 ==> item == None && forall i :: i in after ==> !IsCartLine(after[i], user, product)
    ensures quantity > 0 ==> exists i :: i in after && after[i] == OrderItem(user, None, product, quantity)
    ensures quantity > 0 ==> item == Some(OrderItem(user, None, product, quantity))
    ensures forall i :: i in before && !IsCartLine(before[i], user, product) ==> i in after && after[i] == before[i]
    ensures forall i :: i in after && !IsCartLine(after[i], user, product) ==> i in before && before[i] == after[i]
    ensures resp.status == (if CartLineOf(before, user, product).None? then 201 else 200)
  {
    match CartLineOf(before, user, product)
    case None =>
      if quantity > 0 {
        assert after[newKey] == OrderItem(user, None, product, quantity);
      }
    case Some(i) =>
      if quantity > 0 {
        assert after[i] == OrderItem(user, None, product, quantity);
      }
  }

  /** The steps of `CartView.post` after `update_or_create` amount to the outcome `Toggled` describes. */
  lemma ToggleEffect(before: map<Id, OrderItem>, newKey: Id, after: map<Id, OrderItem>, nextAfter: Id,
                     user: UserId, product: Id, quantity: nat, resp: Response, item: Option<OrderItem>,
                     created: bool, id: Id, substring: string)
    requires created <==> CartLineOf(before, user, product).None?
    requires newKey !in before
    requires created ==> id == newKey && nextAfter == newKey + 1
    requires !created ==> CartLineOf(before, user, product) == Some(id) && nextAfter == newKey
    requires var mid := before[id := if created then OrderItem(user, None, product, quantity)
                                     else before[id].(quantity := quantity)];
             after == if quantity == 0 then mid - {id} else mid
    requires substring == (if quantity == 0 then "Removed From" else if created then "Added To" else "Updated In")
    requires resp == Response(if created then 201 else 200, Message("Item " + substring + " Cart"))
    requires item == if substring == "Removed From" then None
                     else Some(if created then OrderItem(user, None, product, quantity) else before[id].(quantity := quantity))
    ensures Toggled(before, newKey, after, nextAfter, user, product, quantity, resp, item)
  {
    if created {
      CreatedLineEffect(before, newKey, after, user, product, quantity, resp, item, substring);
    } else {
      ExistingLineEffect(before, after, user, product, quantity, resp, item, id, substring);
    }
  }

  /** `ToggleEffect` when `update_or_create` created the line under `newKey`. */
  lemma CreatedLineEffect(before: map<Id, OrderItem>, newKey: Id, after: map<Id, OrderItem>,
                          user: UserId, product: Id, quantity: nat, resp: Response, item: Option<OrderItem>,
                          substring: string)
    requires newKey !in before
    requires var mid := before[newKey := OrderItem(user, None, product, quantity)];
             after == if quantity == 0 then mid - {newKey} else mid
    requires substring == (if quantity == 0 then "Removed From" else "Added To")
    requires resp == Response(201, Message("Item " + substring + " Cart"))
    requires item == if substring == "Removed From" then None else Some(OrderItem(user, None, product, quantity))
    ensures quantity > 0 ==> && after == before[newKey := OrderItem(user, None, product, quantity)]
                             && resp == Response(201, Message("Item Added To Cart"))
                             && item == Some(OrderItem(user, None, product, quantity))
    ensures quantity == 0 ==> && after == before
                              && resp == Response(201, Message("Item Removed From Cart"))
                              && item == None
  {
    if quantity == 0 {
      assert substring == "Removed From";
      assert "Item " + "Removed From" + " Cart" == "Item Removed From Cart";
      assert after == before;
    } else {
      assert substring == "Added To" && |substring| != |"Removed From"|;
      assert "Item " + "Added To" + " Cart" == "Item Added To Cart";
    }
  }

  /** `ToggleEffect` when the user already had the line under key `id`. */
  lemma ExistingLineEffect(before: map<Id, OrderItem>, after: map<Id, OrderItem>,
                           user: UserId, product: Id, quantity: nat, resp: Response, item: Option<OrderItem>,
                           id: Id, substring: string)
    requires id in before
    requires var mid := before[id := before[id].(quantity := quantity)];
             after == if quantity == 0 then mid - {id} else mid
    requires substring == (if quantity == 0 then "Removed From" else "Updated In")
    requires resp == Response(200, Message("Item " + substring + " Cart"))
    requires item == if substring == "Removed From" then None else Some(before[id].(quantity := quantity))
    ensures quantity > 0 ==> && after == before[id := before[id].(quantity := quantity)]
                             && resp == Response(200, Message("Item Updated In Cart"))
                             && item == Some(before[id].(quantity := quantity))
    ensures quantity == 0 ==> && after == before - {id}
                              && resp == Response(200, Message("Item Removed From Cart"))
                              && item == None
  {
    if quantity == 0 {
      assert substring == "Removed From";
      assert "Item " + "Removed From" + " Cart" == "Item Removed From Cart";
    } else {
      assert substring == "Updated In" && |substring| != |"Removed From"|;
      assert "Item " + "Updated In" + " Cart" == "Item Updated In Cart";
    }
  }

  /** A toggle stores no line with quantity 0, no line of an unknown product, and no key at or above the counter. */
  lemma ToggleKeepsLineInvariants(before: map<Id, OrderItem>, newKey: Id, after: map<Id, OrderItem>, nextAfter: Id,
                                  user: UserId, product: Id, quantity: nat, resp: Response, item: Option<OrderItem>,
                                  products: map<Id, Soft<Product>>, orders: map<Id, Order>)
    requires forall i :: i in before ==> i < newKey && before[i].quantity > 0 && before[i].product in products
    requires forall i :: i in before && before[i].order.Some? ==> before[i].order.value in orders
    requires product in products
    requires Toggled(before, newKey, after, nextAfter, user, product, quantity, resp, item)
    ensures forall i :: i in after ==> i < nextAfter && after[i].quantity > 0 && after[i].product in products
    ensures forall i :: i in after && after[i].order.Some? ==> after[i].order.value in orders
  {
  }

  /**
   * Moving a cart into an existing order keeps every stored line's
   * product, quantity and key, every order reference valid, at most one
   * cart line per (user, product), and leaves `user` without a cart.
   */
  lemma MoveCartKeepsLineInvariants(items: map<Id, OrderItem>, user: UserId, oid: Id, next: Id,
                                    products: map<Id, Soft<Product>>, orders: map<Id, Order>)
    requires forall i :: i in items ==> i < next && items[i].quantity > 0 && items[i].product in products
    requires forall i :: i in items && items[i].order.Some? ==> items[i].order.value in orders
    requires CartLinesUnique(items) && oid in orders
    ensures var after := MoveCart(items, user, oid);
      && (forall i :: i in after ==> i < next && after[i].quantity > 0 && after[i].product in products)
      && (forall i :: i in after && after[i].order.Some? ==> after[i].order.value in orders)
      && CartLinesUnique(after)
      && !HasCart(after, user)
  {
    var after := MoveCart(items, user, oid);
    forall a, b | a in after && b in after && after[a].order.None? && after[b].order.None?
                  && after[a].user == after[b].user && after[a].product == after[b].product
      ensures a == b
    {
      assert items[a].order.None? && items[b].order.None?;
    }
  }

  /** The order a checkout creates: the user, the code, PENDING twice and the address copied field by field. */
  predicate SnapshotOf(o: Order, user: UserId, code: string, s: ShippingAddress)
  {
    && o.user == user && o.txRef == code
    && o.deliveryStatus == DeliveryStatus.Pending && o.paymentStatus == PaymentStatus.Pending
    && o.dateDelivered == None
    && forall f :: o.Get(f) == s.Get(f)
  }

  /** After moving the cart to a fresh order, the cart is empty and the order holds exactly the former cart lines. */
  lemma {:induction false} MoveCartEmptiesCart(items: map<Id, OrderItem>, user: UserId, oid: Id, n: nat)
    requires forall i :: i in items ==> items[i].order != Some(oid)
    ensures !HasCart(MoveCart(items, user, oid), user)
    ensures OrderLineIds(MoveCart(items, user, oid), oid, n) == CartLineIds(items, user, n)
  {
    var moved := MoveCart(items, user, oid);
    forall x | x < n
      ensures (x in moved && moved[x].order == Some(oid)) <==> (x in items && InCartOf(items[x], user))
    {
    }
    IdsBelowCongruent(moved, (it: OrderItem) => it.order == Some(oid), items, (it: OrderItem) => InCartOf(it, user), n);
  }

  /** Two selections that agree on every key below `n` list the same keys. */
  lemma {:induction false} IdsBelowCongruent(a: map<Id, OrderItem>, ka: OrderItem -> bool,
                                             b: map<Id, OrderItem>, kb: OrderItem -> bool, n: nat)
    requires forall x :: x < n ==> ((x in a && ka(a[x])) <==> (x in b && kb(b[x])))
    ensures IdsBelow(a, n, ka) == IdsBelow(b, n, kb)
  {
    if n > 0 {
      IdsBelowCongruent(a, ka, b, kb, n - 1);
    }
  }

  /** `IdsBelow` lists exactly the selected keys below `n`, each once, in increasing order. */
  lemma {:induction false} IdsBelowSpec(items: map<Id, OrderItem>, n: nat, keep: OrderItem -> bool)
    ensures forall x :: x in IdsBelow(items, n, keep) <==> x < n && x in items && keep(items[x])
    ensures forall j, k :: 0 <= j < k < |IdsBelow(items, n, keep)| ==> IdsBelow(items, n, keep)[j] < IdsBelow(items, n, keep)[k]
  {
    if n > 0 {
      IdsBelowSpec(items, n - 1, keep);
      var prefix := IdsBelow(items, n - 1, keep);
      var r := IdsBelow(items, n, keep);
      forall j, k | 0 <= j < k < |r|
        ensures r[j] < r[k]
      {
        if k >= |prefix| {
          assert r[k] == n - 1 && r[j] == prefix[j] && prefix[j] in prefix;
        }
      }
    }
  }

  /**
   * What the user pays for the order a checkout creates: its subtotal is the
   * sum, at current prices, of the lines that formed the user's cart.
   */
  lemma {:induction false} CheckoutKeepsCartValue(items: map<Id, OrderItem>, products: map<Id, Soft<Product>>,
                                                  user: UserId, oid: Id, n: nat)
    requires forall i :: i in items ==> items[i].order != Some(oid) && items[i].product in products
    ensures var moved := MoveCart(items, user, oid);
            Subtotal(Priced(moved, products, OrderLineIds(moved, oid, n)))
              == Subtotal(Priced(items, products, CartLineIds(items, user, n)))
  {
    var moved := MoveCart(items, user, oid);
    IdsBelowSpec(moved, n, (it: OrderItem) => it.order == Some(oid));
    IdsBelowSpec(items, n, (it: OrderItem) => InCartOf(it, user));
    MoveCartEmptiesCart(items, user, oid, n);
    var ids := CartLineIds(items, user, n);
    assert Priced(moved, products, ids) == Priced(items, products, ids);
  }

  /** With no negative price in the catalogue, no selection of lines has a negative subtotal. */
  lemma PricedSubtotalNonNegative(items: map<Id, OrderItem>, products: map<Id, Soft<Product>>, ids: seq<Id>)
    requires forall i :: i in ids ==> i in items && items[i].product in products
    ensures (forall p :: p in products ==> products[p].value.priceCurrent >= 0) ==>
              Subtotal(Priced(items, products, ids)) >= 0
  {
    var lines := Priced(items, products, ids);
    if forall p :: p in products ==> products[p].value.priceCurrent >= 0 {
      forall l | l in lines
        ensures l.price >= 0
      {
        var k :| 0 <= k < |lines| && lines[k] == l;
        assert ids[k] in ids;
      }
      SubtotalNonNegative(lines);
    }
  }

  // ---------------------------------------------------------------------
  // CheckoutView.post's copy of the address fields
  // ---------------------------------------------------------------------

  /** `fields_to_update`. */
  const FieldsToUpdate: seq<AddressField> := [FullName, Email, Phone, Address, City, Country, Zipcode]

  /** The loop that fills `data` with `getattr(shipping, field)` for each listed field. */
  method SnapshotFields(shipping: ShippingAddress) returns (data: map<AddressField, Option<string>>)
    ensures forall f :: f in data && data[f] == shipping.Get(f)
  {
    data := map[];
    for k := 0 to |FieldsToUpdate|
      invariant forall j :: 0 <= j < k ==> FieldsToUpdate[j] in data
      invariant forall f :: f in data ==> data[f] == shipping.Get(f)
    {
      var field := FieldsToUpdate[k];
      data := data[field := shipping.Get(field)];
    }
    forall f: AddressField
      ensures f in data
    {
      match f
      case FullName => assert FieldsToUpdate[0] == f;
      case Email => assert FieldsToUpdate[1] == f;
      case Phone => assert FieldsToUpdate[2] == f;
      case Address => assert FieldsToUpdate[3] == f;
      case City => assert FieldsToUpdate[4] == f;
      case Country => assert FieldsToUpdate[5] == f;
      case Zipcode => assert FieldsToUpdate[6] == f;
    }
  }

  // ---------------------------------------------------------------------
  // The store
  // ---------------------------------------------------------------------

  class Store {
    const products: SoftTable<Product>
    const reviews: SoftTable<Review>
    var shipping: map<Id, ShippingAddress>
    var orders: map<Id, Order>
    var items: map<Id, OrderItem>
    /** The next unused key for orders and order items. */
    var nextId: Id

    ghost predicate Valid()
      reads this, products, reviews
    {
      && products.Valid() && reviews.Valid()
      && SlugsUnique(products.rows)
      && ReviewsUnique(reviews.rows)
      && (forall o :: o in orders ==> o < nextId)
      && (forall i :: i in items ==> i < nextId && items[i].quantity > 0 && items[i].product in products.rows)
      && (forall i :: i in items && items[i].order.Some? ==> items[i].order.value in orders)
      && CartLinesUnique(items)
      && TxRefsUnique(orders)
    }

    constructor ()
      ensures Valid() && fresh(products) && fresh(reviews)
      ensures products.rows == map[] && reviews.rows == map[]
      ensures shipping == map[] && orders == map[] && items == map[]
    {
      products := new SoftTable<Product>();
      reviews := new SoftTable<Review>();
      shipping, orders, items, nextId := map[], map[], map[], 0;
    }

    /** `Product.objects.get_or_none(slug=slug)`. */
    method FindProduct(slug: string) returns (p: Option<Id>)
      ensures p.Some? ==> LiveProduct(products.rows, p.value, slug)
      ensures p.None? <==> !SlugKnown(products.rows, slug)
    {
      if SlugKnown(products.rows, slug) {
        var id :| id in products.rows && LiveProduct(products.rows, id, slug);
        p := Some(id);
      } else {
        p := None;
      }
    }

    /** `CartView.post`: add, update or remove the user's cart line for the product named by `slug`. */
    method ToggleCart(user: UserId, slug: string, quantity: nat) returns (resp: Response, item: Option<OrderItem>)
      requires Valid()
      modifies this
      ensures Valid()
      ensures shipping == old(shipping) && orders == old(orders)
      ensures !SlugKnown(products.rows, slug) ==>
                && resp == Response(404, Message("No Product with that slug")) && item == None
                && items == old(items) && nextId == old(nextId)
      ensures forall pid :: LiveProduct(products.rows, pid, slug) ==>
                Toggled(old(items), old(nextId), items, nextId, user, pid, quantity, resp, item)
    {
      var p := FindProduct(slug);
      if p.None? {
        resp, item := Response(404, Message("No Product with that slug")), None;
        return;
      }
      resp, item := ToggleLine(user, p.value, quantity);
      forall q | LiveProduct(products.rows, q, slug)
        ensures q == p.value
      {
      }
    }

    /**
     * `OrderItem.objects.update_or_create(user=user, order_id=None,
     * product=product, defaults={'quantity': quantity})`: sets the quantity
     * of the existing cart line, or creates one; `created` tells which.
     */
    method UpdateOrCreate(user: UserId, pid: Id, quantity: nat) returns (id: Id, created: bool)
      requires CartLinesUnique(items)
      requires forall i :: i in items ==> i < nextId
      modifies this
      ensures created <==> CartLineOf(old(items), user, pid).None?
      ensures created ==> id == old(nextId) && nextId == old(nextId) + 1
                          && items == old(items)[id := OrderItem(user, None, pid, quantity)]
      ensures !created ==> CartLineOf(old(items), user, pid) == Some(id) && nextId == old(nextId)
                           && items == old(items)[id := old(items)[id].(quantity := quantity)]
      ensures shipping == old(shipping) && orders == old(orders)
    {
      if exists i :: i in items && IsCartLine(items[i], user, pid) {
        id :| id in items && IsCartLine(items[id], user, pid);
        assert CartLineOf(items, user, pid) == Some(id);
        items := items[id := items[id].(quantity := quantity)];
        created := false;
      } else {
        id := nextId;
        nextId := nextId + 1;
        items := items[id := OrderItem(user, None, pid, quantity)];
        created := true;
      }
    }

    /** The body of `CartView.post` once the product is found. */
    method ToggleLine(user: UserId, pid: Id, quantity: nat) returns (resp: Response, item: Option<OrderItem>)
      requires Valid() && pid in products.rows
      modifies this
      ensures Valid()
      ensures shipping == old(shipping) && orders == old(orders)
      ensures Toggled(old(items), old(nextId), items, nextId, user, pid, quantity, resp, item)
    {
      ghost var before, oldNext := items, nextId;
      var id, created := UpdateOrCreate(user, pid, quantity);

      var substring := "Updated In";
      var status := 200;
      if created {
        status := 201;
        substring := "Added To";
      }
      var line := items[id];
      item := None;
      if line.quantity == 0 {
        substring := "Removed From";
        items := items - {id};
      }
      if substring != "Removed From" {
        item := Some(line);
      }
      resp := Response(status, Message("Item " + substring + " Cart"));
      assert oldNext !in before;
      ToggleEffect(before, oldNext, items, nextId, user, pid, quantity, resp, item, created, id, substring);
      ToggleLeavesRequestedLine(before, oldNext, items, nextId, user, pid, quantity, resp, item);
      ToggleKeepsLineInvariants(before, oldNext, items, nextId, user, pid, quantity, resp, item, products.rows, orders);
    }

    /**
     * `Order.objects.create(user=user, **data)`: the first save of an order,
     * which is when `Order.save` draws its `tx_ref`.  The rounds must hold a
     * code not yet in use.
     */
    method CreateOrder(user: UserId, data: map<AddressField, Option<string>>, rounds: seq<Round>) returns (id: Id)
      requires Valid()
      requires forall f :: f in data
      requires GenerateUniqueCode(rounds, TxRefs(orders)).Some?
      modifies this
      ensures Valid()
      ensures id == old(nextId) && id !in old(orders) && nextId == old(nextId) + 1
      ensures orders == old(orders)[id := NewOrder(user, GenerateUniqueCode(rounds, TxRefs(old(orders))).value, data)]
      ensures IsCode(orders[id].txRef) && orders[id].txRef !in TxRefs(old(orders))
      ensures items == old(items) && shipping == old(shipping)
    {
      var code := GenerateUniqueCode(rounds, TxRefs(orders)).value;
      id := nextId;
      orders := orders[id := NewOrder(user, code, data)];
      nextId := nextId + 1;
      forall a | a in old(orders)
        ensures orders[a].txRef != code
      {
        assert old(orders)[a].txRef in TxRefs(old(orders));
      }
    }

    /**
     * `Order.save` of an order loaded from the table: no new `tx_ref` is
     * drawn, the instance is written as it is.  The unique constraint on
     * `tx_ref` rejects a value another order holds.
     */
    method SaveOrder(id: Id, o: Order) returns (ok: bool)
      requires Valid() && id in orders
      modifies this
      ensures Valid()
      ensures ok <==> forall k :: k in old(orders) && k != id ==> old(orders)[k].txRef != o.txRef
      ensures ok ==> orders == old(orders)[id := o]
      ensures !ok ==> orders == old(orders)
      ensures o.txRef == old(orders)[id].txRef ==> ok && orders[id].txRef == old(orders)[id].txRef
      ensures items == old(items) && shipping == old(shipping) && nextId == old(nextId)
    {
      ok := forall k :: k in orders && k != id ==> orders[k].txRef != o.txRef;
      if ok {
        orders := orders[id := o];
      }
    }

    /**
     * `CheckoutView.post`: with a non-empty cart and a known shipping
     * address (whoever owns it), create one order carrying a copy of the
     * address and move every line of the user's cart into it.
     */
    method Checkout(user: UserId, shippingId: Id, rounds: seq<Round>) returns (resp: Response, order: Option<Id>)
      requires Valid()
      requires HasCart(items, user) && shippingId in shipping ==> GenerateUniqueCode(rounds, TxRefs(orders)).Some?
      modifies this
      ensures Valid()
      ensures shipping == old(shipping)
      ensures !HasCart(old(items), user) ==>
                && resp == Response(404, Message("No Items in Cart")) && order == None
                && items == old(items) && orders == old(orders) && nextId == old(nextId)
      ensures HasCart(old(items), user) && shippingId !in shipping ==>
                && resp == Response(404, Message("No Shipping Address with this ID")) && order == None
                && items == old(items) && orders == old(orders) && nextId == old(nextId)
      ensures HasCart(old(items), user) && shippingId in shipping ==>
                && resp == Response(200, Message("Checkout Successful"))
                && order == Some(old(nextId)) && old(nextId) !in old(orders) && nextId == old(nextId) + 1
                && orders.Keys == old(orders).Keys + {old(nextId)}
                && (forall o :: o in old(orders) ==> orders[o] == old(orders)[o])
                && SnapshotOf(orders[old(nextId)], user, GenerateUniqueCode(rounds, TxRefs(old(orders))).value,
                              shipping[shippingId])
                && IsCode(orders[old(nextId)].txRef)
                && items == MoveCart(old(items), user, old(nextId))
                && !HasCart(items, user)
    {
      if !HasCart(items, user) {
        resp, order := Response(404, Message("No Items in Cart")), None;
        return;
      }
      if shippingId !in shipping {
        resp, order := Response(404, Message("No Shipping Address with this ID")), None;
        return;
      }
      var oid := PlaceOrder(user, shippingId, rounds);
      resp, order := Response(200, Message("Checkout Successful")), Some(oid);
    }

    /** The successful end of `CheckoutView.post`: snapshot the address, create the order, move the cart. */
    method PlaceOrder(user: UserId, shippingId: Id, rounds: seq<Round>) returns (oid: Id)
      requires Valid() && shippingId in shipping
      requires GenerateUniqueCode(rounds, TxRefs(orders)).Some?
      modifies this
      ensures Valid()
      ensures shipping == old(shipping)
      ensures oid == old(nextId) && oid !in old(orders) && nextId == old(nextId) + 1
      ensures orders.Keys == old(orders).Keys + {oid}
      ensures forall o :: o in old(orders) ==> orders[o] == old(orders)[o]
      ensures SnapshotOf(orders[oid], user, GenerateUniqueCode(rounds, TxRefs(old(orders))).value, shipping[shippingId])
      ensures IsCode(orders[oid].txRef)
      ensures items == MoveCart(old(items), user, oid)
      ensures !HasCart(items, user)
    {
      var data := SnapshotFields(shipping[shippingId]);
      oid := CreateOrder(user, data, rounds);
      MoveCartTo(user, oid);
    }

    /** `orderitems.update(order=order)`: the bulk move of `user`'s cart lines into order `oid`. */
    method MoveCartTo(user: UserId, oid: Id)
      requires Valid() && oid in orders
      modifies this
      ensures Valid()
      ensures items == MoveCart(old(items), user, oid)
      ensures !HasCart(items, user)
      ensures orders == old(orders) && shipping == old(shipping) && nextId == old(nextId)
    {
      MoveCartKeepsLineInvariants(items, user, oid, nextId, products.rows, orders);
      items := MoveCart(items, user, oid);
    }

    /**
     * `Order.get_cart_subtotal` (and `get_cart_total`, which equals it) of
     * order `oid`: its lines at their products' current prices.
     */
    function OrderSubtotal(oid: Id): (total: int)
      reads this, products, reviews
      requires Valid()
      ensures (forall i :: i in items ==> items[i].order != Some(oid)) ==> total == 0
      ensures (forall p :: p in products.rows ==> products.rows[p].value.priceCurrent >= 0) ==> total >= 0
    {
      IdsBelowSpec(items, nextId, (it: OrderItem) => it.order == Some(oid));
      var ids := OrderLineIds(items, oid, nextId);
      PricedSubtotalNonNegative(items, products.rows, ids);
      assert (forall i :: i in items ==> items[i].order != Some(oid)) ==> ids == [] by {
        if ids != [] {
          assert ids[0] in ids;
        }
      }
      CartTotal(Priced(items, products.rows, ids))
    }

    /**
     * `OrderItemView.get`: the lines of the order with this `tx_ref`, or 404
     * when no order has it or the order is another user's.
     */
    method OrderItemsOf(user: UserId, txRef: string) returns (resp: Response, lines: seq<Id>)
      requires Valid()
      ensures resp == Response(200, Serialized) || resp == Response(404, Message("Order does not exist!"))
      ensures resp.status == 200 <==> exists o :: o in orders && orders[o].txRef == txRef && orders[o].user == user
      ensures resp.status == 200 ==> forall o :: o in orders && orders[o].txRef == txRef ==>
                forall i :: i in lines <==> i in items && items[i].order == Some(o)
      ensures resp.status == 200 ==> forall j, k :: 0 <= j < k < |lines| ==> lines[j] < lines[k]
      ensures resp.status == 404 ==> lines == []
    {
      if !exists o :: o in orders && orders[o].txRef == txRef {
        return Response(404, Message("Order does not exist!")), [];
      }
      var o :| o in orders && orders[o].txRef == txRef;
      if orders[o].user != user {
        return Response(404, Message("Order does not exist!")), [];
      }
      lines := OrderLineIds(items, o, nextId);
      IdsBelowSpec(items, nextId, (it: OrderItem) => it.order == Some(o));
      resp := Response(200, Serialized);
    }

    /** `CreateReviewView.post`: a user reviews a product at most once. */
    method CreateReview(user: UserId, slug: Option<string>, input: Option<ReviewInput>) returns (resp: Response)
      requires Valid()
      modifies reviews
      ensures Valid()
      ensures resp.status != 201 ==> reviews.nextId == old(reviews.nextId)
      ensures (forall pid :: !Resolves(products.rows, slug, pid)) ==>
                resp == Response(404, Message("Product with this slug does not exist!"))
                && reviews.rows == old(reviews.rows)
      ensures forall pid :: Resolves(products.rows, slug, pid) ==>
                && (Reviewed(old(reviews.rows), user, pid) ==>
                      resp == Response(400, Message("You have already reviewed this product!"))
                      && reviews.rows == old(reviews.rows))
                && (!Reviewed(old(reviews.rows), user, pid) && input.None? ==>
                      resp == Response(400, ValidationErrors) && reviews.rows == old(reviews.rows))
                && (!Reviewed(old(reviews.rows), user, pid) && input.Some? ==>
                      && resp == Response(201, Serialized)
                      && old(reviews.nextId) !in old(reviews.rows)
                      && reviews.rows == old(reviews.rows)[old(reviews.nextId) :=
                           Fresh(Review(user, pid, input.value.rating, input.value.text))]
                      && reviews.nextId == old(reviews.nextId) + 1)
                && Reviewed(reviews.rows, user, pid)
                   == (Reviewed(old(reviews.rows), user, pid) || input.Some?)
    {
      var p := None;
      if slug.Some? {
        p := FindProduct(slug.value);
      }
      if p.None? {
        return Response(404, Message("Product with this slug does not exist!"));
      }
      var pid := p.value;
      assert Resolves(products.rows, slug, pid);
      forall q | Resolves(products.rows, slug, q)
        ensures q == pid
      {
      }
      if Reviewed(reviews.rows, user, pid) {
        return Response(400, Message("You have already reviewed this product!"));
      }
      if input.None? {
        return Response(400, ValidationErrors);
      }
      var id := reviews.Create(Review(user, pid, input.value.rating, input.value.text));
      assert LiveReview(reviews.rows, id, user, pid);
      resp := Response(201, Serialized);
    }

    /** `CreateReviewView.put`: overwrite the rating and text of the user's existing review. */
    method UpdateReview(user: UserId, slug: Option<string>, input: Option<ReviewInput>) returns (resp: Response)
      requires Valid()
      modifies reviews
      ensures Valid()
      ensures (forall pid :: !Resolves(products.rows, slug, pid)) ==>
                resp == Response(404, Message("Product with this slug does not exist!"))
                && reviews.rows == old(reviews.rows)
      ensures forall pid :: Resolves(products.rows, slug, pid) ==>
                && (!Reviewed(old(reviews.rows), user, pid) ==>
                      resp == Response(400, Message("You did not reviewed this product!"))
                      && reviews.rows == old(reviews.rows))
                && (Reviewed(old(reviews.rows), user, pid) && input.None? ==>
                      resp == Response(400, ValidationErrors) && reviews.rows == old(reviews.rows))
                && (forall r :: LiveReview(old(reviews.rows), r, user, pid) && input.Some? ==>
                      && resp == Response(200, Message("Your review successfully updated!"))
                      && reviews.rows == old(reviews.rows)[r := old(reviews.rows)[r].(value :=
                           old(reviews.rows)[r].value.(rating := input.value.rating, text := input.value.text))])
                && Reviewed(reviews.rows, user, pid) == Reviewed(old(reviews.rows), user, pid)
      ensures reviews.nextId == old(reviews.nextId)
    {
      var p := None;
      if slug.Some? {
        p := FindProduct(slug.value);
      }
      if p.None? {
        return Response(404, Message("Product with this slug does not exist!"));
      }
      var pid := p.value;
      assert Resolves(products.rows, slug, pid);
      forall q | Resolves(products.rows, slug, q)
        ensures q == pid
      {
      }
      if !Reviewed(reviews.rows, user, pid) {
        return Response(400, Message("You did not reviewed this product!"));
      }
      if input.None? {
        return Response(400, ValidationErrors);
      }
      var id :| id in reviews.rows && LiveReview(reviews.rows, id, user, pid);
      var review := reviews.rows[id].value;
      reviews.Update(id, review.(rating := input.value.rating, text := input.value.text));
      assert LiveReview(reviews.rows, id, user, pid);
      resp := Response(200, Message("Your review successfully updated!"));
    }

    /** `ReviewsView.delete`: soft-delete the user's review of the product. */
    method DeleteReview(user: UserId, slug: string, now: Time) returns (resp: Response)
      requires Valid()
      modifies reviews
      ensures Valid()
      ensures !SlugKnown(products.rows, slug) ==>
                resp == Response(404, Message("Product with this slug does not exist!"))
                && reviews.rows == old(reviews.rows)
      ensures forall pid :: LiveProduct(products.rows, pid, slug) ==>
                && (!Reviewed(old(reviews.rows), user, pid) ==>
                      resp == Response(400, Message("You did not reviewed this product!"))
                      && reviews.rows == old(reviews.rows))
                && (forall r :: LiveReview(old(reviews.rows), r, user, pid) ==>
                      && resp == Response(204, Message("Review deleted successfully"))
                      && reviews.rows == old(reviews.rows)[r := old(reviews.rows)[r].(isDeleted := true, deletedAt := Some(now))])
                && !Reviewed(reviews.rows, user, pid)
      ensures reviews.nextId == old(reviews.nextId)
    {
      var p := FindProduct(slug);
      if p.None? {
        return Response(404, Message("Product with this slug does not exist!"));
      }
      var pid := p.value;
      forall q | LiveProduct(products.rows, q, slug)
        ensures q == pid
      {
      }
      if !Reviewed(reviews.rows, user, pid) {
        return Response(400, Message("You did not reviewed this product!"));
      }
      var id :| id in reviews.rows && LiveReview(reviews.rows, id, user, pid);
      ghost var before := reviews.rows;
      forall r | LiveReview(before, r, user, pid)
        ensures r == id
      {
      }
      var ok := reviews.Delete(id, now);
      assert reviews.rows == before[id := before[id].(isDeleted := true, deletedAt := Some(now))];
      SoftDeleteKeepsReviewsUnique(before, id, now);
      assert !Reviewed(reviews.rows, user, pid) by {
        forall r | r in reviews.rows
          ensures !LiveReview(reviews.rows, r, user, pid)
        {
          if r != id {
            assert !LiveReview(before, r, user, pid);
          }
        }
      }
      resp := Response(204, Message("Review deleted successfully"));
    }
  }
}
