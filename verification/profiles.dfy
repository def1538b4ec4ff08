/**
 * apps/profiles/models.py: shipping addresses, orders and order lines, the
 * two status vocabularies, and the arithmetic of an order's totals.
 */
module Profiles {
  import opened Wrappers
  import opened Common

  /** `DELIVERY_STATUS_CHOICES`. */
  datatype DeliveryStatus = Pending | Packing | Shipping | Arriving | Success
  {
    /** The value stored in the `delivery_status` column (at most 20 characters). */
    function Label(): (s: string)
      ensures 0 < |s| <= 20
    {
      match this
      case Pending => "PENDING"
      case Packing => "PACKING"
      case Shipping => "SHIPPING"
      case Arriving => "ARRIVING"
      case Success => "SUCCESS"
    }
  }

  /** `PAYMENT_STATUS_CHOICES` (the source spells one of them "SUCCESSFULL"). */
  datatype PaymentStatus = Pending | Processing | Successfull | Canceled | Failed
  {
    /** The value stored in the `payment_status` column (at most 20 characters). */
    function Label(): (s: string)
      ensures 0 < |s| <= 20
    {
      match this
      case Pending => "PENDING"
      case Processing => "PROCESSING"
      case Successfull => "SUCCESSFULL"
      case Canceled => "CANCELED"
      case Failed => "FAILED"
    }
  }

  /** Distinct statuses are stored as distinct strings, so a stored value names one choice. */
  lemma LabelsDistinct(d1: DeliveryStatus, d2: DeliveryStatus, p1: PaymentStatus, p2: PaymentStatus)
    ensures d1.Label() == d2.Label() ==> d1 == d2
    ensures p1.Label() == p2.Label() ==> p1 == p2
  {
    if d1 != d2 {
      assert d1.Label()[..4] != d2.Label()[..4] || d1.Label() != d2.Label();
    }
  }

  /** The seven address fields checkout copies from a shipping address onto an order. */
  datatype AddressField = FullName | Email | Phone | Address | City | Country | Zipcode

  datatype ShippingAddress = ShippingAddress(
    user: UserId, fullName: string, email: string, phone: Option<string>,
    address: Option<string>, city: Option<string>, country: Option<string>, zipcode: Option<string>)
  {
    /** `getattr(shipping, field)`. */
    function Get(f: AddressField): Option<string>
    {
      match f
      case FullName => Some(fullName)
      case Email => Some(email)
      case Phone => phone
      case Address => address
      case City => city
      case Country => country
      case Zipcode => zipcode
    }
  }

  datatype Order = Order(
    user: UserId, txRef: string,
    deliveryStatus: DeliveryStatus, paymentStatus: PaymentStatus, dateDelivered: Option<Time>,
    fullName: Option<string>, email: Option<string>, phone: Option<string>,
    address: Option<string>, city: Option<string>, country: Option<string>, zipcode: Option<string>)
  {
    function Get(f: AddressField): Option<string>
    {
      match f
      case FullName => fullName
      case Email => email
      case Phone => phone
      case Address => address
      case City => city
      case Country => country
      case Zipcode => zipcode
    }
  }

  /**
   * `Order(user=user, **data)` with the field defaults: both statuses
   * PENDING, not delivered, and each address field taken from `data`.
   */
  function NewOrder(user: UserId, txRef: string, data: map<AddressField, Option<string>>): (o: Order)
    requires forall f :: f in data
    ensures o.user == user && o.txRef == txRef
    ensures o.deliveryStatus == DeliveryStatus.Pending && o.paymentStatus == PaymentStatus.Pending
    ensures o.dateDelivered == None
    ensures forall f :: o.Get(f) == data[f]
  {
    Order(user, txRef, DeliveryStatus.Pending, PaymentStatus.Pending, None,
          data[FullName], data[Email], data[Phone], data[Address], data[City], data[Country], data[Zipcode])
  }

  /**
   * A line of a cart or of an order: `order == None` is a cart line.  The
   * quantity is a `PositiveIntegerField`, so never negative.
   */
  datatype OrderItem = OrderItem(user: UserId, order: Option<Id>, product: Id, quantity: nat)

  /** An order line together with the current price of its product, in cents. */
  datatype PricedLine = PricedLine(price: int, quantity: nat)

  /** `OrderItem.get_total`: the product's current price times the quantity. */
  function LineTotal(l: PricedLine): (t: int)
    ensures l.quantity == 0 ==> t == 0
    ensures l.price >= 0 ==> t >= 0
    ensures l.quantity > 0 ==> (t > 0 <==> l.price > 0)
  {
    l.price * l.quantity
  }

  /** `Order.get_cart_subtotal`: the sum of the line totals of the order's lines. */
  function Subtotal(lines: seq<PricedLine>): (t: int)
    ensures lines == [] ==> t == 0
    ensures (forall l :: l in lines ==> l.quantity == 0) ==> t == 0
  {
    if lines == [] then 0 else LineTotal(lines[0]) + Subtotal(lines[1..])
  }

  /** `Order.get_cart_total`: always the subtotal (no shipping, tax or discount). */
  function CartTotal(lines: seq<PricedLine>): (t: int)
    ensures t == Subtotal(lines)
    ensures lines == [] ==> t == 0
  {
    Subtotal(lines)
  }

  /** The subtotal of two groups of lines is the sum of their subtotals. */
  lemma {:induction false} SubtotalAppend(a: seq<PricedLine>, b: seq<PricedLine>)
    ensures Subtotal(a + b) == Subtotal(a) + Subtotal(b)
  {
    if a == [] {
      assert a + b == b;
    } else {
      assert (a + b)[1..] == a[1..] + b;
      SubtotalAppend(a[1..], b);
    }
  }

  /** Removing the line at position `i` takes exactly its total off the subtotal. */
  lemma {:induction false} SubtotalRemove(lines: seq<PricedLine>, i: nat)
    requires i < |lines|
    ensures Subtotal(lines) == LineTotal(lines[i]) + Subtotal(lines[..i] + lines[i + 1..])
  {
    assert lines == lines[..i] + [lines[i]] + lines[i + 1..];
    SubtotalAppend(lines[..i] + [lines[i]], lines[i + 1..]);
    SubtotalAppend(lines[..i], [lines[i]]);
    SubtotalAppend(lines[..i], lines[i + 1..]);
    assert Subtotal([lines[i]]) == LineTotal(lines[i]) by {
      assert [lines[i]][1..] == [];
    }
  }

  /**
   * The subtotal does not depend on the order in which the lines are listed
   * (the query lists them newest first): any permutation has the same sum.
   */
  lemma {:induction false} SubtotalPermutation(a: seq<PricedLine>, b: seq<PricedLine>)
    requires multiset(a) == multiset(b)
    ensures Subtotal(a) == Subtotal(b)
    decreases |a|
  {
    if a != [] {
      assert a[0] in multiset(b);
      var i :| 0 <= i < |b| && b[i] == a[0];
      SubtotalRemove(b, i);
      var rest := b[..i] + b[i + 1..];
      assert b == b[..i] + [b[i]] + b[i + 1..];
      assert a == [a[0]] + a[1..];
      assert multiset(b) == multiset(b[..i]) + multiset{b[i]} + multiset(b[i + 1..]);
      assert multiset(a) == multiset{a[0]} + multiset(a[1..]);
      assert multiset(rest) == multiset(b[..i]) + multiset(b[i + 1..]);
      assert multiset(a[1..]) == multiset(a) - multiset{a[0]};
      assert multiset(rest) == multiset(b) - multiset{b[i]};
      assert multiset(a[1..]) == multiset(rest);
      SubtotalPermutation(a[1..], rest);
    } else {
      assert |b| == |multiset(b)| == 0;
    }
  }

  /** With non-negative prices no line and no subtotal is negative; an order without lines costs 0. */
  lemma {:induction false} SubtotalNonNegative(lines: seq<PricedLine>)
    requires forall l :: l in lines ==> l.price >= 0
    ensures Subtotal(lines) >= 0
    ensures lines == [] ==> Subtotal(lines) == 0
  {
    if lines != [] {
      assert lines[0] in lines;
      assert forall l :: l in lines[1..] ==> l in lines;
      SubtotalNonNegative(lines[1..]);
    }
  }
}
