/**
 * The checkout document: its item and session shapes, the defaults a new
 * checkout receives and the constraints it is validated against.
 */
module CheckoutModel {
  import opened Wrappers
  import opened Embedded

  const DefaultQuantity := 1
  const MinQuantity := 1

  /** A checkout item as a request sends it; "" and None stand for a missing field. */
  datatype ItemInput = ItemInput(
    productId: string,
    name: string,
    image: string,
    price: Option<int>,
    size: Option<string>,
    color: Option<string>,
    quantity: Option<int>)

  /** A stored checkout item: product, name, image and price present, quantity at least 1. */
  predicate ValidItem(it: LineItem) {
    it.productId != "" && it.name != "" && it.image != "" && it.quantity >= MinQuantity
  }

  /** Casting and validating one item: the quantity defaults to 1, then must be at least 1. */
  function CastItem(x: ItemInput): (r: Option<LineItem>)
    ensures r.Some? <==>
              x.productId != "" && x.name != "" && x.image != "" && x.price.Some?
              && x.quantity.GetOr(DefaultQuantity) >= MinQuantity
    ensures r.Some? ==> ValidItem(r.value) && r.value.quantity == x.quantity.GetOr(DefaultQuantity)
  {
    var quantity := x.quantity.GetOr(DefaultQuantity);
    if x.productId != "" && x.name != "" && x.image != "" && x.price.Some? && quantity >= MinQuantity then
      Some(LineItem(x.productId, x.name, x.image, x.price.value, x.size, x.color, quantity))
    else None
  }

  /** The request form of a stored item, every field present. */
  function InputOf(it: LineItem): ItemInput {
    ItemInput(it.productId, it.name, it.image, Some(it.price), it.size, it.color, Some(it.quantity))
  }

  /** A valid item survives the round trip through its request form unchanged. */
  lemma CastInputOf(it: LineItem)
    requires ValidItem(it)
    ensures CastItem(InputOf(it)) == Some(it)
  {
  }

  /** A cast item, sent again, is cast to itself. */
  lemma InputOfCast(x: ItemInput)
    requires CastItem(x).Some?
    ensures CastItem(InputOf(CastItem(x).value)) == CastItem(x)
  {
  }

  /** Casting a whole item list: one invalid item fails the document. */
  function CastItems(xs: seq<ItemInput>): (r: Option<seq<LineItem>>)
    ensures r.Some? <==> forall i :: 0 <= i < |xs| ==> CastItem(xs[i]).Some?
    ensures r.Some? ==> |r.value| == |xs|
    ensures r.Some? ==> forall i :: 0 <= i < |xs| ==> Some(r.value[i]) == CastItem(xs[i])
  {
    if xs == [] then Some([])
    else
      match (CastItem(xs[0]), CastItems(xs[1..]))
      case (Some(it), Some(rest)) => Some([it] + rest)
      case _ => None
  }

  /** A checkout session. `paymentDetails` is the payment collaborator's opaque payload. */
  datatype Checkout = Checkout(
    user: string,
    checkoutItems: seq<LineItem>,
    shippingAddress: ShippingAddress,
    paymentMethod: string,
    totalPrice: int,
    isPaid: bool,
    paidAt: Option<int>,
    paymentStatus: string,
    paymentDetails: Option<string>,
    isFinalized: bool,
    finalizedAt: Option<int>)

  /** What the schema demands of a stored checkout: a user, valid items, a complete address. */
  predicate ValidCheckout(c: Checkout) {
    && c.user != ""
    && (forall i :: 0 <= i < |c.checkoutItems| ==> ValidItem(c.checkoutItems[i]))
    && AddressComplete(c.shippingAddress)
  }

  /**
   * `Checkout.create`: the document built from the given fields and the
   * schema's defaults, or None when validation rejects it. `paymentMethod` is
   * optional; a missing `totalPrice` defaults to 0.
   */
  function NewCheckout(user: string, items: seq<ItemInput>, address: ShippingAddress,
                       paymentMethod: string, totalPrice: Option<int>): (r: Option<Checkout>)
    ensures r.Some? <==> user != "" && CastItems(items).Some? && AddressComplete(address)
    ensures r.Some? ==> ValidCheckout(r.value)
    ensures r.Some? ==> !r.value.isPaid && r.value.paymentStatus == "pending" && !r.value.isFinalized
    ensures r.Some? ==> r.value.paidAt == None && r.value.finalizedAt == None && r.value.paymentDetails == None
    ensures r.Some? ==> r.value.user == user && r.value.shippingAddress == address
    ensures r.Some? ==> r.value.paymentMethod == paymentMethod && r.value.totalPrice == totalPrice.GetOr(0)
    ensures r.Some? ==> Some(r.value.checkoutItems) == CastItems(items)
  {
    var cast := CastItems(items);
    if user != "" && cast.Some? && AddressComplete(address) then
      Some(Checkout(user, cast.value, address, paymentMethod, totalPrice.GetOr(0),
                    false, None, "pending", None, false, None))
    else None
  }
}
