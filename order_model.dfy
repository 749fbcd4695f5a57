/**
 * The order document: its item shape, the status enumeration, the defaults a
 * new order receives and the constraints it is validated against.
 */
module OrderModel {
  import opened Wrappers
  import opened Embedded
  import CheckoutModel

  const Statuses: seq<string> := ["processing", "shipped", "delivered", "cancelled"]
  const DefaultStatus := "processing"

  predicate ValidStatus(s: string) {
    s in Statuses
  }

  /** A stored order item: product, name, image present; the quantity has no lower bound. */
  predicate ValidOrderItem(it: LineItem) {
    it.productId != "" && it.name != "" && it.image != ""
  }

  /** An order. The schema has no `paymentDetails` field. */
  datatype Order = Order(
    user: string,
    orderItems: seq<LineItem>,
    shippingAddress: ShippingAddress,
    paymentMethod: string,
    totalPrice: int,
    isPaid: bool,
    paidAt: Option<int>,
    isDelivered: bool,
    deliveredAt: Option<int>,
    paymentStatus: string,
    status: string)

  /** What the schema demands of a stored order. */
  predicate ValidOrder(o: Order) {
    && o.user != ""
    && (forall i :: 0 <= i < |o.orderItems| ==> ValidOrderItem(o.orderItems[i]))
    && AddressComplete(o.shippingAddress)
    && o.paymentMethod != ""
    && ValidStatus(o.status)
  }

  /** The fields a caller of `Order.create` may give; None is a field left out. */
  datatype OrderInput = OrderInput(
    user: string,
    orderItems: seq<LineItem>,
    shippingAddress: ShippingAddress,
    paymentMethod: string,
    totalPrice: Option<int>,
    isPaid: Option<bool>,
    paidAt: Option<int>,
    isDelivered: Option<bool>,
    deliveredAt: Option<int>,
    paymentStatus: Option<string>,
    status: Option<string>)

  /** `Order.create`: the given fields with the schema's defaults, or None when validation rejects it. */
  function NewOrder(x: OrderInput): (r: Option<Order>)
    ensures r.Some? ==> ValidOrder(r.value)
    ensures r.Some? <==>
              && x.user != "" && x.paymentMethod != "" && AddressComplete(x.shippingAddress)
              && (forall i :: 0 <= i < |x.orderItems| ==> ValidOrderItem(x.orderItems[i]))
              && ValidStatus(x.status.GetOr(DefaultStatus))
    ensures r.Some? && x.status == None ==> r.value.status == "processing"
    ensures r.Some? && x.isPaid == None ==> !r.value.isPaid
    ensures r.Some? && x.isDelivered == None ==> !r.value.isDelivered
    ensures r.Some? && x.paymentStatus == None ==> r.value.paymentStatus == "pending"
    ensures r.Some? && x.totalPrice == None ==> r.value.totalPrice == 0
    ensures r.Some? ==>
              && r.value.user == x.user && r.value.orderItems == x.orderItems
              && r.value.shippingAddress == x.shippingAddress && r.value.paymentMethod == x.paymentMethod
              && r.value.paidAt == x.paidAt && r.value.deliveredAt == x.deliveredAt
    ensures r.Some? && x.status.Some? ==> r.value.status == x.status.value
    ensures r.Some? && x.totalPrice.Some? ==> r.value.totalPrice == x.totalPrice.value
    ensures r.Some? && x.isPaid.Some? ==> r.value.isPaid == x.isPaid.value
    ensures r.Some? && x.isDelivered.Some? ==> r.value.isDelivered == x.isDelivered.value
    ensures r.Some? && x.paymentStatus.Some? ==> r.value.paymentStatus == x.paymentStatus.value
  {
    var o := Order(x.user, x.orderItems, x.shippingAddress, x.paymentMethod,
                   x.totalPrice.GetOr(0), x.isPaid.GetOr(false), x.paidAt,
                   x.isDelivered.GetOr(false), x.deliveredAt,
                   x.paymentStatus.GetOr("pending"), x.status.GetOr(DefaultStatus));
    if ValidOrder(o) then Some(o) else None
  }

  /** Every valid checkout item is a valid order item; the converse fails on quantity. */
  lemma CheckoutItemsAreOrderItems(it: LineItem)
    ensures CheckoutModel.ValidItem(it) ==> ValidOrderItem(it)
    ensures ValidOrderItem(it) && it.quantity < 1 ==> !CheckoutModel.ValidItem(it)
  {
  }

  /** The spelling "canceled" is not one of the statuses. */
  lemma CanceledIsNotAStatus()
    ensures !ValidStatus("canceled") && ValidStatus("cancelled")
  {
  }
}
