/**
 * The cart → checkout → order lifecycle end to end: a signed-in buyer adds a
 * product to an empty cart, checks out the cart's items, pays and finalizes.
 */
module Lifecycle {
  import opened Wrappers
  import opened Embedded
  import Products
  import opened CheckoutModel
  import opened OrderModel
  import CartRoutes
  import CheckoutRoutes
  import AdminOrderRoutes

  /**
   * Buying one product variant from scratch yields exactly the order the cart
   * described — the snapshot line item, its total, paid and not delivered —
   * and the buyer has no cart afterwards.
   */
  method BuyNow(catalog: map<string, Products.Product>, productId: string, quantity: int,
                size: Option<string>, color: Option<string>, user: string,
                address: ShippingAddress, paymentMethod: string, details: Option<string>, now: nat)
    returns (order: Reply<Order>, cartAfter: Reply<CartRoutes.Cart>)
    requires productId != "" && productId in catalog
    requires catalog[productId].name != "" && |catalog[productId].images| > 0
    requires catalog[productId].images[0].url != ""
    requires quantity >= MinQuantity && user != "" && AddressComplete(address) && paymentMethod != ""
    ensures order.Ok?
    ensures order.body.orderItems == [CartRoutes.Snapshot(productId, catalog[productId], size, color, quantity)]
    ensures order.body.totalPrice == catalog[productId].price * quantity
    ensures order.body.user == user && order.body.isPaid && !order.body.isDelivered
    ensures order.body.status == DefaultStatus && order.body.paidAt == Some(now + 1)
    ensures cartAfter == Fail(404, "Cart not found")
  {
    var carts := new CartRoutes.CartStore();
    var added := carts.Add(catalog, productId, quantity, size, color, "", user, now);
    var item := CartRoutes.Snapshot(productId, catalog[productId], size, color, quantity);
    assert added == Ok(CartRoutes.NewCart(user, "", now, item));
    CastInputOf(item);
    assert [InputOf(item)][1..] == [];
    assert CastItems([]) == Some([]);
    assert [item] + [] == [item];
    assert CastItems([InputOf(item)]) == Some([item]);

    var checkouts := new CheckoutRoutes.CheckoutStore();
    var ledger := new AdminOrderRoutes.OrderLedger();
    var req := CheckoutRoutes.CheckoutRequest(Some([InputOf(item)]), address, paymentMethod, Some(added.body.totalPrice));
    var created, id := checkouts.Create(user, req);
    assert created.Ok?;
    var paid := checkouts.Pay(id, "paid", details, now + 1);
    order := checkouts.Finalize(id, now + 2, ledger, carts);
    assert carts.carts == [];
    cartAfter := carts.Get(user, "");
  }
}
