/**
 * The checkout routes: a checkout session moves from pending to paid to
 * finalized, and finalizing turns it into exactly one order and clears the
 * buyer's cart.
 */
module CheckoutRoutes {
  import opened Wrappers
  import opened Embedded
  import opened JsValues
  import opened CheckoutModel
  import opened OrderModel
  import CartRoutes
  import AdminOrderRoutes

  /** The body of POST /; a missing `checkoutItems` or `totalPrice` is None, a missing method "". */
  datatype CheckoutRequest = CheckoutRequest(
    checkoutItems: Option<seq<ItemInput>>,
    shippingAddress: ShippingAddress,
    paymentMethod: string,
    totalPrice: Option<int>)

  /** The item quantities, a missing one counted as 0. */
  function Quantities(items: seq<ItemInput>): (r: seq<int>)
    ensures |r| == |items|
    ensures forall i :: 0 <= i < |items| ==> r[i] == items[i].quantity.GetOr(0)
  {
    seq(|items|, i requires 0 <= i < |items| => items[i].quantity.GetOr(0))
  }

  /**
   * `checkoutItems.reduce((a, c) => a + c.quantity, 0)`: the sum of the item
   * quantities, or NaN once an item has none. The schema has no field for it.
   */
  function AggregateQuantity(items: seq<ItemInput>): (r: JsNumber)
    ensures r.Num? <==> forall i :: 0 <= i < |items| ==> items[i].quantity.Some?
    ensures r.Num? ==> r.value == CartRoutes.Sum(Quantities(items))
    ensures r.Num? && (forall i :: 0 <= i < |items| ==> items[i].quantity.value >= MinQuantity) ==>
              r.value >= |items|
  {
    if items == [] then Num(0)
    else
      var init := AggregateQuantity(items[..|items| - 1]);
      assert Quantities(items[..|items| - 1]) == Quantities(items)[..|items| - 1];
      var last := items[|items| - 1];
      if init.Num? && last.quantity.Some? then Num(init.value + last.quantity.value) else NaN
  }

  /**
   * POST / as written. The 400 for a missing or empty item list is sent without
   * returning: with a missing list, building the document throws before
   * anything is stored; with an empty one, the checkout is still created.
   * The reply is the first one sent.
   */
  function CreateAsWritten(user: string, req: CheckoutRequest): (Option<Checkout>, Reply<Checkout>) {
    if req.checkoutItems.None? then (None, Fail(400, "No items in the cart."))
    else
      var created := NewCheckout(user, req.checkoutItems.value, req.shippingAddress, req.paymentMethod, req.totalPrice);
      if req.checkoutItems.value == [] then (created, Fail(400, "No items in the cart."))
      else if created.Some? then (created, Ok(created.value))
      else (None, Fail(500, "Server error"))
  }

  /** POST /, corrected: a missing or empty item list ends the request with 400 and stores nothing. */
  function CreateReply(user: string, req: CheckoutRequest): (r: Reply<Checkout>)
    ensures r.Ok? ==> req.checkoutItems.Some? && req.checkoutItems.value != []
    ensures req.checkoutItems.None? || req.checkoutItems == Some([]) ==> r == Fail(400, "No items in the cart.")
    ensures r.Ok? ==> ValidCheckout(r.body) && |r.body.checkoutItems| == |req.checkoutItems.value|
    ensures r.Ok? ==> r.body.user == user && r.body.shippingAddress == req.shippingAddress
    ensures r.Ok? ==> r.body.paymentMethod == req.paymentMethod && r.body.totalPrice == req.totalPrice.GetOr(0)
    ensures r.Ok? ==> !r.body.isPaid && r.body.paymentStatus == "pending" && !r.body.isFinalized
    ensures r.Fail? ==> r.status == 400 || r == Fail(500, "Server error")
    ensures req.checkoutItems.Some? && req.checkoutItems.value != [] && r.Fail? ==> r == Fail(500, "Server error")
    ensures req.checkoutItems.Some? && req.checkoutItems.value != [] ==>
              (r.Ok? <==> NewCheckout(user, req.checkoutItems.value, req.shippingAddress,
                                      req.paymentMethod, req.totalPrice).Some?)
    ensures r.Ok? ==> Some(r.body.checkoutItems) == CastItems(req.checkoutItems.value)
  {
    if req.checkoutItems.None? || req.checkoutItems.value == [] then Fail(400, "No items in the cart.")
    else CreateAsWritten(user, req).1
  }

  /** As written, a valid request with an empty item list is refused with 400 and yet stored. */
  lemma AsWrittenStoresEmptyCheckout(user: string, req: CheckoutRequest)
    requires req.checkoutItems == Some([]) && user != "" && AddressComplete(req.shippingAddress)
    ensures CreateAsWritten(user, req).0.Some? && CreateAsWritten(user, req).0.value.checkoutItems == []
    ensures CreateAsWritten(user, req).1 == Fail(400, "No items in the cart.")
    ensures CreateReply(user, req) == Fail(400, "No items in the cart.")
  {

  }

  /** The stage invariant: a checkout is finalized only once paid, and paid exactly when its status says so. */
  predicate Staged(c: Checkout) {
    (c.isFinalized ==> c.isPaid) && (c.isPaid <==> c.paymentStatus == "paid")
  }

  /**
   * PUT /:id/pay on a loaded checkout: "paid" records the payment; anything
   * else is refused. Whether the checkout is already finalized is not looked at.
   */
  function PayStep(c: Checkout, paymentStatus: string, details: Option<string>, now: int): (r: Reply<Checkout>)
    ensures paymentStatus != "paid" <==> r == Fail(400, "Invalid payment status")
    ensures paymentStatus == "paid" ==> r.Ok?
    ensures r.Ok? ==> r.body.isPaid && r.body.paymentStatus == "paid"
    ensures r.Ok? ==> r.body.paymentDetails == details && r.body.paidAt == Some(now)
    ensures r.Ok? ==> r.body.isFinalized == c.isFinalized && r.body.finalizedAt == c.finalizedAt
    ensures r.Ok? ==> r.body.(isPaid := c.isPaid, paymentStatus := c.paymentStatus,
                              paymentDetails := c.paymentDetails, paidAt := c.paidAt) == c
    ensures r.Ok? && ValidCheckout(c) ==> ValidCheckout(r.body)
    ensures r.Ok? && Staged(c) ==> Staged(r.body)
  {
    if paymentStatus == "paid" then
      Ok(c.(isPaid := true, paymentStatus := paymentStatus, paymentDetails := details, paidAt := Some(now)))
    else
      Fail(400, "Invalid payment status")
  }

  /** The `Order.create` call of finalize; `paymentDetails` is passed but the order schema has no such field. */
  function OrderFrom(c: Checkout): OrderInput {
    OrderInput(c.user, c.checkoutItems, c.shippingAddress, c.paymentMethod, Some(c.totalPrice),
               Some(true), c.paidAt, Some(false), None, Some("paid"), None)
  }

  /**
   * POST /:id/finalize on a loaded checkout: a paid, unfinalized checkout
   * becomes an order and is marked finalized; otherwise the request is refused.
   */
  function FinalizeStep(c: Checkout, now: int): (r: Reply<(Checkout, Order)>)
    ensures r.Ok? ==> c.isPaid && !c.isFinalized
    ensures c.isFinalized ==> r == Fail(400, "Checkout is already finalized")
    ensures !c.isPaid && !c.isFinalized ==> r == Fail(400, "Checkout is not paid")
    ensures c.isPaid && !c.isFinalized && ValidCheckout(c) ==> (r.Ok? <==> c.paymentMethod != "")
    ensures c.isPaid && !c.isFinalized && r.Fail? ==> r == Fail(500, "Server error")
    ensures r.Ok? ==> r.body.0 == c.(isFinalized := true, finalizedAt := Some(now))
    ensures r.Ok? ==> ValidOrder(r.body.1)
    ensures r.Ok? ==>
      var o := r.body.1;
      && o.user == c.user && o.orderItems == c.checkoutItems && o.shippingAddress == c.shippingAddress
      && o.paymentMethod == c.paymentMethod && o.totalPrice == c.totalPrice && o.paidAt == c.paidAt
      && o.isPaid && !o.isDelivered && o.deliveredAt == None && o.paymentStatus == "paid"
      && o.status == DefaultStatus
  {
    if c.isPaid && !c.isFinalized then
      var made := NewOrder(OrderFrom(c));
      if made.Some? then
        Ok((c.(isFinalized := true, finalizedAt := Some(now)), made.value))
      else
        Fail(500, "Server error")
    else if c.isFinalized then
      Fail(400, "Checkout is already finalized")
    else
      Fail(400, "Checkout is not paid")
  }

  // ---------------------------------------------------------------------------
  // A checkout's life as a sequence of requests

  datatype Request = PayRequest(paymentStatus: string, details: Option<string>, now: int) | FinalizeRequest(now: int)

  predicate PaysInFull(q: Request) {
    q.PayRequest? && q.paymentStatus == "paid"
  }

  /** The checkout after the requests, in order, and the orders they created. */
  function Replay(c: Checkout, reqs: seq<Request>): (Checkout, seq<Order>) {
    if reqs == [] then (c, [])
    else
      var (c1, orders) := Replay(c, reqs[..|reqs| - 1]);
      match reqs[|reqs| - 1]
      case PayRequest(s, d, t) =>
        var r := PayStep(c1, s, d, t);
        if r.Ok? then (r.body, orders) else (c1, orders)
      case FinalizeRequest(t) =>
        var r := FinalizeStep(c1, t);
        if r.Ok? then (r.body.0, orders + [r.body.1]) else (c1, orders)
  }

  /**
   * However the requests interleave, a checkout yields at most one order, none
   * if it was already finalized, and after an order it is finalized; it never
   * leaves the paid or the finalized stage.
   */
  lemma {:induction false} AtMostOneOrder(c: Checkout, reqs: seq<Request>)
    requires Staged(c)
    ensures var (after, orders) := Replay(c, reqs);
      && Staged(after)
      && |orders| <= 1
      && (c.isFinalized ==> orders == [])
      && (|orders| == 1 ==> after.isFinalized)
      && (c.isPaid ==> after.isPaid)
      && (c.isFinalized ==> after.isFinalized)
  {
    if reqs != [] {
      AtMostOneOrder(c, reqs[..|reqs| - 1]);
    }
  }

  /** An order exists only if the checkout was paid to begin with or a "paid" request came in. */
  lemma {:induction false} NoOrderUnlessPaid(c: Checkout, reqs: seq<Request>)
    ensures var (after, orders) := Replay(c, reqs);
      (after.isPaid || orders != []) ==>
        c.isPaid || exists i :: 0 <= i < |reqs| && PaysInFull(reqs[i])
  {
    if reqs != [] {
      var init := reqs[..|reqs| - 1];
      NoOrderUnlessPaid(c, init);
      var (c1, orders1) := Replay(c, init);
      var (after, orders) := Replay(c, reqs);
      if (after.isPaid || orders != []) && !c.isPaid {
        if c1.isPaid || orders1 != [] {
          var i :| 0 <= i < |init| && PaysInFull(init[i]);
          assert reqs[i] == init[i];
        } else {
          var last := |reqs| - 1;
          assert PaysInFull(reqs[last]);
        }
      }
    }
  }

  /** Every order a checkout yields is valid, paid, undelivered and carries the checkout's items. */
  lemma {:induction false} OrdersCopyTheCheckout(c: Checkout, reqs: seq<Request>)
    ensures var (after, orders) := Replay(c, reqs);
      && after.checkoutItems == c.checkoutItems && after.user == c.user && after.totalPrice == c.totalPrice
      && forall i :: 0 <= i < |orders| ==>
           ValidOrder(orders[i]) && orders[i].isPaid && !orders[i].isDelivered
           && orders[i].orderItems == c.checkoutItems && orders[i].user == c.user
           && orders[i].totalPrice == c.totalPrice
  {
    if reqs != [] {
      OrdersCopyTheCheckout(c, reqs[..|reqs| - 1]);
    }
  }

  /**
   * Liveness of the happy path: a valid, unfinalized checkout with a payment
   * method that is paid and then finalized yields exactly one order, which
   * carries the payment time and the checkout's items.
   */
  lemma PayThenFinalizeOrders(c: Checkout, details: Option<string>, paidAt: int, finalizedAt: int)
    requires ValidCheckout(c) && !c.isFinalized && c.paymentMethod != ""
    ensures var (after, orders) := Replay(c, [PayRequest("paid", details, paidAt), FinalizeRequest(finalizedAt)]);
      && |orders| == 1 && after.isFinalized && after.isPaid
      && orders[0].paidAt == Some(paidAt) && orders[0].orderItems == c.checkoutItems
      && orders[0].user == c.user && orders[0].totalPrice == c.totalPrice
  {
    var reqs := [PayRequest("paid", details, paidAt), FinalizeRequest(finalizedAt)];
    var paid := PayStep(c, "paid", details, paidAt).body;
    assert Replay(c, reqs[..1]) == (paid, []) by {
      assert reqs[..1][..0] == [];
    }
    assert FinalizeStep(paid, finalizedAt).Ok?;
  }

  // ---------------------------------------------------------------------------
  // The checkout store

  /** A stored checkout: schema-valid and in a consistent stage. */
  predicate Consistent(c: Checkout) {
    ValidCheckout(c) && Staged(c)
  }

  /** The checkout collection, keyed by id; ids are handed out in increasing order. */
  class CheckoutStore {
    var checkouts: map<nat, Checkout>
    var nextId: nat

    ghost predicate Valid()
      reads this
    {
      forall id :: id in checkouts ==> id < nextId && Consistent(checkouts[id])
    }

    constructor ()
      ensures Valid() && checkouts == map[] && nextId == 0
    {
      checkouts := map[];
      nextId := 0;
    }

    /** POST / — open a checkout session for the signed-in user. */
    method Create(user: string, req: CheckoutRequest) returns (r: Reply<Checkout>, id: nat)
      requires Valid()
      modifies this
      ensures Valid()
      ensures r == CreateReply(user, req)
      ensures r.Ok? ==> id == old(nextId) && checkouts == old(checkouts)[id := r.body] && nextId == old(nextId) + 1
      ensures r.Fail? ==> checkouts == old(checkouts) && nextId == old(nextId)
    {
      id := nextId;
      if req.checkoutItems.None? || |req.checkoutItems.value| == 0 {
        return Fail(400, "No items in the cart."), id;
      }
      var created := NewCheckout(user, req.checkoutItems.value, req.shippingAddress, req.paymentMethod, req.totalPrice);
      if created.None? {
        return Fail(500, "Server error"), id;
      }
      checkouts := checkouts[id := created.value];
      nextId := nextId + 1;
      r := Ok(created.value);
    }

    /** GET /:id. */
    method Get(id: nat) returns (r: Reply<Checkout>)
      requires Valid()
      ensures id in checkouts <==> r.Ok?
      ensures r.Ok? ==> r.body == checkouts[id] && Consistent(r.body)
      ensures r.Fail? ==> r == Fail(404, "Checkout not found")
    {
      if id in checkouts {
        r := Ok(checkouts[id]);
      } else {
        r := Fail(404, "Checkout not found");
      }
    }

    /** PUT /:id/pay — record a payment. */
    method Pay(id: nat, paymentStatus: string, details: Option<string>, now: int) returns (r: Reply<Checkout>)
      requires Valid()
      modifies this
      ensures Valid() && nextId == old(nextId)
      ensures id !in old(checkouts) ==> r == Fail(404, "Checkout not found")
      ensures id in old(checkouts) ==> r == PayStep(old(checkouts)[id], paymentStatus, details, now)
      ensures checkouts == if r.Ok? then old(checkouts)[id := r.body] else old(checkouts)
    {
      if id !in checkouts {
        return Fail(404, "Checkout not found");
      }
      var checkout := checkouts[id];
      if paymentStatus == "paid" {
        checkout := checkout.(isPaid := true);
        checkout := checkout.(paymentStatus := paymentStatus);
        checkout := checkout.(paymentDetails := details);
        checkout := checkout.(paidAt := Some(now));
        checkouts := checkouts[id := checkout];
        r := Ok(checkout);
      } else {
        r := Fail(400, "Invalid payment status");
      }
    }

    /**
     * POST /:id/finalize — turn a paid checkout into an order, mark the
     * checkout finalized and delete the buyer's cart.
     */
    method Finalize(id: nat, now: int, ledger: AdminOrderRoutes.OrderLedger, carts: CartRoutes.CartStore)
      returns (r: Reply<Order>)
      requires Valid() && ledger.Valid() && carts.Valid()
      modifies this, ledger, carts
      ensures Valid() && ledger.Valid() && carts.Valid() && nextId == old(nextId)
      ensures id !in old(checkouts) ==> r == Fail(400, "Checkout is not found")
      ensures r.Fail? ==>
        && checkouts == old(checkouts) && ledger.orders == old(ledger.orders)
        && ledger.nextId == old(ledger.nextId) && carts.carts == old(carts.carts)
      ensures id in old(checkouts) ==>
        var step := FinalizeStep(old(checkouts)[id], now);
        && (step.Fail? ==> r == Fail(step.status, step.message))
        && (step.Ok? ==>
              && r == Ok(step.body.1)
              && checkouts == old(checkouts)[id := step.body.0]
              && ledger.orders == old(ledger.orders)[old(ledger.nextId) := step.body.1]
              && ledger.nextId == old(ledger.nextId) + 1
              && carts.carts == CartRoutes.DeleteFirst(old(carts.carts), CartRoutes.ByUser(step.body.0.user)))
    {
      if id !in checkouts {
        return Fail(400, "Checkout is not found");
      }
      var checkout := checkouts[id];
      if checkout.isPaid && !checkout.isFinalized {
        var made := NewOrder(OrderFrom(checkout));
        if made.None? {
          return Fail(500, "Server error");
        }
        var finalOrder := made.value;
        var _ := ledger.Insert(finalOrder);
        checkout := checkout.(isFinalized := true);
        checkout := checkout.(finalizedAt := Some(now));
        checkouts := checkouts[id := checkout];
        carts.DeleteOwnedBy(CartRoutes.ByUser(checkout.user));
        r := Ok(finalOrder);
      } else if checkout.isFinalized {
        r := Fail(400, "Checkout is already finalized");
      } else {
        r := Fail(400, "Checkout is not paid");
      }
    }
  }
}
