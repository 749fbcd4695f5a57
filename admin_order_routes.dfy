/**
 * The admin order routes: the status update that couples `isDelivered` and
 * `deliveredAt` to the requested status, and order deletion, over a ledger of
 * orders keyed by id.
 */
module AdminOrderRoutes {
  import opened Wrappers
  import opened OrderModel

  /** The message Mongoose gives when `status` is outside its enumeration. */
  function EnumMessage(status: string): string {
    "Order validation failed: status: `" + status + "` is not a valid enum value for path `status`."
  }

  /**
   * PUT /:id on a loaded order: `status || order.status` becomes the status;
   * "delivered" sets `isDelivered` and stamps `deliveredAt`, any other request
   * clears `isDelivered` and keeps `deliveredAt`; then the save validates.
   */
  function ApplyStatus(o: Order, status: string, now: int): (r: Reply<Order>)
    ensures ValidOrder(o) ==> (r.Ok? <==> status == "" || ValidStatus(status))
    ensures r.Ok? ==> ValidOrder(r.body)
    ensures r.Fail? ==> r.status == 500
    ensures r.Ok? ==> r.body.status == (if status != "" then status else o.status)
    ensures r.Ok? ==> r.body.isDelivered == (status == "delivered")
    ensures r.Ok? ==> r.body.deliveredAt == (if status == "delivered" then Some(now) else o.deliveredAt)
    ensures r.Ok? ==> r.body.(status := o.status, isDelivered := o.isDelivered, deliveredAt := o.deliveredAt) == o
  {
    var updated := o.(status := if status != "" then status else o.status,
                      isDelivered := status == "delivered",
                      deliveredAt := if status == "delivered" then Some(now) else o.deliveredAt);
    if ValidOrder(updated) then Ok(updated)
    else if !ValidStatus(updated.status) then Fail(500, EnumMessage(updated.status))
    else Fail(500, "Order validation failed")
  }

  /** Repeating a status update with the same request and clock changes nothing more. */
  lemma ApplyStatusIdempotent(o: Order, status: string, now: int)
    requires ApplyStatus(o, status, now).Ok?
    ensures ApplyStatus(ApplyStatus(o, status, now).body, status, now) == ApplyStatus(o, status, now)
  {

  }

  /**
   * A request without a status marks a delivered order as not delivered while
   * keeping its `deliveredAt`: `isDelivered` follows the request, not the stored status.
   */
  lemma OmittedStatusUndelivers(o: Order, now: int)
    requires ValidOrder(o) && o.status == "delivered" && o.isDelivered
    ensures ApplyStatus(o, "", now) == Ok(o.(isDelivered := false))
    ensures ApplyStatus(o, "", now).body.status == "delivered"
  {
  }

  /** The spelling "canceled" is refused on save, and the order keeps its state. */
  lemma CanceledIsRefused(o: Order, now: int)
    requires ValidOrder(o)
    ensures ApplyStatus(o, "canceled", now) == Fail(500, EnumMessage("canceled"))
  {

  }

  /** The order collection, keyed by id; ids are handed out in increasing order. */
  class OrderLedger {
    var orders: map<nat, Order>
    var nextId: nat

    ghost predicate Valid()
      reads this
    {
      forall id :: id in orders ==> id < nextId && ValidOrder(orders[id])
    }

    constructor ()
      ensures Valid() && orders == map[] && nextId == 0
    {
      orders := map[];
      nextId := 0;
    }

    /** `Order.create` of an already validated order: a fresh id, nothing else touched. */
    method Insert(o: Order) returns (id: nat)
      requires Valid() && ValidOrder(o)
      modifies this
      ensures Valid()
      ensures id == old(nextId) && id !in old(orders)
      ensures orders == old(orders)[id := o] && nextId == old(nextId) + 1
    {
      id := nextId;
      orders := orders[id := o];
      nextId := nextId + 1;
    }

    /** PUT /:id — update an order's status; other request fields are ignored. */
    method UpdateStatus(id: nat, status: string, now: int) returns (r: Reply<Order>)
      requires Valid()
      modifies this
      ensures Valid() && nextId == old(nextId)
      ensures id !in old(orders) ==> r == Fail(404, "Order not found") && orders == old(orders)
      ensures id in old(orders) ==> r == ApplyStatus(old(orders)[id], status, now)
      ensures id in old(orders) && r.Ok? ==> orders == old(orders)[id := r.body]
      ensures r.Fail? ==> orders == old(orders)
    {
      if id !in orders {
        return Fail(404, "Order not found");
      }
      var order := orders[id];
      order := order.(status := if status != "" then status else order.status);
      if status == "delivered" {
        order := order.(isDelivered := true, deliveredAt := Some(now));
      } else {
        order := order.(isDelivered := false);
      }
      if !ValidOrder(order) {
        if !ValidStatus(order.status) {
          return Fail(500, EnumMessage(order.status));
        }
        return Fail(500, "Order validation failed");
      }
      orders := orders[id := order];
      r := Ok(order);
    }

    /** DELETE /:id — remove exactly that order. */
    method Delete(id: nat) returns (r: Reply<string>)
      requires Valid()
      modifies this
      ensures Valid() && nextId == old(nextId)
      ensures id !in old(orders) ==> r == Fail(404, "Order not found") && orders == old(orders)
      ensures id in old(orders) ==> r == Ok("Order deleted successfully") && orders == old(orders) - {id}
    {
      if id !in orders {
        return Fail(404, "Order not found");
      }
      orders := orders - {id};
      r := Ok("Order deleted successfully");
    }
  }
}
