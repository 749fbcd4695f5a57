/**
 * The admin order list kept in the front end's `adminOrders` state: the orders
 * fetched from the server, the totals derived from them at fetch time, and the
 * loading and error flags each request phase sets.
 */
module AdminOrderSlice {
  import opened Wrappers
  import opened OrderModel

  /** An order as the list holds it, with the id it is matched on. */
  datatype OrderRow = OrderRow(id: nat, order: Order)

  const DefaultFetchError := "Failed to fetch orders"

  /** `orders.reduce((total, order) => total + order.totalPrice, 0)`. */
  function SalesTotal(rows: seq<OrderRow>): int {
    if rows == [] then 0 else SalesTotal(rows[..|rows| - 1]) + rows[|rows| - 1].order.totalPrice
  }

  lemma {:induction false} SalesTotalConcat(a: seq<OrderRow>, b: seq<OrderRow>)
    ensures SalesTotal(a + b) == SalesTotal(a) + SalesTotal(b)
  {
    if b == [] {
      assert a + b == a;
    } else {
      assert (a + b)[..|a + b| - 1] == a + b[..|b| - 1];
      SalesTotalConcat(a, b[..|b| - 1]);
    }
  }

  /** `orders.findIndex(order => order._id === id)`. */
  function RowIndex(rows: seq<OrderRow>, id: nat): (r: int)
    ensures -1 <= r < |rows|
    ensures r >= 0 ==> rows[r].id == id && forall j :: 0 <= j < r ==> rows[j].id != id
    ensures r == -1 ==> forall j :: 0 <= j < |rows| ==> rows[j].id != id
  {
    if rows == [] then -1
    else if rows[0].id == id then 0
    else
      var r := RowIndex(rows[1..], id);
      if r == -1 then -1 else r + 1
  }

  /** `orders.filter(order => order._id !== id)`. */
  function WithoutId(rows: seq<OrderRow>, id: nat): (r: seq<OrderRow>)
    ensures |r| <= |rows|
    ensures forall row :: row in r <==> row in rows && row.id != id
    ensures (forall j :: 0 <= j < |rows| ==> rows[j].id != id) ==> r == rows
  {
    if rows == [] then []
    else if rows[0].id == id then WithoutId(rows[1..], id)
    else [rows[0]] + WithoutId(rows[1..], id)
  }

  /** The filter keeps the surviving rows in their original order: it distributes over concatenation. */
  lemma {:induction false} WithoutIdConcat(a: seq<OrderRow>, b: seq<OrderRow>, id: nat)
    ensures WithoutId(a + b, id) == WithoutId(a, id) + WithoutId(b, id)
  {
    if a != [] {
      assert (a + b)[0] == a[0];
      assert (a + b)[1..] == a[1..] + b;
      WithoutIdConcat(a[1..], b, id);
    } else {
      assert a + b == b;
    }
  }

  /**
   * Deleting a row whose order has a positive total lowers the sum of the
   * list, while the cached `totalSales` stays where it was.
   */
  lemma {:induction false} DeleteLowersSales(rows: seq<OrderRow>, id: nat)
    requires forall j :: 0 <= j < |rows| ==> rows[j].order.totalPrice > 0
    requires exists j :: 0 <= j < |rows| && rows[j].id == id
    ensures SalesTotal(WithoutId(rows, id)) < SalesTotal(rows)
  {
    var first := [rows[0]];
    assert rows == first + rows[1..];
    SalesTotalConcat(first, rows[1..]);
    assert SalesTotal(first) == rows[0].order.totalPrice by {
      assert first[..0] == [];
    }
    if rows[0].id == id {
      if exists j :: 0 <= j < |rows[1..]| && rows[1..][j].id == id {
        DeleteLowersSales(rows[1..], id);
      } else {
        assert WithoutId(rows[1..], id) == rows[1..];
      }
    } else {
      var j :| 0 <= j < |rows| && rows[j].id == id;
      assert rows[1..][j - 1].id == id;
      DeleteLowersSales(rows[1..], id);
      SalesTotalConcat(first, WithoutId(rows[1..], id));
    }
  }

  /** The `adminOrders` state. */
  class AdminOrders {
    var orders: seq<OrderRow>
    var totalOrders: nat
    var totalSales: int
    var loading: bool
    var error: Option<string>

    /** The derived totals agree with the list. */
    ghost predicate TotalsCurrent()
      reads this
    {
      totalOrders == |orders| && totalSales == SalesTotal(orders)
    }

    constructor ()
      ensures orders == [] && totalOrders == 0 && totalSales == 0 && !loading && error == None
      ensures TotalsCurrent()
    {
      orders := [];
      totalOrders := 0;
      totalSales := 0;
      loading := false;
      error := None;
    }

    /** `fetchAllOrders.pending`. */
    method FetchPending()
      modifies this
      ensures loading && error == None
      ensures orders == old(orders) && totalOrders == old(totalOrders) && totalSales == old(totalSales)
    {
      loading := true;
      error := None;
    }

    /** `fetchAllOrders.fulfilled`: the payload becomes the list and the totals are derived from it. */
    method FetchFulfilled(payload: seq<OrderRow>)
      modifies this
      ensures !loading && error == None && orders == payload
      ensures TotalsCurrent()
    {
      loading := false;
      orders := payload;
      error := None;
      totalOrders := |payload|;
      var total := 0;
      var n := 0;
      while n < |payload|
        invariant 0 <= n <= |payload|
        invariant total == SalesTotal(payload[..n])
      {
        assert payload[..n + 1][..n] == payload[..n];
        total := total + payload[n].order.totalPrice;
        n := n + 1;
      }
      assert payload[..n] == payload;
      totalSales := total;
    }

    /** `fetchAllOrders.rejected`: the server's message, or the default one when there is none. */
    method FetchRejected(message: string)
      modifies this
      ensures !loading && error == Some(if message != "" then message else DefaultFetchError)
      ensures orders == old(orders) && totalOrders == old(totalOrders) && totalSales == old(totalSales)
    {
      loading := false;
      error := Some(if message != "" then message else DefaultFetchError);
    }

    /** `updateOrderStatus.fulfilled`: the row with the updated order's id is replaced where it stands. */
    method UpdateFulfilled(updated: OrderRow)
      modifies this
      ensures |orders| == |old(orders)|
      ensures var i := RowIndex(old(orders), updated.id);
        orders == if i != -1 then old(orders)[i := updated] else old(orders)
      ensures forall j :: 0 <= j < |orders| && old(orders)[j].id != updated.id ==> orders[j] == old(orders)[j]
      ensures totalOrders == old(totalOrders) && totalSales == old(totalSales)
      ensures loading == old(loading) && error == old(error)
    {
      var orderIndex := RowIndex(orders, updated.id);
      if orderIndex != -1 {
        orders := orders[orderIndex := updated];
      }
    }

    /** `deleteOrder.fulfilled`: every row with the id leaves the list; the totals are not recomputed. */
    method DeleteFulfilled(id: nat)
      modifies this
      ensures orders == WithoutId(old(orders), id)
      ensures totalOrders == old(totalOrders) && totalSales == old(totalSales)
      ensures loading == old(loading) && error == old(error)
    {
      orders := WithoutId(orders, id);
    }
  }
}
