/** The admin product listing: optional pagination driven by `page` and `limit`. */
module ProductAdmin {
  import opened Wrappers
  import opened JsValues

  /** `Math.ceil(a / b)` for a non-zero divisor. */
  function CeilDiv(a: int, b: int): (r: int)
    requires b != 0
    ensures b > 0 ==> (r - 1) * b < a <= r * b
    ensures b < 0 ==> (r - 1) * -b < -a <= r * -b
  {
    if b > 0 then (a + b - 1) / b else (-a - b - 1) / -b
  }

  /**
   * The answer of the listing. A page echoes `page` and `limit`; `totalPages` is
   * None where `Math.ceil` gives Infinity or NaN (a zero limit), which JSON sends
   * as null; `pageProducts` (the `products` of the reply) is None where the skip or limit is negative, which the
   * database rather than the handler decides about.
   */
  datatype Listing<T> =
    | Page(page: int, limit: int, totalPages: Option<int>, totalItems: nat, pageProducts: Option<seq<T>>)
    | Everything(totalItems: nat, products: seq<T>)

  /** `.skip(skip).limit(limit)` on the whole collection; a limit of 0 means no limit. */
  function Window<T>(all: seq<T>, skip: nat, limit: nat): (w: seq<T>)
    ensures |w| <= |all|
    ensures limit > 0 ==> |w| <= limit
    ensures skip >= |all| ==> w == []
  {
    var from := if skip <= |all| then skip else |all|;
    var to := if limit == 0 || from + limit > |all| then |all| else from + limit;
    all[from..to]
  }

  /** The listing handler: paginate when both parameters parse as integers, list everything otherwise. */
  function ListProducts<T>(pageParam: string, limitParam: string, all: seq<T>): (r: Listing<T>)
    ensures r.Page? <==> ParseInt(pageParam).Some? && ParseInt(limitParam).Some?
    ensures r.totalItems == |all|
    ensures r.Everything? ==> r.products == all
    ensures r.Page? ==> r.page == ParseInt(pageParam).value && r.limit == ParseInt(limitParam).value
    ensures r.Page? ==> (r.totalPages.Some? <==> r.limit != 0)
    ensures r.Page? && r.limit > 0 ==>
              r.totalPages.Some? && (r.totalPages.value - 1) * r.limit < |all| <= r.totalPages.value * r.limit
    ensures r.Page? && r.limit > 0 && r.page >= 1 ==>
              r.pageProducts == Some(Window(all, (r.page - 1) * r.limit, r.limit))
  {
    var page := ParseInt(pageParam);
    var limit := ParseInt(limitParam);
    if page.Some? && limit.Some? then
      PageOf(page.value, limit.value, all)
    else
      Everything(|all|, all)
  }

  /** The paginated answer for parsed `page` and `limit`. */
  function PageOf<T>(page: int, limit: int, all: seq<T>): (r: Listing<T>)
    ensures r.Page? && r.page == page && r.limit == limit && r.totalItems == |all|
    ensures r.totalPages.Some? <==> limit != 0
    ensures limit > 0 ==> (r.totalPages.value - 1) * limit < |all| <= r.totalPages.value * limit
    ensures limit > 0 && page >= 1 ==> r.pageProducts == Some(Window(all, (page - 1) * limit, limit))
  {
    var skip := (page - 1) * limit;
    Page(page, limit,
         if limit == 0 then None else Some(CeilDiv(|all|, limit)),
         |all|,
         if skip >= 0 && limit >= 0 then Some(Window(all, skip, limit)) else None)
  }

  lemma MulMonotone(a: int, b: int, l: nat)
    requires a <= b
    ensures a * l <= b * l
  {
  }

  /** With a positive limit, item i is on page i / limit + 1, and that page is at most totalPages. */
  lemma EveryItemOnAPage<T>(all: seq<T>, limit: nat, i: nat)
    requires limit > 0 && i < |all|
    ensures 1 <= i / limit + 1 <= CeilDiv(|all|, limit)
    ensures all[i] in Window(all, (i / limit) * limit, limit)
  {
    var q := i / limit;
    assert q * limit <= i < q * limit + limit;
    var total := CeilDiv(|all|, limit);
    if total < q + 1 {
      MulMonotone(total, q, limit);
      assert false;
    }
    var w := Window(all, q * limit, limit);
    assert w[i - q * limit] == all[i];
  }

  /** A page beyond totalPages is empty. */
  lemma PagesPastTheEndAreEmpty<T>(all: seq<T>, limit: nat, page: int)
    requires limit > 0 && page > CeilDiv(|all|, limit)
    ensures Window(all, (page - 1) * limit, limit) == []
  {

  }
}
