/**
 * The cart routes: carts of signed-in users and of guests, the line-item
 * arithmetic every mutation recomputes the total with, and the guest-to-user
 * merge run at sign-in.
 */
module CartRoutes {
  import opened Wrappers
  import opened Embedded
  import opened JsValues
  import Products

  /** A cart: owned through `user`, through `guestId`, or (after an add by a signed-in guest) both. */
  datatype Cart = Cart(user: Option<string>, guestId: Option<string>, products: seq<LineItem>, totalPrice: int)

  // ---------------------------------------------------------------------------
  // Sums

  /** The sum of a sequence of integers, taken from the end. */
  function Sum(xs: seq<int>): int {
    if xs == [] then 0 else Sum(xs[..|xs| - 1]) + xs[|xs| - 1]
  }

  lemma {:induction false} SumConcat(a: seq<int>, b: seq<int>)
    ensures Sum(a + b) == Sum(a) + Sum(b)
  {
    if b == [] {
      assert a + b == a;
    } else {
      assert (a + b)[..|a + b| - 1] == a + b[..|b| - 1];
      SumConcat(a, b[..|b| - 1]);
    }
  }

  lemma SumSingle(v: int)
    ensures Sum([v]) == v
  {

  }

  /** Replacing one entry moves the sum by the difference. */
  lemma SumReplace(xs: seq<int>, i: nat, v: int)
    requires i < |xs|
    ensures Sum(xs[i := v]) == Sum(xs) - xs[i] + v
  {
    var pre, post := xs[..i], xs[i + 1..];
    assert xs[i..] == [xs[i]] + post;
    assert xs == pre + xs[i..];
    assert xs == pre + [xs[i]] + post;
    assert xs[i := v] == pre + [v] + post;
    SumConcat(pre + [xs[i]], post);
    SumConcat(pre + [v], post);
    SumConcat(pre, [xs[i]]);
    SumConcat(pre, [v]);
    SumSingle(xs[i]);
    SumSingle(v);
  }

  /** Removing one entry lowers the sum by it. */
  lemma {:induction false} SumRemoveAt(xs: seq<int>, i: nat)
    requires i < |xs|
    ensures Sum(RemoveAt(xs, i)) == Sum(xs) - xs[i]
  {
    var n := |xs| - 1;
    if i == n {
      assert RemoveAt(xs, i) == xs[..n];
    } else {
      var rest := RemoveAt(xs, i);
      assert rest[..|rest| - 1] == RemoveAt(xs[..n], i);
      assert rest[|rest| - 1] == xs[n];
      SumRemoveAt(xs[..n], i);
    }
  }

  // ---------------------------------------------------------------------------
  // Line items

  function Subtotal(it: LineItem): int {
    it.price * it.quantity
  }

  function Subtotals(items: seq<LineItem>): (r: seq<int>)
    ensures |r| == |items| && forall i :: 0 <= i < |items| ==> r[i] == Subtotal(items[i])
  {
    seq(|items|, i requires 0 <= i < |items| => Subtotal(items[i]))
  }

  /** Σ price × quantity over the items: the `reduce` each handler recomputes `totalPrice` with. */
  function Total(items: seq<LineItem>): int {
    Sum(Subtotals(items))
  }

  /** The index of the first item with the given key, or -1: `products.findIndex` on (productId, size, color). */
  function KeyIndex(items: seq<LineItem>, k: Key): (r: int)
    ensures -1 <= r < |items|
    ensures r >= 0 ==> KeyOf(items[r]) == k && forall j :: 0 <= j < r ==> KeyOf(items[j]) != k
    ensures r == -1 ==> forall j :: 0 <= j < |items| ==> KeyOf(items[j]) != k
  {
    if items == [] then -1
    else if KeyOf(items[0]) == k then 0
    else
      var r := KeyIndex(items[1..], k);
      if r == -1 then -1 else r + 1
  }

  /** The first item with key k sits at index i when i has key k and no earlier item does. */
  lemma KeyIndexIs(items: seq<LineItem>, k: Key, i: nat)
    requires i < |items| && KeyOf(items[i]) == k
    requires forall j :: 0 <= j < i ==> KeyOf(items[j]) != k
    ensures KeyIndex(items, k) == i
  {

  }

  function Keys(items: seq<LineItem>): set<Key> {
    set i | 0 <= i < |items| :: KeyOf(items[i])
  }

  /** No two line items share a key. */
  predicate KeysUnique(items: seq<LineItem>) {
    forall i, j :: 0 <= i < j < |items| ==> KeyOf(items[i]) != KeyOf(items[j])
  }

  /** `items[i].quantity += q`. */
  function Bump(items: seq<LineItem>, i: nat, q: int): seq<LineItem>
    requires i < |items|
  {
    items[i := items[i].(quantity := items[i].quantity + q)]
  }

  /** `items[i].quantity = q`. */
  function SetQuantityAt(items: seq<LineItem>, i: nat, q: int): seq<LineItem>
    requires i < |items|
  {
    items[i := items[i].(quantity := q)]
  }

  /** `items.splice(i, 1)`. */
  function RemoveAt<T>(s: seq<T>, i: nat): seq<T>
    requires i < |s|
  {
    s[..i] + s[i + 1..]
  }

  /** The splice drops entry i and keeps every other entry, in order. */
  lemma RemoveAtShifts<T>(s: seq<T>, i: nat)
    requires i < |s|
    ensures |RemoveAt(s, i)| == |s| - 1
    ensures forall j :: 0 <= j < |s| - 1 ==> RemoveAt(s, i)[j] == s[if j < i then j else j + 1]
  {
  }

  /** Add `x` to the item with its key, or append it when there is none. */
  function Upsert(items: seq<LineItem>, x: LineItem): seq<LineItem> {
    var j := KeyIndex(items, KeyOf(x));
    if j >= 0 then Bump(items, j, x.quantity) else items + [x]
  }

  /** The user's items after folding the guest's items in, one `Upsert` per guest item, in order. */
  function Merged(user: seq<LineItem>, guest: seq<LineItem>): seq<LineItem> {
    if guest == [] then user else Upsert(Merged(user, guest[..|guest| - 1]), guest[|guest| - 1])
  }

  lemma MulSplit(a: int, b: int, c: int)
    ensures a * (b + c) == a * b + a * c
  {
  }

  /** Changing one item's quantity keeps every key in place. */
  lemma SameKeys(items: seq<LineItem>, i: nat, y: LineItem)
    requires i < |items| && KeyOf(y) == KeyOf(items[i])
    ensures Keys(items[i := y]) == Keys(items)
    ensures KeysUnique(items) ==> KeysUnique(items[i := y])
  {
    var b := items[i := y];
    assert forall j :: 0 <= j < |b| ==> KeyOf(b[j]) == KeyOf(items[j]);
    forall k | k in Keys(items) ensures k in Keys(b) {
      var j :| 0 <= j < |items| && KeyOf(items[j]) == k;
      assert KeyOf(b[j]) == k;
    }
  }

  /** Raising one item's quantity by q raises the total by its price times q, and keeps the keys. */
  lemma TotalBump(items: seq<LineItem>, i: nat, q: int)
    requires i < |items|
    ensures Keys(Bump(items, i, q)) == Keys(items)
    ensures KeysUnique(items) ==> KeysUnique(Bump(items, i, q))
    ensures |Bump(items, i, q)| == |items|
    ensures forall j :: 0 <= j < |items| && j != i ==> Bump(items, i, q)[j] == items[j]
    ensures Bump(items, i, q)[i].quantity == items[i].quantity + q
    ensures Total(Bump(items, i, q)) == Total(items) + items[i].price * q
  {
    var y := items[i].(quantity := items[i].quantity + q);
    SameKeys(items, i, y);
    assert Subtotals(Bump(items, i, q)) == Subtotals(items)[i := Subtotal(y)];
    SumReplace(Subtotals(items), i, Subtotal(y));
    MulSplit(items[i].price, items[i].quantity, q);
  }

  /** Setting one item's quantity moves the total by its price times the change, and keeps the keys. */
  lemma TotalSetQuantity(items: seq<LineItem>, i: nat, q: int)
    requires i < |items|
    ensures KeysUnique(items) ==> KeysUnique(SetQuantityAt(items, i, q))
    ensures |SetQuantityAt(items, i, q)| == |items| && SetQuantityAt(items, i, q)[i].quantity == q
    ensures forall j :: 0 <= j < |items| && j != i ==> SetQuantityAt(items, i, q)[j] == items[j]
    ensures Total(SetQuantityAt(items, i, q)) == Total(items) + items[i].price * (q - items[i].quantity)
  {
    var y := items[i].(quantity := q);
    SameKeys(items, i, y);
    assert Subtotals(SetQuantityAt(items, i, q)) == Subtotals(items)[i := Subtotal(y)];
    SumReplace(Subtotals(items), i, Subtotal(y));
    MulSplit(items[i].price, items[i].quantity, q - items[i].quantity);
  }

  /** Removing an item lowers the total by its subtotal. */
  lemma TotalRemoveAt(items: seq<LineItem>, i: nat)
    requires i < |items|
    ensures Total(RemoveAt(items, i)) == Total(items) - Subtotal(items[i])
  {
    assert Subtotals(RemoveAt(items, i)) == RemoveAt(Subtotals(items), i);
    SumRemoveAt(Subtotals(items), i);
  }

  /** Appending an item raises the total by its subtotal. */
  lemma TotalAppend(items: seq<LineItem>, x: LineItem)
    ensures Total(items + [x]) == Total(items) + Subtotal(x)
  {
    assert Subtotals(items + [x]) == Subtotals(items) + [Subtotal(x)];
    SumConcat(Subtotals(items), [Subtotal(x)]);
    SumSingle(Subtotal(x));
  }

  lemma TotalSingle(x: LineItem)
    ensures Total([x]) == x.price * x.quantity
  {
    assert Subtotals([x]) == [Subtotal(x)];
    SumSingle(Subtotal(x));
  }

  /** Removing the item found for a key leaves no item with that key, when keys are unique. */
  lemma RemovedKeyAbsent(items: seq<LineItem>, k: Key)
    requires KeysUnique(items) && KeyIndex(items, k) >= 0
    ensures KeyIndex(RemoveAt(items, KeyIndex(items, k)), k) == -1
    ensures Keys(RemoveAt(items, KeyIndex(items, k))) == Keys(items) - {k}
    ensures KeysUnique(RemoveAt(items, KeyIndex(items, k)))
  {
    var i := KeyIndex(items, k);
    var r := RemoveAt(items, i);
    assert forall j :: 0 <= j < |r| ==> r[j] == items[if j < i then j else j + 1];
    forall key | key in Keys(items) - {k} ensures key in Keys(r) {
      var j :| 0 <= j < |items| && KeyOf(items[j]) == key;
      assert j != i;
      assert KeyOf(r[if j < i then j else j - 1]) == key;
    }
  }

  // ---------------------------------------------------------------------------
  // Per-key quantities and the merge fold

  /** Each item's quantity where its key is k, and 0 elsewhere. */
  function QuantitiesOf(items: seq<LineItem>, k: Key): (r: seq<int>)
    ensures |r| == |items|
    ensures forall i :: 0 <= i < |items| ==> r[i] == if KeyOf(items[i]) == k then items[i].quantity else 0
  {
    seq(|items|, i requires 0 <= i < |items| => if KeyOf(items[i]) == k then items[i].quantity else 0)
  }

  /** The quantity held under key k, summed over every item with that key. */
  function KeyQty(items: seq<LineItem>, k: Key): int {
    Sum(QuantitiesOf(items, k))
  }

  /** The quantity of the item with key k, or 0 when there is none. */
  function QtyAt(items: seq<LineItem>, k: Key): int {
    var j := KeyIndex(items, k);
    if j >= 0 then items[j].quantity else 0
  }

  lemma KeyQtyAppend(items: seq<LineItem>, x: LineItem, k: Key)
    ensures KeyQty(items + [x], k) == KeyQty(items, k) + (if KeyOf(x) == k then x.quantity else 0)
  {
    assert QuantitiesOf(items + [x], k)[..|items|] == QuantitiesOf(items, k);
  }

  /** Upserting x adds x's quantity under x's key and nothing under any other key. */
  lemma UpsertQty(items: seq<LineItem>, x: LineItem, k: Key)
    ensures KeyQty(Upsert(items, x), k) == KeyQty(items, k) + (if KeyOf(x) == k then x.quantity else 0)
  {
    var j := KeyIndex(items, KeyOf(x));
    if j >= 0 {
      var b := Bump(items, j, x.quantity);
      var v := if KeyOf(b[j]) == k then b[j].quantity else 0;
      assert QuantitiesOf(b, k) == QuantitiesOf(items, k)[j := v];
      SumReplace(QuantitiesOf(items, k), j, v);
    } else {
      KeyQtyAppend(items, x, k);
    }
  }

  lemma UpsertKeys(items: seq<LineItem>, x: LineItem)
    ensures Keys(Upsert(items, x)) == Keys(items) + {KeyOf(x)}
    ensures KeysUnique(items) ==> KeysUnique(Upsert(items, x))
  {
    var j := KeyIndex(items, KeyOf(x));
    if j >= 0 {
      TotalBump(items, j, x.quantity);
    } else {
      var r := items + [x];
      assert KeyOf(r[|items|]) == KeyOf(x);
      forall key | key in Keys(items) ensures key in Keys(r) {
        var i :| 0 <= i < |items| && KeyOf(items[i]) == key;
        assert KeyOf(r[i]) == key;
      }
    }
  }

  /** Merging sums the guest's and the user's quantities under every key. */
  lemma {:induction false} MergedQty(user: seq<LineItem>, guest: seq<LineItem>, k: Key)
    ensures KeyQty(Merged(user, guest), k) == KeyQty(user, k) + KeyQty(guest, k)
  {
    if guest == [] {
      assert QuantitiesOf(guest, k) == [];
    } else {
      var g := guest[..|guest| - 1];
      var x := guest[|guest| - 1];
      MergedQty(user, g, k);
      UpsertQty(Merged(user, g), x, k);
      assert guest == g + [x];
      KeyQtyAppend(g, x, k);
    }
  }

  /** Merging drops no key and invents none, and keeps the user's items keyed uniquely. */
  lemma {:induction false} MergedKeys(user: seq<LineItem>, guest: seq<LineItem>)
    ensures Keys(Merged(user, guest)) == Keys(user) + Keys(guest)
    ensures KeysUnique(user) ==> KeysUnique(Merged(user, guest))
  {
    if guest != [] {
      var g := guest[..|guest| - 1];
      var x := guest[|guest| - 1];
      MergedKeys(user, g);
      UpsertKeys(Merged(user, g), x);
      forall key | key in Keys(guest) ensures key in Keys(g) + {KeyOf(x)} {
        var i :| 0 <= i < |guest| && KeyOf(guest[i]) == key;
        if i < |g| { assert KeyOf(g[i]) == key; }
      }
      forall key | key in Keys(g) ensures key in Keys(guest) {
        var i :| 0 <= i < |g| && KeyOf(g[i]) == key;
        assert KeyOf(guest[i]) == key;
      }
      assert KeyOf(guest[|g|]) == KeyOf(x);
    }
  }

  /** With unique keys, the summed quantity under a key is the quantity of its one item. */
  lemma {:induction false} UniqueQty(items: seq<LineItem>, k: Key)
    requires KeysUnique(items)
    ensures KeyQty(items, k) == QtyAt(items, k)
  {
    if items == [] {
      assert QuantitiesOf(items, k) == [];
    } else {
      var p := items[..|items| - 1];
      var x := items[|items| - 1];
      assert items == p + [x];
      assert KeysUnique(p);
      UniqueQty(p, k);
      KeyQtyAppend(p, x, k);
      var r := KeyIndex(p, k);
      if KeyOf(x) == k {
        assert forall j :: 0 <= j < |p| ==> KeyOf(items[j]) != KeyOf(items[|p|]);
        KeyIndexIs(items, k, |p|);
        assert r == -1;
      } else if r >= 0 {
        KeyIndexIs(items, k, r);
      } else {
        assert forall j :: 0 <= j < |items| ==> KeyOf(items[j]) != k;
      }
    }
  }

  /**
   * Merging two uniquely keyed item lists: under every key the merged
   * quantity is the user's plus the guest's, and the result is uniquely keyed.
   */
  lemma MergeSumsQuantities(user: seq<LineItem>, guest: seq<LineItem>, k: Key)
    requires KeysUnique(user) && KeysUnique(guest)
    ensures KeysUnique(Merged(user, guest))
    ensures QtyAt(Merged(user, guest), k) == QtyAt(user, k) + QtyAt(guest, k)
  {
    MergedKeys(user, guest);
    MergedQty(user, guest, k);
    UniqueQty(Merged(user, guest), k);
    UniqueQty(user, k);
    UniqueQty(guest, k);
  }

  // ---------------------------------------------------------------------------
  // Carts and their lookup

  /** A cart query: `{ user: id }` or `{ guestId: id }`. */
  datatype Owner = ByUser(id: string) | ByGuest(id: string)

  predicate Owns(c: Cart, o: Owner) {
    match o
    case ByUser(u) => c.user == Some(u)
    case ByGuest(g) => c.guestId == Some(g)
  }

  /** `Cart.findOne`: the index of the first cart the query matches, or -1. */
  function FindCart(carts: seq<Cart>, o: Owner): (r: int)
    ensures -1 <= r < |carts|
    ensures r >= 0 ==> Owns(carts[r], o) && forall j :: 0 <= j < r ==> !Owns(carts[j], o)
    ensures r == -1 ==> forall j :: 0 <= j < |carts| ==> !Owns(carts[j], o)
  {
    if carts == [] then -1
    else if Owns(carts[0], o) then 0
    else
      var r := FindCart(carts[1..], o);
      if r == -1 then -1 else r + 1
  }

  /** `getCart`: the user id is looked up when given, else the guest id; with neither there is no cart. */
  function Lookup(carts: seq<Cart>, userId: string, guestId: string): (r: int)
    ensures -1 <= r < |carts|
    ensures r >= 0 && userId != "" ==> Owns(carts[r], ByUser(userId))
    ensures r >= 0 && userId == "" ==> guestId != "" && Owns(carts[r], ByGuest(guestId))
    ensures r >= 0 ==>
              forall j :: 0 <= j < r ==> !Owns(carts[j], if userId != "" then ByUser(userId) else ByGuest(guestId))
    ensures r == -1 <==>
              if userId != "" then forall j :: 0 <= j < |carts| ==> !Owns(carts[j], ByUser(userId))
              else guestId == "" || forall j :: 0 <= j < |carts| ==> !Owns(carts[j], ByGuest(guestId))
  {
    if userId != "" then FindCart(carts, ByUser(userId))
    else if guestId != "" then FindCart(carts, ByGuest(guestId))
    else -1
  }

  /** `Cart.findOneAndDelete`: the carts without the first one the query matches. */
  function DeleteFirst(carts: seq<Cart>, o: Owner): (r: seq<Cart>)
    ensures FindCart(carts, o) == -1 ==> r == carts
    ensures FindCart(carts, o) >= 0 ==> |r| == |carts| - 1
    ensures var i := FindCart(carts, o);
      i >= 0 ==> forall j :: 0 <= j < |r| ==> r[j] == carts[if j < i then j else j + 1]
  {
    var i := FindCart(carts, o);
    if i >= 0 then RemoveAt(carts, i) else carts
  }

  /** The cart invariant: the total matches the items and no two items share a key. */
  predicate WellFormed(c: Cart) {
    c.totalPrice == Total(c.products) && KeysUnique(c.products)
  }

  /** The cart with new items and the total recomputed from them. */
  function Reprice(c: Cart, items: seq<LineItem>): (r: Cart)
    ensures r.totalPrice == Total(r.products)
    ensures r.products == items && r.totalPrice == Total(items)
    ensures r.user == c.user && r.guestId == c.guestId
  {
    c.(products := items, totalPrice := Total(items))
  }

  /** The line item an add creates: the product's name, first image and price at this instant. */
  function Snapshot(productId: string, p: Products.Product, size: Option<string>, color: Option<string>,
                    quantity: int): (it: LineItem)
    requires p.images != []
    ensures KeyOf(it) == Key(productId, size, color) && it.quantity == quantity
    ensures it.name == p.name && it.image == p.images[0].url && it.price == p.price
  {
    LineItem(productId, p.name, p.images[0].url, p.price, size, color, quantity)
  }

  /** The cart an add creates when the request's identity has none. */
  function NewCart(userId: string, guestId: string, now: nat, item: LineItem): (c: Cart)
    ensures WellFormed(c) && c.products == [item]
    ensures c.user == (if userId != "" then Some(userId) else None)
    ensures c.guestId == Some(if guestId != "" then guestId else "guest_" + Decimal(now))
  {
    TotalSingle(item);
    Cart(if userId != "" then Some(userId) else None,
         Some(if guestId != "" then guestId else "guest_" + Decimal(now)),
         [item],
         item.price * item.quantity)
  }

  predicate AllWellFormed(carts: seq<Cart>) {
    forall i :: 0 <= i < |carts| ==> WellFormed(carts[i])
  }

  /** Saving a well-formed cart over another, appending one, or deleting one keeps every cart well formed. */
  lemma WellFormedEdits(carts: seq<Cart>, i: nat, c: Cart, o: Owner)
    requires AllWellFormed(carts) && WellFormed(c)
    ensures i < |carts| ==> AllWellFormed(carts[i := c])
    ensures AllWellFormed(carts + [c])
    ensures AllWellFormed(DeleteFirst(carts, o))
  {

  }

  /** The merge loop: each guest item in turn is added onto the user's items. */
  method MergeItems(user: seq<LineItem>, guest: seq<LineItem>) returns (items: seq<LineItem>)
    ensures items == Merged(user, guest)
  {
    items := user;
    var n := 0;
    while n < |guest|
      invariant 0 <= n <= |guest|
      invariant items == Merged(user, guest[..n])
    {
      var guestItem := guest[n];
      assert guest[..n + 1][..n] == guest[..n];
      var j := KeyIndex(items, KeyOf(guestItem));
      if j > -1 {
        items := Bump(items, j, guestItem.quantity);
      } else {
        items := items + [guestItem];
      }
      n := n + 1;
    }
    assert guest[..n] == guest;
  }

  lemma FindCartIs(carts: seq<Cart>, o: Owner, i: nat)
    requires i < |carts| && Owns(carts[i], o)
    requires forall j :: 0 <= j < i ==> !Owns(carts[j], o)
    ensures FindCart(carts, o) == i
  {

  }

  lemma FindCartSameOwners(a: seq<Cart>, b: seq<Cart>, o: Owner)
    requires |a| == |b|
    requires forall j :: 0 <= j < |a| ==> Owns(a[j], o) == Owns(b[j], o)
    ensures FindCart(a, o) == FindCart(b, o)
  {

  }

  // ---------------------------------------------------------------------------
  // Merge, as the handler is written and as corrected

  /**
   * POST /merge as written. When the guest cart and the user cart are the same
   * document (a cart created by a signed-in add that carried both ids), the
   * fold adds the cart to itself and the final `findOneAndDelete` removes it.
   */
  function MergeAsWritten(carts: seq<Cart>, guestId: string, userId: string): (seq<Cart>, Reply<Cart>) {
    var gi := FindCart(carts, ByGuest(guestId));
    var ui := FindCart(carts, ByUser(userId));
    if gi >= 0 then
      if |carts[gi].products| == 0 then (carts, Fail(404, "Guest cart is empty"))
      else if ui >= 0 then
        var merged := Reprice(carts[ui], Merged(carts[ui].products, carts[gi].products));
        (DeleteFirst(carts[ui := merged], ByGuest(guestId)), Ok(merged))
      else
        var moved := carts[gi].(user := Some(userId), guestId := None);
        (carts[gi := moved], Ok(moved))
    else if ui >= 0 then (carts, Ok(carts[ui]))
    else (carts, Fail(404, "Guest cart not found"))
  }

  /** POST /merge, corrected: a guest cart that already is the user's cart has nothing to merge. */
  function MergeCarts(carts: seq<Cart>, guestId: string, userId: string): (r: (seq<Cart>, Reply<Cart>))
    ensures r.1.Fail? ==> r.0 == carts
    ensures var gi := FindCart(carts, ByGuest(guestId));
      r.1 == Fail(404, "Guest cart is empty") <==> (gi >= 0 && carts[gi].products == [])
    ensures r.1 == Fail(404, "Guest cart not found") <==>
              (FindCart(carts, ByGuest(guestId)) == -1 && FindCart(carts, ByUser(userId)) == -1)
    ensures var ui := FindCart(carts, ByUser(userId));
      FindCart(carts, ByGuest(guestId)) == -1 && ui >= 0 ==> r == (carts, Ok(carts[ui]))
    ensures var gi := FindCart(carts, ByGuest(guestId));
      gi >= 0 && carts[gi].products != [] && FindCart(carts, ByUser(userId)) == -1 ==>
        r.1 == Ok(carts[gi].(user := Some(userId), guestId := None)) && r.0 == carts[gi := r.1.body]
    ensures var gi, ui := FindCart(carts, ByGuest(guestId)), FindCart(carts, ByUser(userId));
      gi >= 0 && carts[gi].products != [] && ui >= 0 && ui != gi ==>
        && r.1.Ok? && r.1.body.user == Some(userId) && r.1.body.guestId == carts[ui].guestId
        && r.1.body.products == Merged(carts[ui].products, carts[gi].products)
        && r.1.body.totalPrice == Total(r.1.body.products)
        && r.0 == DeleteFirst(carts[ui := r.1.body], ByGuest(guestId))
    ensures var gi := FindCart(carts, ByGuest(guestId));
      gi >= 0 && carts[gi].products != [] && gi == FindCart(carts, ByUser(userId)) ==> r == (carts, Ok(carts[gi]))
  {
    var gi := FindCart(carts, ByGuest(guestId));
    var ui := FindCart(carts, ByUser(userId));
    if gi >= 0 && |carts[gi].products| > 0 && ui == gi then (carts, Ok(carts[ui]))
    else MergeAsWritten(carts, guestId, userId)
  }

  /** A signed-in add stores one cart under both ids; merging it as written doubles it and then deletes it. */
  lemma AsWrittenMergeLosesUserCart()
    ensures
      var item := LineItem("p1", "Tee", "tee.jpg", 1500, Some("M"), Some("Red"), 2);
      var cart := Cart(Some("u1"), Some("guest_1"), [item], 3000);
      var (after, reply) := MergeAsWritten([cart], "guest_1", "u1");
      && reply.Ok? && reply.body.products[0].quantity == 4
      && after == [] && FindCart(after, ByUser("u1")) == -1
  {

  }

  /** On the same input the corrected merge leaves the shared cart as it is and returns it. */
  lemma CorrectedMergeKeepsSharedCart()
    ensures
      var item := LineItem("p1", "Tee", "tee.jpg", 1500, Some("M"), Some("Red"), 2);
      var cart := Cart(Some("u1"), Some("guest_1"), [item], 3000);
      MergeCarts([cart], "guest_1", "u1") == ([cart], Ok(cart))
  {
    var item := LineItem("p1", "Tee", "tee.jpg", 1500, Some("M"), Some("Red"), 2);
    var cart := Cart(Some("u1"), Some("guest_1"), [item], 3000);
    assert FindCart([cart], ByGuest("guest_1")) == 0;
    assert FindCart([cart], ByUser("u1")) == 0;
  }

  /** After a successful merge the user owns a cart, and it is the one the reply shows. */
  lemma MergeKeepsUserCart(carts: seq<Cart>, guestId: string, userId: string)
    requires MergeCarts(carts, guestId, userId).1.Ok?
    ensures
      var (after, reply) := MergeCarts(carts, guestId, userId);
      var ui := FindCart(after, ByUser(userId));
      ui >= 0 && after[ui] == reply.body
  {
    var gi := FindCart(carts, ByGuest(guestId));
    var ui := FindCart(carts, ByUser(userId));
    var r := MergeCarts(carts, guestId, userId);
    if gi >= 0 && |carts[gi].products| > 0 && ui != gi {
      if ui >= 0 {
        FoldKeepsUserCart(carts, guestId, userId, r.1.body);
      } else {
        FindCartIs(r.0, ByUser(userId), gi);
      }
    }
  }

  /** Saving the folded user cart and deleting the guest cart leaves the folded cart as the user's first. */
  lemma FoldKeepsUserCart(carts: seq<Cart>, guestId: string, userId: string, merged: Cart)
    requires var gi, ui := FindCart(carts, ByGuest(guestId)), FindCart(carts, ByUser(userId));
      gi >= 0 && ui >= 0 && gi != ui
    requires var ui := FindCart(carts, ByUser(userId));
      merged.user == Some(userId) && merged.guestId == carts[ui].guestId
    ensures
      var after := DeleteFirst(carts[FindCart(carts, ByUser(userId)) := merged], ByGuest(guestId));
      var k := FindCart(after, ByUser(userId));
      k >= 0 && after[k] == merged
  {
    var gi, ui := FindCart(carts, ByGuest(guestId)), FindCart(carts, ByUser(userId));
    var saved := carts[ui := merged];
    var after := DeleteFirst(saved, ByGuest(guestId));
    FindCartSameOwners(saved, carts, ByGuest(guestId));
    var ui' := if gi < ui then ui - 1 else ui;
    assert after[ui'] == merged;
    forall j | 0 <= j < ui' ensures !Owns(after[j], ByUser(userId)) {
      assert after[j] == saved[if j < gi then j else j + 1];
    }
    FindCartIs(after, ByUser(userId), ui');
  }

  /** At most one cart carries the guest id. */
  predicate SingleGuestCart(carts: seq<Cart>, guestId: string) {
    forall i, j :: 0 <= i < |carts| && 0 <= j < |carts| ==>
      Owns(carts[i], ByGuest(guestId)) && Owns(carts[j], ByGuest(guestId)) ==> i == j
  }

  /** Merging the same guest id again is a no-op that answers as the first merge did: the guest cart is gone or already the user's. */
  lemma MergeTwiceIsMergeOnce(carts: seq<Cart>, guestId: string, userId: string)
    requires SingleGuestCart(carts, guestId)
    requires MergeCarts(carts, guestId, userId).1.Ok?
    ensures
      var (after, reply) := MergeCarts(carts, guestId, userId);
      MergeCarts(after, guestId, userId) == (after, reply)
  {
    var gi, ui := FindCart(carts, ByGuest(guestId)), FindCart(carts, ByUser(userId));
    if gi >= 0 && carts[gi].products != [] && gi != ui {
      MergeRemovesGuestCart(carts, guestId, userId);
      MergeKeepsUserCart(carts, guestId, userId);
    }
  }

  /** Removing a present item from one cart and repricing it keeps every cart well formed. */
  lemma RemoveKeepsWellFormed(carts: seq<Cart>, i: nat, k: Key)
    requires AllWellFormed(carts) && i < |carts| && KeyIndex(carts[i].products, k) >= 0
    ensures
      var c := carts[i];
      AllWellFormed(carts[i := Reprice(c, RemoveAt(c.products, KeyIndex(c.products, k)))])
  {
    var c := carts[i];
    RemovedKeyAbsent(c.products, k);
    WellFormedEdits(carts, i, Reprice(c, RemoveAt(c.products, KeyIndex(c.products, k))), ByGuest(""));
  }

  /** When there is one guest cart to fold in, no cart carries the guest id afterwards. */
  lemma MergeRemovesGuestCart(carts: seq<Cart>, guestId: string, userId: string)
    requires SingleGuestCart(carts, guestId)
    requires var gi := FindCart(carts, ByGuest(guestId));
      gi >= 0 && carts[gi].products != [] && gi != FindCart(carts, ByUser(userId))
    ensures MergeCarts(carts, guestId, userId).1.Ok?
    ensures FindCart(MergeCarts(carts, guestId, userId).0, ByGuest(guestId)) == -1
  {
    var gi, ui := FindCart(carts, ByGuest(guestId)), FindCart(carts, ByUser(userId));
    if ui == -1 {
      var after := carts[gi := carts[gi].(user := Some(userId), guestId := None)];
      assert MergeCarts(carts, guestId, userId).0 == after;
      forall j | 0 <= j < |after| ensures !Owns(after[j], ByGuest(guestId)) {
        if j != gi {
          assert after[j] == carts[j];
        }
      }
    } else {
      var r := MergeCarts(carts, guestId, userId);
      assert !Owns(carts[ui], ByGuest(guestId));
      FoldDropsGuestCart(carts, guestId, ui, r.1.body);
    }
  }

  /** With one guest cart, saving a cart without the guest id elsewhere and deleting the guest cart leaves none. */
  lemma FoldDropsGuestCart(carts: seq<Cart>, guestId: string, ui: nat, merged: Cart)
    requires SingleGuestCart(carts, guestId)
    requires ui < |carts| && FindCart(carts, ByGuest(guestId)) >= 0 && !Owns(merged, ByGuest(guestId))
    requires !Owns(carts[ui], ByGuest(guestId))
    ensures FindCart(DeleteFirst(carts[ui := merged], ByGuest(guestId)), ByGuest(guestId)) == -1
  {
    var gi := FindCart(carts, ByGuest(guestId));
    var saved := carts[ui := merged];
    var after := DeleteFirst(saved, ByGuest(guestId));
    FindCartIs(saved, ByGuest(guestId), gi);
    forall j | 0 <= j < |after| ensures !Owns(after[j], ByGuest(guestId)) {
      var k := if j < gi then j else j + 1;
      assert after[j] == saved[k] && k != gi;
    }
  }

  // ---------------------------------------------------------------------------
  // The cart store

  /** The cart collection, in insertion order, so that a query's first match is well defined. */
  class CartStore {
    var carts: seq<Cart>

    ghost predicate Valid()
      reads this
    {
      AllWellFormed(carts)
    }

    constructor ()
      ensures Valid() && carts == []
    {
      carts := [];
    }

    /** GET / — the cart of the request's identity. */
    method Get(userId: string, guestId: string) returns (r: Reply<Cart>)
      requires Valid()
      ensures Lookup(carts, userId, guestId) == -1 <==> r == Fail(404, "Cart not found")
      ensures r.Ok? ==> r.body == carts[Lookup(carts, userId, guestId)] && WellFormed(r.body)
      ensures r.Ok? && userId != "" ==> r.body.user == Some(userId)
      ensures r.Ok? && userId == "" ==> guestId != "" && r.body.guestId == Some(guestId)
    {
      var i := Lookup(carts, userId, guestId);
      if i >= 0 {
        r := Ok(carts[i]);
      } else {
        r := Fail(404, "Cart not found");
      }
    }

    /** POST / — add a quantity of a product variant to the request's cart, creating the cart if needed. */
    method Add(catalog: map<string, Products.Product>, productId: string, quantity: int,
               size: Option<string>, color: Option<string>, guestId: string, userId: string, now: nat)
      returns (r: Reply<Cart>)
      requires Valid()
      modifies this
      ensures Valid()
      ensures productId !in catalog ==> r == Fail(404, "Product not found") && carts == old(carts)
      ensures productId in catalog ==>
        var p := catalog[productId];
        var i := Lookup(old(carts), userId, guestId);
        if i >= 0 then
          var c := old(carts)[i];
          var j := KeyIndex(c.products, Key(productId, size, color));
          if j >= 0 then
            r == Ok(Reprice(c, Bump(c.products, j, quantity))) && carts == old(carts)[i := r.body]
          else if p.images == [] then
            r == Fail(500, "Error adding product to cart") && carts == old(carts)
          else
            r == Ok(Reprice(c, c.products + [Snapshot(productId, p, size, color, quantity)]))
            && carts == old(carts)[i := r.body]
        else if p.images == [] then
          r == Fail(500, "Error adding product to cart") && carts == old(carts)
        else
          r == Ok(NewCart(userId, guestId, now, Snapshot(productId, p, size, color, quantity)))
          && carts == old(carts) + [r.body]
    {
      if productId !in catalog {
        return Fail(404, "Product not found");
      }
      var product := catalog[productId];
      var i := Lookup(carts, userId, guestId);
      if i >= 0 {
        var cart := carts[i];
        var j := KeyIndex(cart.products, Key(productId, size, color));
        var items;
        if j != -1 {
          items := Bump(cart.products, j, quantity);
          TotalBump(cart.products, j, quantity);
        } else if product.images == [] {
          return Fail(500, "Error adding product to cart");
        } else {
          var item := Snapshot(productId, product, size, color, quantity);
          UpsertKeys(cart.products, item);
          items := cart.products + [item];
        }
        cart := Reprice(cart, items);
        WellFormedEdits(carts, i, cart, ByUser(userId));
        carts := carts[i := cart];
        r := Ok(cart);
      } else if product.images == [] {
        return Fail(500, "Error adding product to cart");
      } else {
        var cart := NewCart(userId, guestId, now, Snapshot(productId, product, size, color, quantity));
        WellFormedEdits(carts, 0, cart, ByUser(userId));
        carts := carts + [cart];
        r := Ok(cart);
      }
    }

    /** PUT / — set an item's quantity; a quantity of 0 or less removes the item. */
    method SetQuantity(productId: string, quantity: int, size: Option<string>, color: Option<string>,
                       guestId: string, userId: string)
      returns (r: Reply<Cart>)
      requires Valid()
      modifies this
      ensures Valid()
      ensures
        var i := Lookup(old(carts), userId, guestId);
        if i == -1 then
          r == Fail(404, "Cart not found") && carts == old(carts)
        else
          var c := old(carts)[i];
          var j := KeyIndex(c.products, Key(productId, size, color));
          if j == -1 then
            r == Fail(404, "Product not found in cart") && carts == old(carts)
          else
            var items := if quantity > 0 then SetQuantityAt(c.products, j, quantity) else RemoveAt(c.products, j);
            r == Ok(Reprice(c, items)) && carts == old(carts)[i := r.body]
    {
      var i := Lookup(carts, userId, guestId);
      if i == -1 {
        return Fail(404, "Cart not found");
      }
      var cart := carts[i];
      var j := KeyIndex(cart.products, Key(productId, size, color));
      if j > -1 {
        var items;
        if quantity > 0 {
          items := SetQuantityAt(cart.products, j, quantity);
          TotalSetQuantity(cart.products, j, quantity);
        } else {
          items := RemoveAt(cart.products, j);
          RemovedKeyAbsent(cart.products, Key(productId, size, color));
        }
        cart := Reprice(cart, items);
        WellFormedEdits(carts, i, cart, ByUser(userId));
        carts := carts[i := cart];
        r := Ok(cart);
      } else {
        r := Fail(404, "Product not found in cart");
      }
    }

    /** DELETE / — remove an item from the request's cart. */
    method Remove(productId: string, size: Option<string>, color: Option<string>, guestId: string, userId: string)
      returns (r: Reply<Cart>)
      requires Valid()
      modifies this
      ensures Valid()
      ensures
        var i := Lookup(old(carts), userId, guestId);
        if i == -1 then
          r == Fail(404, "Cart not found") && carts == old(carts)
        else
          var c := old(carts)[i];
          var j := KeyIndex(c.products, Key(productId, size, color));
          if j == -1 then
            r == Fail(404, "Product not found in cart") && carts == old(carts)
          else
            r == Ok(Reprice(c, RemoveAt(c.products, j))) && carts == old(carts)[i := r.body]
    {
      var i := Lookup(carts, userId, guestId);
      if i == -1 {
        return Fail(404, "Cart not found");
      }
      var cart := carts[i];
      var j := KeyIndex(cart.products, Key(productId, size, color));
      if j > -1 {
        RemoveKeepsWellFormed(carts, i, Key(productId, size, color));
        cart := Reprice(cart, RemoveAt(cart.products, j));
        carts := carts[i := cart];
        r := Ok(cart);
      } else {
        r := Fail(404, "Product not found in cart");
      }
    }

    /** POST /merge — fold the guest cart into the signed-in user's cart. */
    method Merge(guestId: string, userId: string) returns (r: Reply<Cart>)
      requires Valid()
      modifies this
      ensures Valid()
      ensures (carts, r) == MergeCarts(old(carts), guestId, userId)
    {
      var gi := FindCart(carts, ByGuest(guestId));
      var ui := FindCart(carts, ByUser(userId));
      if gi >= 0 {
        var guestCart := carts[gi];
        if |guestCart.products| == 0 {
          return Fail(404, "Guest cart is empty");
        }
        if ui == gi {
          return Ok(carts[ui]);
        }
        if ui >= 0 {
          var userCart := carts[ui];
          var items := MergeItems(userCart.products, guestCart.products);
          MergedKeys(userCart.products, guestCart.products);
          userCart := Reprice(userCart, items);
          WellFormedEdits(carts, ui, userCart, ByGuest(guestId));
          WellFormedEdits(carts[ui := userCart], 0, userCart, ByGuest(guestId));
          carts := carts[ui := userCart];
          carts := DeleteFirst(carts, ByGuest(guestId));
          r := Ok(userCart);
        } else {
          guestCart := guestCart.(user := Some(userId), guestId := None);
          WellFormedEdits(carts, gi, guestCart, ByGuest(guestId));
          carts := carts[gi := guestCart];
          r := Ok(guestCart);
        }
      } else if ui >= 0 {
        r := Ok(carts[ui]);
      } else {
        r := Fail(404, "Guest cart not found");
      }
    }

    /** `Cart.findOneAndDelete({ user })`, as finalizing a checkout runs it. */
    method DeleteOwnedBy(o: Owner)
      requires Valid()
      modifies this
      ensures Valid()
      ensures carts == DeleteFirst(old(carts), o)
    {
      if |carts| > 0 {
        WellFormedEdits(carts, 0, carts[0], o);
      }
      carts := DeleteFirst(carts, o);
    }
  }
}
