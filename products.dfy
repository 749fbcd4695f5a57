/**
 * The product routes: the filter and sort a catalog listing is built from,
 * and the field-by-field merge of a product update.
 */
module Products {
  import opened Wrappers
  import opened JsValues

  datatype Image = Image(url: string, altText: string)

  datatype Dimensions = Dimensions(length: int, width: int, height: int)

  /** A catalog product, with the fields the routes read and write. */
  datatype Product = Product(
    name: string,
    description: string,
    price: int,
    discountPrice: int,
    countInStock: int,
    category: string,
    brand: string,
    sizes: seq<string>,
    colors: seq<string>,
    collections: string,
    material: string,
    gender: string,
    images: seq<Image>,
    isFeatured: bool,
    isPublished: bool,
    tags: seq<string>,
    dimensions: Option<Dimensions>,
    weight: int,
    sku: string)

  // ---------------------------------------------------------------------------
  // Listing: the query and sort built from the query string

  /** The query-string parameters of a listing; "" stands for an absent parameter. */
  datatype ListingParams = ListingParams(
    collection: string,
    size: string,
    color: string,
    gender: string,
    minPrice: string,
    maxPrice: string,
    sortBy: string,
    category: string,
    brand: string,
    material: string,
    limit: string)

  /** `{ $gte, $lte }` on the price; either bound may be missing. */
  datatype PriceFilter = PriceFilter(gte: Option<JsNumber>, lte: Option<JsNumber>)

  /** The Mongo query document; None is a field the query does not mention. */
  datatype Query = Query(
    collections: Option<string>,
    category: Option<string>,
    material: Option<seq<string>>,
    brand: Option<seq<string>>,
    sizes: Option<seq<string>>,
    colors: Option<seq<string>>,
    gender: Option<string>,
    price: Option<PriceFilter>)

  /** A collection or category narrows the listing unless absent or "all" in any letter case. */
  predicate Narrows(s: string) {
    s != "" && Lower(s) != "all"
  }

  /**
   * A price bound admits a price. A bound that is not a number never reaches
   * the matching (`Find` refuses it first); it is given no price here.
   */
  predicate AtLeast(price: int, bound: Option<JsNumber>) {
    match bound
    case None => true
    case Some(NaN) => false
    case Some(Num(v)) => price >= v
  }

  predicate AtMost(price: int, bound: Option<JsNumber>) {
    match bound
    case None => true
    case Some(NaN) => false
    case Some(Num(v)) => price <= v
  }

  /** What a query document selects: every field it mentions must hold (`$in` on an array field needs one common element). */
  predicate Matches(q: Query, p: Product) {
    && (q.collections.Some? ==> p.collections == q.collections.value)
    && (q.category.Some? ==> p.category == q.category.value)
    && (q.material.Some? ==> p.material in q.material.value)
    && (q.brand.Some? ==> p.brand in q.brand.value)
    && (q.sizes.Some? ==> exists s :: s in p.sizes && s in q.sizes.value)
    && (q.colors.Some? ==> exists c :: c in p.colors && c in q.colors.value)
    && (q.gender.Some? ==> p.gender == q.gender.value)
    && (q.price.Some? ==> AtLeast(p.price, q.price.value.gte) && AtMost(p.price, q.price.value.lte))
  }

  /** What a shopper asks for with the listing parameters, stated on the parameters themselves. */
  predicate Admits(params: ListingParams, p: Product) {
    && (Narrows(params.collection) ==> p.collections == params.collection)
    && (Narrows(params.category) ==> p.category == params.category)
    && (params.material != "" ==> p.material in Split(params.material, ','))
    && (params.brand != "" ==> p.brand in Split(params.brand, ','))
    && (params.size != "" ==> exists s :: s in p.sizes && s in Split(params.size, ','))
    && (params.color != "" ==> params.color in p.colors)
    && (params.gender != "" ==> p.gender == params.gender)
    && (params.minPrice != "" ==> AtLeast(p.price, Some(ToNumber(params.minPrice))))
    && (params.maxPrice != "" ==> AtMost(p.price, Some(ToNumber(params.maxPrice))))
  }

  /** The filter part of the listing handler: one conditional field per parameter. */
  function BuildQuery(params: ListingParams): (q: Query)
    ensures q.price.Some? <==> params.minPrice != "" || params.maxPrice != ""
    ensures q.price.Some? ==> (q.price.value.gte.Some? <==> params.minPrice != "")
    ensures q.price.Some? ==> (q.price.value.lte.Some? <==> params.maxPrice != "")
  {
    Query(
      collections := if Narrows(params.collection) then Some(params.collection) else None,
      category := if Narrows(params.category) then Some(params.category) else None,
      material := if params.material != "" then Some(Split(params.material, ',')) else None,
      brand := if params.brand != "" then Some(Split(params.brand, ',')) else None,
      sizes := if params.size != "" then Some(Split(params.size, ',')) else None,
      colors := if params.color != "" then Some([params.color]) else None,
      gender := if params.gender != "" then Some(params.gender) else None,
      price :=
        if params.minPrice != "" || params.maxPrice != "" then
          Some(PriceFilter(
            if params.minPrice != "" then Some(ToNumber(params.minPrice)) else None,
            if params.maxPrice != "" then Some(ToNumber(params.maxPrice)) else None))
        else None)
  }

  /** The query built from the parameters selects exactly the products the parameters ask for. */
  lemma QueryMeansParams(params: ListingParams, p: Product)
    ensures Matches(BuildQuery(params), p) <==> Admits(params, p)
  {

  }

  /** A list parameter's pieces join back to the parameter: splitting on ',' drops nothing. */
  lemma MaterialListIsLossless(params: ListingParams)
    requires params.material != ""
    ensures BuildQuery(params).material.Some?
    ensures Join(BuildQuery(params).material.value, ',') == params.material
  {
    JoinSplit(params.material, ',');
  }

  /** A price bound that is not a number: Mongoose refuses to cast it to the price's type. */
  predicate CastFails(q: Query) {
    q.price.Some? && (q.price.value.gte == Some(NaN) || q.price.value.lte == Some(NaN))
  }

  /** The text of the cast error that the handler's catch block sends back. */
  const PriceCastError := "Cast to Number failed for value \"NaN\" (type number) at path \"price\" for model \"Product\""

  /** The products a query selects, in catalog order. */
  function Selected(q: Query, all: seq<Product>): (r: seq<Product>)
    ensures |r| <= |all|
    ensures forall p :: p in r <==> p in all && Matches(q, p)
  {
    if all == [] then []
    else if Matches(q, all[0]) then [all[0]] + Selected(q, all[1..])
    else Selected(q, all[1..])
  }

  /**
   * A sort value Mongoose's `Query.sort` refuses: only 1, -1 and their
   * spellings are directions, so the literal `true` throws as the sort is
   * attached, before the query is sent.
   */
  predicate SortRefused(s: Sort) {
    s.SortBy? && s.order == FlagTrue
  }

  /** The text of the sort error that the handler's catch block sends back. */
  const SortValueError := "Invalid sort value: { isFeatured: true }"

  /**
   * `Product.find(query).sort(sort)` as the listing handler runs it, before
   * the limit: the "featured" sort throws as it is attached; otherwise a
   * non-numeric price bound makes the query throw. The catch answers 500
   * with the error's message.
   */
  function Find(params: ListingParams, all: seq<Product>): (r: Reply<seq<Product>>)
    ensures r.Fail? <==>
              || params.sortBy == "featured"
              || (params.minPrice != "" && ToNumber(params.minPrice) == NaN)
              || (params.maxPrice != "" && ToNumber(params.maxPrice) == NaN)
    ensures params.sortBy == "featured" ==> r == Fail(500, SortValueError)
    ensures params.sortBy != "featured" && r.Fail? ==> r == Fail(500, PriceCastError)
    ensures r.Ok? ==> |r.body| <= |all|
    ensures r.Ok? ==> forall p :: p in r.body <==> p in all && Admits(params, p)
  {
    var q := BuildQuery(params);
    if SortRefused(BuildSort(params.sortBy)) then Fail(500, SortValueError)
    else if CastFails(q) then Fail(500, PriceCastError)
    else
      assert forall p :: Matches(q, p) <==> Admits(params, p) by {
        forall p ensures Matches(q, p) <==> Admits(params, p) {
          QueryMeansParams(params, p);
        }
      }
      Ok(Selected(q, all))
  }

  /** A sort value: 1, -1, or the literal `true` that the "featured" sort passes. */
  datatype SortValue = Ascending | Descending | FlagTrue

  /** The sort document; NoSort is `{}`. */
  datatype Sort = NoSort | SortBy(field: string, order: SortValue)

  const SortNames: seq<string> := ["featured", "newest", "priceAsc", "priceDesc", "popularity"]

  function BuildSort(sortBy: string): (s: Sort)
    ensures s == NoSort <==> sortBy !in SortNames
    ensures sortBy == "featured" ==> s == SortBy("isFeatured", FlagTrue)
    ensures sortBy == "newest" ==> s == SortBy("createdAt", Descending)
    ensures sortBy == "priceAsc" ==> s == SortBy("price", Ascending)
    ensures sortBy == "priceDesc" ==> s == SortBy("price", Descending)
    ensures sortBy == "popularity" ==> s == SortBy("rating", Descending)
  {
    if sortBy == "featured" then SortBy("isFeatured", FlagTrue)
    else if sortBy == "newest" then SortBy("createdAt", Descending)
    else if sortBy == "priceAsc" then SortBy("price", Ascending)
    else if sortBy == "priceDesc" then SortBy("price", Descending)
    else if sortBy == "popularity" then SortBy("rating", Descending)
    else NoSort
  }

  /** Different sort names give different sorts. */
  lemma SortNamesDistinct(a: string, b: string)
    requires a in SortNames && b in SortNames && a != b
    ensures BuildSort(a) != BuildSort(b)
  {
  }

  /** `Number(limit) || 0`: the page size handed to `.limit`, where 0 means no limit. */
  function LimitOf(limit: string): (n: int)
    ensures n != 0 ==> ToNumber(limit) == Num(n)
    ensures ToNumber(limit) == NaN ==> n == 0
  {
    match ToNumber(limit)
    case NaN => 0
    case Num(v) => v
  }

  /** A limit written as a decimal number is taken as is; text that is not a number means no limit. */
  lemma LimitOfDecimal(k: nat)
    ensures LimitOf(Decimal(k)) == k
    ensures LimitOf("") == 0 && LimitOf("ten") == 0
  {
    ToNumberOfDecimal(k);
    assert !IsDigit('t');
  }

  // ---------------------------------------------------------------------------
  // Update: each field is overwritten only by a truthy request value

  /** The request body of an update; None is a field the body leaves out. */
  datatype ProductUpdate = ProductUpdate(
    name: Option<string>,
    description: Option<string>,
    price: Option<int>,
    discountPrice: Option<int>,
    countInStock: Option<int>,
    category: Option<string>,
    brand: Option<string>,
    sizes: Option<seq<string>>,
    colors: Option<seq<string>>,
    collections: Option<string>,
    material: Option<string>,
    gender: Option<string>,
    images: Option<seq<Image>>,
    isFeatured: Option<bool>,
    isPublished: Option<bool>,
    tags: Option<seq<string>>,
    dimensions: Option<Dimensions>,
    weight: Option<int>,
    sku: Option<string>)

  /** `value || current` for a string: "" is falsy. */
  function OrText(value: Option<string>, current: string): string {
    if value.Some? && value.value != "" then value.value else current
  }

  /** `value || current` for a number: 0 is falsy. */
  function OrNumber(value: Option<int>, current: int): int {
    if value.Some? && value.value != 0 then value.value else current
  }

  /** `value || current` for an array or object: any present one is truthy, even an empty array. */
  function OrPresent<T>(value: Option<T>, current: T): T {
    if value.Some? then value.value else current
  }

  /** `value !== undefined ? value : current`: an explicit `false` is kept. */
  function OrDefined(value: Option<bool>, current: bool): bool {
    if value.Some? then value.value else current
  }

  /** An update that mentions nothing. */
  const NoChanges := ProductUpdate(None, None, None, None, None, None, None, None, None, None,
                                   None, None, None, None, None, None, None, None, None)

  /** The product the update handler saves. */
  function ApplyUpdate(p: Product, u: ProductUpdate): (r: Product)
    ensures u.price == Some(0) ==> r.price == p.price
    ensures u.isFeatured == Some(false) ==> !r.isFeatured
    ensures u.isPublished == Some(false) ==> !r.isPublished
  {
    Product(
      name := OrText(u.name, p.name),
      description := OrText(u.description, p.description),
      price := OrNumber(u.price, p.price),
      discountPrice := OrNumber(u.discountPrice, p.discountPrice),
      countInStock := OrNumber(u.countInStock, p.countInStock),
      category := OrText(u.category, p.category),
      brand := OrText(u.brand, p.brand),
      sizes := OrPresent(u.sizes, p.sizes),
      colors := OrPresent(u.colors, p.colors),
      collections := OrText(u.collections, p.collections),
      material := OrText(u.material, p.material),
      gender := OrText(u.gender, p.gender),
      images := OrPresent(u.images, p.images),
      isFeatured := OrDefined(u.isFeatured, p.isFeatured),
      isPublished := OrDefined(u.isPublished, p.isPublished),
      tags := OrPresent(u.tags, p.tags),
      dimensions := if u.dimensions.Some? then u.dimensions else p.dimensions,
      weight := OrNumber(u.weight, p.weight),
      sku := OrText(u.sku, p.sku))
  }

  /** Sending the same update twice changes nothing the second time. */
  lemma UpdateIdempotent(p: Product, u: ProductUpdate)
    ensures ApplyUpdate(ApplyUpdate(p, u), u) == ApplyUpdate(p, u)
  {
  }

  /** An update that mentions nothing leaves the product as it was. */
  lemma EmptyUpdateKeeps(p: Product)
    ensures ApplyUpdate(p, NoChanges) == p
  {
  }

  /** The product collection, keyed by id. */
  class ProductStore {
    var products: map<string, Product>

    constructor (initial: map<string, Product>)
      ensures products == initial
    {
      products := initial;
    }

    /** PUT /:id — load the product, overwrite its fields one by one, save it. */
    method Update(id: string, u: ProductUpdate) returns (r: Reply<Product>)
      modifies this
      ensures id !in old(products) ==> r == Fail(404, "Product not found") && products == old(products)
      ensures id in old(products) ==>
                r == Ok(ApplyUpdate(old(products)[id], u)) && products == old(products)[id := r.body]
    {
      if id !in products {
        return Fail(404, "Product not found");
      }
      var p := products[id];
      p := p.(name := OrText(u.name, p.name));
      p := p.(description := OrText(u.description, p.description));
      p := p.(price := OrNumber(u.price, p.price));
      p := p.(discountPrice := OrNumber(u.discountPrice, p.discountPrice));
      p := p.(countInStock := OrNumber(u.countInStock, p.countInStock));
      p := p.(category := OrText(u.category, p.category));
      p := p.(brand := OrText(u.brand, p.brand));
      p := p.(sizes := OrPresent(u.sizes, p.sizes));
      p := p.(colors := OrPresent(u.colors, p.colors));
      p := p.(collections := OrText(u.collections, p.collections));
      p := p.(material := OrText(u.material, p.material));
      p := p.(gender := OrText(u.gender, p.gender));
      p := p.(images := OrPresent(u.images, p.images));
      p := p.(isFeatured := OrDefined(u.isFeatured, p.isFeatured));
      p := p.(isPublished := OrDefined(u.isPublished, p.isPublished));
      p := p.(tags := OrPresent(u.tags, p.tags));
      p := p.(dimensions := if u.dimensions.Some? then u.dimensions else p.dimensions);
      p := p.(weight := OrNumber(u.weight, p.weight));
      p := p.(sku := OrText(u.sku, p.sku));
      products := products[id := p];
      r := Ok(p);
    }

    /** DELETE /:id. */
    method Delete(id: string) returns (r: Reply<string>)
      modifies this
      ensures id !in old(products) ==> r == Fail(404, "Product not found") && products == old(products)
      ensures id in old(products) ==>
                r == Ok("Product deleted successfully") && products == old(products) - {id}
    {
      if id !in products {
        return Fail(404, "Product not found");
      }
      products := products - {id};
      r := Ok("Product deleted successfully");
    }
  }
}
