/**
 * The sub-documents that carts, checkouts and orders each embed their own copy
 * of: line items and shipping addresses. Prices are whole cents.
 */
module Embedded {
  import opened Wrappers

  /** One product variant and its quantity, with the product's name, image and price copied in. */
  datatype LineItem = LineItem(
    productId: string,
    name: string,
    image: string,
    price: int,
    size: Option<string>,
    color: Option<string>,
    quantity: int)

  /** What makes two line items "the same": product, size and colour. */
  datatype Key = Key(productId: string, size: Option<string>, color: Option<string>)

  function KeyOf(it: LineItem): Key {
    Key(it.productId, it.size, it.color)
  }

  datatype ShippingAddress = ShippingAddress(
    address: string,
    city: string,
    postalCode: string,
    country: string,
    phone: string)

  /** Every field of a shipping address is required; a required string rejects "". */
  predicate AddressComplete(a: ShippingAddress) {
    a.address != "" && a.city != "" && a.postalCode != "" && a.country != "" && a.phone != ""
  }
}
