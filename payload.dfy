/**
 * The Shopify REST payloads the ingestion walks, as typed records. Every
 * field is read with `.get`, so every field is optional; a nested list read
 * with `.get(key, [])` is the empty sequence when the key is absent.
 */
module Payload {
  import opened Wrappers
  import opened Models

  datatype CustomerJson = CustomerJson(
    id: Option<int>, firstName: Option<string>, lastName: Option<string>,
    email: Option<string>, phone: Option<string>)

  datatype VariantJson = VariantJson(
    id: Option<int>, title: Option<string>, price: Option<Fixed2>, sku: Option<string>,
    weight: Option<Fixed2>, weightUnit: Option<string>)

  datatype ProductJson = ProductJson(
    id: Option<int>, title: Option<string>, vendor: Option<string>,
    productType: Option<string>, variants: seq<VariantJson>)

  /**
   * The `customer` object embedded in an order when the key is present and
   * not null. An empty object is falsy in Python, so it is told apart: it
   * is skipped like an absent one. A non-empty object without an `id` has
   * `id == None`.
   */
  datatype CustomerRef = EmptyObject | CustomerObject(id: Option<int>)

  datatype LineItemJson = LineItemJson(
    variantId: Option<int>, quantity: Option<int>, price: Option<Fixed2>)

  datatype OrderJson = OrderJson(
    id: Option<int>, customer: Option<CustomerRef>, totalPrice: Option<Fixed2>,
    currency: Option<string>, lineItems: seq<LineItemJson>)

  /**
   * What the Shopify client returns for one resource: the decoded list, or
   * the text of the exception it raised (HTTP error, network failure).
   */
  datatype Fetched<T> = Fetched(payload: seq<T>) | FetchFailed(detail: string)
}
