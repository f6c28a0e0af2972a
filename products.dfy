/** The product record every part of the client works with, and its two statuses. */
module Products {
  import opened JsValues

  const AVAILABLE: string := "available"
  const SOLD: string := "sold"
  /** The category value that stands for every category. */
  const ALL_CATEGORIES: string := "All Categories"

  /** A listed product. Times are milliseconds since the epoch: their ISO
      strings, all of one format, order as the numbers do. */
  datatype Product = Product(
    id: string, name: string, category: string, price: real, size: string,
    condition: string, description: string, sellerEmail: string, imageUrl: string,
    listedAt: nat, soldAt: Option<nat>, status: string)

  predicate IsAvailable(p: Product) {
    p.status == AVAILABLE
  }

  predicate IsSold(p: Product) {
    p.status == SOLD
  }

  /** No product is both available and sold. */
  lemma AvailableNotSold(p: Product)
    ensures !(IsAvailable(p) && IsSold(p))
  {
    assert AVAILABLE[0] != SOLD[0];
  }
}
