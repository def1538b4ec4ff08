/**
 * The records of apps/shop/models.py that the shop's handlers touch.
 * Prices are integer cents (the source's two-decimal `DecimalField`).
 */
module Catalog {
  import opened Common

  /** A product; its slug is unique across the table. */
  datatype Product = Product(name: string, slug: string, priceCurrent: int, inStock: int)

  /** `RATING_CHOICES`: the integers 1 to 5. */
  type Rating = r: int | 1 <= r <= 5 witness 1

  /** A user's rating and text for a product. */
  datatype Review = Review(user: UserId, product: Id, rating: Rating, text: string)
}
