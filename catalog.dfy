/**
 * The product record as the pages see it. Products are owned by the backend; the
 * core only needs an identity and the category used by the category prefilter.
 * Every other field (price, rating, images, ...) is opaque to the filter logic.
 */
module Catalog {
  datatype Product = Product(id: string, category: string)
}
