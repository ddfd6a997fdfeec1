/** The storefront's product record, src/type/ProductObject.ts. */
module Catalog {
  import opened Wrappers

  datatype Product = Product(
    id: int, title: string, price: real, imageUrl: string, category: string,
    description: Option<seq<string>>, author: Option<seq<string>>, isbn: Option<string>)
}
