/**
 * The product record the storefront receives from its catalog service.
 * Only the fields the filter, the sort and the cart read are kept (the
 * stock flag, rating and original price are read by the rendered card
 * alone); the price, a decimal string in the catalog, is held here in
 * integer cents.
 */
module Catalog {
  datatype Product = Product(
    id: int,
    name: string,
    description: string,
    category: string,
    price: nat,
    imageUrl: string)
}
