/** A product record of the catalog's data source (one list per display language). */
module Products {

  /**
   * `id` is stable across the language lists; `price` is `price_per_product`,
   * `slotCount` is `slot_count` and `slotPrice` is `slot_total_price`.
   */
  datatype Product = Product(
    id: int,
    name: string,
    productType: string,
    price: int,
    variant: string,
    slotCount: int,
    slotPrice: int)
}
