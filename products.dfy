/** The product record every scraper returns and the webhook turns into
    carousel cards. */
module Products {
  import opened Js
  import FilterRules

  /** One colour of a product: its image, its price text and its size labels. */
  datatype Variant = Variant(color: string, image: Option<string>, price: string, sizes: seq<string>)

  /** A scraped product; `productType` and `tags` feed the restriction check and
      `isHelmet` the helmet rule (false where a scraper does not set it). */
  datatype Product = Product(
    title: string,
    productType: Option<string>,
    tags: FilterRules.Tags,
    isHelmet: bool,
    variants: seq<Variant>)
}
