// The price list a partner publishes, as the YAML loader hands it to the
// ingestion code: a shop name, a list of categories and a list of goods.
// Fetching the document and decoding it are not part of this model; the
// ingestion works on this already-decoded value.

module Feed {

  /** One entry of `categories`: the category id is the catalog's primary key. */
  datatype CategoryEntry = CategoryEntry(id: int, name: string)

  /** One entry of `goods`. `id` becomes the offer's external id and `category`
      names a category by its id. The three numbers are plain integers here:
      the feed does not promise they are non-negative. `parameters` keeps the
      decoded mapping's (name, value) pairs in iteration order. */
  datatype Good = Good(
    id: int,
    category: int,
    name: string,
    model: string,
    price: int,
    priceRrc: int,
    quantity: int,
    parameters: seq<(string, string)>)

  datatype Document = Document(shop: string, categories: seq<CategoryEntry>, goods: seq<Good>)
}
