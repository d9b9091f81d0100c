/** The product list page's filter: a free-text search and a category choice. */
module Products {
  import opened Wrappers
  import opened Strings
  import opened Seqs
  import opened WmsTypes

  /** An empty search, or a hit in the lower-cased name or SKU, or in the barcode as typed. */
  predicate MatchesSearch(p: Product, search: string, lower: string -> string) {
    search == ""
    || Contains(lower(p.name), lower(search))
    || Contains(lower(p.sku), lower(search))
    || Contains(p.barcode, search)
  }

  /** No category chosen (absent or empty), or the product's category is the one chosen. */
  predicate MatchesCategory(p: Product, selectedCategory: Option<string>) {
    !TruthyText(selectedCategory) || p.category == selectedCategory
  }

  predicate KeepsProduct(p: Product, search: string, selectedCategory: Option<string>, lower: string -> string) {
    MatchesSearch(p, search, lower) && MatchesCategory(p, selectedCategory)
  }

  /** `filteredProducts` */
  function FilteredProducts(products: seq<Product>, search: string, selectedCategory: Option<string>,
                            lower: string -> string): (r: seq<Product>)
    ensures |r| <= |products|
  {
    Filter(products, p => KeepsProduct(p, search, selectedCategory, lower))
  }

  /** The table shows products of the loaded list, in order, and exactly those matching both filters. */
  lemma FilteredProductsRows(products: seq<Product>, search: string, selectedCategory: Option<string>,
                             lower: string -> string, x: Product)
    ensures IsSubsequence(FilteredProducts(products, search, selectedCategory, lower), products)
    ensures x in FilteredProducts(products, search, selectedCategory, lower)
        <==> x in products && MatchesSearch(x, search, lower) && MatchesCategory(x, selectedCategory)
  {
    var keep := p => KeepsProduct(p, search, selectedCategory, lower);
    FilterIsSubsequence(products, keep);
    FilterMembership(products, keep, x);
  }

  /** With an empty search and no category every product is shown. */
  lemma NoFilterShowsAll(products: seq<Product>, selectedCategory: Option<string>, lower: string -> string)
    requires !TruthyText(selectedCategory)
    ensures FilteredProducts(products, "", selectedCategory, lower) == products
  {
    FilterKeepsAll(products, p => KeepsProduct(p, "", selectedCategory, lower));
  }

  /** With a category chosen, every product shown carries exactly that category. */
  lemma CategoryNarrows(products: seq<Product>, search: string, selectedCategory: Option<string>,
                        lower: string -> string)
    requires TruthyText(selectedCategory)
    ensures forall x :: x in FilteredProducts(products, search, selectedCategory, lower) ==> x.category == selectedCategory
  {
  }

  /**
   * A search that is a prefix of the product's name finds it, provided
   * lower-casing keeps the prefix a prefix.
   */
  lemma NamePrefixFound(p: Product, search: string, lower: string -> string)
    requires StartsWith(lower(p.name), lower(search))
    ensures MatchesSearch(p, search, lower)
  {
    StartsWithContains(lower(p.name), lower(search));
  }

  /**
   * The barcode is searched as typed: when neither lower-cased name nor SKU
   * holds the lower-cased query, a non-empty query matches exactly when the
   * barcode contains it verbatim.
   */
  lemma BarcodeMatchIsExact(p: Product, search: string, lower: string -> string)
    requires search != ""
    requires !Contains(lower(p.name), lower(search)) && !Contains(lower(p.sku), lower(search))
    ensures MatchesSearch(p, search, lower) <==> Contains(p.barcode, search)
  {
  }
}
