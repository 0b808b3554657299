/**
 * The catalogue screen: a single search box matched against name, description and category,
 * and the "already in the cart" mark on each card.
 */
module Items {
  import opened Strings
  import opened Seqs
  import opened Types

  /** The lower-cased query occurs in the lower-cased name, description or category. */
  predicate ItemMatches(p: Product, query: string) {
    var q := ToLower(query);
    Includes(ToLower(p.name), q) || Includes(ToLower(p.description), q) || Includes(ToLower(p.category), q)
  }

  /** `filteredProducts` of the catalogue screen. */
  function ItemsFilter(products: seq<Product>, query: string): seq<Product> {
    Filter((p: Product) => ItemMatches(p, query), products)
  }

  /**
   * A product is shown exactly when one of its three fields contains the query; what is shown
   * keeps the catalogue's order.
   */
  lemma ItemsFilterSpec(products: seq<Product>, query: string)
    ensures var r := ItemsFilter(products, query);
      && (forall k :: 0 <= k < |r| ==> r[k] in products && ItemMatches(r[k], query))
      && (forall k :: 0 <= k < |products| ==> (products[k] in r <==> ItemMatches(products[k], query)))
      && IsSubsequence(r, products)
  {
    var r := ItemsFilter(products, query);
    forall k | 0 <= k < |products| ensures products[k] in r <==> ItemMatches(products[k], query) {
      if products[k] in r {
        var i :| 0 <= i < |r| && r[i] == products[k];
      }
    }
    FilterIsSubsequence((p: Product) => ItemMatches(p, query), products);
  }

  /** An empty search box shows the whole catalogue. */
  lemma EmptyQueryKeepsEverything(products: seq<Product>)
    ensures ItemsFilter(products, "") == products
  {
    assert ToLower("") == "";
    forall k | 0 <= k < |products| ensures ItemMatches(products[k], "") {
      IncludesIff(ToLower(products[k].name), "");
    }
    FilterKeepsAll((p: Product) => ItemMatches(p, ""), products);
  }

  /** The "nothing found" panel replaces the grid when the filtered list is empty. */
  predicate ShowsEmptyState(filtered: seq<Product>) {
    |filtered| == 0
  }

  /** The panel shows exactly when no product of the catalogue matches the query. */
  lemma ShowsEmptyStateIff(products: seq<Product>, query: string)
    ensures ShowsEmptyState(ItemsFilter(products, query))
       <==> forall k :: 0 <= k < |products| ==> !ItemMatches(products[k], query)
  {
    FilterEmptyIff((p: Product) => ItemMatches(p, query), products);
  }

  /** A card is marked when some cart line holds a product with the same id. */
  function IsInCart(cart: seq<CartItem>, p: Product): (b: bool)
    ensures b <==> exists k :: 0 <= k < |cart| && cart[k].product.id == p.id
  {
    Some((item: CartItem) => item.product.id == p.id, cart)
  }
}
