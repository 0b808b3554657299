/**
 * The search screen: the category list, the three-way product filter, and the pre-order
 * request that opens a Telegram chat with the store's manager when nothing matches.
 */
module Search {
  import opened Wrappers
  import opened Strings
  import opened Seqs
  import opened Types

  /** The category entry that selects every product. */
  const ALL: string := "All"

  // ---------------------------------------------------------------------------
  // categories

  /** `products.map(p => p.category)`. */
  function CategoryList(products: seq<Product>): (cs: seq<string>)
    ensures |cs| == |products|
    ensures forall k :: 0 <= k < |products| ==> cs[k] == products[k].category
  {
    seq(|products|, k requires 0 <= k < |products| => products[k].category)
  }

  /**
   * `['All', ...new Set(products.map(p => p.category))]`: "All", then every category of the
   * catalogue once, and nothing else.
   */
  function Categories(products: seq<Product>): (r: seq<string>)
    ensures |r| >= 1 && r[0] == ALL
    ensures forall k :: 0 <= k < |products| ==> products[k].category in r[1..]
    ensures forall k :: 1 <= k < |r| ==> exists j :: 0 <= j < |products| && products[j].category == r[k]
    ensures NoDuplicates(r[1..])
  {
    var d := Distinct(CategoryList(products));
    assert ([ALL] + d)[1..] == d;
    forall k | 1 <= k < |[ALL] + d| ensures exists j :: 0 <= j < |products| && products[j].category == ([ALL] + d)[k] {
      assert d[k - 1] in CategoryList(products);
    }
    [ALL] + d
  }

  /** The categories after "All" come in the order in which the catalogue first shows them. */
  lemma CategoriesInFirstAppearanceOrder(products: seq<Product>)
    ensures InFirstAppearanceOrder(Categories(products)[1..], CategoryList(products))
  {
    DistinctInFirstAppearanceOrder(CategoryList(products));
    assert Categories(products)[1..] == Distinct(CategoryList(products));
  }

  // ---------------------------------------------------------------------------
  // the filter

  /** A product passes all three filters: name contains the query, category, stock. */
  predicate MatchesFilters(p: Product, query: string, category: string, inStockOnly: bool) {
    && Includes(ToLower(p.name), ToLower(query))
    && (category == ALL || p.category == category)
    && (if inStockOnly then p.inStock else true)
  }

  /** `filteredProducts`. */
  function FilteredProducts(products: seq<Product>, query: string, category: string, inStockOnly: bool): seq<Product> {
    Filter((p: Product) => MatchesFilters(p, query, category, inStockOnly), products)
  }

  /**
   * The filter keeps exactly the products passing all three tests, in catalogue order; with the
   * stock switch on, everything kept is in stock.
   */
  lemma FilteredProductsSpec(products: seq<Product>, query: string, category: string, inStockOnly: bool)
    ensures var r := FilteredProducts(products, query, category, inStockOnly);
      && (forall k :: 0 <= k < |r| ==> r[k] in products && MatchesFilters(r[k], query, category, inStockOnly))
      && (forall k :: 0 <= k < |products| && MatchesFilters(products[k], query, category, inStockOnly) ==> products[k] in r)
      && (inStockOnly ==> forall k :: 0 <= k < |r| ==> r[k].inStock)
      && IsSubsequence(r, products)
  {
    FilterIsSubsequence((p: Product) => MatchesFilters(p, query, category, inStockOnly), products);
  }

  /** With an empty query, "All" selected and the stock switch off, the whole catalogue is shown. */
  lemma NoFiltersKeepEverything(products: seq<Product>)
    ensures FilteredProducts(products, "", ALL, false) == products
  {
    assert ToLower("") == "";
    forall k | 0 <= k < |products| ensures MatchesFilters(products[k], "", ALL, false) {
      IncludesIff(ToLower(products[k].name), "");
    }
    FilterKeepsAll((p: Product) => MatchesFilters(p, "", ALL, false), products);
  }

  /** The request form replaces the results exactly when something was typed and nothing matches. */
  predicate ShowsRequestForm(query: string, filtered: seq<Product>) {
    |query| > 0 && filtered == []
  }

  /** The form shows exactly when the query is not empty and no product passes the filters. */
  lemma ShowsRequestFormIff(products: seq<Product>, query: string, category: string, inStockOnly: bool)
    ensures ShowsRequestForm(query, FilteredProducts(products, query, category, inStockOnly))
       <==> |query| > 0 && forall k :: 0 <= k < |products| ==> !MatchesFilters(products[k], query, category, inStockOnly)
  {
    FilterEmptyIff((p: Product) => MatchesFilters(p, query, category, inStockOnly), products);
  }

  // ---------------------------------------------------------------------------
  // the pre-order message

  const MESSAGE_HEADER: string := "\U{1F6CD} *NEW PRE-ORDER REQUEST* %0A%0A"
  const ITEM_LABEL: string := "\U{1F4E6} *Item:* "
  const PHOTO_LABEL: string := " %0A\U{1F4F8} *Photo:* "
  const USER_LABEL: string := " %0A\U{1F464} *User:* "
  const NO_PHOTO: string := "No photo provided"
  const TELEGRAM_PREFIX: string := "https://t.me/" + ADMIN_TELEGRAM_USERNAME + "?text="

  /** The photo line's value: the URL typed, or a placeholder. */
  function PhotoText(photo: string): string {
    if photo != "" then photo else NO_PHOTO
  }

  /** The message text: item name as typed (untrimmed), photo or placeholder, and `@username`. */
  function PreOrderMessage(item: string, photo: string, username: string): string {
    MESSAGE_HEADER + ITEM_LABEL + item + PHOTO_LABEL + PhotoText(photo) + USER_LABEL + "@" + username
  }

  /** The chat link: the manager's `t.me` address with the message as its text. */
  function TelegramUrl(message: string): string {
    TELEGRAM_PREFIX + message
  }

  /** `y` stands in `x + y + z` right after `x`. */
  lemma OccursBetween(x: string, y: string, z: string)
    ensures OccursAt(y, x + y + z, |x|)
  {
    assert (x + y + z)[|x|..|x| + |y|] == y;
  }

  /**
   * The item name stands right after the item label, the photo text after the photo label, and
   * the message ends with `@username`.
   */
  lemma PreOrderMessageParts(item: string, photo: string, username: string)
    ensures var m := PreOrderMessage(item, photo, username);
      var i := |MESSAGE_HEADER + ITEM_LABEL|;
      && OccursAt(item, m, i)
      && OccursAt(PhotoText(photo), m, i + |item| + |PHOTO_LABEL|)
      && m[|m| - |username| - 1..] == "@" + username
  {
    var p := PhotoText(photo);
    var a := MESSAGE_HEADER + ITEM_LABEL;
    var tail := USER_LABEL + "@" + username;
    MessageShape(a, item, p, tail);
    OccursBetween(a, item, PHOTO_LABEL + p + tail);
    OccursBetween(a + item + PHOTO_LABEL, p, tail);
    MessageEnd(a + item + PHOTO_LABEL + p + USER_LABEL, username);
  }

  /** The message regrouped around the item and around the photo text. */
  lemma MessageShape(a: string, item: string, p: string, tail: string)
    ensures a + item + PHOTO_LABEL + p + tail == a + item + (PHOTO_LABEL + p + tail)
    ensures a + item + PHOTO_LABEL + p + tail == (a + item + PHOTO_LABEL) + p + tail
  {
  }

  lemma MessageEnd(front: string, username: string)
    ensures (front + "@" + username)[|front + "@" + username| - |username| - 1..] == "@" + username
  {
    assert front + "@" + username == front + ("@" + username);
  }

  /** The link is the manager's address followed by the whole message. */
  lemma TelegramUrlParts(message: string)
    ensures TelegramUrl(message)[..|TELEGRAM_PREFIX|] == "https://t.me/next_gear_manager?text="
    ensures TelegramUrl(message)[|TELEGRAM_PREFIX|..] == message
  {
    assert TelegramUrl(message)[..|TELEGRAM_PREFIX|] == TELEGRAM_PREFIX;
  }

  /**
   * The link a pre-order submit opens: none for a blank item name or when no user is signed
   * in, else the chat link carrying the message.
   */
  function PreOrderLink(item: string, photo: string, user: Option<User>): (r: Option<string>)
    ensures r.None? <==> IsBlank(item) || user.None?
    ensures r.Some? ==> r.value == TelegramUrl(PreOrderMessage(item, photo, user.value.username))
  {
    TrimEmptyIffBlank(item);
    if Trim(item) == [] then None
    else match user
      case None => None
      case Some(u) => Some(TelegramUrl(PreOrderMessage(item, photo, u.username)))
  }

  /** The pre-order part of the search screen's state. */
  class SearchPanel {
    var query: string
    var selectedCategory: string
    var inStockOnly: bool
    var preOrderName: string
    var preOrderPhoto: string

    /** The screen as it first appears: no query, "All", stock switch off, empty request form. */
    constructor ()
      ensures query == "" && selectedCategory == ALL && !inStockOnly
      ensures preOrderName == "" && preOrderPhoto == ""
    {
      query := "";
      selectedCategory := ALL;
      inStockOnly := false;
      preOrderName := "";
      preOrderPhoto := "";
    }

    /**
     * `handlePreOrderSubmit`: a blank name does nothing; without a user only an alert is shown;
     * otherwise the chat link is opened and both fields are cleared.
     */
    method SubmitPreOrder(user: Option<User>) returns (link: Option<string>)
      modifies this
      ensures link == PreOrderLink(old(preOrderName), old(preOrderPhoto), user)
      ensures link.None? ==> unchanged(this)
      ensures link.Some? ==> preOrderName == "" && preOrderPhoto == ""
      ensures link.Some? ==> query == old(query) && selectedCategory == old(selectedCategory) && inStockOnly == old(inStockOnly)
    {
      link := PreOrderLink(preOrderName, preOrderPhoto, user);
      if link.Some? {
        preOrderName := "";
        preOrderPhoto := "";
      }
    }
  }
}
