/**
 * The app shell: a loading screen until the user is known, then the screen of the selected
 * tab, where the admin tab is open to admins only; the tab bar's cart badge shows the number
 * of pieces in the cart.
 */
module App {
  import opened Wrappers
  import opened Types

  /** What `AppContent` renders. */
  datatype Screen = Loading | ItemsScreen | CartScreen | ProfileScreen | AdminScreen

  /** `renderView` behind the loading guard, for a tab value that is one of the four views. */
  function Render(user: Option<User>, view: View): (s: Screen)
    ensures user.None? <==> s == Loading
    ensures s == AdminScreen <==> user.Some? && user.value.isAdmin && view == AdminView
    ensures user.Some? && view == AdminView && !user.value.isAdmin ==> s == ItemsScreen
    ensures user.Some? && view == ItemsView ==> s == ItemsScreen
    ensures user.Some? && view == CartView ==> s == CartScreen
    ensures user.Some? && view == ProfileView ==> s == ProfileScreen
  {
    match user
    case None => Loading
    case Some(u) =>
      if view == AdminView && !u.isAdmin then ItemsScreen
      else match view
        case ItemsView => ItemsScreen
        case CartView => CartScreen
        case ProfileView => ProfileScreen
        case AdminView => if u.isAdmin then AdminScreen else ItemsScreen
  }

  /**
   * `renderView` for the tab state as the string it holds at run time: a string that names
   * none of the four views falls to the `default` branch and shows the catalogue.
   */
  function RenderValue(user: Option<User>, tab: string): (s: Screen)
    ensures user.Some? && ParseView(tab).None? ==> s == ItemsScreen
    ensures ParseView(tab).Some? ==> s == Render(user, ParseView(tab).value)
    ensures user.None? ==> s == Loading
  {
    match user
    case None => Loading
    case Some(_) =>
      match ParseView(tab)
      case None => ItemsScreen
      case Some(v) => Render(user, v)
  }

  /** Every view's own string renders that view. */
  lemma RenderValueOfViewName(user: Option<User>, view: View)
    ensures RenderValue(user, ViewName(view)) == Render(user, view)
  {
    ViewNamesRoundTrip(view, ViewName(view));
  }

  /** The admin screen is reachable only through the admin tab and only for an admin. */
  lemma OnlyAdminsSeeAdmin(user: Option<User>, tab: string)
    ensures RenderValue(user, tab) == AdminScreen <==> user.Some? && user.value.isAdmin && tab == "ADMIN"
  {
    if ParseView(tab).Some? {
      ViewNamesRoundTrip(ParseView(tab).value, tab);
    }
  }

  /** The cart badge: the number of pieces across all cart lines. */
  function CartItemsCount(cart: seq<CartItem>): int {
    TotalItems(cart)
  }

  /**
   * The badge adds up over cart lines, and with positive quantities it is at least the number
   * of lines, so a cart with a line never shows 0.
   */
  lemma CartItemsCountSpec(a: seq<CartItem>, b: seq<CartItem>)
    ensures CartItemsCount(a + b) == CartItemsCount(a) + CartItemsCount(b)
    ensures (forall k :: 0 <= k < |a| ==> a[k].quantity >= 1) ==> CartItemsCount(a) >= |a|
  {
    TotalsAppend(a, b);
    if forall k :: 0 <= k < |a| ==> a[k].quantity >= 1 {
      TotalItemsAtLeastLines(a);
    }
  }
}
