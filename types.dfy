/**
 * The storefront's shared data: products, cart lines, users, the four views, order
 * statuses and orders, plus the cart sums that the store, the cart view and the app
 * shell each compute with the same `reduce`.
 *
 * Money is an integer number of minor units; the source's floating-point arithmetic is
 * not modelled.
 */
module Types {
  import opened Wrappers

  /** A catalogue entry. Stock is only the `inStock` flag: there is no count. */
  datatype Product = Product(
    id: string,
    name: string,
    price: int,
    image: string,
    description: string,
    category: string,
    inStock: bool)

  /** A cart line: a product plus the number of pieces ordered. */
  datatype CartItem = CartItem(product: Product, quantity: int)

  datatype User = User(id: int, username: string, isAdmin: bool)

  /** The four screens behind the tab bar. */
  datatype View = ItemsView | CartView | ProfileView | AdminView

  datatype OrderStatus = Pending | Confirmed | Canceled

  datatype Order = Order(
    id: string,
    userId: int,
    username: string,
    items: seq<CartItem>,
    totalAmount: int,
    status: OrderStatus,
    date: int)

  /** The Telegram account that receives pre-order requests. */
  const ADMIN_TELEGRAM_USERNAME: string := "next_gear_manager"

  // ---------------------------------------------------------------------------
  // the string values of the two enums

  /** The string each `View` member stands for. */
  function ViewName(v: View): string {
    match v
    case ItemsView => "ITEMS"
    case CartView => "CART"
    case ProfileView => "PROFILE"
    case AdminView => "ADMIN"
  }

  /** The `View` member a string stands for, if any. */
  function ParseView(s: string): (r: Option<View>)
    ensures r.Some? <==> s in ["ITEMS", "CART", "PROFILE", "ADMIN"]
  {
    if s == "ITEMS" then Some(ItemsView)
    else if s == "CART" then Some(CartView)
    else if s == "PROFILE" then Some(ProfileView)
    else if s == "ADMIN" then Some(AdminView)
    else None
  }

  /** The enum and its four strings are in one-to-one correspondence. */
  lemma ViewNamesRoundTrip(v: View, s: string)
    ensures ParseView(ViewName(v)) == Some(v)
    ensures ParseView(s) == Some(v) <==> s == ViewName(v)
  {
  }

  /** The string each `OrderStatus` member stands for; these are also what the server is sent. */
  function StatusName(st: OrderStatus): string {
    match st
    case Pending => "PENDING"
    case Confirmed => "CONFIRMED"
    case Canceled => "CANCELED"
  }

  /** The `OrderStatus` member a string stands for, if any. */
  function ParseStatus(s: string): (r: Option<OrderStatus>)
    ensures r.Some? <==> s in ["PENDING", "CONFIRMED", "CANCELED"]
  {
    if s == "PENDING" then Some(Pending)
    else if s == "CONFIRMED" then Some(Confirmed)
    else if s == "CANCELED" then Some(Canceled)
    else None
  }

  /** There are exactly three statuses, each with its own string. */
  lemma StatusNamesRoundTrip(st: OrderStatus, s: string)
    ensures ParseStatus(StatusName(st)) == Some(st)
    ensures ParseStatus(s) == Some(st) <==> s == StatusName(st)
  {
  }

  // ---------------------------------------------------------------------------
  // cart sums

  /** What one cart line costs: price times quantity. */
  function LineAmount(item: CartItem): int {
    item.product.price * item.quantity
  }

  /** `cart.reduce((sum, item) => sum + item.price * item.quantity, 0)`, folded from the left. */
  function Total(cart: seq<CartItem>): int {
    if cart == [] then 0 else Total(cart[..|cart| - 1]) + LineAmount(cart[|cart| - 1])
  }

  /** `cart.reduce((sum, item) => sum + item.quantity, 0)`, folded from the left. */
  function TotalItems(cart: seq<CartItem>): int {
    if cart == [] then 0 else TotalItems(cart[..|cart| - 1]) + cart[|cart| - 1].quantity
  }

  /** Both sums split over a concatenation: the total of a cart is the sum of its lines' amounts. */
  lemma {:induction false} TotalsAppend(a: seq<CartItem>, b: seq<CartItem>)
    ensures Total(a + b) == Total(a) + Total(b)
    ensures TotalItems(a + b) == TotalItems(a) + TotalItems(b)
  {
    if b == [] {
      assert a + b == a;
    } else {
      var b' := b[..|b| - 1];
      assert (a + b)[..|a + b| - 1] == a + b';
      assert (a + b)[|a + b| - 1] == b[|b| - 1];
      TotalsAppend(a, b');
    }
  }

  /** The sums of a one-line cart are that line's amount and quantity. */
  lemma TotalsOfOne(item: CartItem)
    ensures Total([item]) == LineAmount(item)
    ensures TotalItems([item]) == item.quantity
  {
    assert [item][..0] == [];
  }

  /** With no negative prices or quantities both sums are non-negative. */
  lemma {:induction false} TotalsNonNegative(cart: seq<CartItem>)
    requires forall k :: 0 <= k < |cart| ==> cart[k].product.price >= 0 && cart[k].quantity >= 0
    ensures Total(cart) >= 0 && TotalItems(cart) >= 0
  {
    if cart != [] {
      TotalsNonNegative(cart[..|cart| - 1]);
    }
  }

  /** A cart made of pieces with positive quantities holds at least one piece per line. */
  lemma {:induction false} TotalItemsAtLeastLines(cart: seq<CartItem>)
    requires forall k :: 0 <= k < |cart| ==> cart[k].quantity >= 1
    ensures TotalItems(cart) >= |cart|
  {
    if cart != [] {
      TotalItemsAtLeastLines(cart[..|cart| - 1]);
    }
  }
}
