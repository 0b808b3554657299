/**
 * The profile screen: the signed-in user's order history, newest first, with a colour per
 * order status and a shortened order id.
 */
module Profile {
  import opened Wrappers
  import opened Strings
  import opened Seqs
  import opened Types

  /** The sort key of the history. */
  function OrderDate(o: Order): int {
    o.date
  }

  /** `userOrders`: the user's own orders, sorted by date with the newest first. */
  function UserOrders(orders: seq<Order>, userId: int): seq<Order> {
    SortDesc(OrderDate, OwnOrders(orders, userId))
  }

  /** The user's orders in the store's order, before sorting. */
  function OwnOrders(orders: seq<Order>, userId: int): seq<Order> {
    Filter((o: Order) => o.userId == userId, orders)
  }

  /** The orders of a list placed at date `d`, in list order. */
  function PlacedAt(orders: seq<Order>, d: int): (r: seq<Order>)
    ensures forall k :: 0 <= k < |r| ==> r[k].date == d && r[k] in orders
    ensures forall k :: 0 <= k < |orders| && orders[k].date == d ==> orders[k] in r
  {
    WithKeyMembers(OrderDate, d, orders);
    WithKey(OrderDate, d, orders)
  }

  /**
   * The history holds exactly the orders of that user, each as often as in the store's list,
   * and dates never increase along it.
   */
  lemma UserOrdersSpec(orders: seq<Order>, userId: int)
    ensures var r := UserOrders(orders, userId);
      && (forall k :: 0 <= k < |r| ==> r[k].userId == userId && r[k] in orders)
      && (forall o :: multiset(r)[o] == if o.userId == userId then multiset(orders)[o] else 0)
      && (forall i, j :: 0 <= i < j < |r| ==> r[i].date >= r[j].date)
  {
    var mine := OwnOrders(orders, userId);
    var r := UserOrders(orders, userId);
    assert multiset(r) == multiset(mine);
    forall k | 0 <= k < |r| ensures r[k].userId == userId && r[k] in orders {
      assert r[k] in multiset(mine);
    }
    forall o ensures multiset(r)[o] == if o.userId == userId then multiset(orders)[o] else 0 {
      FilterMultiset((o: Order) => o.userId == userId, orders, o);
    }
  }

  /** Orders of the same date keep the store's relative order: the sort is stable. */
  lemma UserOrdersStable(orders: seq<Order>, userId: int, d: int)
    ensures PlacedAt(UserOrders(orders, userId), d) == PlacedAt(OwnOrders(orders, userId), d)
  {
    var mine := OwnOrders(orders, userId);
    SortDescIsStable(OrderDate, mine, d);
  }

  /** What the profile screen shows: nothing without a user, else that user's history. */
  function ProfileOrders(user: Option<User>, orders: seq<Order>): (r: Option<seq<Order>>)
    ensures r.None? <==> user.None?
    ensures r.Some? ==> r.value == UserOrders(orders, user.value.id)
  {
    match user
    case None => None
    case Some(u) => Some(UserOrders(orders, u.id))
  }

  /** The badge colour of an order. */
  datatype Tone = Green | Red | Yellow

  /** `getStatusStyle`: green when confirmed, red when canceled, yellow for the rest. */
  function StatusTone(status: OrderStatus): (t: Tone)
    ensures t == Green <==> status == Confirmed
    ensures t == Red <==> status == Canceled
    ensures t == Yellow <==> status == Pending
  {
    match status
    case Confirmed => Green
    case Canceled => Red
    case _ => Yellow
  }

  /** The badge's Tailwind classes for each colour. */
  function ToneClass(t: Tone): string {
    match t
    case Green => "text-green-500 bg-green-500/10 border-green-500/20"
    case Red => "text-red-500 bg-red-500/10 border-red-500/20"
    case Yellow => "text-yellow-500 bg-yellow-500/10 border-yellow-500/20"
  }

  /** The three statuses get three different badges. */
  lemma StatusStylesDiffer(a: OrderStatus, b: OrderStatus)
    ensures ToneClass(StatusTone(a)) == ToneClass(StatusTone(b)) <==> a == b
  {
    if ToneClass(StatusTone(a)) == ToneClass(StatusTone(b)) {
      var x, y := ToneClass(StatusTone(a)), ToneClass(StatusTone(b));
      assert x[5] == y[5];
    }
  }

  /** `order.id.slice(-6)`: the last six characters of the id, or all of a shorter one. */
  function ShortId(id: string): (r: string)
    ensures |id| <= 6 ==> r == id
    ensures |id| > 6 ==> |r| == 6 && id == id[..|id| - 6] + r
  {
    Last(id, 6)
  }
}
