/**
 * The cart screen: the quantity buttons, the checkout handler and the item-count word. The
 * sums it shows are `Types.Total` and `Types.TotalItems`, and each line shows
 * `Types.LineAmount`.
 */
module Cart {
  import opened Wrappers
  import opened Types
  import Store

  /** The quantity the minus button asks for: one less, but only above 1 (at 1 it does nothing). */
  function MinusRequest(item: CartItem): (r: Option<int>)
    ensures r.Some? <==> item.quantity > 1
    ensures r.Some? ==> r.value == item.quantity - 1 && r.value >= 1
  {
    if item.quantity > 1 then Some(item.quantity - 1) else None
  }

  /** The quantity the plus button asks for, always one more. */
  function PlusRequest(item: CartItem): (r: int)
    ensures r == item.quantity + 1 && r > item.quantity
  {
    item.quantity + 1
  }

  /** Minus undoes plus for any line holding at least one piece. */
  lemma MinusUndoesPlus(item: CartItem)
    requires item.quantity >= 1
    ensures MinusRequest(item.(quantity := PlusRequest(item))) == Some(item.quantity)
  {
  }

  /** No sequence of minus clicks asks for fewer than one piece: removal is only by the trash button. */
  lemma MinusKeepsAtLeastOne(item: CartItem)
    requires item.quantity >= 1
    ensures MinusRequest(item).Some? ==> MinusRequest(item).value >= 1
    ensures item.quantity == 1 ==> MinusRequest(item).None?
  {
  }

  /**
   * The screen shown after the checkout button: the current one for an empty cart (no order is
   * placed) or when `placeOrder` threw; the profile once `placeOrder` returned.
   */
  function ViewAfterCheckout(cart: seq<CartItem>, current: View, ended: Store.Ended): (v: View)
    ensures cart == [] ==> v == current
    ensures cart != [] ==> v == if ended.Threw? then current else ProfileView
  {
    if cart == [] then current
    else match ended
      case Threw(_) => current
      case Returned => ProfileView
  }

  /**
   * `handleCheckout`: with an empty cart nothing happens; otherwise the order is placed and the
   * profile is shown unless placing it threw.
   */
  method Checkout(s: Store.Store, current: View, reply: Store.CreateReply, refreshError: Option<string>)
    returns (next: View)
    modifies s
    ensures old(s.cart) == [] ==> next == current && unchanged(s)
    ensures s.user == old(s.user) && s.isAdmin == old(s.isAdmin)
    ensures old(s.cart) != [] && old(s.user).Some? && reply.Created? ==>
      && s.products == Store.Remaining(old(s.products), old(s.cart))
      && s.orders == [Store.NewOrder(old(s.user).value, old(s.cart), reply.id, reply.userId, reply.createdAt)] + old(s.orders)
      && s.cart == []
      && next == (if refreshError.Some? then current else ProfileView)
    ensures old(s.cart) != [] && old(s.user).Some? && reply.CreateFailed? ==> next == current && unchanged(s)
    ensures old(s.cart) != [] && old(s.user).None? ==> next == ProfileView && unchanged(s)
  {
    var cart := s.cart;
    if cart == [] {
      return current;
    }
    var ended := s.PlaceOrder(reply, refreshError);
    next := ViewAfterCheckout(cart, current, ended);
  }

  /** The word after the piece count: 'товар' for 1, 'товара' below 5, 'товаров' otherwise. */
  function PluralWord(totalItems: int): (w: string)
    ensures totalItems == 1 ==> w == "товар"
    ensures totalItems != 1 && totalItems < 5 ==> w == "товара"
    ensures totalItems >= 5 ==> w == "товаров"
  {
    if totalItems == 1 then "товар" else if totalItems < 5 then "товара" else "товаров"
  }
}
