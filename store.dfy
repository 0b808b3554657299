/**
 * The store's two order transitions, `placeOrder` and `processOrder`. Each is one step over
 * the store's state that takes the server's replies as inputs. Every state change happens
 * after the awaited server call has returned, so a failed call changes nothing.
 *
 * The final `refreshOrders` call is not part of this model. Whether it failed is an input,
 * because its failure is rethrown after the state has already changed.
 */
module Store {
  import opened Wrappers
  import opened Strings
  import opened Seqs
  import opened Types

  /** What the server answered to `createOrder`: the new order's id, its owner and its creation time. */
  datatype CreateReply = Created(id: int, userId: int, createdAt: int) | CreateFailed(error: string)

  /** What the server answered to a call whose result is only awaited, or to `getProducts`. */
  datatype Reply<T> = Success(value: T) | Failure(error: string)

  /** How a call of `placeOrder` / `processOrder` ends: normally, or by throwing. */
  datatype Ended = Returned | Threw(error: string)

  const NOT_ADMIN_ERROR: string := "Only admin can process orders"

  /** The ids of the cart's products, in cart order. */
  function CartIds(cart: seq<CartItem>): (ids: seq<string>)
    ensures |ids| == |cart|
    ensures forall k :: 0 <= k < |cart| ==> ids[k] == cart[k].product.id
  {
    seq(|cart|, k requires 0 <= k < |cart| => cart[k].product.id)
  }

  /** The catalogue once the ordered products are reserved: every product whose id is in the cart is dropped. */
  function Remaining(products: seq<Product>, cart: seq<CartItem>): seq<Product> {
    Filter((p: Product) => p.id !in CartIds(cart), products)
  }

  /**
   * Exactly the products whose id is not in the cart are kept, each as often as before, and
   * in their original order.
   */
  lemma RemainingSpec(products: seq<Product>, cart: seq<CartItem>)
    ensures forall k :: 0 <= k < |Remaining(products, cart)| ==>
      Remaining(products, cart)[k] in products
      && forall j :: 0 <= j < |cart| ==> Remaining(products, cart)[k].id != cart[j].product.id
    ensures forall k :: 0 <= k < |products| ==>
      (products[k] in Remaining(products, cart) <==> forall j :: 0 <= j < |cart| ==> products[k].id != cart[j].product.id)
    ensures forall p :: multiset(Remaining(products, cart))[p] == if p.id in CartIds(cart) then 0 else multiset(products)[p]
    ensures IsSubsequence(Remaining(products, cart), products)
  {
    var keep := (p: Product) => p.id !in CartIds(cart);
    var r := Remaining(products, cart);
    forall k | 0 <= k < |r| ensures forall j :: 0 <= j < |cart| ==> r[k].id != cart[j].product.id {
      assert keep(r[k]);
      forall j | 0 <= j < |cart| ensures r[k].id != cart[j].product.id {
        assert CartIds(cart)[j] == cart[j].product.id;
      }
    }
    forall k | 0 <= k < |products|
      ensures products[k] in r <==> forall j :: 0 <= j < |cart| ==> products[k].id != cart[j].product.id
    {
      if products[k] in r {
        var i :| 0 <= i < |r| && r[i] == products[k];
      }
    }
    forall p | true ensures multiset(r)[p] == if p.id in CartIds(cart) then 0 else multiset(products)[p] {
      FilterMultiset(keep, products, p);
    }
    FilterIsSubsequence(keep, products);
  }

  /** The order built from a successful `createOrder`. */
  function NewOrder(user: User, cart: seq<CartItem>, id: int, userId: int, createdAt: int): (o: Order)
    ensures o.items == cart && o.totalAmount == Total(cart) && o.status == Pending
    ensures o.id == IntString(id) && o.userId == userId && o.username == user.username && o.date == createdAt
  {
    Order(IntString(id), userId, user.username, cart, Total(cart), Pending, createdAt)
  }

  /** `orders.find(o => o.id === id)`: the first order with that id. */
  function FindOrder(orders: seq<Order>, id: string): (r: Option<Order>)
    ensures r.Some? ==> r.value in orders && r.value.id == id
    ensures r.None? <==> forall k :: 0 <= k < |orders| ==> orders[k].id != id
  {
    if orders == [] then None
    else if orders[0].id == id then Some(orders[0])
    else (
      var r := FindOrder(orders[1..], id);
      assert r.None? ==> forall k :: 0 <= k < |orders| ==> orders[k].id != id by {
        if r.None? {
          forall k | 0 <= k < |orders| ensures orders[k].id != id {
            if k > 0 { assert orders[k] == orders[1..][k - 1]; }
          }
        }
      }
      r)
  }

  /** The status update of `processOrder`: the orders with that id get `status`, the others are kept. */
  function SetStatus(orders: seq<Order>, id: string, status: OrderStatus): seq<Order> {
    seq(|orders|, k requires 0 <= k < |orders| => if orders[k].id == id then orders[k].(status := status) else orders[k])
  }

  /**
   * Only the orders with the id change, and of them only the status; the order of the list and
   * all other orders stay as they were. Applying the same update twice is applying it once.
   */
  lemma SetStatusSpec(orders: seq<Order>, id: string, status: OrderStatus)
    ensures |SetStatus(orders, id, status)| == |orders|
    ensures forall k :: 0 <= k < |orders| ==>
      var o := SetStatus(orders, id, status)[k];
      && o.id == orders[k].id && o.userId == orders[k].userId && o.username == orders[k].username
      && o.items == orders[k].items && o.totalAmount == orders[k].totalAmount && o.date == orders[k].date
      && o.status == (if orders[k].id == id then status else orders[k].status)
    ensures SetStatus(SetStatus(orders, id, status), id, status) == SetStatus(orders, id, status)
  {
  }

  /** The store's state and its two order transitions. */
  class Store {
    var user: Option<User>
    var isAdmin: bool
    var products: seq<Product>
    var cart: seq<CartItem>
    var orders: seq<Order>

    constructor (user: Option<User>, isAdmin: bool, products: seq<Product>, cart: seq<CartItem>, orders: seq<Order>)
      ensures this.user == user && this.isAdmin == isAdmin
      ensures this.products == products && this.cart == cart && this.orders == orders
    {
      this.user := user;
      this.isAdmin := isAdmin;
      this.products := products;
      this.cart := cart;
      this.orders := orders;
    }

    /**
     * `placeOrder`. With no user or an empty cart nothing happens. A failed `createOrder` is
     * rethrown and nothing changes. Otherwise the ordered products leave the catalogue, the new
     * order goes in front and the cart is emptied; a failed refresh is then rethrown.
     */
    method PlaceOrder(reply: CreateReply, refreshError: Option<string>) returns (r: Ended)
      modifies this
      ensures user == old(user) && isAdmin == old(isAdmin)
      ensures old(user).None? || old(cart) == [] ==> r == Returned && unchanged(this)
      ensures old(user).Some? && old(cart) != [] && reply.CreateFailed? ==>
        r == Threw(reply.error) && unchanged(this)
      ensures old(user).Some? && old(cart) != [] && reply.Created? ==>
        && products == Remaining(old(products), old(cart))
        && orders == [NewOrder(old(user).value, old(cart), reply.id, reply.userId, reply.createdAt)] + old(orders)
        && cart == []
        && r == (if refreshError.Some? then Threw(refreshError.value) else Returned)
    {
      if user.None? || cart == [] {
        return Returned;
      }
      var total := Total(cart);
      match reply
      case CreateFailed(error) =>
        return Threw(error);
      case Created(id, userId, createdAt) =>
        var newOrder := Order(IntString(id), userId, user.value.username, cart, total, Pending, createdAt);
        products := Remaining(products, cart);
        orders := [newOrder] + orders;
        cart := [];
        r := if refreshError.Some? then Threw(refreshError.value) else Returned;
    }

    /**
     * `processOrder`. A non-admin caller gets an error and nothing changes. A failed status
     * update is rethrown and nothing changes. Rejecting a known order reloads the catalogue
     * (a failed reload is rethrown and nothing changes). Then the matching orders get their
     * new status; a failed refresh is rethrown after that.
     */
    method ProcessOrder(orderId: string, approved: bool, statusReply: Reply<()>,
                        productsReply: Reply<seq<Product>>, refreshError: Option<string>)
      returns (r: Ended)
      modifies this
      ensures user == old(user) && isAdmin == old(isAdmin) && cart == old(cart)
      ensures !old(isAdmin) ==> r == Threw(NOT_ADMIN_ERROR) && unchanged(this)
      ensures old(isAdmin) && statusReply.Failure? ==> r == Threw(statusReply.error) && unchanged(this)
      ensures old(isAdmin) && statusReply.Success? ==>
        var reloads := !approved && FindOrder(old(orders), orderId).Some?;
        if reloads && productsReply.Failure? then
          r == Threw(productsReply.error) && unchanged(this)
        else
          && products == (if reloads then productsReply.value else old(products))
          && orders == SetStatus(old(orders), orderId, if approved then Confirmed else Canceled)
          && r == (if refreshError.Some? then Threw(refreshError.value) else Returned)
    {
      if !isAdmin {
        return Threw(NOT_ADMIN_ERROR);
      }
      if statusReply.Failure? {
        return Threw(statusReply.error);
      }
      if !approved {
        var order := FindOrder(orders, orderId);
        if order.Some? {
          match productsReply
          case Failure(error) =>
            return Threw(error);
          case Success(fetched) =>
            products := fetched;
        }
      }
      orders := SetStatus(orders, orderId, if approved then Confirmed else Canceled);
      r := if refreshError.Some? then Threw(refreshError.value) else Returned;
    }
  }

  /**
   * After a successful `placeOrder` the new order heads the list, is pending, carries the
   * cart as its items and the cart's total; the catalogue keeps, in order and as often as
   * before, exactly the products not in the cart.
   */
  method SuccessfulOrderRun(user: User, products: seq<Product>, cart: seq<CartItem>, orders: seq<Order>, id: int, createdAt: int)
    returns (placedProducts: seq<Product>, placedOrders: seq<Order>, placedCart: seq<CartItem>)
    requires cart != []
    ensures placedCart == [] && |placedOrders| == |orders| + 1 && placedOrders[1..] == orders
    ensures placedOrders[0].status == Pending && placedOrders[0].items == cart
    ensures placedOrders[0].totalAmount == Total(cart) && placedOrders[0].id == IntString(id)
    ensures forall k, j :: 0 <= k < |placedProducts| && 0 <= j < |cart| ==> placedProducts[k].id != cart[j].product.id
    ensures IsSubsequence(placedProducts, products)
    ensures forall p :: multiset(placedProducts)[p] == if p.id in CartIds(cart) then 0 else multiset(products)[p]
    ensures placedProducts == Remaining(products, cart)
  {
    var s := new Store(Some(user), user.isAdmin, products, cart, orders);
    var r := s.PlaceOrder(Created(id, user.id, createdAt), None);
    RemainingSpec(products, cart);
    placedProducts := s.products;
    placedOrders := s.orders;
    placedCart := s.cart;
  }
}
