/**
 * The admin screen: the pending-order list with its tab count, the add-product form with its
 * image-size guard, and the notice shown after an order is approved or rejected.
 */
module Admin {
  import opened Wrappers
  import opened Strings
  import opened Numbers
  import opened Seqs
  import opened Types
  import Store

  // ---------------------------------------------------------------------------
  // pending orders

  /** `pendingOrders`: the orders still waiting for a decision, in the store's order. */
  function PendingOrders(orders: seq<Order>): seq<Order> {
    Filter((o: Order) => o.status == Pending, orders)
  }

  /** The number of pending orders, counted one list entry at a time. */
  function PendingCount(orders: seq<Order>): nat {
    if orders == [] then 0 else (if orders[0].status == Pending then 1 else 0) + PendingCount(orders[1..])
  }

  /**
   * The list holds exactly the pending orders, each as often as in the store, in the store's
   * order, and the tab label's count, its length, is the number of pending orders.
   */
  lemma PendingOrdersSpec(orders: seq<Order>)
    ensures var r := PendingOrders(orders);
      && (forall k :: 0 <= k < |r| ==> r[k].status == Pending && r[k] in orders)
      && (forall k :: 0 <= k < |orders| ==> (orders[k] in r <==> orders[k].status == Pending))
      && IsSubsequence(r, orders)
      && |r| == PendingCount(orders)
  {
    var r := PendingOrders(orders);
    forall k | 0 <= k < |orders| ensures orders[k] in r <==> orders[k].status == Pending {
      if orders[k] in r {
        var i :| 0 <= i < |r| && r[i] == orders[k];
      }
    }
    FilterIsSubsequence((o: Order) => o.status == Pending, orders);
    PendingLength(orders);
  }

  lemma {:induction false} PendingLength(orders: seq<Order>)
    ensures |PendingOrders(orders)| == PendingCount(orders)
  {
    if orders != [] {
      PendingLength(orders[1..]);
    }
  }

  /**
   * Once an order is approved or rejected it leaves the pending list, and every other pending
   * order stays on it.
   */
  lemma ProcessedOrderLeavesPending(orders: seq<Order>, id: string, approved: bool)
    ensures var after := PendingOrders(Store.SetStatus(orders, id, if approved then Confirmed else Canceled));
      && (forall k :: 0 <= k < |after| ==> after[k].id != id && after[k] in PendingOrders(orders))
      && (forall k :: 0 <= k < |orders| && orders[k].status == Pending && orders[k].id != id ==> orders[k] in after)
  {
    var status := if approved then Confirmed else Canceled;
    var updated := Store.SetStatus(orders, id, status);
    var after := PendingOrders(updated);
    Store.SetStatusSpec(orders, id, status);
    forall k | 0 <= k < |after| ensures after[k].id != id && after[k] in PendingOrders(orders) {
      var i :| 0 <= i < |updated| && updated[i] == after[k];
      assert updated[i] == orders[i];
      assert orders[i] in orders;
    }
    forall k | 0 <= k < |orders| && orders[k].status == Pending && orders[k].id != id ensures orders[k] in after {
      assert updated[k] == orders[k];
      assert updated[k] in updated;
    }
  }

  // ---------------------------------------------------------------------------
  // the add-product form

  /** The form's five text fields; the price is kept as typed. */
  datatype NewItemForm = NewItemForm(name: string, price: string, image: string, category: string, description: string)

  const EMPTY_FORM: NewItemForm := NewItemForm("", "", "", "", "")
  const DEFAULT_CATEGORY: string := "General"
  const DEFAULT_DESCRIPTION: string := "No description"
  const ITEM_ADDED: string := "Item added"

  /** The largest image accepted, in bytes. */
  const MAX_IMAGE_BYTES: nat := 5 * 1024 * 1024

  /**
   * The product literal `handleSubmit` passes to `addProduct`. It differs from `Product` in its
   * price, which is `Number(price)` and may be NaN.
   */
  datatype NewProduct = NewProduct(
    id: string,
    name: string,
    price: JsNumber,
    image: string,
    category: string,
    description: string,
    inStock: bool)

  /** `s || fallback` for a string: the empty string counts as missing. */
  function OrDefault(s: string, fallback: string): (r: string)
    ensures s != "" ==> r == s
    ensures s == "" ==> r == fallback
  {
    if s != "" then s else fallback
  }

  /** `!newItem.name || !newItem.price`: only the two empty strings block the submit. */
  predicate SubmitBlocked(form: NewItemForm) {
    form.name == "" || form.price == ""
  }

  /** The product built from the form at time `now` (milliseconds; the id is its decimal text). */
  function DraftProduct(form: NewItemForm, now: nat): (p: NewProduct)
    ensures p.id == DecimalString(now) && p.name == form.name && p.image == form.image
    ensures p.price == StringToNumber(form.price)
    ensures p.category == (if form.category == "" then DEFAULT_CATEGORY else form.category)
    ensures p.description == (if form.description == "" then DEFAULT_DESCRIPTION else form.description)
    ensures p.inStock
  {
    NewProduct(DecimalString(now), form.name, StringToNumber(form.price), form.image,
               OrDefault(form.category, DEFAULT_CATEGORY), OrDefault(form.description, DEFAULT_DESCRIPTION), true)
  }

  /** A price typed as an integer numeral, with any surrounding blanks, becomes that integer. */
  lemma DraftPriceReadsNumeral(form: NewItemForm, now: nat, price: int, before: string, after: string)
    requires form.price == before + IntString(price) + after
    requires IsBlank(before) && IsBlank(after)
    ensures DraftProduct(form, now).price == Finite(price)
  {
    StringToNumberReadsNumeral(price, before, after);
  }

  /** A blank price that is not empty passes the guard and becomes 0, as `Number` reads it. */
  lemma BlankPriceIsZero(form: NewItemForm, now: nat)
    requires form.name != "" && form.price != "" && IsBlank(form.price)
    ensures !SubmitBlocked(form) && DraftProduct(form, now).price == Finite(0)
  {
    StringToNumberBlank(form.price);
  }

  /** A picked file is read only when it is at most 5 MiB. */
  predicate ImageAccepted(size: nat) {
    size <= MAX_IMAGE_BYTES
  }

  // ---------------------------------------------------------------------------
  // notices

  datatype NoticeKind = Success | Error

  datatype Notice = Notice(message: string, kind: NoticeKind)

  /** The notice after approving or rejecting an order; it depends on nothing but the choice. */
  function ProcessNotice(approved: bool): (n: Notice)
    ensures n.kind == Success <==> approved
    ensures n.message == if approved then "Order confirmed" else "Order rejected"
  {
    if approved then Notice("Order confirmed", Success) else Notice("Order rejected", Error)
  }

  /** The `processOrder` call a button click fires without awaiting it. */
  datatype ProcessCall = ProcessCall(orderId: string, approved: bool)

  /** The admin screen's own state. */
  class AdminPanel {
    var form: NewItemForm
    var isAdding: bool
    var notice: Option<Notice>

    constructor ()
      ensures form == EMPTY_FORM && !isAdding && notice.None?
    {
      form := EMPTY_FORM;
      isAdding := false;
      notice := None;
    }

    /**
     * `handleImageUpload`: without a file, or with one over 5 MiB, nothing changes; otherwise
     * the file is handed to the reader, whose result arrives later through `ImageRead`.
     */
    method PickImage(size: Option<nat>) returns (startsReading: bool)
      ensures startsReading <==> size.Some? && ImageAccepted(size.value)
    {
      match size
      case None => startsReading := false;
      case Some(n) =>
        if n > MAX_IMAGE_BYTES {
          startsReading := false;
        } else {
          startsReading := true;
        }
    }

    /** The reader's `onloadend`: the data URL becomes the form's image, the rest of the form is kept. */
    method ImageRead(dataUrl: string)
      modifies this
      ensures form == old(form).(image := dataUrl)
      ensures isAdding == old(isAdding) && notice == old(notice)
    {
      form := form.(image := dataUrl);
    }

    /**
     * `handleSubmit`: an empty name or price does nothing; otherwise the product built from the
     * form is added, the form is emptied and closed, and the "Item added" notice is shown.
     */
    method Submit(now: nat) returns (added: Option<NewProduct>)
      modifies this
      ensures SubmitBlocked(old(form)) ==> added.None? && unchanged(this)
      ensures !SubmitBlocked(old(form)) ==>
        && added == Some(DraftProduct(old(form), now))
        && form == EMPTY_FORM && !isAdding && notice == Some(Notice(ITEM_ADDED, Success))
    {
      if form.name == "" || form.price == "" {
        return None;
      }
      added := Some(DraftProduct(form, now));
      form := EMPTY_FORM;
      isAdding := false;
      notice := Some(Notice(ITEM_ADDED, Success));
    }

    /**
     * `handleProcessOrder`: the call is fired and the notice is set at once, whatever the
     * call later does.
     */
    method ProcessClicked(orderId: string, approved: bool) returns (call: ProcessCall)
      modifies this
      ensures call == ProcessCall(orderId, approved)
      ensures notice == Some(ProcessNotice(approved))
      ensures form == old(form) && isAdding == old(isAdding)
    {
      call := ProcessCall(orderId, approved);
      notice := Some(ProcessNotice(approved));
    }

    /** The three-second timer set for a notice clears it. */
    method NoticeExpired()
      modifies this
      ensures notice.None? && form == old(form) && isAdding == old(isAdding)
    {
      notice := None;
    }
  }

  /**
   * Filling the form and submitting it adds the product built from it and leaves the form
   * empty; a second submit adds nothing, whether the first emptied the form or was blocked
   * and left it as it was.
   */
  method AddTwiceRun(filled: NewItemForm, now: nat) returns (first: Option<NewProduct>, second: Option<NewProduct>)
    ensures SubmitBlocked(filled) <==> first.None?
    ensures first.Some? ==> first.value == DraftProduct(filled, now) && first.value.inStock
    ensures second.None?
  {
    var panel := new AdminPanel();
    panel.form := filled;
    first := panel.Submit(now);
    second := panel.Submit(now);
  }
}
