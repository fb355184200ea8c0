/**
 * The order list of the profile page (OrderTimeline.jsx): the status filter
 * and its counters, the status badge, which actions an order offers, and the
 * cancel dialog that calls into the ledger.
 */
module OrderTimeline {
  import opened Wrappers
  import opened Text
  import opened MockApi

  /** The four statuses `getStatusInfo` knows. */
  predicate KnownStatus(s: string) {
    s == Processing || s == Shipped || s == Delivered || s == Cancelled
  }

  /** `getStatusInfo(status)` without the icon; `title` is its `label` key. */
  datatype StatusInfo = StatusInfo(title: string, color: string)

  const DefaultColor: string := "#94a3b8"

  /** The status with its first letter upper-cased. */
  function Capitalized(s: string): string {
    if s == [] then [] else [UpperChar(s[0])] + s[1..]
  }

  /**
   * The badge of a status: a known status is shown capitalised in its own
   * colour, any other string is shown as it is, in the neutral colour.
   */
  function GetStatusInfo(status: string): (r: StatusInfo)
    ensures r.title == if KnownStatus(status) then Capitalized(status) else status
    ensures r.color == DefaultColor <==> !KnownStatus(status)
  {
    StatusTitles();
    if status == Processing then StatusInfo("Processing", "#f59e0b")
    else if status == Shipped then StatusInfo("Shipped", "#3b82f6")
    else if status == Delivered then StatusInfo("Delivered", "#22c55e")
    else if status == Cancelled then StatusInfo("Cancelled", "#ef4444")
    else StatusInfo(status, DefaultColor)
  }

  /** The titles of the four statuses are their capitalised names. */
  lemma StatusTitles()
    ensures Capitalized(Processing) == "Processing" && Capitalized(Shipped) == "Shipped"
    ensures Capitalized(Delivered) == "Delivered" && Capitalized(Cancelled) == "Cancelled"
  {
    assert Processing[1..] == "rocessing" && Shipped[1..] == "hipped";
    assert Delivered[1..] == "elivered" && Cancelled[1..] == "ancelled";
  }

  /** Every status has its own colour: two known statuses share a badge colour only when they are the same status. */
  lemma StatusColorsDistinct(a: string, b: string)
    requires KnownStatus(a) && KnownStatus(b)
    ensures GetStatusInfo(a).color == GetStatusInfo(b).color <==> a == b
  {
  }

  // ---------------------------------------------------------------------
  // Filter and counters
  // ---------------------------------------------------------------------

  /** `orders.filter(o => o.status === status)`. */
  function WithStatus(orders: seq<Order>, status: string): (r: seq<Order>)
    ensures |r| <= |orders|
    ensures forall o | o in r :: o in orders && o.status == status
    ensures forall o | o in orders && o.status == status :: o in r
  {
    if orders == [] then []
    else (if orders[0].status == status then [orders[0]] else []) + WithStatus(orders[1..], status)
  }

  /** Filtering a concatenation filters each part in turn, so the filter keeps the ledger's order. */
  lemma {:induction false} WithStatusAppend(a: seq<Order>, b: seq<Order>, status: string)
    ensures WithStatus(a + b, status) == WithStatus(a, status) + WithStatus(b, status)
  {
    if a != [] {
      assert (a + b)[1..] == a[1..] + b;
      WithStatusAppend(a[1..], b, status);
    } else {
      assert a + b == b;
    }
  }

  /** `filteredOrders`: everything under "all", otherwise the orders of the chosen status. */
  function FilteredOrders(orders: seq<Order>, filter: string): (r: seq<Order>)
    ensures filter == "all" ==> r == orders
    ensures filter != "all" ==> forall o :: o in r <==> o in orders && o.status == filter
  {
    if filter == "all" then orders else WithStatus(orders, filter)
  }

  /** `statusCounts`. */
  datatype Counts = Counts(all: nat, processing: nat, shipped: nat, delivered: nat)

  function StatusCounts(orders: seq<Order>): (c: Counts)
    ensures c.all == |orders|
    ensures c.processing == |FilteredOrders(orders, Processing)|
    ensures c.shipped == |FilteredOrders(orders, Shipped)|
    ensures c.delivered == |FilteredOrders(orders, Delivered)|
  {
    Counts(|orders|, |WithStatus(orders, Processing)|, |WithStatus(orders, Shipped)|, |WithStatus(orders, Delivered)|)
  }

  /** An order the three status badges do not count, e.g. a cancelled one. */
  predicate Uncounted(o: Order) {
    o.status != Processing && o.status != Shipped && o.status != Delivered
  }

  /**
   * The three status counters never add up to more than "all", and they fall
   * short exactly when some order has another status.
   */
  lemma {:induction false} CountsBound(orders: seq<Order>)
    ensures var c := StatusCounts(orders);
      && c.processing + c.shipped + c.delivered <= c.all
      && (c.processing + c.shipped + c.delivered < c.all <==> exists o | o in orders :: Uncounted(o))
  {
    if orders != [] {
      CountsBound(orders[1..]);
      var x := orders[0];
      assert |WithStatus(orders, Processing)| == (if x.status == Processing then 1 else 0) + |WithStatus(orders[1..], Processing)|;
      assert |WithStatus(orders, Shipped)| == (if x.status == Shipped then 1 else 0) + |WithStatus(orders[1..], Shipped)|;
      assert |WithStatus(orders, Delivered)| == (if x.status == Delivered then 1 else 0) + |WithStatus(orders[1..], Delivered)|;
      if Uncounted(x) {
        assert x in orders;
      }
      if exists o | o in orders[1..] :: Uncounted(o) {
        var o :| o in orders[1..] && Uncounted(o);
        assert o in orders;
      }
      if exists o | o in orders :: Uncounted(o) {
        var o :| o in orders && Uncounted(o);
        if o != orders[0] {
          assert o in orders[1..];
        }
      }
    }
  }

  // ---------------------------------------------------------------------
  // Actions per order
  // ---------------------------------------------------------------------

  /** The buttons an order card offers besides View Details. */
  datatype Actions = Actions(cancel: bool, reorder: bool, review: bool)

  function ActionsFor(status: string): (a: Actions)
    ensures a.cancel <==> status == Processing
    ensures a.reorder <==> !a.cancel
    ensures a.review <==> status == Delivered
  {
    Actions(status == Processing, status != Processing, status == Delivered)
  }

  /**
   * The Cancel button of the first order carrying an id is offered exactly
   * when the ledger would accept cancelling that id.
   */
  lemma CancelOfferedIffAccepted(orders: seq<Order>, k: nat)
    requires k < |orders| && FirstIndex(orders, orders[k].id) == k
    ensures ActionsFor(orders[k].status).cancel <==> Cancellable(orders, orders[k].id)
  {
  }

  /** A delivered order can be reordered and reviewed, never cancelled. */
  lemma DeliveredActions()
    ensures ActionsFor(Delivered) == Actions(false, true, true)
  {
  }

  // ---------------------------------------------------------------------
  // The cancel dialog
  // ---------------------------------------------------------------------

  /** The `cancellingOrder` and `showCancelModal` state of the component. */
  class CancelDialog {
    var pending: Option<string>
    var showModal: bool

    constructor ()
      ensures pending == None && !showModal
    {
      pending := None;
      showModal := false;
    }

    /** `handleCancelClick(orderId)`: remember the order and open the dialog. */
    method HandleCancelClick(id: string)
      modifies this
      ensures pending == Some(id) && showModal
    {
      pending := Some(id);
      showModal := true;
    }

    /** Keep Order, or a click on the overlay: the dialog closes and the pending id stays. */
    method KeepOrder()
      modifies this
      ensures pending == old(pending) && !showModal
    {
      showModal := false;
    }

    /**
     * `confirmCancel()`: with a pending (truthy) id, cancel it in the ledger,
     * then close the dialog and forget the id whatever the ledger answered;
     * `notified` tells whether `onOrderCancelled` ran. Without one nothing happens.
     */
    method ConfirmCancel(store: Store, hasCallback: bool) returns (notified: bool)
      requires store.Valid()
      modifies this, store
      ensures store.Valid()
      ensures old(pending).Some? && old(pending).value != "" ==>
        && store.orders == (if Cancellable(old(store.orders), old(pending).value)
                            then WithoutId(old(store.orders), old(pending).value)
                            else old(store.orders))
        && pending == None && !showModal && notified == hasCallback
      ensures !(old(pending).Some? && old(pending).value != "") ==>
        && store.orders == old(store.orders)
        && pending == old(pending) && showModal == old(showModal) && !notified
      ensures store.cart == old(store.cart) && store.preferences == old(store.preferences)
    {
      notified := false;
      if pending.Some? && pending.value != "" {
        var _ := store.CancelOrder(pending.value);
        showModal := false;
        pending := None;
        notified := hasCallback;
      }
    }
  }
}
