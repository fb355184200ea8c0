/**
 * The in-memory backend of the dashboard (src/data/mockApi.js): the order
 * ledger that `placeOrder` and `cancelOrder` rewrite, the demo cart, and the
 * stored shopping preferences that `api.updatePreferences` merges into.
 *
 * Dates are day numbers (days since 1970-01-01); the host clock is a parameter.
 */
module MockApi {
  import opened Wrappers
  import opened Text

  const Processing: string := "processing"
  const Shipped: string := "shipped"
  const Delivered: string := "delivered"
  const Cancelled: string := "cancelled"

  const CancelledMessage: string := "Order cancelled successfully"
  const CannotCancelMessage: string := "Cannot cancel this order"

  /**
   * One line handed to `placeOrder`: a catalogue product or reorder item
   * spread with a quantity. Price and quantity may be missing (`undefined`).
   */
  datatype LineRequest = LineRequest(name: string, image: string, price: Option<int>, quantity: Option<int>)

  /** A line of a placed order, snapshotted from its request. */
  datatype Item = Item(id: int, name: string, image: string, price: int, quantity: int)

  datatype Order = Order(
    id: string,
    date: int,
    status: string,
    total: int,
    items: seq<Item>,
    estimatedDelivery: Option<int>,
    trackingNumber: Option<string>,
    carrier: Option<string>,
    deliveredAt: Option<int>)

  datatype CancelResult = CancelResult(success: bool, message: string)

  /** `item.price || 0`: a missing price (and a zero one) is 0. */
  function UnitPrice(r: LineRequest): (p: int)
    ensures r.price.Some? ==> p == r.price.value
    ensures r.price.None? ==> p == 0
  {
    r.price.GetOr(0)
  }

  /** `item.quantity || 1`: a missing quantity, and also a quantity of 0, is 1. */
  function Quantity(r: LineRequest): (q: int)
    ensures q != 0
    ensures r.quantity.Some? && r.quantity.value != 0 ==> q == r.quantity.value
    ensures q != 1 ==> r.quantity == Some(q)
  {
    if r.quantity.Some? && r.quantity.value != 0 then r.quantity.value else 1
  }

  function LineTotal(r: LineRequest): int {
    UnitPrice(r) * Quantity(r)
  }

  /** The total `placeOrder` charges for its input lines: nothing for no lines, and never negative when no price or quantity is. */
  function RequestTotal(rs: seq<LineRequest>): (t: int)
    ensures rs == [] ==> t == 0
    ensures (forall i | 0 <= i < |rs| :: UnitPrice(rs[i]) >= 0 && Quantity(rs[i]) > 0) ==> t >= 0
  {
    if rs == [] then 0 else LineTotal(rs[0]) + RequestTotal(rs[1..])
  }

  /** What an order's own lines add up to. */
  function ItemsTotal(items: seq<Item>): int {
    if items == [] then 0 else items[0].price * items[0].quantity + ItemsTotal(items[1..])
  }

  /** The line `placeOrder` stores for request `r` under line id `id`. */
  function Snapshot(r: LineRequest, id: int): Item {
    Item(id, r.name, r.image, UnitPrice(r), Quantity(r))
  }

  /** The lines of an order placed on a ledger of `base` orders: line `i` gets id 200 + i + base. */
  function Snapshots(rs: seq<LineRequest>, base: int): seq<Item> {
    seq(|rs|, i requires 0 <= i < |rs| => Snapshot(rs[i], 200 + i + base))
  }

  /** The id of an order placed on a ledger of `n` orders: "ORD-2025-" and 1303 + n, zero-padded to six digits. */
  function OrderId(n: nat): (id: string)
  {
    "ORD-2025-" + PadStart(Decimal(1303 + n), 6, '0')
  }

  /** The sequence number an order id carries after its "ORD-2025-" prefix, if it has one. */
  function SequenceNumber(id: string): Option<nat> {
    if |id| > 9 && id[..9] == "ORD-2025-" && forall i :: 9 <= i < |id| ==> IsDigit(id[i])
    then Some(ParseDecimal(id[9..]))
    else None
  }

  /** The order `placeOrder(rs)` creates on a ledger of `n` orders on day `today`. */
  function NewOrder(rs: seq<LineRequest>, n: nat, today: int): Order {
    Order(OrderId(n), today, Processing, RequestTotal(rs), Snapshots(rs, n), Some(today + 5), None, None, None)
  }

  /** The ledger after `placeOrder(rs)`: the new order in front of all earlier ones. */
  function Placed(orders: seq<Order>, rs: seq<LineRequest>, today: int): seq<Order> {
    [NewOrder(rs, |orders|, today)] + orders
  }

  /** `findIndex`: the index of the first order with id `id`, or -1. */
  function FirstIndex(orders: seq<Order>, id: string): (k: int)
    ensures -1 <= k < |orders|
    ensures k >= 0 ==> orders[k].id == id && forall j :: 0 <= j < k ==> orders[j].id != id
    ensures k == -1 <==> forall j :: 0 <= j < |orders| ==> orders[j].id != id
  {
    if orders == [] then -1
    else if orders[0].id == id then 0
    else
      var k := FirstIndex(orders[1..], id);
      if k == -1 then -1 else k + 1
  }

  /** `cancelOrder` goes ahead exactly when the first order with that id is still processing. */
  predicate Cancellable(orders: seq<Order>, id: string): (ok: bool)
    ensures ok <==> exists k | 0 <= k < |orders| ::
      orders[k].id == id && orders[k].status == Processing && forall j | 0 <= j < k :: orders[j].id != id
  {
    var k := FirstIndex(orders, id);
    k != -1 && orders[k].status == Processing
  }

  /** How many orders carry id `id`. */
  function CountId(orders: seq<Order>, id: string): nat {
    if orders == [] then 0 else (if orders[0].id == id then 1 else 0) + CountId(orders[1..], id)
  }

  /** `orders.filter(o => o.id !== id)`. */
  function WithoutId(orders: seq<Order>, id: string): (r: seq<Order>)
    ensures |r| + CountId(orders, id) == |orders|
  {
    if orders == [] then []
    else if orders[0].id == id then WithoutId(orders[1..], id)
    else [orders[0]] + WithoutId(orders[1..], id)
  }

  /** The filter keeps exactly the orders with another id. */
  lemma {:induction false} WithoutIdMembers(orders: seq<Order>, id: string)
    ensures forall o | o in WithoutId(orders, id) :: o in orders && o.id != id
    ensures forall o | o in orders && o.id != id :: o in WithoutId(orders, id)
  {
    if orders != [] {
      WithoutIdMembers(orders[1..], id);
      assert forall o | o in orders :: o == orders[0] || o in orders[1..];
    }
  }

  // ---------------------------------------------------------------------
  // Stored preferences and `api.updatePreferences`
  // ---------------------------------------------------------------------

  /** The shopping preferences record: sizes per category, favourites, and two groups of switches. */
  datatype Prefs = Prefs(
    sizes: map<string, string>,
    favoriteColors: seq<string>,
    favoriteBrands: seq<string>,
    notifications: map<string, bool>,
    privacy: map<string, bool>)

  /** The argument of `updatePreferences`: the top-level keys it carries. */
  datatype PrefsUpdate = PrefsUpdate(
    sizes: Option<map<string, string>>,
    favoriteColors: Option<seq<string>>,
    favoriteBrands: Option<seq<string>>,
    notifications: Option<map<string, bool>>,
    privacy: Option<map<string, bool>>)

  const NoUpdate: PrefsUpdate := PrefsUpdate(None, None, None, None, None)

  /** `Object.assign(p, u)`: a shallow merge, top-level key by key. */
  function Merged(p: Prefs, u: PrefsUpdate): Prefs {
    Prefs(
      u.sizes.GetOr(p.sizes),
      u.favoriteColors.GetOr(p.favoriteColors),
      u.favoriteBrands.GetOr(p.favoriteBrands),
      u.notifications.GetOr(p.notifications),
      u.privacy.GetOr(p.privacy))
  }

  /** The keys of `u`, overridden by those of `v`: what `Object.assign(Object.assign(p, u), v)` writes. */
  function Then(u: PrefsUpdate, v: PrefsUpdate): PrefsUpdate {
    PrefsUpdate(
      if v.sizes.Some? then v.sizes else u.sizes,
      if v.favoriteColors.Some? then v.favoriteColors else u.favoriteColors,
      if v.favoriteBrands.Some? then v.favoriteBrands else u.favoriteBrands,
      if v.notifications.Some? then v.notifications else u.notifications,
      if v.privacy.Some? then v.privacy else u.privacy)
  }

  /**
   * The laws of the shallow merge: merging nothing changes nothing, merging
   * the same update twice is merging it once, and two merges in a row are one
   * merge of the later keys over the earlier ones.
   */
  lemma MergeLaws(p: Prefs, u: PrefsUpdate, v: PrefsUpdate)
    ensures Merged(p, NoUpdate) == p
    ensures Merged(Merged(p, u), u) == Merged(p, u)
    ensures Merged(Merged(p, u), v) == Merged(p, Then(u, v))
  {
  }

  // ---------------------------------------------------------------------
  // The fixtures the module starts with
  // ---------------------------------------------------------------------

  /** The eight orders the ledger starts with, most recent first (image URLs left empty). */
  function InitialOrders(): seq<Order> {
    [ Order("ORD-2025-001302", 20093, Processing, 10999,
        [Item(101, "boAt Airdopes 141", "", 10999, 1)], Some(20098), None, None, None),
      Order("ORD-2025-001298", 20091, Shipped, 18500,
        [Item(102, "Amazon Echo Dot (5th Gen)", "", 12999, 1),
         Item(103, "Philips Smart LED Bulbs (4-Pack)", "", 5501, 1)],
        Some(20095), Some("DTDC123456789"), Some("DTDC"), None),
      Order("ORD-2025-001290", 20089, Shipped, 4950,
        [Item(104, "Boldfit Yoga Mat (6mm)", "", 2950, 1),
         Item(105, "Resistance Bands Set", "", 2000, 1)],
        Some(20094), Some("BLUEDART987654321"), Some("BlueDart"), None),
      Order("ORD-2024-001247", 20085, Delivered, 15999,
        [Item(1, "Sony WH-1000XM4 Headphones", "", 12999, 1),
         Item(2, "Spigen Phone Case", "", 3000, 1)],
        None, None, None, Some(20088)),
      Order("ORD-2024-001198", 20072, Delivered, 24500,
        [Item(3, "Noise ColorFit Pro 4", "", 18500, 1),
         Item(4, "Puma Running Shoes", "", 6000, 1)],
        None, None, None, Some(20075)),
      Order("ORD-2024-001156", 20055, Delivered, 7499,
        [Item(5, "Wipro Smart LED Desk Lamp", "", 7499, 1)],
        None, None, None, Some(20058)),
      Order("ORD-2024-001089", 20037, Delivered, 5200,
        [Item(6, "Allen Solly Cotton T-Shirt Pack", "", 2600, 2)],
        None, None, None, Some(20040)),
      Order("ORD-2024-001034", 20018, Delivered, 22250,
        [Item(7, "JBL Flip 6 Bluetooth Speaker", "", 9999, 1),
         Item(8, "Samsung Wireless Charger", "", 3999, 1),
         Item(9, "Woodland Leather Wallet", "", 4499, 1),
         Item(10, "Ray-Ban Sunglasses", "", 3753, 1)],
        None, None, None, Some(20021))
    ]
  }

  function InitialPrefs(): Prefs {
    Prefs(
      map["tops" := "M", "bottoms" := "32", "shoes" := "9 UK", "dresses" := "M"],
      ["Black", "Navy", "White", "Olive"],
      ["Nike", "Apple", "Zara", "Sony"],
      map["orderUpdates" := true, "promotions" := true, "priceDrops" := true,
          "newArrivals" := false, "newsletter" := true, "smsAlerts" := false],
      map["showPurchaseHistory" := true, "shareDataForRecommendations" := true, "allowReviews" := true])
  }

  /** Every order's total is what its own lines add up to. */
  ghost predicate TotalsConsistent(orders: seq<Order>) {
    forall o | o in orders :: o.total == ItemsTotal(o.items)
  }

  /** Every fixture order's total is what its lines add up to. */
  lemma InitialTotalsConsistent()
    ensures TotalsConsistent(InitialOrders())
  {
    var os := InitialOrders();
    forall i | 0 <= i < |os| ensures os[i].total == ItemsTotal(os[i].items) {
      var items := os[i].items;
      if |items| == 4 {
        assert ItemsTotal(items[3..]) == 3753;
        assert ItemsTotal(items[2..]) == 4499 + 3753;
      }
    }
    forall o | o in os ensures o.total == ItemsTotal(o.items) {
      var i :| 0 <= i < |os| && os[i] == o;
    }
  }

  // ---------------------------------------------------------------------
  // The module-level state
  // ---------------------------------------------------------------------

  /** The module-level `mockOrders`, `mockCart` and `mockPreferences` bindings. */
  class Store {
    var orders: seq<Order>
    var cart: seq<LineRequest>
    var preferences: Prefs

    ghost predicate Valid()
      reads this
    {
      TotalsConsistent(orders)
    }

    constructor ()
      ensures Valid()
      ensures orders == InitialOrders() && cart == [] && preferences == InitialPrefs()
    {
      InitialTotalsConsistent();
      orders := InitialOrders();
      cart := [];
      preferences := InitialPrefs();
    }

    /** `placeOrder(items)` on day `today`. */
    method PlaceOrder(items: seq<LineRequest>, today: int) returns (order: Order)
      requires Valid()
      modifies this
      ensures Valid()
      ensures order == NewOrder(items, old(|orders|), today)
      ensures orders == [order] + old(orders)
      ensures cart == [] && preferences == old(preferences)
    {
      var lines, total := BuildLines(items, |orders|);
      order := Order(OrderId(|orders|), today, Processing, total, lines, Some(today + 5), None, None, None);
      orders := [order] + orders;
      cart := [];
    }

    /** `cancelOrder(id)`. */
    method CancelOrder(id: string) returns (r: CancelResult)
      requires Valid()
      modifies this
      ensures Valid()
      ensures r.success == Cancellable(old(orders), id)
      ensures orders == if r.success then WithoutId(old(orders), id) else old(orders)
      ensures r.message == if r.success then CancelledMessage else CannotCancelMessage
      ensures cart == old(cart) && preferences == old(preferences)
    {
      var k := FirstIndex(orders, id);
      if k != -1 && orders[k].status == Processing {
        WithoutIdMembers(orders, id);
        orders := WithoutId(orders, id);
        return CancelResult(true, CancelledMessage);
      }
      return CancelResult(false, CannotCancelMessage);
    }

    /** `api.updatePreferences(updates)`: merges in place and always reports success. */
    method UpdatePreferences(updates: PrefsUpdate) returns (success: bool)
      modifies this
      ensures success
      ensures preferences == Merged(old(preferences), updates)
      ensures orders == old(orders) && cart == old(cart)
    {
      preferences := Merged(preferences, updates);
      success := true;
    }
  }

  /**
   * The `items.map` loop of `placeOrder`: snapshot each line and add its
   * price times quantity to the running total.
   */
  method BuildLines(rs: seq<LineRequest>, base: int) returns (lines: seq<Item>, total: int)
    ensures |lines| == |rs|
    ensures forall i :: 0 <= i < |rs| ==> lines[i] == Snapshot(rs[i], 200 + i + base)
    ensures total == RequestTotal(rs) && total == ItemsTotal(lines)
  {
    lines, total := [], 0;
    var i := 0;
    while i < |rs|
      invariant 0 <= i <= |rs| && |lines| == i
      invariant forall j :: 0 <= j < i ==> lines[j] == Snapshot(rs[j], 200 + j + base)
      invariant total == RequestTotal(rs[..i])
    {
      RequestTotalAppend(rs[..i], [rs[i]]);
      assert rs[..i + 1] == rs[..i] + [rs[i]];
      total := total + UnitPrice(rs[i]) * Quantity(rs[i]);
      lines := lines + [Snapshot(rs[i], 200 + i + base)];
      i := i + 1;
    }
    assert rs[..i] == rs;
    assert lines == Snapshots(rs, base);
    SnapshotsTotal(rs, base);
  }

  // ---------------------------------------------------------------------
  // Totals
  // ---------------------------------------------------------------------

  lemma {:induction false} RequestTotalAppend(a: seq<LineRequest>, b: seq<LineRequest>)
    ensures RequestTotal(a + b) == RequestTotal(a) + RequestTotal(b)
  {
    if a == [] {
      assert a + b == b;
    } else {
      assert (a + b)[1..] == a[1..] + b;
      RequestTotalAppend(a[1..], b);
    }
  }

  /** Snapshotting keeps the money: the stored lines add up to the charged total. */
  lemma {:induction false} SnapshotsTotal(rs: seq<LineRequest>, base: int)
    ensures ItemsTotal(Snapshots(rs, base)) == RequestTotal(rs)
  {
    if rs != [] {
      assert Snapshots(rs, base)[1..] == Snapshots(rs[1..], base + 1);
      SnapshotsTotal(rs[1..], base + 1);
    }
  }

  /** Every order `placeOrder` creates: status processing, one normalised line per request in order, a consistent total, delivery five days out. */
  lemma NewOrderShape(rs: seq<LineRequest>, n: nat, today: int)
    ensures var o := NewOrder(rs, n, today);
      && o.status == Processing
      && o.total == RequestTotal(rs) == ItemsTotal(o.items)
      && |o.items| == |rs|
      && (forall i :: 0 <= i < |rs| ==>
            o.items[i].id == 200 + i + n && o.items[i].name == rs[i].name
            && o.items[i].price == UnitPrice(rs[i]) && o.items[i].quantity == Quantity(rs[i]))
      && o.estimatedDelivery == Some(today + 5)
      && o.trackingNumber.None? && o.carrier.None? && o.deliveredAt.None?
  {
    var o := NewOrder(rs, n, today);
    assert o.items == Snapshots(rs, n);
    SnapshotsTotal(rs, n);
    assert o.total == RequestTotal(rs) == ItemsTotal(o.items);
  }

  /** No lines cost nothing, and placing them is not an error. */
  lemma EmptyOrder(n: nat, today: int)
    ensures NewOrder([], n, today).total == 0 && NewOrder([], n, today).items == []
  {
  }

  /** Two lines, 100 x 2 and 50 x 1, total 250; a quantity of 0 is charged as 1 and a missing price as 0. */
  lemma TotalExamples()
    ensures RequestTotal([LineRequest("a", "", Some(100), Some(2)), LineRequest("b", "", Some(50), Some(1))]) == 250
    ensures RequestTotal([LineRequest("a", "", Some(100), Some(0))]) == 100
    ensures RequestTotal([LineRequest("a", "", None, Some(3))]) == 0
  {
  }

  // ---------------------------------------------------------------------
  // Order ids
  // ---------------------------------------------------------------------

  /** An id carries back the sequence number 1303 + n it was built from. */
  lemma OrderIdSequence(n: nat)
    ensures SequenceNumber(OrderId(n)) == Some(1303 + n)
    ensures |OrderId(n)| >= 15
  {
    var p := PadStart(Decimal(1303 + n), 6, '0');
    PaddedDecimal(1303 + n, 6);
    var id := OrderId(n);
    assert id[..9] == "ORD-2025-" && id[9..] == p;
  }

  /** Ids built from different ledger lengths differ. */
  lemma OrderIdInjective(m: nat, n: nat)
    requires OrderId(m) == OrderId(n)
    ensures m == n
  {
    OrderIdSequence(m);
    OrderIdSequence(n);
  }

  /** Different ledger lengths give different ids. */
  lemma OrderIdsDiffer(m: nat, n: nat)
    requires m != n
    ensures OrderId(m) != OrderId(n)
  {
    OrderIdSequence(m);
    OrderIdSequence(n);
  }

  /** The ledger after placing each batch in turn. */
  function PlaceAll(orders: seq<Order>, batches: seq<seq<LineRequest>>, today: int): seq<Order>
    decreases |batches|
  {
    if batches == [] then orders
    else PlaceAll(Placed(orders, batches[0], today), batches[1..], today)
  }

  /** Placements with no cancel in between put one order each in front of the earlier ledger, which is kept behind them. */
  lemma {:induction false} PlaceAllKeeps(orders: seq<Order>, batches: seq<seq<LineRequest>>, today: int)
    ensures var l := PlaceAll(orders, batches, today);
      |l| == |orders| + |batches| && l[|batches|..] == orders
    decreases |batches|
  {
    if batches != [] {
      var n := |batches|;
      var p := Placed(orders, batches[0], today);
      PlaceAllKeeps(p, batches[1..], today);
      var l := PlaceAll(orders, batches, today);
      assert l[n..] == l[n - 1..][1..];
    }
  }

  /**
   * The i-th of those placements sits at index |batches| - 1 - i and is the
   * order built from the i-th batch `b` with sequence number n = |orders| + i
   * (id number 1303 + n), so later placements get larger numbers.
   */
  lemma {:induction false} PlaceAllAt(orders: seq<Order>, batches: seq<seq<LineRequest>>, today: int,
                                      i: nat, n: nat, b: seq<LineRequest>)
    requires i < |batches| && b == batches[i] && n == |orders| + i
    ensures |PlaceAll(orders, batches, today)| == |orders| + |batches|
    ensures PlaceAll(orders, batches, today)[|batches| - 1 - i] == NewOrder(b, n, today)
    decreases |batches|
  {
    if i == 0 {
      PlaceAllFirst(orders, batches, today);
    } else {
      var p := Placed(orders, batches[0], today);
      var rest := batches[1..];
      assert |p| == |orders| + 1;
      assert PlaceAll(orders, batches, today) == PlaceAll(p, rest, today);
      PlaceAllAt(p, rest, today, i - 1, n, b);
    }
  }

  /** The first of those placements ends up right in front of the earlier ledger. */
  lemma PlaceAllFirst(orders: seq<Order>, batches: seq<seq<LineRequest>>, today: int)
    requires batches != []
    ensures |PlaceAll(orders, batches, today)| == |orders| + |batches|
    ensures PlaceAll(orders, batches, today)[|batches| - 1] == NewOrder(batches[0], |orders|, today)
  {
    var n := |batches|;
    var p := Placed(orders, batches[0], today);
    var l := PlaceAll(orders, batches, today);
    assert l == PlaceAll(p, batches[1..], today);
    PlaceAllKeeps(p, batches[1..], today);
    assert l[n - 1] == l[n - 1..][0];
  }

  /** The i-th of those placements carries the id built from sequence number 1303 + |orders| + i. */
  lemma PlaceAllIdAt(orders: seq<Order>, batches: seq<seq<LineRequest>>, today: int, i: nat)
    requires i < |batches|
    ensures |PlaceAll(orders, batches, today)| == |orders| + |batches|
    ensures PlaceAll(orders, batches, today)[|batches| - 1 - i].id == OrderId(|orders| + i)
  {
    var n := |orders| + i;
    PlaceAllAt(orders, batches, today, i, n, batches[i]);
    assert NewOrder(batches[i], n, today).id == OrderId(n);
  }

  /** Of two placements with no cancel in between, the later one carries a higher sequence number, so their ids differ. */
  lemma PlaceAllDistinct(orders: seq<Order>, batches: seq<seq<LineRequest>>, today: int, i: nat, j: nat)
    requires i < j < |batches|
    ensures |PlaceAll(orders, batches, today)| == |orders| + |batches|
    ensures PlaceAll(orders, batches, today)[|batches| - 1 - i].id != PlaceAll(orders, batches, today)[|batches| - 1 - j].id
  {
    PlaceAllIdAt(orders, batches, today, i);
    PlaceAllIdAt(orders, batches, today, j);
    OrderIdsDiffer(|orders| + i, |orders| + j);
  }

  // ---------------------------------------------------------------------
  // Cancellation
  // ---------------------------------------------------------------------

  /** Cancelling removes every order with that id and keeps the rest in their order. */
  lemma {:induction false} WithoutIdAppend(a: seq<Order>, b: seq<Order>, id: string)
    ensures WithoutId(a + b, id) == WithoutId(a, id) + WithoutId(b, id)
  {
    if a == [] {
      assert a + b == b;
    } else {
      var head := if a[0].id == id then [] else [a[0]];
      assert (a + b)[0] == a[0] && (a + b)[1..] == a[1..] + b;
      assert WithoutId(a + b, id) == head + WithoutId(a[1..] + b, id);
      assert WithoutId(a, id) == head + WithoutId(a[1..], id);
      WithoutIdAppend(a[1..], b, id);
      assert head + (WithoutId(a[1..], id) + WithoutId(b, id)) == (head + WithoutId(a[1..], id)) + WithoutId(b, id);
    }
  }

  lemma {:induction false} WithoutAbsentId(orders: seq<Order>, id: string)
    requires forall o | o in orders :: o.id != id
    ensures WithoutId(orders, id) == orders
  {
    if orders != [] {
      WithoutAbsentId(orders[1..], id);
    }
  }

  /** With a unique id, a successful cancel shrinks the ledger by exactly one and the id is gone. */
  lemma CancelUnique(orders: seq<Order>, id: string)
    requires Cancellable(orders, id) && CountId(orders, id) == 1
    ensures |WithoutId(orders, id)| == |orders| - 1
    ensures forall o | o in WithoutId(orders, id) :: o.id != id
  {
    WithoutIdMembers(orders, id);
  }

  /** A refused cancel: the id is absent, or its first order is not processing. */
  lemma CancelRefused(orders: seq<Order>, id: string)
    ensures !Cancellable(orders, id) <==>
      (forall o | o in orders :: o.id != id)
      || (exists k :: 0 <= k < |orders| && orders[k].id == id && orders[k].status != Processing
                      && forall j :: 0 <= j < k ==> orders[j].id != id)
  {
    var k := FirstIndex(orders, id);
    if k == -1 {
      assert forall o | o in orders :: o.id != id;
    } else {
      assert orders[k] in orders;
      forall k' | 0 <= k' < |orders| && orders[k'].id == id && forall j :: 0 <= j < k' ==> orders[j].id != id
        ensures k' == k
      {
      }
    }
  }

  lemma WithoutIdCons(x: Order, rest: seq<Order>, id: string)
    ensures WithoutId([x] + rest, id) == if x.id == id then WithoutId(rest, id) else [x] + WithoutId(rest, id)
  {
    assert ([x] + rest)[1..] == rest;
  }

  /** Of two fresh placements on a ledger that does not hold the first one's id, the first can be cancelled, leaving the second in front of the old ledger. */
  lemma CancelFirstOfTwo(orders: seq<Order>, a: seq<LineRequest>, b: seq<LineRequest>, today: int)
    requires forall o | o in orders :: o.id != OrderId(|orders|)
    ensures var l2 := Placed(Placed(orders, a, today), b, today);
      && Cancellable(l2, OrderId(|orders|))
      && WithoutId(l2, OrderId(|orders|)) == [l2[0]] + orders
  {
    var n := |orders|;
    var id := OrderId(n);
    var x, y := NewOrder(b, n + 1, today), NewOrder(a, n, today);
    var l2 := Placed(Placed(orders, a, today), b, today);
    assert l2 == [x] + ([y] + orders);
    assert x.id != id by {
      if x.id == id {
        OrderIdInjective(n + 1, n);
      }
    }
    assert FirstIndex(l2, id) == 1;
    WithoutAbsentId(orders, id);
    WithoutIdCons(y, orders, id);
    WithoutIdCons(x, [y] + orders, id);
  }

  /**
   * Ids are not unique. Place twice, cancel the first placement, place again:
   * the third order gets the id of the second, and both are live at once.
   * Cancelling that id then removes both.
   */
  lemma IdReusedAfterCancel(orders: seq<Order>, a: seq<LineRequest>, b: seq<LineRequest>, c: seq<LineRequest>, today: int)
    requires forall o | o in orders :: o.id != OrderId(|orders|) && o.id != OrderId(|orders| + 1)
    ensures var l2 := Placed(Placed(orders, a, today), b, today);
      var l4 := Placed(WithoutId(l2, OrderId(|orders|)), c, today);
      && Cancellable(l2, OrderId(|orders|))
      && |l4| == |orders| + 2
      && l4[0].id == l4[1].id == OrderId(|orders| + 1)
      && CountId(l4, OrderId(|orders| + 1)) == 2
      && Cancellable(l4, OrderId(|orders| + 1))
      && WithoutId(l4, OrderId(|orders| + 1)) == orders
  {
    var n := |orders|;
    var id := OrderId(n + 1);
    var l2 := Placed(Placed(orders, a, today), b, today);
    CancelFirstOfTwo(orders, a, b, today);
    var x := l2[0];
    assert x == NewOrder(b, n + 1, today);
    var z := NewOrder(c, n + 1, today);
    var l4 := Placed(WithoutId(l2, OrderId(n)), c, today);
    assert l4 == [z] + ([x] + orders);
    assert FirstIndex(l4, id) == 0;
    WithoutAbsentId(orders, id);
    WithoutIdCons(x, orders, id);
    WithoutIdCons(z, [x] + orders, id);
    CountIdAbsent(orders, id);
    assert ([z] + ([x] + orders))[1..] == [x] + orders;
    assert ([x] + orders)[1..] == orders;
  }

  lemma {:induction false} CountIdAbsent(orders: seq<Order>, id: string)
    requires forall o | o in orders :: o.id != id
    ensures CountId(orders, id) == 0
  {
    if orders != [] {
      CountIdAbsent(orders[1..], id);
    }
  }

  /** On the starting ledger of eight orders the next two ids are ORD-2025-001311 and ORD-2025-001312. */
  lemma FixtureNextIds()
    ensures OrderId(8) == "ORD-2025-001311" && OrderId(9) == "ORD-2025-001312"
  {
    NextIdOf1311();
    NextIdOf1312();
  }

  lemma NextIdOf1311()
    ensures OrderId(8) == "ORD-2025-001311"
  {
    FixtureNumerals();
    assert PadStart("1311", 6, '0') == PadStart("01311", 6, '0') == "001311";
  }

  lemma NextIdOf1312()
    ensures OrderId(9) == "ORD-2025-001312"
  {
    FixtureNumerals();
    assert PadStart("1312", 6, '0') == PadStart("01312", 6, '0') == "001312";
  }

  /** The decimal numerals of the next two sequence numbers. */
  lemma FixtureNumerals()
    ensures Decimal(1311) == "1311" && Decimal(1312) == "1312"
  {
    assert Decimal(13) == "13";
    assert Decimal(131) == "131";
  }

  /** Neither of those ids is taken on the starting ledger, so the id-reuse lemma applies to it. */
  lemma FixtureIdsFree()
    ensures forall o | o in InitialOrders() :: o.id != OrderId(8) && o.id != OrderId(9)
  {
    FixtureNextIds();
  }

  /** On the starting ledger the shipped order ORD-2025-001298 cannot be cancelled. */
  lemma FixtureCancelShipped()
    ensures !Cancellable(InitialOrders(), "ORD-2025-001298")
  {
    var l := InitialOrders();
    assert l[0].id != "ORD-2025-001298" by {
      assert l[0].id[13] != "ORD-2025-001298"[13];
    }
    assert FirstIndex(l, "ORD-2025-001298") == 1;
  }

  /** On the starting ledger the processing order ORD-2025-001302 can be cancelled. */
  lemma FixtureCancelProcessing()
    ensures Cancellable(InitialOrders(), "ORD-2025-001302")
  {
    assert FirstIndex(InitialOrders(), "ORD-2025-001302") == 0;
  }
}
