/**
 * The quick-reorder card (QuickReorder.jsx): the "last ordered" wording and
 * the one-click flow that places a single unit of a frequently bought item.
 * Times are milliseconds since the epoch, passed in instead of read from
 * the clock.
 */
module QuickReorder {
  import opened Wrappers
  import opened Text
  import opened MockApi

  /** A frequently bought item; `lastOrdered` is in milliseconds. */
  datatype ReorderItem = ReorderItem(id: string, name: string, image: string, price: int, lastOrdered: int)

  const DayMs: int := 1000 * 60 * 60 * 24

  /** The buckets of `formatDate`; Absolute stands for the locale date text. */
  datatype RelativeDate = Today | Yesterday | DaysAgo(days: int) | WeeksAgo(weeks: int) | Absolute

  /** `Math.floor((now - date) / 86400000)`; Dafny's division by a positive divisor rounds down as `floor` does. */
  function DiffDays(date: int, now: int): int {
    (now - date) / DayMs
  }

  /** `formatDate(dateStr)` on a clock reading `now`. */
  function FormatDate(date: int, now: int): (r: RelativeDate)
    ensures r == Today <==> DiffDays(date, now) == 0
    ensures r == Yesterday <==> DiffDays(date, now) == 1
    ensures r.DaysAgo? ==> r.days == DiffDays(date, now) < 7
    ensures r.WeeksAgo? ==> 7 <= DiffDays(date, now) < 30 && r.weeks == DiffDays(date, now) / 7
    ensures r == Absolute <==> DiffDays(date, now) >= 30
  {
    var d := DiffDays(date, now);
    if d == 0 then Today
    else if d == 1 then Yesterday
    else if d < 7 then DaysAgo(d)
    else if d < 30 then WeeksAgo(d / 7)
    else Absolute
  }

  /** Each bucket covers whole days of elapsed time: "Today" is the first 24 hours, "n days ago" the n-th day after. */
  lemma BucketsAreWholeDays(date: int, now: int)
    ensures FormatDate(date, now) == Today <==> 0 <= now - date < DayMs
    ensures FormatDate(date, now) == Yesterday <==> DayMs <= now - date < 2 * DayMs
    ensures FormatDate(date, now).DaysAgo? ==>
      var n := FormatDate(date, now).days; n * DayMs <= now - date < (n + 1) * DayMs
  {
  }

  /** "n weeks ago" always says 1, 2, 3 or 4 weeks. */
  lemma WeeksInRange(date: int, now: int)
    ensures FormatDate(date, now).WeeksAgo? ==> 1 <= FormatDate(date, now).weeks <= 4
  {
  }

  /** A date in the future falls into the "days ago" bucket with a negative count. */
  lemma FutureDate(date: int, now: int)
    requires now < date
    ensures FormatDate(date, now).DaysAgo? && FormatDate(date, now).days < 0
  {
  }

  /** An integer as `${n}` writes it. */
  function IntText(n: int): string {
    if n < 0 then "-" + Decimal(-n) else Decimal(n)
  }

  /** The text of a bucket; the absolute date is locale output and is not modelled. */
  function BucketText(r: RelativeDate): Option<string> {
    match r
    case Today => Some("Today")
    case Yesterday => Some("Yesterday")
    case DaysAgo(n) => Some(IntText(n) + " days ago")
    case WeeksAgo(w) => Some(IntText(w) + " weeks ago")
    case Absolute => None
  }

  /** The line `{...selectedItem, quantity: 1}` handed to `placeOrder`. */
  function ReorderLine(item: ReorderItem): LineRequest {
    LineRequest(item.name, item.image, Some(item.price), Some(1))
  }

  /** The `selectedItem` and `orderStep` state of the card. */
  class ReorderFlow {
    var selected: Option<ReorderItem>
    var step: nat

    constructor ()
      ensures selected == None && step == 0
    {
      selected := None;
      step := 0;
    }

    /** The order modal is rendered. */
    predicate ModalShown()
      reads this
    {
      selected.Some? && step > 0
    }

    /** The close button is rendered (not on the success screen). */
    predicate CloseButtonShown()
      reads this
    {
      ModalShown() && step < 3
    }

    /** `handleOrderClick(item)`. */
    method OrderClick(item: ReorderItem)
      modifies this
      ensures selected == Some(item) && step == 1 && ModalShown() && CloseButtonShown()
    {
      selected := Some(item);
      step := 1;
    }

    /** `handleConfirmOrder()`. */
    method Confirm()
      modifies this
      ensures step == 2 && selected == old(selected)
    {
      step := 2;
    }

    /**
     * `handlePlaceOrder()` on day `today`: exactly one unit of the selected
     * item, so the order costs the item's price. The button lives inside the
     * modal, which needs a selected item.
     */
    method PlaceOrder(store: Store, today: int) returns (order: Order)
      requires selected.Some?
      requires store.Valid()
      modifies this, store
      ensures store.Valid()
      ensures order == NewOrder([ReorderLine(old(selected).value)], old(|store.orders|), today)
      ensures order.total == old(selected).value.price && |order.items| == 1 && order.items[0].quantity == 1
      ensures store.orders == [order] + old(store.orders) && store.cart == []
      ensures store.preferences == old(store.preferences)
      ensures step == 3 && selected == old(selected) && ModalShown() && !CloseButtonShown()
    {
      var line := ReorderLine(selected.value);
      assert RequestTotal([line]) == LineTotal(line) by {
        assert [line][1..] == [];
      }
      order := store.PlaceOrder([line], today);
      step := 3;
    }

    /** The timer after a placement: notify `onOrderPlaced` if given, then clear the selection and the step. */
    method Finish(hasCallback: bool) returns (notified: bool)
      modifies this
      ensures notified == hasCallback && selected == None && step == 0 && !ModalShown()
    {
      notified := hasCallback;
      selected := None;
      step := 0;
    }

    /** `closeModal()`. */
    method Close()
      modifies this
      ensures selected == None && step == 0 && !ModalShown()
    {
      selected := None;
      step := 0;
    }
  }
}
