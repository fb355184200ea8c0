/**
 * The personalised deals card (PersonalizedDeals.jsx): the fixed deal table,
 * the savings headline, and the order flow, which only marks a deal as
 * ordered and reports it to an optional callback. It has no access to the
 * ledger: no method here takes the Store.
 */
module PersonalizedDeals {
  import opened Wrappers
  import opened Text
  import opened MockApi

  /** The fields of a deal the logic reads. */
  datatype Deal = Deal(id: int, name: string, originalPrice: int, discountedPrice: int, isHot: bool)

  /** `getPersonalizedDeals()`. */
  function Deals(): seq<Deal> {
    [ Deal(1, "Sony WH-1000XM5 Headphones", 29990, 19990, true),
      Deal(2, "Nike Air Max 270", 12999, 6499, true),
      Deal(3, "The Ordinary Skincare Set", 3500, 1750, false),
      Deal(4, "Apple AirPods Pro", 24900, 17990, false),
      Deal(5, "Levi's 501 Original Jeans", 4999, 2499, true),
      Deal(6, "Fitbit Charge 5", 14999, 9999, false) ]
  }

  /** What one deal saves. */
  function Saving(d: Deal): int {
    d.originalPrice - d.discountedPrice
  }

  /** `deals.reduce((sum, deal) => sum + (deal.originalPrice - deal.discountedPrice), 0)`, folded from the left. */
  function TotalSavings(deals: seq<Deal>): (t: int)
    ensures deals == [] ==> t == 0
    ensures (forall i | 0 <= i < |deals| :: Saving(deals[i]) >= 0) ==> t >= 0
  {
    if deals == [] then 0 else TotalSavings(deals[..|deals| - 1]) + Saving(deals[|deals| - 1])
  }

  /** The fold adds up the parts of a split list separately. */
  lemma {:induction false} TotalSavingsAppend(a: seq<Deal>, b: seq<Deal>)
    ensures TotalSavings(a + b) == TotalSavings(a) + TotalSavings(b)
  {
    if b == [] {
      assert a + b == a;
    } else {
      assert (a + b)[..|a + b| - 1] == a + b[..|b| - 1];
      TotalSavingsAppend(a, b[..|b| - 1]);
    }
  }

  /** When every deal is really discounted, the headline is positive unless there are no deals. */
  lemma {:induction false} SavingsPositive(deals: seq<Deal>)
    requires forall d | d in deals :: d.discountedPrice < d.originalPrice
    ensures deals != [] ==> TotalSavings(deals) > 0
    ensures TotalSavings(deals) >= 0
  {
    if deals != [] {
      var init := deals[..|deals| - 1];
      assert forall d | d in init :: d in deals;
      SavingsPositive(init);
      assert deals[|deals| - 1] in deals;
    }
  }

  /** The fixed table saves 32660 in total. */
  lemma FixtureSavings()
    ensures TotalSavings(Deals()) == 32660
  {
    var ds := Deals();
    assert ds[..1][..0] == [];
    assert TotalSavings(ds[..1]) == 10000;
    assert ds[..2][..1] == ds[..1];
    assert TotalSavings(ds[..2]) == 16500;
    assert ds[..3][..2] == ds[..2];
    assert TotalSavings(ds[..3]) == 18250;
    assert ds[..4][..3] == ds[..3];
    assert TotalSavings(ds[..4]) == 25160;
    assert ds[..5][..4] == ds[..4];
    assert TotalSavings(ds[..5]) == 27660;
    assert ds[..5] == ds[..|ds| - 1];
  }

  /** The steps of the deal modal. */
  datatype Step = Details | Processing | Confirmed

  /** The order `onOrderPlaced` receives: the deal as its only item, charged at the deal price. */
  datatype DealReport = DealReport(id: string, items: seq<Deal>, total: int, status: string)

  /** The `selectedDeal`, `orderStep` and `orderedItems` state of the card. */
  class DealsFlow {
    var selected: Option<Deal>
    var step: Step
    var ordered: set<int>

    constructor ()
      ensures selected == None && step == Details && ordered == {}
    {
      selected := None;
      step := Details;
      ordered := {};
    }

    /** The Order Now button of a deal is disabled exactly when that deal was ordered. */
    predicate OrderDisabled(d: Deal)
      reads this
    {
      d.id in ordered
    }

    /** `handleOrderNow(deal)`. */
    method OrderNow(d: Deal)
      modifies this
      ensures selected == Some(d) && step == Details && ordered == old(ordered)
    {
      selected := Some(d);
      step := Details;
    }

    /**
     * `handleConfirmOrder()` at clock reading `now`: the step passes through
     * processing to confirmed, the deal is added to the ordered set, and the
     * report is produced only when `onOrderPlaced` was given. The confirm
     * button is inside the modal, which needs a selected deal.
     */
    method Confirm(hasCallback: bool, now: nat) returns (report: Option<DealReport>)
      requires selected.Some?
      modifies this
      ensures step == Confirmed && selected == old(selected)
      ensures ordered == old(ordered) + {old(selected).value.id}
      ensures OrderDisabled(old(selected).value)
      ensures report.Some? <==> hasCallback
      ensures report.Some? ==>
        report.value == DealReport("FP" + Decimal(now), [old(selected).value], old(selected).value.discountedPrice, MockApi.Processing)
    {
      step := Processing;
      step := Confirmed;
      ordered := ordered + {selected.value.id};
      if hasCallback {
        report := Some(DealReport("FP" + Decimal(now), [selected.value], selected.value.discountedPrice, MockApi.Processing));
      } else {
        report := None;
      }
    }

    /** `handleCloseModal()`. */
    method Close()
      modifies this
      ensures selected == None && step == Details && ordered == old(ordered)
    {
      selected := None;
      step := Details;
    }
  }

  /**
   * The profile page passes its handler as `onAddToCart`, a prop the card
   * never reads, so there the callback is absent: confirming a deal reports
   * nothing and the deal never becomes an order.
   */
  method ConfirmOnProfilePage(flow: DealsFlow, now: nat) returns (report: Option<DealReport>)
    requires flow.selected.Some?
    modifies flow
    ensures report == None
    ensures flow.step == Confirmed && flow.selected == old(flow.selected)
    ensures flow.ordered == old(flow.ordered) + {old(flow.selected).value.id}
  {
    report := flow.Confirm(false, now);
  }
}
