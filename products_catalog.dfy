/**
 * The product catalogue (ProductsCatalog.jsx): the category list, the search
 * and category filter, and the Buy Now flow that ends in `placeOrder` with
 * the chosen quantity.
 */
module ProductsCatalog {
  import opened Wrappers
  import opened Text
  import opened MockApi

  /** The fields of a catalogue product the logic reads. */
  datatype Product = Product(id: int, name: string, category: string, image: string, price: int, originalPrice: int)

  // ---------------------------------------------------------------------
  // Categories and the filter
  // ---------------------------------------------------------------------

  predicate NoDuplicates<T(==)>(s: seq<T>) {
    forall i, j | 0 <= i < j < |s| :: s[i] != s[j]
  }

  /** The index of the first occurrence of `x` in `s`. */
  function FirstAt<T(==)>(s: seq<T>, x: T): (i: nat)
    requires x in s
    ensures i < |s| && s[i] == x
    ensures forall k | 0 <= k < i :: s[k] != x
  {
    if s[0] == x then 0 else 1 + FirstAt(s[1..], x)
  }

  /** Appending to `s` leaves the first occurrence of a value already in `s` where it was. */
  lemma FirstAtExtend<T>(s: seq<T>, y: T, x: T)
    requires x in s
    ensures FirstAt(s + [y], x) == FirstAt(s, x)
  {
    var i := FirstAt(s, x);
    var k := FirstAt(s + [y], x);
    assert (s + [y])[i] == x;
  }

  /** The values of `r`, all found in `s`, come in the order of their first occurrences in `s`. */
  predicate InFirstOccurrenceOrder<T(==)>(r: seq<T>, s: seq<T>)
    requires forall x | x in r :: x in s
  {
    forall i, j | 0 <= i < j < |r| :: FirstAt(s, r[i]) < FirstAt(s, r[j])
  }

  /**
   * `[...new Set(s)]`: each value once, in the order of first occurrence.
   * Defined from the back: a value is appended only if it was not seen before.
   */
  function Distinct(s: seq<string>): (r: seq<string>)
    ensures NoDuplicates(r)
    ensures forall x :: x in r <==> x in s
    ensures InFirstOccurrenceOrder(r, s)
    ensures |r| <= |s|
  {
    if s == [] then []
    else
      var init := s[..|s| - 1];
      var last := s[|s| - 1];
      var p := Distinct(init);
      assert s == init + [last];
      assert forall x :: x in s <==> x in init || x == last;
      DistinctStep(init, last, p);
      if last in init then p else p + [last]
  }

  /** The order of first occurrences survives one more value at the end. */
  lemma DistinctStep(init: seq<string>, last: string, p: seq<string>)
    requires forall x | x in p :: x in init
    requires InFirstOccurrenceOrder(p, init)
    ensures InFirstOccurrenceOrder(p, init + [last])
    ensures last !in init ==> InFirstOccurrenceOrder(p + [last], init + [last])
  {
    var s := init + [last];
    forall x | x in p
      ensures FirstAt(s, x) == FirstAt(init, x) && FirstAt(s, x) < |init|
    {
      FirstAtExtend(init, last, x);
    }
    if last !in init {
      var r := p + [last];
      assert FirstAt(s, last) == |init| by {
        assert s[|init|] == last;
      }
      forall i, j | 0 <= i < j < |r|
        ensures FirstAt(s, r[i]) < FirstAt(s, r[j])
      {
        if j < |p| {
          assert r[i] == p[i] && r[j] == p[j];
        } else {
          assert r[i] == p[i] && r[j] == last;
        }
      }
    }
  }

  /** A list without duplicates is its own set. */
  lemma {:induction false} DistinctOfDistinct(s: seq<string>)
    requires NoDuplicates(s)
    ensures Distinct(s) == s
  {
    if s != [] {
      var init := s[..|s| - 1];
      DistinctOfDistinct(init);
      assert s == init + [s[|s| - 1]];
    }
  }

  function CategoryOf(products: seq<Product>): seq<string> {
    seq(|products|, i requires 0 <= i < |products| => products[i].category)
  }

  /** `categories`: "all" first, then every category once, in the order the products first show it. */
  function Categories(products: seq<Product>): (r: seq<string>)
    ensures |r| >= 1 && r[0] == "all"
    ensures r[1..] == Distinct(CategoryOf(products))
    ensures NoDuplicates(r[1..])
    ensures forall c :: c in r[1..] <==> exists p | p in products :: p.category == c
    ensures InFirstOccurrenceOrder(r[1..], CategoryOf(products))
  {
    var cs := CategoryOf(products);
    assert forall c :: c in cs <==> exists p | p in products :: p.category == c by {
      forall c | c in cs ensures exists p | p in products :: p.category == c {
        var i :| 0 <= i < |cs| && cs[i] == c;
        assert products[i] in products;
      }
      forall c | exists p | p in products :: p.category == c ensures c in cs {
        var p :| p in products && p.category == c;
        var i :| 0 <= i < |products| && products[i] == p;
        assert cs[i] == c;
      }
    }
    var r := ["all"] + Distinct(cs);
    assert r[1..] == Distinct(cs);
    r
  }

  /** The search and category test of one product. */
  predicate Matches(p: Product, query: string, category: string) {
    Contains(ToLower(p.name), ToLower(query)) && (category == "all" || p.category == category)
  }

  /** `filteredProducts`. */
  function FilteredProducts(products: seq<Product>, query: string, category: string): (r: seq<Product>)
    ensures |r| <= |products|
    ensures forall p :: p in r <==> p in products && Matches(p, query, category)
  {
    if products == [] then []
    else
      var rest := FilteredProducts(products[1..], query, category);
      assert forall p :: p in products <==> p == products[0] || p in products[1..];
      (if Matches(products[0], query, category) then [products[0]] else []) + rest
  }

  /** The empty query matches every name. */
  lemma {:induction false} EmptyQueryMatches(s: string)
    ensures Contains(s, "")
  {
    assert [] <= s;
  }

  /** With no query and the "all" category the whole catalogue is shown, in order. */
  lemma {:induction false} UnfilteredCatalogue(products: seq<Product>)
    ensures FilteredProducts(products, "", "all") == products
  {
    if products != [] {
      EmptyQueryMatches(ToLower(products[0].name));
      assert ToLower("") == "";
      UnfilteredCatalogue(products[1..]);
    }
  }

  /** The search ignores ASCII case on both sides. */
  lemma SearchIgnoresCase(p: Product, query: string, category: string)
    ensures Matches(p, ToLower(query), category) <==> Matches(p, query, category)
  {
    ToLowerIdempotent(query);
  }

  /** What a product card shows besides its texts: the discount badge and the struck-out original price. */
  datatype ProductCard = ProductCard(discountBadge: bool, originalShown: bool)

  /** The two price decorations of one card appear together, exactly when the original price is dearer. */
  function CardFor(p: Product): (r: ProductCard)
    ensures r.discountBadge <==> r.originalShown
    ensures r.discountBadge <==> p.price < p.originalPrice
  {
    ProductCard(p.originalPrice > p.price, p.originalPrice > p.price)
  }

  // ---------------------------------------------------------------------
  // The order flow
  // ---------------------------------------------------------------------

  /** The line `{...selectedProduct, quantity}` that is handed to `placeOrder`. */
  function OrderLine(p: Product, quantity: int): LineRequest {
    LineRequest(p.name, p.image, Some(p.price), Some(quantity))
  }

  /** The `selectedProduct`, `orderStep` and `quantity` state of the component. */
  class CatalogFlow {
    var selected: Option<Product>
    var step: nat
    var quantity: int

    /** Quantity never drops below one. */
    ghost predicate Valid()
      reads this
    {
      quantity >= 1
    }

    constructor ()
      ensures Valid() && selected == None && step == 0 && quantity == 1
    {
      selected := None;
      step := 0;
      quantity := 1;
    }

    /** The order modal is rendered. */
    predicate ModalShown()
      reads this
    {
      selected.Some? && step > 0
    }

    /** The modal's close button is rendered (not on the success screen). */
    predicate CloseButtonShown()
      reads this
    {
      ModalShown() && step < 3
    }

    /** `handleBuyNow(product)`. */
    method BuyNow(p: Product)
      modifies this
      ensures Valid() && selected == Some(p) && quantity == 1 && step == 1
    {
      selected := Some(p);
      quantity := 1;
      step := 1;
    }

    /** `handleConfirmOrder()`. */
    method Confirm()
      modifies this
      ensures step == 2 && selected == old(selected) && quantity == old(quantity)
    {
      step := 2;
    }

    /** The "-" button: `Math.max(1, quantity - 1)`. */
    method Decrement()
      requires Valid()
      modifies this
      ensures Valid()
      ensures quantity == if old(quantity) > 1 then old(quantity) - 1 else 1
      ensures selected == old(selected) && step == old(step)
    {
      quantity := if 1 > quantity - 1 then 1 else quantity - 1;
    }

    /** The "+" button. */
    method Increment()
      requires Valid()
      modifies this
      ensures Valid() && quantity == old(quantity) + 1
      ensures selected == old(selected) && step == old(step)
    {
      quantity := quantity + 1;
    }

    /**
     * `handlePlaceOrder()` on day `today`: one ledger line for the selected
     * product with the chosen quantity, so the order's total is the subtotal
     * the modal showed; the flow moves to the success screen. The Place Order
     * button exists only inside the modal, which needs a selected product.
     */
    method PlaceOrder(store: Store, today: int) returns (order: Order)
      requires Valid() && selected.Some?
      requires store.Valid()
      modifies this, store
      ensures Valid() && store.Valid()
      ensures order == NewOrder([OrderLine(old(selected).value, old(quantity))], old(|store.orders|), today)
      ensures order.total == old(selected).value.price * old(quantity)
      ensures store.orders == [order] + old(store.orders) && store.cart == []
      ensures store.preferences == old(store.preferences)
      ensures step == 3 && selected == old(selected) && quantity == old(quantity)
    {
      var line := OrderLine(selected.value, quantity);
      assert Quantity(line) == quantity;
      assert RequestTotal([line]) == LineTotal(line) by {
        assert [line][1..] == [];
      }
      order := store.PlaceOrder([line], today);
      step := 3;
    }

    /** `closeModal()`: no selection, step 0, quantity back to 1. */
    method Close()
      modifies this
      ensures Valid() && selected == None && step == 0 && quantity == 1
    {
      selected := None;
      step := 0;
      quantity := 1;
    }

    /**
     * The timer after a placement: report the order to `onOrderPlaced` when
     * that callback exists, then close the modal.
     */
    method Finish(hasCallback: bool) returns (notified: bool)
      modifies this
      ensures notified == hasCallback
      ensures Valid() && selected == None && step == 0 && quantity == 1
    {
      notified := hasCallback;
      Close();
    }
  }
}
