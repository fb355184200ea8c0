/**
 * The preference handlers of the settings page
 * (src/components/profile/Preferences.jsx). Each one is a `prev => next`
 * update of the preferences record; the stats report reads the live ledger.
 */
module Preferences {
  import opened MockApi

  /** `m[key]` read as a condition: a missing key is `undefined`, which is falsy. */
  function IsOn(m: map<string, bool>, key: string): bool {
    key in m && m[key]
  }

  /** `{...m, [key]: !m[key]}`. */
  function Flip(m: map<string, bool>, key: string): (r: map<string, bool>)
    ensures r.Keys == m.Keys + {key}
    ensures IsOn(r, key) == !IsOn(m, key)
    ensures forall k | k in m && k != key :: r[k] == m[k]
  {
    m[key := !IsOn(m, key)]
  }

  /** `handleNotificationChange(key)`: flips one notification switch and touches nothing else. */
  function ToggleNotification(p: Prefs, key: string): (r: Prefs)
    ensures IsOn(r.notifications, key) == !IsOn(p.notifications, key)
    ensures forall k | k in p.notifications && k != key :: k in r.notifications && r.notifications[k] == p.notifications[k]
    ensures r.notifications.Keys == p.notifications.Keys + {key}
    ensures r.sizes == p.sizes && r.favoriteColors == p.favoriteColors && r.favoriteBrands == p.favoriteBrands
    ensures r.privacy == p.privacy
  {
    p.(notifications := Flip(p.notifications, key))
  }

  /** `handlePrivacyChange(key)`: flips one privacy switch and touches nothing else. */
  function TogglePrivacy(p: Prefs, key: string): (r: Prefs)
    ensures IsOn(r.privacy, key) == !IsOn(p.privacy, key)
    ensures forall k | k in p.privacy && k != key :: k in r.privacy && r.privacy[k] == p.privacy[k]
    ensures r.privacy.Keys == p.privacy.Keys + {key}
    ensures r.sizes == p.sizes && r.favoriteColors == p.favoriteColors && r.favoriteBrands == p.favoriteBrands
    ensures r.notifications == p.notifications
  {
    p.(privacy := Flip(p.privacy, key))
  }

  /** Flipping a switch that is present twice gives back the same map. */
  lemma FlipTwice(m: map<string, bool>, key: string)
    requires key in m
    ensures Flip(Flip(m, key), key) == m
  {
    var r := Flip(Flip(m, key), key);
    assert r.Keys == m.Keys;
    assert forall k | k in m :: r[k] == m[k];
  }

  /** Toggling the same switch twice restores the preferences, when the switch was there to begin with. */
  lemma ToggleTwice(p: Prefs, key: string)
    ensures key in p.notifications ==> ToggleNotification(ToggleNotification(p, key), key) == p
    ensures key in p.privacy ==> TogglePrivacy(TogglePrivacy(p, key), key) == p
  {
    if key in p.notifications {
      FlipTwice(p.notifications, key);
    }
    if key in p.privacy {
      FlipTwice(p.privacy, key);
    }
  }

  /** A switch that was missing reads as off; toggled twice it is off again but now present, so the record differs. */
  lemma ToggleTwiceMissing(p: Prefs, key: string)
    requires key !in p.notifications
    ensures var r := ToggleNotification(ToggleNotification(p, key), key);
      key in r.notifications && !r.notifications[key] && r != p
  {
  }

  /** `handleSizeChange(category, value)`: one size set, every other category and section kept. */
  function SetSize(p: Prefs, category: string, value: string): (r: Prefs)
    ensures category in r.sizes && r.sizes[category] == value
    ensures r.sizes.Keys == p.sizes.Keys + {category}
    ensures forall c | c in p.sizes && c != category :: r.sizes[c] == p.sizes[c]
    ensures r.favoriteColors == p.favoriteColors && r.favoriteBrands == p.favoriteBrands
    ensures r.notifications == p.notifications && r.privacy == p.privacy
  {
    p.(sizes := p.sizes[category := value])
  }

  /** `s.filter(x => x !== v)`. */
  function Without<T(==)>(s: seq<T>, v: T): (r: seq<T>)
    ensures v !in r
    ensures forall x | x in r :: x in s
    ensures forall x | x in s && x != v :: x in r
    ensures |r| <= |s|
  {
    if s == [] then []
    else if s[0] == v then Without(s[1..], v)
    else [s[0]] + Without(s[1..], v)
  }

  /** The filter keeps the surviving values in their order: it works piece by piece. */
  lemma {:induction false} WithoutAppend<T>(a: seq<T>, b: seq<T>, v: T)
    ensures Without(a + b, v) == Without(a, v) + Without(b, v)
  {
    if a == [] {
      assert a + b == b;
    } else {
      assert (a + b)[1..] == a[1..] + b;
      WithoutAppend(a[1..], b, v);
    }
  }

  /** Every occurrence of the value goes, every other value keeps its count. */
  lemma {:induction false} WithoutCounts<T>(s: seq<T>, v: T)
    ensures multiset(Without(s, v)) == multiset(s)[v := 0]
  {
    if s != [] {
      WithoutCounts(s[1..], v);
      assert s == [s[0]] + s[1..];
    }
  }

  /** Removing a value that is not there changes nothing. */
  lemma {:induction false} WithoutAbsent<T>(s: seq<T>, v: T)
    ensures v !in s ==> Without(s, v) == s
  {
    if s != [] && v !in s {
      WithoutAbsent(s[1..], v);
    }
  }

  /** `removeColor(color)`: every copy of the colour goes, the other colours keep their order and counts, and nothing changes when it was not there. */
  function RemoveColor(p: Prefs, color: string): (r: Prefs)
    ensures color !in r.favoriteColors
    ensures r.favoriteColors == Without(p.favoriteColors, color)
    ensures multiset(r.favoriteColors) == multiset(p.favoriteColors)[color := 0]
    ensures color !in p.favoriteColors ==> r == p
    ensures r.sizes == p.sizes && r.favoriteBrands == p.favoriteBrands
    ensures r.notifications == p.notifications && r.privacy == p.privacy
  {
    WithoutCounts(p.favoriteColors, color);
    WithoutAbsent(p.favoriteColors, color);
    p.(favoriteColors := Without(p.favoriteColors, color))
  }

  /** `removeBrand(brand)`: every copy of the brand goes, the other brands keep their order and counts, and nothing changes when it was not there. */
  function RemoveBrand(p: Prefs, brand: string): (r: Prefs)
    ensures brand !in r.favoriteBrands
    ensures r.favoriteBrands == Without(p.favoriteBrands, brand)
    ensures multiset(r.favoriteBrands) == multiset(p.favoriteBrands)[brand := 0]
    ensures brand !in p.favoriteBrands ==> r == p
    ensures r.sizes == p.sizes && r.favoriteColors == p.favoriteColors
    ensures r.notifications == p.notifications && r.privacy == p.privacy
  {
    WithoutCounts(p.favoriteBrands, brand);
    WithoutAbsent(p.favoriteBrands, brand);
    p.(favoriteBrands := Without(p.favoriteBrands, brand))
  }

  /** `mockOrders.slice(0, 5)`: the orders of the stats report. */
  function RecentOrders(orders: seq<Order>): (r: seq<Order>)
    ensures |r| == if |orders| < 5 then |orders| else 5
    ensures r <= orders
  {
    if |orders| < 5 then orders else orders[..5]
  }

  /** The report reads the live ledger: right after a placement its first row is the new order. */
  lemma RecentAfterPlace(orders: seq<Order>, rs: seq<LineRequest>, today: int)
    ensures RecentOrders(Placed(orders, rs, today))[0] == NewOrder(rs, |orders|, today)
  {
  }
}
