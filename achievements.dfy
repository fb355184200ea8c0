/**
 * The achievements card (Achievements.jsx): the unlocked/total counter, the
 * compact selection of unlocked achievements, and what each card shows.
 */
module Achievements {
  import opened Wrappers

  /** The fields of an achievement the card reads; `progress` may be absent. */
  datatype Achievement = Achievement(id: string, name: string, unlocked: bool, progress: Option<int>)

  /** The icons of `getAchievementIcon`; Award is the default. */
  datatype Icon = PartyPopper | Star | Gem | Coins | Sunrise | Leaf | Flame | Heart | Award

  const KnownIds: set<string> := {
    "first_purchase", "review_master", "loyal_customer", "big_spender",
    "early_bird", "eco_warrior", "streak_master", "wishlist_pro" }

  /** `getAchievementIcon(id)`: one icon per known id, Award for any other. */
  function AchievementIcon(id: string): (r: Icon)
    ensures r == Award <==> id !in KnownIds
  {
    match id
    case "first_purchase" => PartyPopper
    case "review_master" => Star
    case "loyal_customer" => Gem
    case "big_spender" => Coins
    case "early_bird" => Sunrise
    case "eco_warrior" => Leaf
    case "streak_master" => Flame
    case "wishlist_pro" => Heart
    case _ => Award
  }

  /** The id each specific icon stands for; the default icon stands for none. */
  function IconOwner(icon: Icon): Option<string> {
    match icon
    case PartyPopper => Some("first_purchase")
    case Star => Some("review_master")
    case Gem => Some("loyal_customer")
    case Coins => Some("big_spender")
    case Sunrise => Some("early_bird")
    case Leaf => Some("eco_warrior")
    case Flame => Some("streak_master")
    case Heart => Some("wishlist_pro")
    case Award => None
  }

  /** Every known id has an icon of its own: the icon leads back to the id. */
  lemma IconsIdentifyIds(id: string)
    ensures id in KnownIds <==> IconOwner(AchievementIcon(id)) == Some(id)
    ensures id !in KnownIds ==> IconOwner(AchievementIcon(id)) == None
  {
  }

  /** `achievements.filter(a => a.unlocked)`. */
  function UnlockedOnly(achievements: seq<Achievement>): (r: seq<Achievement>)
    ensures |r| <= |achievements|
    ensures forall a :: a in r <==> a in achievements && a.unlocked
  {
    if achievements == [] then []
    else
      assert forall a :: a in achievements <==> a == achievements[0] || a in achievements[1..];
      (if achievements[0].unlocked then [achievements[0]] else []) + UnlockedOnly(achievements[1..])
  }

  /** The filter keeps the original order: it works piece by piece. */
  lemma {:induction false} UnlockedOnlyAppend(a: seq<Achievement>, b: seq<Achievement>)
    ensures UnlockedOnly(a + b) == UnlockedOnly(a) + UnlockedOnly(b)
  {
    if a == [] {
      assert a + b == b;
    } else {
      assert (a + b)[1..] == a[1..] + b;
      UnlockedOnlyAppend(a[1..], b);
    }
  }

  /** A list of unlocked achievements passes the filter unchanged. */
  lemma {:induction false} AllUnlockedKept(achievements: seq<Achievement>)
    requires forall i | 0 <= i < |achievements| :: achievements[i].unlocked
    ensures UnlockedOnly(achievements) == achievements
  {
    if achievements != [] {
      AllUnlockedKept(achievements[1..]);
    }
  }

  /** `unlockedCount`. */
  function UnlockedCount(achievements: seq<Achievement>): nat {
    |UnlockedOnly(achievements)|
  }

  /** The header never shows more unlocked than total, and shows them equal exactly when everything is unlocked. */
  lemma {:induction false} CountBound(achievements: seq<Achievement>)
    ensures UnlockedCount(achievements) <= |achievements|
    ensures UnlockedCount(achievements) == |achievements| <==> forall i | 0 <= i < |achievements| :: achievements[i].unlocked
  {
    if achievements != [] {
      var t := achievements[1..];
      CountBound(t);
      if !achievements[0].unlocked {
        assert UnlockedCount(achievements) == UnlockedCount(t);
      } else {
        assert forall i | 1 <= i < |achievements| :: achievements[i] == t[i - 1];
      }
    }
  }

  /** `displayedAchievements`: in compact mode the first four unlocked ones, otherwise all. */
  function Displayed(achievements: seq<Achievement>, compact: bool): (r: seq<Achievement>)
    ensures !compact ==> r == achievements
    ensures compact ==> r <= UnlockedOnly(achievements)
    ensures compact ==> |r| == if UnlockedCount(achievements) < 4 then UnlockedCount(achievements) else 4
    ensures compact ==> forall i | 0 <= i < |r| :: r[i].unlocked
  {
    if !compact then achievements
    else
      var u := UnlockedOnly(achievements);
      var r := if |u| <= 4 then u else u[..4];
      assert forall i | 0 <= i < |r| :: r[i] in u;
      r
  }

  /**
   * The compact selection is stable: selecting again from what it shows
   * changes nothing, so a card given the already-selected list counts all
   * of it as unlocked (for example 4/4).
   */
  lemma CompactIdempotent(achievements: seq<Achievement>)
    ensures Displayed(Displayed(achievements, true), true) == Displayed(achievements, true)
    ensures UnlockedCount(Displayed(achievements, true)) == |Displayed(achievements, true)|
  {
    AllUnlockedKept(Displayed(achievements, true));
  }

  /** What one card shows: its icon, the lock overlay (otherwise the glow and the check), and the progress label of a locked one. */
  datatype Card = Card(icon: Icon, locked: bool, progressShown: Option<int>)

  /** One entry of the grid. */
  function CardFor(a: Achievement): (r: Card)
    ensures r.locked <==> !a.unlocked
    ensures r.progressShown.Some? <==> r.locked
    ensures r.progressShown.Some? && a.progress.None? ==> r.progressShown.value == 0
    ensures r.progressShown.Some? && a.progress.Some? ==> r.progressShown.value == a.progress.value
    ensures r.icon == Award <==> a.id !in KnownIds
  {
    Card(AchievementIcon(a.id), !a.unlocked, if a.unlocked then None else Some(a.progress.GetOr(0)))
  }

  /** In compact mode no card carries a lock. */
  lemma CompactCardsUnlocked(achievements: seq<Achievement>, i: int)
    requires 0 <= i < |Displayed(achievements, true)|
    ensures !CardFor(Displayed(achievements, true)[i]).locked
  {
  }
}
