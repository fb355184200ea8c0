/**
 * The profile header (ProfileHeader.jsx): the avatar initials, the tier
 * colour, the rewards shown for a tier, and the inline name editor that
 * saves through `updateProfile`.
 */
module ProfileHeader {
  import opened Wrappers
  import opened Text
  import opened AuthContext

  // ---------------------------------------------------------------------
  // Initials
  // ---------------------------------------------------------------------

  /** `s.split(' ')`: the pieces between single spaces, empty ones included; never an empty list. */
  function SplitOnSpace(s: string): (r: seq<string>)
    ensures |r| >= 1
  {
    if s == [] then [""]
    else if s[0] == ' ' then [""] + SplitOnSpace(s[1..])
    else
      var rest := SplitOnSpace(s[1..]);
      [[s[0]] + rest[0]] + rest[1..]
  }

  /** `.map(n => n[0]).join('')`: the first character of each piece; an empty piece gives `undefined`, which joins as nothing. */
  function Heads(pieces: seq<string>): string {
    if pieces == [] then []
    else (if pieces[0] == [] then [] else [pieces[0][0]]) + Heads(pieces[1..])
  }

  /**
   * The characters that start a word: not a space, and at the front of the
   * string (when `atStart`) or right after a space.
   */
  function WordStarts(s: string, atStart: bool): string {
    if s == [] then []
    else (if s[0] != ' ' && atStart then [s[0]] else []) + WordStarts(s[1..], s[0] == ' ')
  }

  /** Splitting on spaces and taking each piece's head picks exactly the characters that start a word. */
  lemma {:induction false} HeadsAreWordStarts(s: string)
    ensures Heads(SplitOnSpace(s)) == WordStarts(s, true)
    ensures Heads(SplitOnSpace(s)[1..]) == WordStarts(s, false)
  {
    if s != [] {
      HeadsAreWordStarts(s[1..]);
      var rest := SplitOnSpace(s[1..]);
      if s[0] == ' ' {
        assert SplitOnSpace(s) == [""] + rest;
        assert (([""] + rest)[1..]) == rest;
      } else {
        var first := [s[0]] + rest[0];
        assert SplitOnSpace(s) == [first] + rest[1..];
        assert ([first] + rest[1..])[1..] == rest[1..];
      }
    }
  }

  /** `getInitials(name)`: "U" without a name, otherwise the upper-cased word starts, at most two. */
  function Initials(name: Option<string>): (r: string)
    ensures name.None? || name == Some("") ==> r == "U"
    ensures name.Some? && name.value != "" ==>
      r == (var w := ToUpper(WordStarts(name.value, true)); if |w| <= 2 then w else w[..2])
    ensures |r| <= 2
  {
    if name.None? || name.value == "" then "U"
    else
      var joined := ToUpper(Heads(SplitOnSpace(name.value)));
      HeadsAreWordStarts(name.value);
      if |joined| <= 2 then joined else joined[..2]
  }

  /** Spaces start no word. */
  lemma {:induction false} NoWordsInSpaces(s: string, atStart: bool)
    requires forall i | 0 <= i < |s| :: s[i] == ' '
    ensures WordStarts(s, atStart) == []
  {
    if s != [] {
      NoWordsInSpaces(s[1..], true);
    }
  }

  /** A name made only of spaces has no initials at all (not even "U"). */
  lemma AllSpaceName(s: string)
    requires s != [] && forall i | 0 <= i < |s| :: s[i] == ' '
    ensures Initials(Some(s)) == ""
  {
    NoWordsInSpaces(s, true);
  }

  /** The demonstration user is shown as "SJ". */
  lemma DemoInitials()
    ensures Initials(Some("Sarah Johnson")) == "SJ"
  {
    DemoWordStarts();
    assert ToUpper("SJ") == "SJ";
  }

  /** "S" and "J" are the only word starts of the demonstration name. */
  lemma DemoWordStarts()
    ensures WordStarts("Sarah Johnson", true) == "SJ"
  {
    assert "Sarah Johnson" == "Sarah" + " " + "Johnson";
    FirstWord("Sarah", "Johnson");
    JohnsonStarts();
  }

  /** A word followed by a space contributes its first character, and the next word starts after the space. */
  lemma FirstWord(w: string, rest: string)
    requires w != [] && forall i | 0 <= i < |w| :: w[i] != ' '
    ensures WordStarts(w + " " + rest, true) == [w[0]] + WordStarts(rest, true)
  {
    assert (w + " " + rest)[1..] == w[1..] + " " + rest;
    RestOfWord(w[1..], rest);
  }

  /** Inside a word no start is found until the space after it. */
  lemma {:induction false} RestOfWord(w: string, rest: string)
    requires forall i | 0 <= i < |w| :: w[i] != ' '
    ensures WordStarts(w + " " + rest, false) == WordStarts(rest, true)
  {
    if w == [] {
      assert (w + " " + rest)[1..] == rest;
    } else {
      assert (w + " " + rest)[1..] == w[1..] + " " + rest;
      RestOfWord(w[1..], rest);
    }
  }

  /** A single word has one start. */
  lemma JohnsonStarts()
    ensures WordStarts("Johnson", true) == "J"
  {
    var s := "Johnson";
    NoSpaceNoStart(s[1..]);
  }

  /** Inside a word nothing starts another word until a space comes. */
  lemma {:induction false} NoSpaceNoStart(s: string)
    requires forall i | 0 <= i < |s| :: s[i] != ' '
    ensures WordStarts(s, false) == []
  {
    if s != [] {
      NoSpaceNoStart(s[1..]);
    }
  }

  // ---------------------------------------------------------------------
  // Tier colour and rewards
  // ---------------------------------------------------------------------

  /** `getTierColor(tier)`: compared lower-cased; a missing or unknown tier is grey. */
  function TierColor(tier: Option<string>): (r: string)
    ensures tier.None? ==> r == "#94a3b8"
    ensures tier.Some? && ToLower(tier.value) == "gold" ==> r == "#f59e0b"
    ensures tier.Some? && ToLower(tier.value) == "platinum" ==> r == "#a855f7"
    ensures tier.Some? && ToLower(tier.value) == "diamond" ==> r == "#06b6d4"
    ensures r == "#94a3b8" <==> tier.None? || ToLower(tier.value) !in {"gold", "platinum", "diamond"}
  {
    if tier.None? then "#94a3b8"
    else
      var t := ToLower(tier.value);
      if t == "gold" then "#f59e0b"
      else if t == "platinum" then "#a855f7"
      else if t == "diamond" then "#06b6d4"
      else "#94a3b8"
  }

  /** The colour does not depend on the tier's capitalisation. */
  lemma TierColorIgnoresCase(t: string)
    ensures TierColor(Some(ToUpper(t))) == TierColor(Some(t))
    ensures TierColor(Some(ToLower(t))) == TierColor(Some(t))
  {
    LowerOfUpper(t);
    ToLowerIdempotent(t);
  }

  /** The two entries of `rewardsData`: points multiplier, free returns, and the number of benefits listed. */
  datatype Rewards = Rewards(pointsMultiplier: string, freeReturns: bool, benefitCount: nat)

  const GoldRewards: Rewards := Rewards("1.5x", true, 4)
  const BronzeRewards: Rewards := Rewards("1x", false, 3)

  /** `user?.loyaltyTier || 'Gold'`. */
  function CurrentTier(tier: Option<string>): (r: string)
    ensures r != ""
    ensures tier.Some? && tier.value != "" ==> r == tier.value
  {
    if tier.None? || tier.value == "" then "Gold" else tier.value
  }

  /** `rewardsData[currentTier] || rewardsData.Gold`: a plain key lookup, so case matters here. */
  function RewardsFor(tier: Option<string>): (r: Rewards)
    ensures r == BronzeRewards <==> tier == Some("Bronze")
    ensures r == GoldRewards <==> tier != Some("Bronze")
  {
    var t := CurrentTier(tier);
    if t == "Bronze" then BronzeRewards else GoldRewards
  }

  /** "bronze" gets the Gold rewards yet the colour of neither tier, while "BRONZE" and "Bronze" differ in rewards. */
  lemma TierLookupsDisagree()
    ensures RewardsFor(Some("bronze")) == GoldRewards && RewardsFor(Some("Bronze")) == BronzeRewards
    ensures TierColor(Some("bronze")) == "#94a3b8"
    ensures TierColor(Some("GOLD")) == TierColor(Some("Gold")) == "#f59e0b"
  {
    assert ToLower("bronze") == "bronze";
    assert ToLower("GOLD") == "gold";
    assert ToLower("Gold") == "gold";
  }

  /** "{nextTierPoints - loyaltyPoints} points to go": negative once the next tier is passed. */
  function PointsToGo(loyaltyPoints: int, nextTierPoints: int): (r: int)
    ensures r > 0 <==> loyaltyPoints < nextTierPoints
    ensures loyaltyPoints + r == nextTierPoints
  {
    nextTierPoints - loyaltyPoints
  }

  // ---------------------------------------------------------------------
  // The name editor
  // ---------------------------------------------------------------------

  /** `user?.name`. */
  function NameOf(user: Option<UserRecord>): (name: Option<string>)
    ensures name.Some? <==> user.Some?
    ensures name.Some? ==> name.value == user.value.name
  {
    if user.Some? then Some(user.value.name) else None
  }

  /** `handleSaveName` saves when the trimmed edit is non-empty and the raw edit differs from the current name. */
  predicate ShouldSave(edited: string, user: Option<UserRecord>): (save: bool)
    ensures save <==> !AllSpace(edited, 0, |edited|) && NameOf(user) != Some(edited)
  {
    TrimBlank(edited);
    Trim(edited) != "" && NameOf(user) != Some(edited)
  }

  /** The `isEditingName` and `editedName` state of the header. */
  class NameEditor {
    var editing: bool
    var edited: string

    /** The header mounts with the current name, or "" (`user?.name || ''`). */
    constructor (user: Option<UserRecord>)
      ensures !editing && edited == NameOf(user).GetOr("")
    {
      editing := false;
      edited := if user.Some? then user.value.name else "";
    }

    /** `handleStartEditName()`. */
    method StartEdit()
      modifies this
      ensures editing && edited == old(edited)
    {
      editing := true;
    }

    /** Typing into the field. */
    method Type(text: string)
      modifies this
      ensures edited == text && editing == old(editing)
    {
      edited := text;
    }

    /**
     * `handleSaveName()`: store the trimmed edit as the name when it is
     * non-empty and differs from the current name; leave edit mode either
     * way. The header is shown only to a signed-in user.
     */
    method Save(auth: AuthStore)
      requires auth.user.Some?
      modifies this, auth
      ensures !editing && edited == old(edited)
      ensures ShouldSave(old(edited), old(auth.user)) ==>
        auth.user == Some(old(auth.user).value.(name := Trim(old(edited)))) && !auth.loading
      ensures !ShouldSave(old(edited), old(auth.user)) ==>
        auth.user == old(auth.user) && auth.loading == old(auth.loading)
      ensures auth.users == old(auth.users) && auth.error == old(auth.error)
    {
      if Trim(edited) != "" && NameOf(auth.user) != Some(edited) {
        var _ := auth.UpdateProfile(ProfileUpdate(Some(Trim(edited)), None, None, None, None));
      }
      editing := false;
    }

    /** `handleCancelEditName()`: back to the current name, or "". */
    method Cancel(user: Option<UserRecord>)
      modifies this
      ensures !editing && edited == NameOf(user).GetOr("")
    {
      edited := if user.Some? then user.value.name else "";
      editing := false;
    }

    /** `handleNameKeyDown(e)`: Enter saves, Escape cancels, any other key does nothing. */
    method KeyDown(key: string, auth: AuthStore)
      requires auth.user.Some?
      modifies this, auth
      ensures key == "Enter" ==> (
        && !editing && edited == old(edited)
        && (ShouldSave(old(edited), old(auth.user)) ==>
              auth.user == Some(old(auth.user).value.(name := Trim(old(edited)))) && !auth.loading)
        && (!ShouldSave(old(edited), old(auth.user)) ==>
              auth.user == old(auth.user) && auth.loading == old(auth.loading)))
      ensures key == "Escape" ==>
        && !editing && edited == NameOf(old(auth.user)).GetOr("")
        && auth.user == old(auth.user) && auth.loading == old(auth.loading)
      ensures key != "Enter" && key != "Escape" ==>
        && editing == old(editing) && edited == old(edited)
        && auth.user == old(auth.user) && auth.loading == old(auth.loading)
      ensures auth.users == old(auth.users) && auth.error == old(auth.error)
    {
      if key == "Enter" {
        Save(auth);
      } else if key == "Escape" {
        Cancel(auth.user);
      }
    }

    /** The effect that copies a changed, non-empty `user.name` into the field. */
    method SyncName(user: Option<UserRecord>)
      modifies this
      ensures edited == if user.Some? && user.value.name != "" then user.value.name else old(edited)
      ensures editing == old(editing)
    {
      if user.Some? && user.value.name != "" {
        edited := user.value.name;
      }
    }
  }
}
