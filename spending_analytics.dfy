/**
 * The savings milestones of the spending analytics card
 * (SpendingAnalytics.jsx): the fixed milestone table, the milestone already
 * reached, the next one, and how far along the way to it the savings are.
 * Amounts are whole currency units; the savings figure itself comes from
 * floating-point multipliers and is a parameter here.
 */
module SpendingAnalytics {
  import opened Wrappers

  /** One entry of `savingsMilestones`. */
  datatype Milestone = Milestone(amount: int, name: string, emoji: string)

  /** `savingsMilestones`. */
  function Milestones(): seq<Milestone> {
    [ Milestone(10000, "Starter", "\U{1F331}"),
      Milestone(25000, "Saver", "\U{1F4B0}"),
      Milestone(50000, "Smart Shopper", "\U{2B50}"),
      Milestone(100000, "Super Saver", "\U{1F3C6}"),
      Milestone(200000, "Savings Champion", "\U{1F451}") ]
  }

  /** Amounts strictly increase along the table. */
  predicate Ascending(ms: seq<Milestone>) {
    forall i, j | 0 <= i < j < |ms| :: ms[i].amount < ms[j].amount
  }

  /** The fixed table is strictly ascending. */
  lemma MilestonesAscending()
    ensures Ascending(Milestones())
  {
  }

  /** `stats?.savedAmount || fallback`: a missing or zero figure from the stats falls back to the computed one. */
  function TotalSaved(savedAmount: Option<int>, fallback: int): (r: int)
    ensures savedAmount.Some? && savedAmount.value != 0 ==> r == savedAmount.value
    ensures savedAmount.None? || savedAmount == Some(0) ==> r == fallback
  {
    if savedAmount.Some? && savedAmount.value != 0 then savedAmount.value else fallback
  }

  /** `ms.filter(m => saved >= m.amount)`. */
  function Reached(ms: seq<Milestone>, saved: int): (r: seq<Milestone>)
    ensures |r| <= |ms|
    ensures forall m :: m in r <==> m in ms && m.amount <= saved
  {
    if ms == [] then []
    else
      assert forall m :: m in ms <==> m == ms[0] || m in ms[1..];
      (if ms[0].amount <= saved then [ms[0]] else []) + Reached(ms[1..], saved)
  }

  /** `currentMilestone`: the last reached milestone (`.pop()`), if any. */
  function CurrentMilestone(ms: seq<Milestone>, saved: int): (r: Option<Milestone>)
    ensures r.None? <==> forall m | m in ms :: saved < m.amount
    ensures r.Some? ==> r.value in ms && r.value.amount <= saved
  {
    var reached := Reached(ms, saved);
    if reached == [] then None
    else
      assert reached[|reached| - 1] in reached;
      Some(reached[|reached| - 1])
  }

  /** `nextMilestone`: the first milestone not yet reached (`.find`), if any. */
  function NextMilestone(ms: seq<Milestone>, saved: int): (r: Option<Milestone>)
    ensures r.None? <==> forall m | m in ms :: m.amount <= saved
    ensures r.Some? ==> r.value in ms && saved < r.value.amount
  {
    if ms == [] then None
    else if saved < ms[0].amount then Some(ms[0])
    else
      assert forall m :: m in ms <==> m == ms[0] || m in ms[1..];
      NextMilestone(ms[1..], saved)
  }

  /** Dropping the first milestone keeps the table ascending. */
  lemma AscendingTail(ms: seq<Milestone>)
    requires ms != [] && Ascending(ms)
    ensures Ascending(ms[1..])
  {
    var t := ms[1..];
    forall i, j | 0 <= i < j < |t| ensures t[i].amount < t[j].amount {
      assert t[i] == ms[i + 1] && t[j] == ms[j + 1];
    }
  }

  /** When every amount is above the savings, nothing is reached. */
  lemma {:induction false} NothingReached(ms: seq<Milestone>, saved: int)
    requires forall i | 0 <= i < |ms| :: saved < ms[i].amount
    ensures Reached(ms, saved) == []
  {
    if ms != [] {
      NothingReached(ms[1..], saved);
    }
  }

  /** When every amount is at or below the savings, every milestone is reached. */
  lemma {:induction false} AllReached(ms: seq<Milestone>, saved: int)
    requires forall i | 0 <= i < |ms| :: ms[i].amount <= saved
    ensures Reached(ms, saved) == ms
  {
    if ms != [] {
      AllReached(ms[1..], saved);
    }
  }

  /** In an ascending table everything lies above an amount the first one exceeds. */
  lemma AboveFirst(ms: seq<Milestone>, saved: int)
    requires ms != [] && Ascending(ms) && saved < ms[0].amount
    ensures forall i | 0 <= i < |ms| :: saved < ms[i].amount
  {
    forall i | 0 < i < |ms| ensures saved < ms[i].amount {
      assert ms[0].amount < ms[i].amount;
    }
  }

  /**
   * Along an ascending table the reached milestones are a prefix, and the
   * next milestone is the one right after that prefix.
   */
  lemma {:induction false} ReachedIsPrefix(ms: seq<Milestone>, saved: int)
    requires Ascending(ms)
    ensures var k := |Reached(ms, saved)|;
      && Reached(ms, saved) == ms[..k]
      && NextMilestone(ms, saved) == (if k < |ms| then Some(ms[k]) else None)
  {
    if ms != [] {
      if ms[0].amount <= saved {
        var t := ms[1..];
        AscendingTail(ms);
        ReachedIsPrefix(t, saved);
        PrefixStep(ms, saved);
      } else {
        AboveFirst(ms, saved);
        NothingReached(ms, saved);
        assert ms[..0] == [];
      }
    }
  }

  /** A prefix of a table is its first entry followed by a prefix of the rest. */
  lemma ConsPrefix(ms: seq<Milestone>, k: nat)
    requires k < |ms|
    ensures ms[..k + 1] == [ms[0]] + ms[1..][..k]
  {
  }

  /** One step of the induction: a reached first milestone heads the reached prefix. */
  lemma PrefixStep(ms: seq<Milestone>, saved: int)
    requires ms != [] && ms[0].amount <= saved
    requires var t := ms[1..]; var k := |Reached(t, saved)|;
      && Reached(t, saved) == t[..k]
      && NextMilestone(t, saved) == (if k < |t| then Some(t[k]) else None)
    ensures var k := |Reached(ms, saved)|;
      && Reached(ms, saved) == ms[..k]
      && NextMilestone(ms, saved) == (if k < |ms| then Some(ms[k]) else None)
  {
    var t := ms[1..];
    var k := |Reached(t, saved)|;
    assert Reached(ms, saved) == [ms[0]] + Reached(t, saved);
    ConsPrefix(ms, k);
    if k < |t| {
      assert t[k] == ms[k + 1];
    }
  }

  /**
   * When a milestone has been reached and another is still ahead, they are
   * neighbours in the table, the savings lie between them, and the amount
   * "more to unlock" is positive.
   */
  lemma CurrentAndNextAdjacent(ms: seq<Milestone>, saved: int)
    requires Ascending(ms)
    requires CurrentMilestone(ms, saved).Some? && NextMilestone(ms, saved).Some?
    ensures exists i | 0 <= i < |ms| - 1 ::
      CurrentMilestone(ms, saved) == Some(ms[i]) && NextMilestone(ms, saved) == Some(ms[i + 1])
    ensures CurrentMilestone(ms, saved).value.amount <= saved < NextMilestone(ms, saved).value.amount
    ensures MoreToUnlock(ms, saved) > 0
  {
    ReachedIsPrefix(ms, saved);
    var k := |Reached(ms, saved)|;
    assert 0 < k < |ms|;
    assert ms[..k][k - 1] == ms[k - 1];
    assert CurrentMilestone(ms, saved) == Some(ms[k - 1]) && NextMilestone(ms, saved) == Some(ms[k]);
  }

  /** "{nextMilestone.amount - totalSaved} more to unlock", shown only while a next milestone exists. */
  function MoreToUnlock(ms: seq<Milestone>, saved: int): (r: int)
    requires NextMilestone(ms, saved).Some?
    ensures r > 0
  {
    NextMilestone(ms, saved).value.amount - saved
  }

  /** On the fixed table: no badge below 10000, and no next milestone from 200000 on. */
  lemma TableEnds(saved: int)
    ensures CurrentMilestone(Milestones(), saved).None? <==> saved < 10000
    ensures NextMilestone(Milestones(), saved).None? <==> saved >= 200000
  {
    var ms := Milestones();
    assert ms[0] in ms && ms[4] in ms;
    assert forall m | m in ms :: 10000 <= m.amount <= 200000;
  }

  /** With savings of 32660 the badge says "Saver" and the next milestone is "Smart Shopper". */
  lemma SaverExample()
    ensures CurrentMilestone(Milestones(), 32660) == Some(Milestones()[1])
    ensures NextMilestone(Milestones(), 32660) == Some(Milestones()[2])
  {
    var ms := Milestones();
    MilestonesAscending();
    ReachedIsPrefix(ms, 32660);
    SaverReached();
  }

  /** Exactly the first two milestones are reached with savings of 32660. */
  lemma SaverReached()
    ensures Reached(Milestones(), 32660) == Milestones()[..2]
  {
    var ms := Milestones();
    var rest := ms[2..];
    assert rest[0].amount == 50000 && rest[1].amount == 100000 && rest[2].amount == 200000;
    NothingReached(rest, 32660);
    assert ms[1..][1..] == rest;
    assert Reached(ms[1..], 32660) == [ms[1]] + Reached(rest, 32660);
    assert Reached(ms, 32660) == [ms[0]] + Reached(ms[1..], 32660);
  }

  /** Past the last amount the badge is the top milestone. */
  lemma ChampionExample(saved: int)
    requires saved >= 200000
    ensures CurrentMilestone(Milestones(), saved) == Some(Milestones()[4])
  {
    AllReached(Milestones(), saved);
  }

  /**
   * `milestoneProgress` in exact arithmetic over an ascending table of
   * positive amounts: 100 once every milestone is reached, otherwise the
   * share of the way from the current milestone (or from 0 before the
   * first) to the next.
   */
  function ProgressOn(ms: seq<Milestone>, saved: int): (r: real)
    requires Ascending(ms) && ms != [] && 0 < ms[0].amount
    ensures NextMilestone(ms, saved).None? ==> r == 100.0
    ensures saved >= 0 ==> 0.0 <= r <= 100.0
    ensures NextMilestone(ms, saved).Some? && saved >= 0 ==> r < 100.0
  {
    var current := CurrentMilestone(ms, saved);
    var next := NextMilestone(ms, saved);
    if next.None? then 100.0
    else
      var base := if current.Some? then current.value.amount else 0;
      ProgressBase(ms, saved);
      var gap := (next.value.amount - base) as real;
      var done := (saved - base) as real;
      Share(done, gap);
      (done / gap) * 100.0
  }

  /** As a percentage of a positive whole, a part is not negative when it is not, and below 100 when it is smaller. */
  lemma Share(done: real, gap: real)
    requires 0.0 < gap
    ensures 0.0 <= done ==> 0.0 <= (done / gap) * 100.0
    ensures done < gap ==> (done / gap) * 100.0 < 100.0
  {
    if done < gap {
      assert done / gap < 1.0;
    }
  }

  /** The base `currentMilestone?.amount || 0` lies below the next milestone, and at or below the savings when they are not negative. */
  lemma ProgressBase(ms: seq<Milestone>, saved: int)
    requires Ascending(ms) && ms != [] && 0 < ms[0].amount
    requires NextMilestone(ms, saved).Some?
    ensures var current := CurrentMilestone(ms, saved);
      var base := if current.Some? then current.value.amount else 0;
      && base < NextMilestone(ms, saved).value.amount
      && (saved >= 0 ==> base <= saved)
  {
    var current := CurrentMilestone(ms, saved);
    if current.None? {
      var next := NextMilestone(ms, saved).value;
      var j :| 0 <= j < |ms| && ms[j] == next;
      if j > 0 {
        assert ms[0].amount < ms[j].amount;
      }
    }
  }

  /** `milestoneProgress` on the fixed table. */
  function Progress(saved: int): (r: real)
    ensures NextMilestone(Milestones(), saved).None? ==> r == 100.0
    ensures saved >= 0 ==> 0.0 <= r <= 100.0
    ensures NextMilestone(Milestones(), saved).Some? && saved >= 0 ==> r < 100.0
  {
    MilestonesAscending();
    ProgressOn(Milestones(), saved)
  }
}
