/** The points-and-badges layer of the app shell (App.tsx): the currency
    symbol shown for the company's currency, the state updaters that award
    points and unlock a badge, and the counter of categorised expenses
    that schedules the "Categorizer" badge. */
module Gamification {
  import opened Ledger

  datatype Badge = Badge(id: string, name: string, description: string, icon: string, unlocked: bool, color: string)

  datatype UserProgress = UserProgress(
    points: int,
    level: int,
    badges: seq<Badge>,
    nextLevelPoints: int,
    streaks: Option<int>)

  /** The progress a new session starts from: no points, level 1, both
      badges still locked. */
  const InitialProgress := UserProgress(0, 1, [
    Badge("b1", "First Command", "Initialize your workspace", "Rocket", false, "indigo"),
    Badge("b2", "Categorizer", "Categorize 50 expenses", "Zap", false, "amber")
  ], 1000, Some(0))

  /** Points for categorising one expense, and the bonus for a badge. */
  const CategorizePoints := 75
  const BadgeBonus := 500
  /** The categorisation count at which the "Categorizer" badge is due. */
  const CategorizerTarget := 50

  /** `currencySymbol`: the three recognised codes have their own symbol,
      every other currency shows a dollar sign. */
  function CurrencySymbol(currency: string): (r: string)
    ensures r in {"€", "£", "QR", "$"}
    ensures r == "$" <==> currency !in {"EUR", "GBP", "QAR"}
  {
    match currency
    case "EUR" => "€"
    case "GBP" => "£"
    case "QAR" => "QR"
    case _ => "$"
  }

  /** The symbol tells the recognised currencies apart. */
  lemma CurrencySymbolDistinguishes(c1: string, c2: string)
    requires c1 in {"EUR", "GBP", "QAR"}
    ensures CurrencySymbol(c1) == CurrencySymbol(c2) <==> c1 == c2
  {
  }

  /** `addPoints`, the state part: the amount is added to the points and
      nothing else changes. */
  function AddPoints(prev: UserProgress, amount: int): (r: UserProgress)
    ensures r.points - prev.points == amount
    ensures r.level == prev.level && r.badges == prev.badges
    ensures r.nextLevelPoints == prev.nextLevelPoints && r.streaks == prev.streaks
  {
    prev.(points := prev.points + amount)
  }

  /** Two awards add up to one award of their sum, and an award is undone
      by its negation. */
  lemma AddPointsAccumulates(p: UserProgress, a: int, b: int)
    ensures AddPoints(AddPoints(p, a), b) == AddPoints(p, a + b)
    ensures AddPoints(AddPoints(p, a), -a) == p
  {
  }

  /** `badges.find(b => b.id === id)`: the first badge with that id. */
  function FindBadge(badges: seq<Badge>, id: string): (r: Option<Badge>)
    ensures r.None? <==> forall b :: b in badges ==> b.id != id
    ensures r.Some? ==> r.value in badges && r.value.id == id
  {
    if badges == [] then None
    else if badges[0].id == id then Some(badges[0])
    else FindBadge(badges[1..], id)
  }

  /** The badge list with every badge of that id unlocked. */
  function UnlockAll(badges: seq<Badge>, id: string): (r: seq<Badge>)
    ensures |r| == |badges|
    ensures forall i :: 0 <= i < |badges| ==>
      r[i] == if badges[i].id == id then badges[i].(unlocked := true) else badges[i]
  {
    seq(|badges|, i requires 0 <= i < |badges| =>
      if badges[i].id == id then badges[i].(unlocked := true) else badges[i])
  }

  /** `unlockBadge`'s updater: an unknown badge, or one whose first
      occurrence is already unlocked, leaves the progress as it is;
      otherwise the badges of that id are unlocked and the bonus is added
      when the unlocked badge is found again. */
  function UnlockBadge(prev: UserProgress, id: string): UserProgress {
    var existing := FindBadge(prev.badges, id);
    if existing.None? || existing.value.unlocked then prev
    else
      var updated := UnlockAll(prev.badges, id);
      var newlyUnlocked := FindBadge(updated, id);
      if newlyUnlocked.Some? then prev.(points := prev.points + BadgeBonus, badges := updated)
      else prev.(badges := updated)
  }

  /** After unlocking, the first badge of that id is unlocked. */
  lemma {:induction false} FindAfterUnlock(badges: seq<Badge>, id: string)
    requires FindBadge(badges, id).Some?
    ensures FindBadge(UnlockAll(badges, id), id) == Some(FindBadge(badges, id).value.(unlocked := true))
    decreases |badges|
  {
    if badges[0].id != id {
      assert UnlockAll(badges, id)[1..] == UnlockAll(badges[1..], id);
      FindAfterUnlock(badges[1..], id);
    }
  }

  /** The no-op cases: an unknown or already unlocked badge changes
      nothing. */
  lemma UnlockNoOp(prev: UserProgress, id: string)
    requires FindBadge(prev.badges, id).None? || FindBadge(prev.badges, id).value.unlocked
    ensures UnlockBadge(prev, id) == prev
  {
  }

  /** A first unlock sets exactly the `unlocked` flag of the badges with
      that id, leaves every other badge and field alone, and adds exactly
      the 500-point bonus. */
  lemma FirstUnlock(prev: UserProgress, id: string)
    requires FindBadge(prev.badges, id).Some? && !FindBadge(prev.badges, id).value.unlocked
    ensures var r := UnlockBadge(prev, id);
      && r.points == prev.points + BadgeBonus
      && |r.badges| == |prev.badges|
      && (forall i :: 0 <= i < |r.badges| ==>
            && r.badges[i].unlocked == (prev.badges[i].unlocked || prev.badges[i].id == id)
            && r.badges[i] == prev.badges[i].(unlocked := r.badges[i].unlocked))
      && r.level == prev.level && r.nextLevelPoints == prev.nextLevelPoints && r.streaks == prev.streaks
      && FindBadge(r.badges, id).value.unlocked
  {
    FindAfterUnlock(prev.badges, id);
  }

  /** Unlocking twice is unlocking once: the bonus is paid only once. */
  lemma UnlockIdempotent(prev: UserProgress, id: string)
    ensures UnlockBadge(UnlockBadge(prev, id), id) == UnlockBadge(prev, id)
  {
    var existing := FindBadge(prev.badges, id);
    if existing.Some? && !existing.value.unlocked {
      FirstUnlock(prev, id);
    }
  }

  /** From the initial progress, completing the "Categorizer" target pays
      500 points and unlocks b2 and nothing else. */
  lemma CategorizerFromStart()
    ensures UnlockBadge(InitialProgress, "b2").points == 500
    ensures UnlockBadge(InitialProgress, "b2").badges[1].unlocked
    ensures !UnlockBadge(InitialProgress, "b2").badges[0].unlocked
  {
    assert FindBadge(InitialProgress.badges, "b2") == Some(InitialProgress.badges[1]);
    FirstUnlock(InitialProgress, "b2");
  }

  /** The shell's gamification state: the progress record and the number
      of expenses categorised in this session. */
  class Tracker {
    var progress: UserProgress
    var categorizedCount: int

    constructor ()
      ensures progress == InitialProgress && categorizedCount == 0
    {
      progress := InitialProgress;
      categorizedCount := 0;
    }

    /** `handleCategorizeExpense`, the state part: 75 points, one more
        categorised expense, and the "Categorizer" unlock is scheduled
        exactly when the count reaches 50. */
    method CategorizeExpense() returns (scheduleUnlock: bool)
      modifies this
      ensures progress == AddPoints(old(progress), CategorizePoints)
      ensures categorizedCount == old(categorizedCount) + 1
      ensures scheduleUnlock <==> categorizedCount == CategorizerTarget
    {
      progress := AddPoints(progress, CategorizePoints);
      var next := categorizedCount + 1;
      scheduleUnlock := next == CategorizerTarget;
      categorizedCount := next;
    }

    /** The scheduled `unlockBadge` call. */
    method Unlock(id: string)
      modifies this
      ensures progress == UnlockBadge(old(progress), id)
      ensures categorizedCount == old(categorizedCount)
    {
      progress := UnlockBadge(progress, id);
    }
  }
}
