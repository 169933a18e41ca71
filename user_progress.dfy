/**
 * The progression engine (Models/UserProgress.cs): experience points, levels, the streak
 * of completed cues and the one-shot streak badges.
 *
 * `ProgressState` is the value of a `UserProgress` object; the functions on it say what each
 * method does, and the lemmas say what the methods promise. The class itself updates its
 * fields in place, as the C# class does.
 */
module Progress {

  const XPPerLevel: int := 500
  const MaxLevel: int := 100

  /** A streak badge: unlocked once the current streak reaches `threshold`. */
  datatype Badge = Badge(name: string, threshold: int)

  /** The nine streak badges, in the order the dictionary lists (and enumerates) them. */
  const StreakBadges: seq<Badge> := [
    Badge("First Steps", 10),
    Badge("Getting Started", 50),
    Badge("Building Habits", 100),
    Badge("Dedication", 250),
    Badge("Committed", 500),
    Badge("Champion", 1000),
    Badge("Master", 2500),
    Badge("Grandmaster", 5000),
    Badge("Legend", 10000)
  ]

  datatype ProgressState = ProgressState(
    level: int,
    currentXP: int,
    totalXPEarned: int,
    currentStreak: int,
    bestStreak: int,
    unlockedBadges: seq<string>)

  const InitialProgress: ProgressState := ProgressState(1, 0, 0, 0, 0, [])

  /** The experience needed to leave `level`: `Level * 500`. */
  function XPForLevel(level: int): int {
    level * XPPerLevel
  }

  /** The experience spent on levels 1 .. level-1, that is 500 + 1000 + ... + (level-1)*500. */
  function CumulativeXP(level: int): int {
    if level <= 1 then 0 else CumulativeXP(level - 1) + XPForLevel(level - 1)
  }

  predicate NoDuplicates(s: seq<string>) {
    forall i, j :: 0 <= i < j < |s| ==> s[i] != s[j]
  }

  /** What the operations of the class keep true. */
  predicate Valid(p: ProgressState) {
    && 1 <= p.level <= MaxLevel
    && 0 <= p.currentXP
    && (p.level < MaxLevel ==> p.currentXP < XPForLevel(p.level))
    && (p.level == MaxLevel ==> p.currentXP == 0)
    && 0 <= p.totalXPEarned
    && 0 <= p.currentStreak <= p.bestStreak
    && NoDuplicates(p.unlockedBadges)
  }

  // ---------------------------------------------------------------------------
  // Experience and levels

  /**
   * The level-up loop of `AddXP`: while the experience covers the current level's
   * requirement and the level is below 100, pay the requirement and go up one level.
   */
  function LevelUps(level: int, xp: int): (int, int)
    decreases MaxLevel - level
  {
    if xp >= XPForLevel(level) && level < MaxLevel then LevelUps(level + 1, xp - XPForLevel(level))
    else (level, xp)
  }

  /** `AfterAddXP(xp)`: add to the current and total experience, level up, then cap at level 100. */
  function AfterAddXP(p: ProgressState, xp: int): (r: ProgressState)
    ensures r == p.(level := r.level, currentXP := r.currentXP, totalXPEarned := p.totalXPEarned + xp)
  {
    var (level, rest) := LevelUps(p.level, p.currentXP + xp);
    var q := p.(totalXPEarned := p.totalXPEarned + xp);
    if level >= MaxLevel then q.(level := MaxLevel, currentXP := 0)
    else q.(level := level, currentXP := rest)
  }

  /** `AfterRemoveXP(xp)`: subtract from the current experience, never below zero; the level stays. */
  function AfterRemoveXP(p: ProgressState, xp: int): (r: ProgressState)
    ensures r == p.(currentXP := r.currentXP)
    ensures r.currentXP >= 0
    ensures r.currentXP > 0 ==> r.currentXP == p.currentXP - xp
  {
    var rest := p.currentXP - xp;
    p.(currentXP := if rest < 0 then 0 else rest)
  }

  /**
   * The level-up loop never lowers the level, stops below 100 only once the remaining
   * experience is short of the next requirement, and loses no experience: the experience
   * spent on levels plus what is left is what went in.
   */
  lemma {:induction false} LevelUpsSettles(level: int, xp: int)
    ensures var (l, x) := LevelUps(level, xp);
      && l >= level
      && (level <= MaxLevel ==> l <= MaxLevel)
      && (xp >= 0 ==> x >= 0)
      && (l < MaxLevel ==> x < XPForLevel(l))
      && (level >= 1 ==> CumulativeXP(l) + x == CumulativeXP(level) + xp)
    decreases MaxLevel - level
  {
    if xp >= XPForLevel(level) && level < MaxLevel {
      LevelUpsSettles(level + 1, xp - XPForLevel(level));
    }
  }

  /**
   * From a non-negative balance, `AddXP` with a non-negative grant leaves the level in
   * 1..100, the balance below the next requirement (zero at the cap), the total raised by
   * exactly the grant, the level not lowered, and the streaks and badges untouched.
   */
  lemma AddXPSettles(p: ProgressState, xp: int)
    requires 1 <= p.level <= MaxLevel && p.currentXP >= 0 && xp >= 0
    ensures var q := AfterAddXP(p, xp);
      && p.level <= q.level <= MaxLevel
      && (q.level < MaxLevel ==> 0 <= q.currentXP < XPForLevel(q.level))
      && (q.level == MaxLevel ==> q.currentXP == 0)
      && q.totalXPEarned == p.totalXPEarned + xp
      && q.currentStreak == p.currentStreak && q.bestStreak == p.bestStreak
      && q.unlockedBadges == p.unlockedBadges
  {
    LevelUpsSettles(p.level, p.currentXP + xp);
  }

  /**
   * Below the cap, experience is conserved across level-ups: each level-up consumed exactly
   * the requirement of the level it left.
   */
  lemma AddXPConserves(p: ProgressState, xp: int)
    requires p.level >= 1 && AfterAddXP(p, xp).level < MaxLevel
    ensures CumulativeXP(AfterAddXP(p, xp).level) + AfterAddXP(p, xp).currentXP
         == CumulativeXP(p.level) + p.currentXP + xp
  {
    LevelUpsSettles(p.level, p.currentXP + xp);
  }

  /** `CumulativeXP` in closed form: 250 * level * (level - 1). */
  lemma {:induction false} CumulativeXPClosedForm(level: int)
    requires level >= 1
    ensures CumulativeXP(level) == 250 * level * (level - 1)
  {
    if level > 1 {
      CumulativeXPClosedForm(level - 1);
    }
  }

  /** A valid state stays valid under a non-negative grant. */
  lemma AddXPPreservesValid(p: ProgressState, xp: int)
    requires Valid(p) && xp >= 0
    ensures Valid(AfterAddXP(p, xp))
  {
    AddXPSettles(p, xp);
  }

  /**
   * `RemoveXP` floors the balance at zero, never changes the level (no level-down), the
   * total earned, the streaks or the badges, and keeps a valid state valid.
   */
  lemma RemoveXPFloors(p: ProgressState, xp: int)
    ensures var q := AfterRemoveXP(p, xp);
      && q.currentXP == (if p.currentXP - xp < 0 then 0 else p.currentXP - xp)
      && q.currentXP >= 0
      && q.level == p.level && q.totalXPEarned == p.totalXPEarned
      && q.currentStreak == p.currentStreak && q.bestStreak == p.bestStreak
      && q.unlockedBadges == p.unlockedBadges
    ensures Valid(p) && xp >= 0 ==> Valid(AfterRemoveXP(p, xp))
  {
  }

  // ---------------------------------------------------------------------------
  // Streaks

  /** `IncrementStreak`: one more completed cue in a row; the best streak follows it upward. */
  function AfterIncrementStreak(p: ProgressState): (q: ProgressState)
    ensures q.currentStreak == p.currentStreak + 1
    ensures q.bestStreak == (if p.bestStreak < q.currentStreak then q.currentStreak else p.bestStreak)
    ensures q.bestStreak >= q.currentStreak && q.bestStreak >= p.bestStreak
    ensures q == p.(currentStreak := q.currentStreak, bestStreak := q.bestStreak)
    ensures Valid(p) ==> Valid(q)
  {
    var streak := p.currentStreak + 1;
    p.(currentStreak := streak, bestStreak := if streak > p.bestStreak then streak else p.bestStreak)
  }

  /** `BreakStreak`: the current streak drops to zero; the best streak is kept. */
  function AfterBreakStreak(p: ProgressState): (q: ProgressState)
    ensures q.currentStreak == 0 && q.bestStreak == p.bestStreak
    ensures q == p.(currentStreak := 0)
    ensures Valid(p) && p.bestStreak >= 0 ==> Valid(q)
  {
    p.(currentStreak := 0)
  }

  // ---------------------------------------------------------------------------
  // Badges

  function BadgeNames(table: seq<Badge>): (names: seq<string>)
    ensures |names| == |table|
    ensures forall i :: 0 <= i < |table| ==> names[i] == table[i].name
  {
    if table == [] then [] else BadgeNames(table[..|table| - 1]) + [table[|table| - 1].name]
  }

  /**
   * The badges of `table`, in table order, whose threshold the streak reaches and whose name
   * is not yet unlocked.
   */
  function NewBadges(table: seq<Badge>, streak: int, unlocked: seq<string>): seq<string> {
    if table == [] then []
    else
      var last := table[|table| - 1];
      NewBadges(table[..|table| - 1], streak, unlocked)
        + (if streak >= last.threshold && last.name !in unlocked then [last.name] else [])
  }

  /** `CheckAndUnlockBadges`: the new badges, appended to the unlocked list and returned. */
  function UnlockBadges(p: ProgressState): (r: (ProgressState, seq<string>))
    ensures r.0 == p.(unlockedBadges := p.unlockedBadges + r.1)
  {
    var gained := NewBadges(StreakBadges, p.currentStreak, p.unlockedBadges);
    (p.(unlockedBadges := p.unlockedBadges + gained), gained)
  }

  /**
   * A name is newly unlocked exactly when some table badge carries it, its threshold is
   * reached by the streak, and it was not already unlocked.
   */
  lemma {:induction false} NewBadgesMembership(table: seq<Badge>, streak: int, unlocked: seq<string>, x: string)
    ensures x in NewBadges(table, streak, unlocked)
        <==> x !in unlocked && exists i :: 0 <= i < |table| && table[i].name == x && streak >= table[i].threshold
  {
    if table != [] {
      var init := table[..|table| - 1];
      NewBadgesMembership(init, streak, unlocked, x);
      if x !in unlocked && exists i :: 0 <= i < |table| && table[i].name == x && streak >= table[i].threshold {
        var i :| 0 <= i < |table| && table[i].name == x && streak >= table[i].threshold;
        if i < |init| {
          assert init[i] == table[i];
        }
      }
    }
  }

  /** The new badges appear in the same relative order as in the table. */
  lemma {:induction false} NewBadgesInTableOrder(table: seq<Badge>, streak: int, unlocked: seq<string>)
    ensures exists f: seq<int> :: IsTableEmbedding(f, NewBadges(table, streak, unlocked), table)
  {
    if table == [] {
      assert IsTableEmbedding([], NewBadges(table, streak, unlocked), table);
    } else {
      var init := table[..|table| - 1];
      NewBadgesInTableOrder(init, streak, unlocked);
      var f :| IsTableEmbedding(f, NewBadges(init, streak, unlocked), init);
      var last := table[|table| - 1];
      if streak >= last.threshold && last.name !in unlocked {
        assert IsTableEmbedding(f + [|table| - 1], NewBadges(table, streak, unlocked), table);
      } else {
        assert IsTableEmbedding(f, NewBadges(table, streak, unlocked), table);
      }
    }
  }

  /** `f` picks, in increasing positions, the table entry each name comes from. */
  ghost predicate IsTableEmbedding(f: seq<int>, names: seq<string>, table: seq<Badge>) {
    && |f| == |names|
    && (forall i :: 0 <= i < |f| ==> 0 <= f[i] < |table| && names[i] == table[f[i]].name)
    && (forall i, j :: 0 <= i < j < |f| ==> f[i] < f[j])
  }

  /** Nothing is new once every reachable badge of the table is already unlocked. */
  lemma {:induction false} NewBadgesNoneLeft(table: seq<Badge>, streak: int, unlocked: seq<string>)
    requires forall i :: 0 <= i < |table| && streak >= table[i].threshold ==> table[i].name in unlocked
    ensures NewBadges(table, streak, unlocked) == []
  {
    if table != [] {
      var init := table[..|table| - 1];
      assert forall i :: 0 <= i < |init| ==> init[i] == table[i];
      NewBadgesNoneLeft(init, streak, unlocked);
    }
  }

  /**
   * Unlocking is idempotent: a second check with the same state finds nothing new, and the
   * first check only appended to the unlocked list.
   */
  lemma UnlockBadgesIdempotent(p: ProgressState)
    ensures var (q, gained) := UnlockBadges(p);
      && q.unlockedBadges[..|p.unlockedBadges|] == p.unlockedBadges
      && UnlockBadges(q).1 == []
      && UnlockBadges(q).0 == q
  {
    var (q, gained) := UnlockBadges(p);
    forall i | 0 <= i < |StreakBadges| && q.currentStreak >= StreakBadges[i].threshold
      ensures StreakBadges[i].name in q.unlockedBadges
    {
      if StreakBadges[i].name !in p.unlockedBadges {
        NewBadgesMembership(StreakBadges, p.currentStreak, p.unlockedBadges, StreakBadges[i].name);
      }
    }
    NewBadgesNoneLeft(StreakBadges, q.currentStreak, q.unlockedBadges);
  }

  /** The table names are pairwise distinct. */
  lemma StreakBadgeNamesDistinct()
    ensures NoDuplicates(BadgeNames(StreakBadges))
  {
  }

  /** Within a table of distinct names the new badges are distinct too. */
  lemma {:induction false} NewBadgesDistinct(table: seq<Badge>, streak: int, unlocked: seq<string>)
    requires NoDuplicates(BadgeNames(table))
    ensures NoDuplicates(NewBadges(table, streak, unlocked))
  {
    if table != [] {
      var init := table[..|table| - 1];
      var last := table[|table| - 1];
      assert BadgeNames(init) == BadgeNames(table)[..|init|];
      NewBadgesDistinct(init, streak, unlocked);
      forall i | 0 <= i < |init| ensures init[i].name != last.name {
        assert BadgeNames(table)[i] == init[i].name;
      }
      NewBadgesMembership(init, streak, unlocked, last.name);
    }
  }

  /**
   * One more table entry: within a table of distinct names, the entry is new exactly when the
   * streak reaches it and its name is neither unlocked before nor among the new badges so far.
   */
  lemma NewBadgesExtend(table: seq<Badge>, i: int, streak: int, unlocked: seq<string>)
    requires 0 <= i < |table| && NoDuplicates(BadgeNames(table))
    ensures var b, before := table[i], NewBadges(table[..i], streak, unlocked);
      NewBadges(table[..i + 1], streak, unlocked)
        == before + (if streak >= b.threshold && b.name !in unlocked + before then [b.name] else [])
  {
    var b := table[i];
    assert table[..i + 1][..i] == table[..i];
    assert b.name !in NewBadges(table[..i], streak, unlocked) by {
      forall j | 0 <= j < i ensures table[..i][j].name != b.name {
        assert BadgeNames(table)[j] == table[j].name;
      }
      NewBadgesMembership(table[..i], streak, unlocked, b.name);
    }
  }

  /** Unlocking never adds a duplicate to a duplicate-free list, so validity is kept. */
  lemma UnlockBadgesPreservesValid(p: ProgressState)
    requires Valid(p)
    ensures Valid(UnlockBadges(p).0)
  {
    var gained := NewBadges(StreakBadges, p.currentStreak, p.unlockedBadges);
    StreakBadgeNamesDistinct();
    NewBadgesDistinct(StreakBadges, p.currentStreak, p.unlockedBadges);
    var all := p.unlockedBadges + gained;
    forall i, j | 0 <= i < j < |all| ensures all[i] != all[j] {
      if i < |p.unlockedBadges| && j >= |p.unlockedBadges| {
        NewBadgesMembership(StreakBadges, p.currentStreak, p.unlockedBadges, all[j]);
      }
    }
  }

  /** The unlock is keyed on the current streak: a long best streak alone unlocks nothing. */
  lemma UnlockKeyedOnCurrentStreak()
    ensures UnlockBadges(ProgressState(1, 0, 0, 0, 10000, [])).1 == []
  {
    NewBadgesNoneLeft(StreakBadges, 0, []);
  }

  // ---------------------------------------------------------------------------
  // The object

  class UserProgress {
    var level: int
    var currentXP: int
    var totalXPEarned: int
    var currentStreak: int
    var bestStreak: int
    var unlockedBadges: seq<string>

    /** The value of this object. */
    function State(): ProgressState
      reads this
    {
      ProgressState(level, currentXP, totalXPEarned, currentStreak, bestStreak, unlockedBadges)
    }

    constructor ()
      ensures State() == InitialProgress
    {
      level, currentXP, totalXPEarned := 1, 0, 0;
      currentStreak, bestStreak := 0, 0;
      unlockedBadges := [];
    }

    function XPForNextLevel(): (r: int)
      reads this
      ensures r == XPForLevel(level)
    {
      level * 500
    }

    method AddXP(xp: int)
      modifies this
      ensures State() == AfterAddXP(old(State()), xp)
    {
      currentXP := currentXP + xp;
      totalXPEarned := totalXPEarned + xp;
      while currentXP >= XPForNextLevel() && level < 100
        invariant LevelUps(level, currentXP) == LevelUps(old(level), old(currentXP) + xp)
        invariant totalXPEarned == old(totalXPEarned) + xp
        invariant currentStreak == old(currentStreak) && bestStreak == old(bestStreak)
        invariant unlockedBadges == old(unlockedBadges)
        decreases 100 - level
      {
        currentXP := currentXP - XPForNextLevel();
        level := level + 1;
      }
      if level >= 100 {
        level := 100;
        currentXP := 0;
      }
    }

    method RemoveXP(xp: int)
      modifies this
      ensures State() == AfterRemoveXP(old(State()), xp)
    {
      currentXP := currentXP - xp;
      if currentXP < 0 {
        currentXP := 0;
      }
    }

    method IncrementStreak()
      modifies this
      ensures State() == AfterIncrementStreak(old(State()))
    {
      currentStreak := currentStreak + 1;
      if currentStreak > bestStreak {
        bestStreak := currentStreak;
      }
    }

    method BreakStreak()
      modifies this
      ensures State() == AfterBreakStreak(old(State()))
    {
      currentStreak := 0;
    }

    method CheckAndUnlockBadges() returns (newBadges: seq<string>)
      modifies this
      ensures (State(), newBadges) == UnlockBadges(old(State()))
    {
      newBadges := [];
      var i := 0;
      StreakBadgeNamesDistinct();
      while i < |StreakBadges|
        invariant 0 <= i <= |StreakBadges|
        invariant newBadges == NewBadges(StreakBadges[..i], currentStreak, old(unlockedBadges))
        invariant unlockedBadges == old(unlockedBadges) + newBadges
        invariant State() == old(State()).(unlockedBadges := unlockedBadges)
      {
        var badge := StreakBadges[i];
        NewBadgesExtend(StreakBadges, i, currentStreak, old(unlockedBadges));
        if currentStreak >= badge.threshold && badge.name !in unlockedBadges {
          unlockedBadges := unlockedBadges + [badge.name];
          newBadges := newBadges + [badge.name];
        }
        i := i + 1;
      }
      assert StreakBadges[..i] == StreakBadges;
    }
  }
}
