/**
 * The badge list window (Windows/BadgeListWindow.xaml.cs): every badge the application knows,
 * marked unlocked when its exact name is among the user's unlocked badges, with a subtitle that
 * counts the unlocked ones and radio buttons that filter the list.
 *
 * Its positive table is not the one the streak unlock uses (Models/UserProgress.cs): seven of
 * the nine badges that unlock awards, "First Steps" among them, appear in neither table, so they
 * are never shown and do not count in the subtitle (`StreakOnlyBadgesNotCounted`); "Champion"
 * and "Master" are listed, under other thresholds than the ones they are awarded at.
 * Brushes, styles and the visibility of the requirement line are not modelled.
 */
module BadgeList {
  import opened Numeric
  import opened Seqs
  import opened StableSort
  import opened Progress

  const TrophyIcon: string := "\U{1F3C6}"
  const LockIcon: string := "\U{1F512}"
  const PooIcon: string := "\U{1F4A9}"

  // ---------------------------------------------------------------------------
  // The two tables

  /** The positive badges, as the dictionary lists them: 100 streaks of completed cues, in five groups. */
  const PositiveBadges: seq<Badge> := EarlyBadges + MomentumBadges + ConsistencyBadges + DedicationBadges + EliteBadges

  /** Early achievements: the first week. */
  const EarlyBadges: seq<Badge> := [
    Badge("First Step", 1), Badge("Baby Steps", 2), Badge("Getting Going", 3), Badge("Early Bird", 5),
    Badge("Starter", 7), Badge("Beginner", 10), Badge("Novice", 15), Badge("Learner", 20),
    Badge("Apprentice", 25), Badge("Student", 30), Badge("Trainee", 35), Badge("Freshman", 40),
    Badge("Rookie", 45), Badge("Newbie", 50), Badge("Initiate", 60), Badge("Explorer", 70),
    Badge("Adventurer", 80), Badge("Discoverer", 90), Badge("Pioneer", 100), Badge("Trailblazer", 110)
  ]

  /** Building momentum: two to four weeks. */
  const MomentumBadges: seq<Badge> := [
    Badge("Go-Getter", 125), Badge("Achiever", 140), Badge("Striver", 155), Badge("Worker", 170),
    Badge("Grinder", 185), Badge("Hustler", 200), Badge("Climber", 220), Badge("Progressor", 240),
    Badge("Developer", 260), Badge("Builder", 280), Badge("Creator", 300), Badge("Maker", 325),
    Badge("Shaper", 350), Badge("Former", 375), Badge("Establisher", 400), Badge("Founder", 425),
    Badge("Settler", 450), Badge("Organizer", 475), Badge("Planner", 500), Badge("Strategist", 530)
  ]

  /** Consistent effort: two to three months. */
  const ConsistencyBadges: seq<Badge> := [
    Badge("Tactician", 560), Badge("Coordinator", 590), Badge("Director", 620), Badge("Manager", 650),
    Badge("Leader", 680), Badge("Commander", 710), Badge("Chief", 740), Badge("Captain", 770),
    Badge("Major", 800), Badge("Colonel", 835), Badge("General", 870), Badge("Marshal", 905),
    Badge("Warden", 940), Badge("Guardian", 975), Badge("Protector", 1010), Badge("Defender", 1050),
    Badge("Champion", 1090), Badge("Hero", 1130), Badge("Warrior", 1170), Badge("Fighter", 1210)
  ]

  /** Advanced dedication: four to six months. */
  const DedicationBadges: seq<Badge> := [
    Badge("Gladiator", 1260), Badge("Samurai", 1310), Badge("Ninja", 1360), Badge("Monk", 1410),
    Badge("Sensei", 1460), Badge("Master", 1520), Badge("Expert", 1580), Badge("Specialist", 1640),
    Badge("Professional", 1700), Badge("Authority", 1770), Badge("Virtuoso", 1840), Badge("Ace", 1910),
    Badge("Star", 1980), Badge("Icon", 2050), Badge("Celebrity", 2130), Badge("Superstar", 2210),
    Badge("Phenomenon", 2290), Badge("Prodigy", 2370), Badge("Genius", 2450), Badge("Mastermind", 2540)
  ]

  /** Elite tier: seven months to three years and more. */
  const EliteBadges: seq<Badge> := [
    Badge("Sage", 2630), Badge("Wizard", 2720), Badge("Sorcerer", 2810), Badge("Magician", 2900),
    Badge("Enchanter", 3000), Badge("Oracle", 3120), Badge("Prophet", 3240), Badge("Mystic", 3360),
    Badge("Titan", 3500), Badge("Colossus", 3650), Badge("Behemoth", 3800), Badge("Leviathan", 3950),
    Badge("Immortal", 4120), Badge("Eternal", 4290), Badge("Infinite", 4460), Badge("Cosmic", 4650),
    Badge("Celestial", 4840), Badge("Divine", 5030), Badge("Transcendent", 5250), Badge("Legendary", 10000)
  ]

  /** The negative badges: 13 streaks of dismissed cues. */
  const NegativeBadges: seq<Badge> := [
    Badge("Rebel \U{1F60F}", 3),
    Badge("Procrastinator \U{1F644}", 5),
    Badge("Dismissive \U{1F612}", 10),
    Badge("Too Busy? \U{1F914}", 15),
    Badge("Health Denier \U{1F624}", 20),
    Badge("Couch Commander \U{1F6CB}\U{FE0F}", 25),
    Badge("Button Masher \U{1F5B1}\U{FE0F}", 30),
    Badge("Chronic Clicker \U{1F4A2}", 40),
    Badge("Ergonomic Anarchist \U{1F3F4}", 50),
    Badge("Professional Ignorer \U{1F648}", 75),
    Badge("Master Avoider \U{1F3C3}", 100),
    Badge("Stubborn Sitter \U{1FA91}", 150),
    Badge("Back Pain Collector \U{1F480}", 200)
  ]

  // ---------------------------------------------------------------------------
  // Checking the tables
  //
  // Facts about a table literal are established by evaluating the recursive checks below on it,
  // one group of at most 20 badges at a time; everything else is proved over any tables that
  // pass the checks.

  /**
   * The names the streak unlock awards (Models/UserProgress.cs) that neither table carries:
   * seven of its nine badges. The other two, "Champion" and "Master", are in the positive table,
   * but at 1090 and 1520 points where the streak unlock awards them at 1000 and 2500.
   */
  const StreakOnlyNames: set<string> :=
    {"First Steps", "Getting Started", "Building Habits", "Dedication", "Committed", "Grandmaster", "Legend"}

  /** From position `i` on, each threshold is below the next one. */
  predicate AscendingFrom(table: seq<Badge>, i: nat)
    decreases |table| - i
  {
    i + 1 >= |table| || (table[i].threshold < table[i + 1].threshold && AscendingFrom(table, i + 1))
  }

  /** From position `i` on, no badge carries a name of `xs`. */
  predicate UnnamedFrom(table: seq<Badge>, xs: set<string>, i: nat)
    decreases |table| - i
  {
    i >= |table| || (table[i].name !in xs && UnnamedFrom(table, xs, i + 1))
  }

  /** The table ascends and carries no name of `xs`, by the two checks. */
  predicate Checked(table: seq<Badge>, xs: set<string>) {
    AscendingFrom(table, 0) && UnnamedFrom(table, xs, 0)
  }

  /** Thresholds strictly increase along the table. */
  predicate Ascending(table: seq<Badge>) {
    forall i, j :: 0 <= i < j < |table| ==> table[i].threshold < table[j].threshold
  }

  /** No badge of the table carries a name of `xs`. */
  predicate Unlisted(table: seq<Badge>, xs: set<string>) {
    forall i :: 0 <= i < |table| ==> table[i].name !in xs
  }

  lemma {:induction false} AscendingFromMeans(table: seq<Badge>, i: nat)
    ensures AscendingFrom(table, i) <==> forall j, k :: i <= j < k < |table| ==> table[j].threshold < table[k].threshold
    decreases |table| - i
  {
    if i + 1 < |table| {
      AscendingFromMeans(table, i + 1);
    }
  }

  lemma {:induction false} UnnamedFromMeans(table: seq<Badge>, xs: set<string>, i: nat)
    ensures UnnamedFrom(table, xs, i) <==> forall j :: i <= j < |table| ==> table[j].name !in xs
    decreases |table| - i
  {
    if i < |table| {
      UnnamedFromMeans(table, xs, i + 1);
    }
  }

  /** The checks say what they are meant to say. */
  lemma CheckedMeans(table: seq<Badge>, xs: set<string>)
    ensures Checked(table, xs) <==> Ascending(table) && Unlisted(table, xs)
  {
    AscendingFromMeans(table, 0);
    UnnamedFromMeans(table, xs, 0);
  }

  /** Two checked tables, the second starting above where the first ends, make a checked table. */
  lemma CheckedJoin(a: seq<Badge>, b: seq<Badge>, xs: set<string>)
    requires Checked(a, xs) && Checked(b, xs)
    requires a != [] && b != [] && a[|a| - 1].threshold < b[0].threshold
    ensures Checked(a + b, xs)
  {
    CheckedMeans(a, xs);
    CheckedMeans(b, xs);
    forall i, j | 0 <= i < j < |a + b| ensures (a + b)[i].threshold < (a + b)[j].threshold {
      if i < |a| && j >= |a| {
        assert a[i].threshold <= a[|a| - 1].threshold;
        assert b[0].threshold <= b[j - |a|].threshold;
      }
    }
    CheckedMeans(a + b, xs);
  }

  lemma EarlyBadgesUnnamed()
    ensures UnnamedFrom(EarlyBadges, StreakOnlyNames, 0)
  {
    assert UnnamedFrom(EarlyBadges, StreakOnlyNames, 16);
    assert UnnamedFrom(EarlyBadges, StreakOnlyNames, 12);
    assert UnnamedFrom(EarlyBadges, StreakOnlyNames, 8);
    assert UnnamedFrom(EarlyBadges, StreakOnlyNames, 4);
  }

  lemma EarlyBadgesChecked()
    ensures |EarlyBadges| == 20 && Checked(EarlyBadges, StreakOnlyNames)
    ensures EarlyBadges[0].threshold == 1 && EarlyBadges[19].threshold == 110
  {
    assert AscendingFrom(EarlyBadges, 15);
    assert AscendingFrom(EarlyBadges, 10);
    assert AscendingFrom(EarlyBadges, 5);
    EarlyBadgesUnnamed();
  }

  lemma MomentumBadgesUnnamed()
    ensures UnnamedFrom(MomentumBadges, StreakOnlyNames, 0)
  {
    assert UnnamedFrom(MomentumBadges, StreakOnlyNames, 16);
    assert UnnamedFrom(MomentumBadges, StreakOnlyNames, 12);
    assert UnnamedFrom(MomentumBadges, StreakOnlyNames, 8);
    assert UnnamedFrom(MomentumBadges, StreakOnlyNames, 4);
  }

  lemma MomentumBadgesChecked()
    ensures |MomentumBadges| == 20 && Checked(MomentumBadges, StreakOnlyNames)
    ensures MomentumBadges[0].threshold == 125 && MomentumBadges[19].threshold == 530
  {
    assert AscendingFrom(MomentumBadges, 15);
    assert AscendingFrom(MomentumBadges, 10);
    assert AscendingFrom(MomentumBadges, 5);
    MomentumBadgesUnnamed();
  }

  lemma ConsistencyBadgesUnnamed()
    ensures UnnamedFrom(ConsistencyBadges, StreakOnlyNames, 0)
  {
    assert UnnamedFrom(ConsistencyBadges, StreakOnlyNames, 16);
    assert UnnamedFrom(ConsistencyBadges, StreakOnlyNames, 12);
    assert UnnamedFrom(ConsistencyBadges, StreakOnlyNames, 8);
    assert UnnamedFrom(ConsistencyBadges, StreakOnlyNames, 4);
  }

  lemma ConsistencyBadgesChecked()
    ensures |ConsistencyBadges| == 20 && Checked(ConsistencyBadges, StreakOnlyNames)
    ensures ConsistencyBadges[0].threshold == 560 && ConsistencyBadges[19].threshold == 1210
  {
    assert AscendingFrom(ConsistencyBadges, 15);
    assert AscendingFrom(ConsistencyBadges, 10);
    assert AscendingFrom(ConsistencyBadges, 5);
    ConsistencyBadgesUnnamed();
  }

  lemma DedicationBadgesUnnamed()
    ensures UnnamedFrom(DedicationBadges, StreakOnlyNames, 0)
  {
    assert UnnamedFrom(DedicationBadges, StreakOnlyNames, 16);
    assert UnnamedFrom(DedicationBadges, StreakOnlyNames, 12);
    assert UnnamedFrom(DedicationBadges, StreakOnlyNames, 8);
    assert UnnamedFrom(DedicationBadges, StreakOnlyNames, 4);
  }

  lemma DedicationBadgesChecked()
    ensures |DedicationBadges| == 20 && Checked(DedicationBadges, StreakOnlyNames)
    ensures DedicationBadges[0].threshold == 1260 && DedicationBadges[19].threshold == 2540
  {
    assert AscendingFrom(DedicationBadges, 15);
    assert AscendingFrom(DedicationBadges, 10);
    assert AscendingFrom(DedicationBadges, 5);
    DedicationBadgesUnnamed();
  }

  lemma EliteBadgesUnnamed()
    ensures UnnamedFrom(EliteBadges, StreakOnlyNames, 0)
  {
    assert UnnamedFrom(EliteBadges, StreakOnlyNames, 16);
    assert UnnamedFrom(EliteBadges, StreakOnlyNames, 12);
    assert UnnamedFrom(EliteBadges, StreakOnlyNames, 8);
    assert UnnamedFrom(EliteBadges, StreakOnlyNames, 4);
  }

  lemma EliteBadgesChecked()
    ensures |EliteBadges| == 20 && Checked(EliteBadges, StreakOnlyNames)
    ensures EliteBadges[0].threshold == 2630 && EliteBadges[19].threshold == 10000
  {
    assert AscendingFrom(EliteBadges, 15);
    assert AscendingFrom(EliteBadges, 10);
    assert AscendingFrom(EliteBadges, 5);
    EliteBadgesUnnamed();
  }

  lemma NegativeBadgesChecked()
    ensures |NegativeBadges| == 13 && Checked(NegativeBadges, StreakOnlyNames)
  {
    assert AscendingFrom(NegativeBadges, 0);
    assert UnnamedFrom(NegativeBadges, StreakOnlyNames, 0);
  }

  /** The positive table: 100 badges, thresholds ascending, none carrying a name of `StreakOnlyNames`. */
  lemma PositiveBadgesChecked()
    ensures |PositiveBadges| == 100 && Checked(PositiveBadges, StreakOnlyNames)
  {
    EarlyBadgesChecked();
    MomentumBadgesChecked();
    ConsistencyBadgesChecked();
    DedicationBadgesChecked();
    EliteBadgesChecked();
    var two := EarlyBadges + MomentumBadges;
    CheckedJoin(EarlyBadges, MomentumBadges, StreakOnlyNames);
    var three := two + ConsistencyBadges;
    CheckedJoin(two, ConsistencyBadges, StreakOnlyNames);
    var four := three + DedicationBadges;
    CheckedJoin(three, DedicationBadges, StreakOnlyNames);
    CheckedJoin(four, EliteBadges, StreakOnlyNames);
  }

  /**
   * Both tables list their badges in strictly ascending threshold order, the positive one
   * holds 100 badges and the negative one 13, and neither carries a name of `StreakOnlyNames`.
   */
  lemma TablesChecked()
    ensures |PositiveBadges| == 100 && Ascending(PositiveBadges) && Unlisted(PositiveBadges, StreakOnlyNames)
    ensures |NegativeBadges| == 13 && Ascending(NegativeBadges) && Unlisted(NegativeBadges, StreakOnlyNames)
  {
    PositiveBadgesChecked();
    NegativeBadgesChecked();
    CheckedMeans(PositiveBadges, StreakOnlyNames);
    CheckedMeans(NegativeBadges, StreakOnlyNames);
  }

  // ---------------------------------------------------------------------------
  // The cards

  /** LINQ `OrderBy(b => b.Value)`: stable, lowest threshold first, as a descending sort on the negated threshold. */
  function AscendingKey(b: Badge): Key {
    Key(-b.threshold, 0)
  }

  function OrderByThreshold(table: seq<Badge>): seq<Badge> {
    Sort(table, AscendingKey)
  }

  /** A table listed in ascending order is enumerated in that same order. */
  lemma OrderOfAscending(table: seq<Badge>)
    requires Ascending(table)
    ensures OrderByThreshold(table) == table
  {
    SortOfSorted(table, AscendingKey);
  }

  /** One card of the list. */
  datatype BadgeViewModel = BadgeViewModel(
    name: string,
    icon: string,
    requirementText: string,
    isUnlocked: bool,
    isNegative: bool,
    requiredCount: int)

  /**
   * The card of a badge: unlocked exactly when its name is in `unlocked`; a locked card hides
   * the requirement behind "???", an unlocked one names the streak that earned it.
   */
  function CardOf(b: Badge, unlocked: seq<string>, negative: bool): (c: BadgeViewModel)
    ensures c.name == b.name && c.requiredCount == b.threshold && c.isNegative == negative
    ensures c.isUnlocked <==> b.name in unlocked
    ensures !c.isUnlocked ==> c.requirementText == "???" && c.icon == LockIcon
    ensures c.isUnlocked && !negative ==> c.requirementText == "Complete " + IntToString(b.threshold) + " cues in a row"
    ensures c.isUnlocked && negative ==> c.requirementText == "Dismiss " + IntToString(b.threshold) + " cues in a row"
  {
    var isUnlocked := b.name in unlocked;
    var count := IntToString(b.threshold);
    if !negative then
      BadgeViewModel(b.name,
        if isUnlocked then TrophyIcon else LockIcon,
        if isUnlocked then "Complete " + count + " cues in a row" else "???",
        isUnlocked, false, b.threshold)
    else
      BadgeViewModel(b.name,
        if isUnlocked then PooIcon else LockIcon,
        if isUnlocked then "Dismiss " + count + " cues in a row" else "???",
        isUnlocked, true, b.threshold)
  }

  /** The cards of a table, in table order. */
  function Cards(table: seq<Badge>, unlocked: seq<string>, negative: bool): (r: seq<BadgeViewModel>)
    ensures |r| == |table|
  {
    if table == [] then []
    else Cards(table[..|table| - 1], unlocked, negative) + [CardOf(table[|table| - 1], unlocked, negative)]
  }

  /** The card at each position is the card of the badge at that position. */
  lemma {:induction false} CardsPointwise(table: seq<Badge>, unlocked: seq<string>, negative: bool)
    ensures forall i :: 0 <= i < |table| ==> Cards(table, unlocked, negative)[i] == CardOf(table[i], unlocked, negative)
  {
    if table != [] {
      var init := table[..|table| - 1];
      CardsPointwise(init, unlocked, negative);
      forall i | 0 <= i < |table| ensures Cards(table, unlocked, negative)[i] == CardOf(table[i], unlocked, negative) {
        if i < |init| {
          assert table[i] == init[i];
        }
      }
    }
  }

  /** The two dictionaries `LoadBadges` declares: the positive badges and the negative ones. */
  datatype Definitions = Definitions(positives: seq<Badge>, negatives: seq<Badge>)

  /** The list over the two tables: the positive cards by threshold, then the negative cards by threshold. */
  function ListOf(defs: Definitions, unlocked: seq<string>): (r: seq<BadgeViewModel>)
    ensures |r| == |defs.positives| + |defs.negatives|
  {
    Cards(OrderByThreshold(defs.positives), unlocked, false) + Cards(OrderByThreshold(defs.negatives), unlocked, true)
  }

  /** Thresholds strictly increase along the cards. */
  predicate Ordered(c: seq<BadgeViewModel>) {
    forall i, j :: 0 <= i < j < |c| ==> c[i].requiredCount < c[j].requiredCount
  }

  /** Every card is unlocked exactly when its name is among `unlocked`, and is negative exactly as `negative` says. */
  predicate Marked(c: seq<BadgeViewModel>, unlocked: seq<string>, negative: bool) {
    forall i :: 0 <= i < |c| ==> (c[i].isUnlocked <==> c[i].name in unlocked) && c[i].isNegative == negative
  }

  /** The cards of an ascending table keep its order and are marked by the unlocked names. */
  lemma CardsLayout(table: seq<Badge>, unlocked: seq<string>, negative: bool)
    requires Ascending(table)
    ensures Ordered(Cards(table, unlocked, negative)) && Marked(Cards(table, unlocked, negative), unlocked, negative)
  {
    CardsPointwise(table, unlocked, negative);
  }

  /**
   * The cards before `split` are positive and the rest negative, thresholds ascend within each
   * group, and each card is unlocked exactly when its badge's name is among the unlocked names.
   */
  predicate SplitLayout(all: seq<BadgeViewModel>, unlocked: seq<string>, split: int) {
    && (forall i :: 0 <= i < |all| ==> (all[i].isNegative <==> i >= split))
    && (forall i, j :: 0 <= i < j < |all| && (j < split || split <= i) ==> all[i].requiredCount < all[j].requiredCount)
    && (forall i :: 0 <= i < |all| ==> (all[i].isUnlocked <==> all[i].name in unlocked))
  }

  /**
   * Positive ordered cards followed by negative ordered cards: a card is negative exactly when
   * it comes from the second part, thresholds ascend within each part, and the unlocked marks
   * carry over.
   */
  lemma ConcatLayout(a: seq<BadgeViewModel>, b: seq<BadgeViewModel>, unlocked: seq<string>)
    requires Ordered(a) && Marked(a, unlocked, false)
    requires Ordered(b) && Marked(b, unlocked, true)
    ensures SplitLayout(a + b, unlocked, |a|)
  {
    var all := a + b;
    forall i, j | |a| <= i < j < |all| ensures all[i].requiredCount < all[j].requiredCount {
      assert all[i] == b[i - |a|] && all[j] == b[j - |a|];
    }
    forall i | |a| <= i < |all|
      ensures all[i].isNegative && (all[i].isUnlocked <==> all[i].name in unlocked)
    {
      assert all[i] == b[i - |a|];
    }
  }

  /** The list over two ascending tables is their cards in table order, the positive ones first. */
  lemma ListCards(defs: Definitions, unlocked: seq<string>)
    requires Ascending(defs.positives) && Ascending(defs.negatives)
    ensures ListOf(defs, unlocked) == Cards(defs.positives, unlocked, false) + Cards(defs.negatives, unlocked, true)
  {
    OrderOfAscending(defs.positives);
    OrderOfAscending(defs.negatives);
  }

  predicate IsUnlockedCard(c: BadgeViewModel) { c.isUnlocked }

  /** The number of unlocked cards in a list. */
  function UnlockedCount(all: seq<BadgeViewModel>): (n: int)
    ensures 0 <= n <= |all|
  {
    |Filter(all, IsUnlockedCard)|
  }

  /** The subtitle over a list: its unlocked cards over all its cards. */
  function Subtitle(all: seq<BadgeViewModel>): string {
    IntToString(UnlockedCount(all)) + " / " + IntToString(|all|) + " badges unlocked"
  }

  /** Whether a badge's name is among the unlocked names. */
  function NamedIn(unlocked: seq<string>): Badge -> bool {
    (b: Badge) => b.name in unlocked
  }

  /** The cards of a table count as unlocked exactly the badges whose names are unlocked. */
  lemma {:induction false} CardsUnlockedCount(table: seq<Badge>, unlocked: seq<string>, negative: bool)
    ensures UnlockedCount(Cards(table, unlocked, negative)) == |Filter(table, NamedIn(unlocked))|
    decreases |table|
  {
    if table != [] {
      var init, last := table[..|table| - 1], table[|table| - 1];
      var card := CardOf(last, unlocked, negative);
      assert Cards(table, unlocked, negative) == Cards(init, unlocked, negative) + [card];
      assert IsUnlockedCard(card) == NamedIn(unlocked)(last);
      CardsUnlockedCount(init, unlocked, negative);
      FilterSnoc(Cards(init, unlocked, negative), card, IsUnlockedCard);
      assert table == init + [last];
      FilterSnoc(init, last, NamedIn(unlocked));
    }
  }

  /** Unlocking a name that no badge of the table carries leaves the table's cards as they were. */
  lemma CardsIgnoreUnlisted(table: seq<Badge>, unlocked: seq<string>, xs: set<string>, x: string, negative: bool)
    requires Unlisted(table, xs) && x in xs
    ensures Cards(table, unlocked + [x], negative) == Cards(table, unlocked, negative)
  {
    CardsPointwise(table, unlocked + [x], negative);
    CardsPointwise(table, unlocked, negative);
    forall i | 0 <= i < |table|
      ensures CardOf(table[i], unlocked + [x], negative) == CardOf(table[i], unlocked, negative)
    {
      assert table[i].name != x;
    }
  }

  /**
   * A name that is in neither checked table changes nothing: unlocking it leaves every card,
   * and so the count and the subtitle, as they were.
   */
  lemma UnlistedNameIgnored(defs: Definitions, unlocked: seq<string>, xs: set<string>, x: string)
    requires Checked(defs.positives, xs) && Checked(defs.negatives, xs) && x in xs
    ensures ListOf(defs, unlocked + [x]) == ListOf(defs, unlocked)
  {
    CheckedMeans(defs.positives, xs);
    CheckedMeans(defs.negatives, xs);
    OrderOfAscending(defs.positives);
    OrderOfAscending(defs.negatives);
    CardsIgnoreUnlisted(defs.positives, unlocked, xs, x, false);
    CardsIgnoreUnlisted(defs.negatives, unlocked, xs, x, true);
  }

  // ---------------------------------------------------------------------------
  // The window's list

  /** The dictionaries as the window declares them. */
  const BadgeDefinitions: Definitions := Definitions(PositiveBadges, NegativeBadges)

  /**
   * The window's dictionaries: 100 positive badges and 13 negative ones, each table ascending,
   * neither carrying a name of `StreakOnlyNames`.
   */
  lemma DefinitionsChecked()
    ensures |BadgeDefinitions.positives| == 100 && Checked(BadgeDefinitions.positives, StreakOnlyNames)
    ensures |BadgeDefinitions.negatives| == 13 && Checked(BadgeDefinitions.negatives, StreakOnlyNames)
  {
    PositiveBadgesChecked();
    NegativeBadgesChecked();
  }

  /** The list the window builds from its dictionaries. */
  function AllBadges(unlocked: seq<string>): seq<BadgeViewModel> {
    ListOf(BadgeDefinitions, unlocked)
  }

  /**
   * The window's layout: 113 cards, the first 100 positive and the rest negative, thresholds
   * ascending within each group, and each card unlocked exactly when its badge's name is among
   * the unlocked names.
   */
  predicate LaidOut(all: seq<BadgeViewModel>, unlocked: seq<string>) {
    |all| == 113 && SplitLayout(all, unlocked, 100)
  }

  /** Over an ascending table of 100 positive badges and one of 13 negative badges, the list is laid out so. */
  lemma LayoutOfSizes(defs: Definitions, unlocked: seq<string>)
    requires |defs.positives| == 100 && AscendingFrom(defs.positives, 0)
    requires |defs.negatives| == 13 && AscendingFrom(defs.negatives, 0)
    ensures LaidOut(ListOf(defs, unlocked), unlocked)
  {
    AscendingFromMeans(defs.positives, 0);
    AscendingFromMeans(defs.negatives, 0);
    ListCards(defs, unlocked);
    var a, b := Cards(defs.positives, unlocked, false), Cards(defs.negatives, unlocked, true);
    CardsLayout(defs.positives, unlocked, false);
    CardsLayout(defs.negatives, unlocked, true);
    ConcatLayout(a, b, unlocked);
  }

  /**
   * The window's subtitle counts, over its 113 cards, exactly the badges of the two tables
   * whose names are among the unlocked names.
   */
  lemma WindowSubtitle(unlocked: seq<string>)
    ensures |AllBadges(unlocked)| == 113
    ensures var n := |Filter(PositiveBadges, NamedIn(unlocked))| + |Filter(NegativeBadges, NamedIn(unlocked))|;
      Subtitle(AllBadges(unlocked)) == IntToString(n) + " / " + IntToString(113) + " badges unlocked"
  {
    var defs := BadgeDefinitions;
    DefinitionsChecked();
    CheckedMeans(defs.positives, StreakOnlyNames);
    CheckedMeans(defs.negatives, StreakOnlyNames);
    ListCards(defs, unlocked);
    FilterConcat(Cards(defs.positives, unlocked, false), Cards(defs.negatives, unlocked, true), IsUnlockedCard);
    CardsUnlockedCount(defs.positives, unlocked, false);
    CardsUnlockedCount(defs.negatives, unlocked, true);
  }

  /** The window's list is laid out as `LaidOut` states, whatever the unlocked names. */
  lemma AllBadgesLayout(unlocked: seq<string>)
    ensures LaidOut(AllBadges(unlocked), unlocked)
  {
    DefinitionsChecked();
    LayoutOfSizes(BadgeDefinitions, unlocked);
  }

  /**
   * Reaching a streak badge the tables do not carry ("First Steps", "Getting Started",
   * "Building Habits", "Dedication", "Committed", "Grandmaster" or "Legend") changes nothing in
   * the list: no card carries that name, so neither the unlocked count nor the subtitle moves.
   */
  lemma StreakOnlyBadgesNotCounted(unlocked: seq<string>, x: string)
    requires x in StreakOnlyNames
    ensures AllBadges(unlocked + [x]) == AllBadges(unlocked)
  {
    DefinitionsChecked();
    UnlistedNameIgnored(BadgeDefinitions, unlocked, StreakOnlyNames, x);
  }

  // ---------------------------------------------------------------------------
  // Filtering

  /** The four radio buttons over the list. */
  datatype BadgeFilter = PositiveOnly | NegativeOnly | UnlockedOnly | AllShown

  function Shows(f: BadgeFilter): BadgeViewModel -> bool {
    (c: BadgeViewModel) =>
      match f
      case PositiveOnly => !c.isNegative
      case NegativeOnly => c.isNegative
      case UnlockedOnly => c.isUnlocked
      case AllShown => true
  }

  /** `UpdateDisplay`: the cards the checked radio button lets through, in list order. */
  function Displayed(all: seq<BadgeViewModel>, f: BadgeFilter): (r: seq<BadgeViewModel>)
    ensures IsSubsequence(r, all)
  {
    FilterIsSubsequence(all, Shows(f));
    Filter(all, Shows(f))
  }

  /**
   * Each filter shows exactly the cards of its kind, in the order of the list, and "all"
   * shows the list unchanged.
   */
  lemma DisplayedExact(all: seq<BadgeViewModel>, f: BadgeFilter)
    ensures forall c :: c in Displayed(all, f) <==> c in all && Shows(f)(c)
    ensures IsSubsequence(Displayed(all, f), all)
    ensures f == AllShown ==> Displayed(all, f) == all
  {
    forall c ensures c in Displayed(all, f) <==> c in all && Shows(f)(c) {
      if c in all && Shows(f)(c) {
        FilterKeeps(all, Shows(f), c);
      }
      if c in Displayed(all, f) {
        FilterMember(all, Shows(f), c);
      }
    }
    FilterIsSubsequence(all, Shows(f));
    if f == AllShown {
      FilterKeepsAll(all, Shows(f));
    }
  }

  /** The positive and negative filters split the list between them. */
  lemma PositiveAndNegativeSplit(all: seq<BadgeViewModel>)
    ensures |Displayed(all, PositiveOnly)| + |Displayed(all, NegativeOnly)| == |all|
  {
    FilterComplementCounts(all, Shows(PositiveOnly), Shows(NegativeOnly));
  }

  class BadgeListWindow {
    /** `UserProgress.UnlockedBadges` as the window saw it when it opened. */
    const unlocked: seq<string>
    /** The two badge dictionaries `LoadBadges` builds. */
    const definitions: Definitions
    var allBadges: seq<BadgeViewModel>
    var subtitle: string
    var filter: BadgeFilter
    var displayed: seq<BadgeViewModel>

    /**
     * The window's state once loaded: the list built from its tables and unlocked names, the
     * subtitle over that list, and the display through the checked radio button.
     */
    predicate Shown()
      reads this
    {
      && allBadges == ListOf(definitions, unlocked)
      && subtitle == Subtitle(allBadges)
      && displayed == Displayed(allBadges, filter)
    }

    /**
     * Opening the window stores the unlocked names and the two tables, then loads the list and
     * shows it through the radio button checked at start.
     */
    constructor (progress: UserProgress, initial: BadgeFilter)
      ensures unlocked == old(progress.unlockedBadges)
      ensures definitions == BadgeDefinitions
      ensures filter == initial && Shown()
    {
      unlocked := progress.unlockedBadges;
      definitions := BadgeDefinitions;
      new;
      assert unlocked == old(progress.unlockedBadges);
      Open(initial);
    }

    /** The constructor's `LoadBadges(); UpdateDisplay();`, with `initial` as the checked radio button. */
    method Open(initial: BadgeFilter)
      modifies this`allBadges, this`subtitle, this`filter, this`displayed
      ensures filter == initial && Shown()
    {
      filter := initial;
      LoadBadges();
      UpdateDisplay();
    }

    /** `LoadBadges`: the positive cards then the negative cards, each table enumerated by threshold, then the subtitle. */
    method LoadBadges()
      modifies this`allBadges, this`subtitle
      ensures allBadges == ListOf(definitions, unlocked)
      ensures subtitle == Subtitle(allBadges)
    {
      var positiveCards := CardsInOrder(Sort(definitions.positives, AscendingKey), false);
      var negativeCards := CardsInOrder(Sort(definitions.negatives, AscendingKey), true);
      allBadges := positiveCards + negativeCards;
      subtitle := SubtitleOf(allBadges);
    }

    /** The subtitle lines of `LoadBadges`: `Count(b => b.IsUnlocked)` over the cards, then the text. */
    static method SubtitleOf(badges: seq<BadgeViewModel>) returns (text: string)
      ensures text == Subtitle(badges)
    {
      var unlockedCount := 0;
      var i := 0;
      while i < |badges|
        invariant 0 <= i <= |badges|
        invariant unlockedCount == UnlockedCount(badges[..i])
      {
        assert badges[..i + 1] == badges[..i] + [badges[i]];
        FilterSnoc(badges[..i], badges[i], IsUnlockedCard);
        if badges[i].isUnlocked {
          unlockedCount := unlockedCount + 1;
        }
        i := i + 1;
      }
      assert badges[..i] == badges;
      text := IntToString(unlockedCount) + " / " + IntToString(|badges|) + " badges unlocked";
    }

    /** One `foreach` of `LoadBadges`: a card per badge of the ordered table, appended in order. */
    method CardsInOrder(ordered: seq<Badge>, negative: bool) returns (badges: seq<BadgeViewModel>)
      ensures badges == Cards(ordered, unlocked, negative)
    {
      badges := [];
      var i := 0;
      while i < |ordered|
        invariant 0 <= i <= |ordered|
        invariant badges == Cards(ordered[..i], unlocked, negative)
      {
        assert ordered[..i + 1][..i] == ordered[..i];
        badges := badges + [CardOf(ordered[i], unlocked, negative)];
        i := i + 1;
      }
      assert ordered[..i] == ordered;
    }

    /** A radio button is checked: the display shows the list through it. */
    method SelectFilter(f: BadgeFilter)
      modifies this`filter, this`displayed
      ensures filter == f && displayed == Displayed(allBadges, f)
    {
      filter := f;
      UpdateDisplay();
    }

    /** `UpdateDisplay`: the cards the checked radio button lets through. */
    method UpdateDisplay()
      modifies this`displayed
      ensures displayed == Displayed(allBadges, filter)
    {
      var shown := [];
      var i := 0;
      while i < |allBadges|
        invariant 0 <= i <= |allBadges|
        invariant shown == Filter(allBadges[..i], Shows(filter))
      {
        assert allBadges[..i + 1] == allBadges[..i] + [allBadges[i]];
        FilterSnoc(allBadges[..i], allBadges[i], Shows(filter));
        if Shows(filter)(allBadges[i]) {
          shown := shown + [allBadges[i]];
        }
        i := i + 1;
      }
      assert allBadges[..i] == allBadges;
      displayed := shown;
    }
  }
}
