# ErgoHealthCue — a verified model of the cue engine

ErgoHealthCue is a Windows tray application that reminds the user to stretch and to
change desk position (sitting, standing, floor). Two timers fire cues at intervals the
user configures; each cue appears in an overlay with a 5-minute countdown. Completing a
cue earns XP, extends the completion streak and may unlock streak badges. Dismissing it,
or letting the countdown expire, costs XP and breaks the streak. The XP depends on the
kind of cue and on the length of the interval.

This project models that engine in Dafny, one module per C# file:

| module | file | C# file |
|---|---|---|
| `Wrappers`, `Numeric` | numeric.dfy | .NET int32 wrap-around, truncating `/` and `%`, `string.Trim`, `string.IsNullOrWhiteSpace`, `int.ToString`, `int.TryParse` |
| `Models` | models.dfy | Models/CueType.cs, Cue.cs, CueStatistic.cs, LeaderboardEntry.cs, AppSettings.cs |
| `Seqs`, `StableSort` | seqs.dfy, stable_sort.dfy | LINQ `Where`, `OrderByDescending(...).ThenByDescending(...)` (a stable sort) and `Take` |
| `Progress` | user_progress.dfy | Models/UserProgress.cs |
| `XPCalculator` | xp_calculator.dfy | Services/XPCalculator.cs |
| `Scheduler` | cue_scheduler.dfy | Services/CueScheduler.cs |
| `Overlay` | cue_overlay.dfy | Windows/CueOverlayWindow.xaml.cs |
| `Leaderboard` | leaderboard.dfy | Services/LeaderboardService.cs |
| `SettingsWindow` | settings_window.dfy | Windows/SettingsWindow.xaml.cs |
| `PauseDuration` | pause_duration.dfy | Windows/PauseDurationWindow.xaml.cs |
| `AddCue` | add_cue.dfy | Windows/AddCueWindow.xaml.cs |
| `StatisticsWindow` | statistics_window.dfy | Windows/StatisticsWindow.xaml.cs |
| `BadgeList` | badge_list.dfy | Windows/BadgeListWindow.xaml.cs |

The model has the same shape as the source:

- **Classes for mutable objects.** Objects whose fields the C# code updates in place are
  Dafny classes:
  - `AppSettings`, `UserProgress`, `CueScheduler`, `CueOverlayWindow`,
    `LeaderboardService`;
  - the four windows;
  - a `StatisticsLog` that stands in for the statistics file.

  Each method states its new state, usually by tying it to a pure function of the old
  state (`UserProgress.AddXP` against `AfterAddXP`, `CueScheduler.TriggerExerciseCue`
  against `ExerciseChoice`). The lemmas are proved about those functions.
- **Methods with loops.** The source's loops are methods with loop invariants: the
  level-up loop, the badge loop and the category filter. So are the loops that build
  the badge cards and choose the language.
- **Functions for pure code.** Pure computations are functions: XP, validation, ranking
  and formatting.

Outside inputs are parameters:

- **Randomness.** Every `Random.Next(n)` becomes a `draw: nat` argument, used as
  `draw % n`, so a lemma can quantify over all draws.
- **Clock.** `DateTime.Now` is a `now` argument, counted in .NET ticks (10^7 per
  second).
- **Identifiers.** `Guid.NewGuid()` is an `id` argument.
- **Idle check.** The `GetLastInputInfo` idle check is an `isActive` argument.
- **Network fetches.** A Firebase fetch is an `Option` argument. `None` stands for a
  fetch that threw.
- **Events.** Events the scheduler raises are appended to an `events` sequence.

The settings fields `LeaderboardEnabled`, `Username` and `UserId` are read and written by
SettingsWindow.xaml.cs and LeaderboardService.cs. Models/AppSettings.cs does not declare
them. The model adds them to `AppSettings` with the defaults `false`, `""` and a given
identifier.

## Model

| member | source | states |
|---|---|---|
| Numeric.Wrap32 | ErgoHealthCue/Windows/PauseDurationWindow.xaml.cs:30 | unchecked 32-bit arithmetic: the result is a 32-bit value congruent to the mathematical one modulo 2^32, and equal to it when it fits |
| Numeric.TruncDiv | ErgoHealthCue/Windows/CueOverlayWindow.xaml.cs:57-59 | C# integer division rounds toward zero, also for negative dividends |
| Numeric.TruncMod | ErgoHealthCue/Windows/StatisticsWindow.xaml.cs:73-79 | the remainder completes the truncating division, lies strictly inside ±divisor and takes the dividend's sign |
| Numeric.TrimStart | ErgoHealthCue/Windows/AddCueWindow.xaml.cs:45-46 | leading trim keeps a suffix, drops only white space, and stops at a non-white character |
| Numeric.TrimEnd | ErgoHealthCue/Windows/AddCueWindow.xaml.cs:45-46 | trailing trim keeps a prefix, drops only white space, and stops at a non-white character |
| Numeric.Trim | ErgoHealthCue/Windows/SettingsWindow.xaml.cs:352 | a trimmed text starts and ends with a non-white character |
| Numeric.TrimIsInfix | ErgoHealthCue/Windows/AddCueWindow.xaml.cs:45-46 | trimming keeps one contiguous slice and drops only white space on either side |
| Numeric.BlankIffTrimEmpty | ErgoHealthCue/Windows/AddCueWindow.xaml.cs:30-40 | `IsNullOrWhiteSpace` holds exactly when trimming leaves nothing |
| Numeric.TrimIdempotent | ErgoHealthCue/Windows/AddCueWindow.xaml.cs:45-46 | trimming a trimmed text changes nothing |
| Numeric.IntToString | ErgoHealthCue/Windows/BadgeListWindow.xaml.cs:87 | a formatted integer is non-empty and starts with a digit exactly when it is non-negative |
| Numeric.NatToStringValue | ErgoHealthCue/Windows/SettingsWindow.xaml.cs:31-34 | the digits of a formatted number spell that number |
| Numeric.TryParseInt32 | ErgoHealthCue/Windows/PauseDurationWindow.xaml.cs:17-27 | a successful parse yields a 32-bit value |
| Numeric.ParseFormatRoundTrip | ErgoHealthCue/Windows/SettingsWindow.xaml.cs:31-34 | parsing a formatted 32-bit integer gives the integer back (the settings boxes are filled with `ToString` and read back with `TryParse`) |
| Seqs.FilterMeaning | ErgoHealthCue/Services/CueScheduler.cs:195 | `Where` keeps exactly the elements that satisfy the predicate, and only elements of the input |
| Seqs.FilterSnoc | ErgoHealthCue/Windows/SettingsWindow.xaml.cs:174-177 | filtering a list extended by one element extends the filtered list by that element exactly when it satisfies the predicate |
| Seqs.FilterIsSubsequence | ErgoHealthCue/Windows/SettingsWindow.xaml.cs:150 | a filtered list keeps the input's order |
| Seqs.FilterComplementCounts | ErgoHealthCue/Windows/StatisticsWindow.xaml.cs:47-49 | two complementary filters split the input's count between them |
| StableSort.SortPermutes | ErgoHealthCue/Services/LeaderboardService.cs:76-79 | the descending sort is a permutation of its input |
| StableSort.SortSorted | ErgoHealthCue/Services/LeaderboardService.cs:76-79 | the sort's output is in non-increasing key order |
| StableSort.SortStable | ErgoHealthCue/Services/LeaderboardService.cs:76-79 | elements with equal keys keep their input order, as LINQ's ordering promises |
| StableSort.SortOfSorted | ErgoHealthCue/Windows/BadgeListWindow.xaml.cs:80 | sorting an already ordered list leaves it unchanged |
| StableSort.Take | ErgoHealthCue/Services/LeaderboardService.cs:80 | `Take(count)` is the longest prefix of at most `count` elements, and is empty for a non-positive count |
| Models.TargetPosition | ErgoHealthCue/Windows/CueOverlayWindow.xaml.cs:355-369 | a cue type names a desk position exactly when it is one of the three position-change types |
| Models.AppSettings.constructor | ErgoHealthCue/Models/AppSettings.cs:5-24 | the default settings: exercise 30–45 min random, position 60–120 min random, all positions available, no startup, sitting, language "auto", no cues, fresh initial progress |
| Progress.LevelUpsSettles | ErgoHealthCue/Models/UserProgress.cs:29-33 | the level-up loop stops with a balance below the current level's threshold, or at level 100, and never lowers the level |
| Progress.AfterAddXP | ErgoHealthCue/Models/UserProgress.cs:23-41 | adding XP changes only the level and the balance, and raises the total earned by the amount; `AddXPSettles`, `AddXPConserves` and `AddXPPreservesValid` state the rest |
| Progress.AfterRemoveXP | ErgoHealthCue/Models/UserProgress.cs:43-50 | removing XP changes only the balance, which never goes below zero and is the old balance minus the amount whenever it stays positive |
| Progress.AddXPSettles | ErgoHealthCue/Models/UserProgress.cs:23-40 | after adding XP the level is between the old level and 100, the total grows by the amount, and below level 100 the balance is under the next threshold |
| Progress.AddXPConserves | ErgoHealthCue/Models/UserProgress.cs:29-33 | level-ups move XP from the balance into levels without creating or losing any (cumulative threshold plus balance grows by exactly the amount) |
| Progress.CumulativeXPClosedForm | ErgoHealthCue/Models/UserProgress.cs:14-21 | reaching level `l` costs 250·l·(l−1) XP in total, because each level costs 500·level |
| Progress.AddXPPreservesValid | ErgoHealthCue/Models/UserProgress.cs:23-40 | adding non-negative XP keeps the progress invariants (level 1..100, non-negative balance and streaks, distinct badges) |
| Progress.RemoveXPFloors | ErgoHealthCue/Models/UserProgress.cs:43-50 | removing XP floors the balance at zero and leaves the level, total earned, streaks and badges unchanged |
| Progress.AfterIncrementStreak | ErgoHealthCue/Models/UserProgress.cs:58-65 | the streak grows by one, the best streak becomes the larger of the two, nothing else changes |
| Progress.AfterBreakStreak | ErgoHealthCue/Models/UserProgress.cs:67-70 | the streak resets to zero and the best streak is kept |
| Progress.NewBadgesMembership | ErgoHealthCue/Models/UserProgress.cs:91-98 | a badge is newly unlocked exactly when it is in the table, the streak reaches its threshold, and it was not already unlocked |
| Progress.NewBadgesInTableOrder | ErgoHealthCue/Models/UserProgress.cs:91-98 | new badges are reported in the table's order |
| Progress.NewBadgesNoneLeft | ErgoHealthCue/Models/UserProgress.cs:93 | when every qualifying badge is already unlocked, nothing new is reported |
| Progress.UnlockBadgesIdempotent | ErgoHealthCue/Models/UserProgress.cs:93-97 | a second check at the same streak unlocks nothing |
| Progress.StreakBadgeNamesDistinct | ErgoHealthCue/Models/UserProgress.cs:78-89 | the nine streak badges have distinct names |
| Progress.NewBadgesDistinct | ErgoHealthCue/Models/UserProgress.cs:93-97 | one check never reports the same badge twice |
| Progress.NewBadgesExtend | ErgoHealthCue/Models/UserProgress.cs:91-98 | each loop step appends the current badge exactly when the streak qualifies and the badge is not yet known |
| Progress.UnlockBadges | ErgoHealthCue/Models/UserProgress.cs:72-101 | the unlock check changes only the badge list, by appending exactly the names it reports; `NewBadgesMembership`, `NewBadgesInTableOrder`, `NewBadgesDistinct` and `UnlockBadgesIdempotent` state which names those are |
| Progress.UnlockBadgesPreservesValid | ErgoHealthCue/Models/UserProgress.cs:72-101 | unlocking keeps the unlocked list free of duplicates and all other invariants |
| Progress.UnlockKeyedOnCurrentStreak | ErgoHealthCue/Models/UserProgress.cs:93 | badges are keyed on the current streak, not the best one: a best streak of 10000 with current streak 0 unlocks nothing |
| Progress.UserProgress.constructor | ErgoHealthCue/Models/UserProgress.cs:5-12 | new progress is level 1 with no XP, no streaks and no badges |
| Progress.UserProgress.XPForNextLevel | ErgoHealthCue/Models/UserProgress.cs:14-21 | the next level costs 500 XP times the current level |
| Progress.UserProgress.AddXP | ErgoHealthCue/Models/UserProgress.cs:23-41 | the loop leaves the state `AfterAddXP` describes, so the settling, conservation and validity lemmas apply to it |
| Progress.UserProgress.RemoveXP | ErgoHealthCue/Models/UserProgress.cs:43-50 | the new state is `AfterRemoveXP` of the old, so the balance floors at zero |
| Progress.UserProgress.IncrementStreak | ErgoHealthCue/Models/UserProgress.cs:58-65 | the new state is `AfterIncrementStreak` of the old |
| Progress.UserProgress.BreakStreak | ErgoHealthCue/Models/UserProgress.cs:67-70 | the new state is `AfterBreakStreak` of the old |
| Progress.UserProgress.CheckAndUnlockBadges | ErgoHealthCue/Models/UserProgress.cs:72-101 | the badge loop appends and returns exactly `UnlockBadges` of the old state |
| XPCalculator.GetBaseXP | ErgoHealthCue/Services/XPCalculator.cs:37-52 | each cue group has its own base XP (position change 10, sitting 15, standing 25, floor 35), and each amount identifies its group |
| XPCalculator.IntervalModifier | ErgoHealthCue/Services/XPCalculator.cs:23-24 | the interval modifier lies between 0.7 and 1.0 |
| XPCalculator.CalculateXPGain | ErgoHealthCue/Services/XPCalculator.cs:16-35 | a completed cue earns the integer `base·(300 − d) / 300`, where `d` is the interval beyond 30 minutes capped at 90; the penalty for an uncompleted one is stated by `PenaltyIsHalfTheGain` |
| XPCalculator.PenaltyIsHalfTheGain | ErgoHealthCue/Services/XPCalculator.cs:29-32 | the penalty is minus half the gain, rounded toward zero |
| XPCalculator.ShortIntervalsEarnBase | ErgoHealthCue/Services/XPCalculator.cs:23-26 | intervals up to 30 minutes earn exactly the base XP |
| XPCalculator.GainBounds | ErgoHealthCue/Services/XPCalculator.cs:23-26 | the gain lies between 70% of the base and the base, and is at least 7 |
| XPCalculator.GainNonIncreasing | ErgoHealthCue/Services/XPCalculator.cs:20-26 | a longer interval never earns more, and beyond 120 minutes the gain is constant |
| XPCalculator.PenaltyBounds | ErgoHealthCue/Services/XPCalculator.cs:29-32 | the penalty is strictly negative and at most half the gain in size |
| XPCalculator.GetXPDescription | ErgoHealthCue/Services/XPCalculator.cs:54-63 | each cue group gets its own label |
| XPCalculator.DescriptionIdentifiesGroup | ErgoHealthCue/Services/XPCalculator.cs:54-63 | the label identifies the group, in both directions |
| Scheduler.RandomBetween | ErgoHealthCue/Services/CueScheduler.cs:151 | `Random.Next(lo, hi)` returns `lo` when the range is empty and otherwise a value in `[lo, hi)` |
| Scheduler.DrawInterval | ErgoHealthCue/Services/CueScheduler.cs:147-156 | the fixed interval is the minimum; a random one lies in `[min, max + 1)` with `max + 1` wrapped to 32 bits, and is the minimum when that range is empty |
| Scheduler.DrawIntervalBounds | ErgoHealthCue/Services/CueScheduler.cs:145-177 | a drawn interval lies within `[min, max]`, and is `min` when random intervals are off |
| Scheduler.DrawIntervalCovers | ErgoHealthCue/Services/CueScheduler.cs:149-152 | every minute count in `[min, max]` can be drawn |
| Scheduler.SelectExerciseForCurrentPosition | ErgoHealthCue/Services/CueScheduler.cs:275-296 | the selected cue is one of the candidates |
| Scheduler.PositionCandidate | ErgoHealthCue/Services/CueScheduler.cs:228-240 | an enabled position-change cue whose target position is available is a candidate |
| Scheduler.ExcludeLastMembers | ErgoHealthCue/Services/CueScheduler.cs:200-204 | excluding the last cue keeps only input cues with a different id |
| Scheduler.ExerciseCandidate | ErgoHealthCue/Services/CueScheduler.cs:195-210 | an enabled exercise cue survives the exclusion of the last cue unless it is the last one and another enabled exercise exists |
| Scheduler.ExerciseChoice | ErgoHealthCue/Services/CueScheduler.cs:193-221 | the exercise cue a trigger shows is an enabled exercise cue of the settings; `ExerciseChoiceSound`, `ExerciseChoiceAvoidsRepeat`, `ExerciseChoiceSingle`, `ExerciseChoicePrefersPosition` and `ExerciseChoiceReachable` state the rest |
| Scheduler.ExerciseChoiceSound | ErgoHealthCue/Services/CueScheduler.cs:193-221 | an exercise cue is chosen exactly when some enabled exercise cue exists, and the choice is an enabled exercise cue from the settings |
| Scheduler.ExerciseChoiceAvoidsRepeat | ErgoHealthCue/Services/CueScheduler.cs:200-210 | when another enabled exercise exists, the last exercise cue is not repeated |
| Scheduler.ExerciseChoiceSingle | ErgoHealthCue/Services/CueScheduler.cs:206-210 | with a single enabled exercise, it is chosen even if it was the last one |
| Scheduler.ExerciseChoicePrefersPosition | ErgoHealthCue/Services/CueScheduler.cs:275-295 | when the current position is available and a suitable eligible exercise exists, the choice suits the current position; an exercise is eligible when it is not the last one, or when the last one is the only enabled exercise (the fallback) |
| Scheduler.SelectReachable | ErgoHealthCue/Services/CueScheduler.cs:275-295 | every candidate allowed by the position rule is picked by some draw |
| Scheduler.ExerciseChoiceReachable | ErgoHealthCue/Services/CueScheduler.cs:193-221 | every eligible exercise allowed by the position rule is chosen by some draw, including the last one when it is the only enabled exercise |
| Scheduler.PositionChoiceSound | ErgoHealthCue/Services/CueScheduler.cs:226-273 | a position cue is chosen exactly when some enabled position-change cue targets an available position, and the choice is such a cue |
| Scheduler.PositionChoice | ErgoHealthCue/Services/CueScheduler.cs:226-273 | the position cue a trigger shows is an enabled position-change cue of the settings whose target is available; `PositionChoiceSound`, `PositionChoiceAvoidsRepeat` and `PositionChoiceReachable` state the rest |
| Scheduler.PositionChoiceAvoidsRepeat | ErgoHealthCue/Services/CueScheduler.cs:245-265 | when another eligible position cue exists, the last one is not repeated |
| Scheduler.PickReachable | ErgoHealthCue/Services/CueScheduler.cs:269 | every element of a list is picked by some draw |
| Scheduler.PositionChoiceReachable | ErgoHealthCue/Services/CueScheduler.cs:226-273 | every enabled position cue with an available target is chosen by some draw, unless it was the last one shown while another such cue exists (the fallback shows the last one again when it is the only eligible cue) |
| Scheduler.PositionCandidateKept | ErgoHealthCue/Services/CueScheduler.cs:245-265 | such a cue survives the exclusion of the last cue, or the fallback list brings it back |
| Scheduler.TimeRemaining | ErgoHealthCue/Services/CueScheduler.cs:33-57 | the remaining time is zero when the timer is stopped or paused, never negative, never more than the interval, and otherwise the interval minus the elapsed time |
| Scheduler.CueScheduler.constructor | ErgoHealthCue/Services/CueScheduler.cs:62-75 | a new scheduler has no timers running, no last cues, no events, and is not paused |
| Scheduler.CueScheduler.ScheduleNextExerciseCue | ErgoHealthCue/Services/CueScheduler.cs:145-160 | the exercise timer's interval becomes a drawn minute count (see `DrawIntervalBounds`) |
| Scheduler.CueScheduler.ScheduleNextPositionCue | ErgoHealthCue/Services/CueScheduler.cs:162-177 | the position timer's interval becomes a drawn minute count |
| Scheduler.CueScheduler.Start | ErgoHealthCue/Services/CueScheduler.cs:77-85 | both timers are rescheduled and started at `now` |
| Scheduler.CueScheduler.Stop | ErgoHealthCue/Services/CueScheduler.cs:87-91 | both cue timers stop |
| Scheduler.CueScheduler.Pause | ErgoHealthCue/Services/CueScheduler.cs:93-99 | pausing stops both cue timers and any pause timer |
| Scheduler.CueScheduler.PauseFor | ErgoHealthCue/Services/CueScheduler.cs:101-110 | a timed pause stops both cue timers and starts the pause timer with the given duration |
| Scheduler.CueScheduler.Resume | ErgoHealthCue/Services/CueScheduler.cs:112-120 | resuming restarts both timers at `now` with their previous intervals (no new draw) and stops the pause timer |
| Scheduler.CueScheduler.PauseTimerTick | ErgoHealthCue/Services/CueScheduler.cs:122-127 | the end of a timed pause resumes and raises `PauseEnded` |
| Scheduler.CueScheduler.UpdateSettings | ErgoHealthCue/Services/CueScheduler.cs:129-137 | new settings take effect, and the timers are redrawn and restarted only if one of them was running |
| Scheduler.CueScheduler.TriggerNow | ErgoHealthCue/Services/CueScheduler.cs:139-143 | a manual trigger raises the cue `ExerciseChoice` picks, flagged as manual, and records it as the last exercise cue |
| Scheduler.CueScheduler.TriggerExerciseCue | ErgoHealthCue/Services/CueScheduler.cs:193-222 | raises and records `ExerciseChoice` when it picks a cue, and changes nothing otherwise |
| Scheduler.CueScheduler.TriggerPositionCue | ErgoHealthCue/Services/CueScheduler.cs:226-273 | raises and records `PositionChoice` when it picks a cue, and changes nothing otherwise |
| Scheduler.CueScheduler.ExerciseTimerTick | ErgoHealthCue/Services/CueScheduler.cs:179-184 | a tick triggers an exercise cue, then redraws the interval and restarts the timer at `now` |
| Scheduler.CueScheduler.PositionTimerTick | ErgoHealthCue/Services/CueScheduler.cs:186-191 | a tick triggers a position cue, then redraws the interval and restarts the timer at `now` |
| Scheduler.CueScheduler.UpdatePosition | ErgoHealthCue/Services/CueScheduler.cs:298-302 | the current desk position becomes the given one |
| Overlay.StatisticsLog.AddStatistic | ErgoHealthCue/Windows/CueOverlayWindow.xaml.cs:207-212 | a statistic is appended to the log |
| Overlay.AverageInterval | ErgoHealthCue/Windows/CueOverlayWindow.xaml.cs:57-59 | the 32-bit mean of the interval bounds, truncated toward zero; without overflow it lies between two ordered bounds |
| Overlay.PotentialXP | ErgoHealthCue/Windows/CueOverlayWindow.xaml.cs:61-76 | the reward a completion offers is zero exactly for a manual trigger and positive otherwise; `StakesOfACue` bounds it |
| Overlay.PenaltyXP | ErgoHealthCue/Windows/CueOverlayWindow.xaml.cs:61-76 | the amount a dismissal or timeout costs is zero exactly for a manual trigger and positive otherwise; `StakesOfACue` ties it to the reward |
| Overlay.StakesOfACue | ErgoHealthCue/Windows/CueOverlayWindow.xaml.cs:61-76 | a manual cue has nothing at stake; an automatic one offers at least 7 XP and risks half of that, at least 3 |
| Overlay.CompletionEffect | ErgoHealthCue/Windows/CueOverlayWindow.xaml.cs:214-235 | a manual completion changes nothing, and the badges afterwards are the old ones followed by the reported new ones; `CompletionRewards` states the rest |
| Overlay.PenaltyEffect | ErgoHealthCue/Windows/CueOverlayWindow.xaml.cs:262-274 | a manual cue costs nothing, and a penalty changes only the balance and the current streak; `PenaltyCosts` states how |
| Overlay.CompletionRewards | ErgoHealthCue/Windows/CueOverlayWindow.xaml.cs:214-235 | completing an automatic cue adds the XP to the total, extends the streak, never lowers the level and appends only the newly unlocked badges; a manual cue changes nothing; the progress stays valid |
| Overlay.PenaltyCosts | ErgoHealthCue/Windows/CueOverlayWindow.xaml.cs:262-274 | a penalty zeroes the streak, floors the balance at zero and keeps level, total, best streak and badges; a manual cue changes nothing |
| Overlay.CueOverlayWindow.IsPositionChangeCue | ErgoHealthCue/Windows/CueOverlayWindow.xaml.cs:113-118 | a cue is a position change exactly when its type names a target position |
| Overlay.CueOverlayWindow.constructor | ErgoHealthCue/Windows/CueOverlayWindow.xaml.cs:41-111 | the overlay remembers the level, computes the stakes from the average interval of the cue's kind, opens a statistic shown at `now`, and starts a 300-second countdown |
| Overlay.CueOverlayWindow.CountdownTick | ErgoHealthCue/Windows/CueOverlayWindow.xaml.cs:135-167 | the countdown only advances while the user is active; the cue times out exactly after 300 active seconds, and the timeout notice is returned exactly then |
| Overlay.CueOverlayWindow.Complete | ErgoHealthCue/Windows/CueOverlayWindow.xaml.cs:201-247 | completion logs an automatic cue as completed and applies `CompletionEffect`; a position cue moves the desk position; a level-up is reported exactly when an automatic cue raised the level |
| Overlay.CueOverlayWindow.Dismiss | ErgoHealthCue/Windows/CueOverlayWindow.xaml.cs:249-277 | dismissal logs an automatic cue as dismissed and applies `PenaltyEffect` |
| Overlay.TimeoutNotice | ErgoHealthCue/Windows/CueOverlayWindow.xaml.cs:288-314 | the timeout notice names the lost XP and the broken streak exactly when a penalty was taken, and otherwise asks for a prompt response |
| Overlay.CueOverlayWindow.HandleTimeout | ErgoHealthCue/Windows/CueOverlayWindow.xaml.cs:279-317 | a timeout logs the cue as dismissed, manual or not, applies `PenaltyEffect`, and returns the notice: the lost XP and the broken streak after a penalty, otherwise the plea to respond promptly |
| Overlay.CueOverlayWindow.UpdateDeskPosition | ErgoHealthCue/Windows/CueOverlayWindow.xaml.cs:355-369 | a position-change cue sets the scheduler's position to its target; other cues leave it unchanged |
| Leaderboard.TopEntriesAreTheTop | ErgoHealthCue/Services/LeaderboardService.cs:76-81 | the top list has `min(count, n)` entries, all from the fetch, in rank order, and none of the omitted entries outranks any listed one |
| Leaderboard.RankingIsStable | ErgoHealthCue/Services/LeaderboardService.cs:78-79 | entries tied on level and total XP keep their fetched order |
| Leaderboard.Ranked | ErgoHealthCue/Services/LeaderboardService.cs:76-79 | the ranking is a permutation of the fetched entries; `SortSorted` and `RankingIsStable` state its order |
| Leaderboard.TopEntries | ErgoHealthCue/Services/LeaderboardService.cs:76-81 | the top list has `count` entries, or all of them when fewer were fetched, and none for a non-positive count; `TopEntriesAreTheTop` states which |
| Leaderboard.FindIndex | ErgoHealthCue/Services/LeaderboardService.cs:109 | the index of the first entry with the user's id, or −1 when none has it |
| Leaderboard.UserRank | ErgoHealthCue/Services/LeaderboardService.cs:103-110 | the rank is −1 or a place between 1 and the number of entries; `UserRankMeaning` states which |
| Leaderboard.UserRankMeaning | ErgoHealthCue/Services/LeaderboardService.cs:103-110 | the rank is −1 exactly when the user is absent; otherwise it is the 1-based position of the user's first entry in the ranking |
| Leaderboard.LeaderboardService.constructor | ErgoHealthCue/Services/LeaderboardService.cs:18-24 | the service keeps the user id, username and enabled flag |
| Leaderboard.LeaderboardService.UpdateEnabled | ErgoHealthCue/Services/LeaderboardService.cs:26-29 | the enabled flag becomes the given value |
| Leaderboard.LeaderboardService.UpdateLeaderboard | ErgoHealthCue/Services/LeaderboardService.cs:31-61 | nothing is written exactly when the service is disabled or the username is blank; otherwise the entry carries the user's progress and counts |
| Leaderboard.LeaderboardService.GetTopEntries | ErgoHealthCue/Services/LeaderboardService.cs:63-88 | disabled or a failed fetch gives an empty list; otherwise the top `count` ranked entries |
| Leaderboard.LeaderboardService.GetUserRank | ErgoHealthCue/Services/LeaderboardService.cs:90-117 | disabled or a failed fetch gives −1; otherwise the user's rank, which is −1 or at least 1 |
| SettingsWindow.ValidateIntervals | ErgoHealthCue/Windows/SettingsWindow.xaml.cs:264-319 | the interval boxes pass exactly when they parse and satisfy 1 ≤ min ≤ max (random) or min ≥ 1 (fixed, then max = min); each failure carries its own message |
| SettingsWindow.LoadThenValidate | ErgoHealthCue/Windows/SettingsWindow.xaml.cs:30-53 | saving unedited boxes loaded from valid settings gives back the same intervals |
| SettingsWindow.ValidatedIntervalsDrawable | ErgoHealthCue/Windows/SettingsWindow.xaml.cs:322-328 | intervals that pass validation can be drawn by the scheduler exactly when the maximum is below `int.MaxValue`; at `int.MaxValue`, `max + 1` wraps and `Random.Next` throws |
| SettingsWindow.RadioFor | ErgoHealthCue/Windows/SettingsWindow.xaml.cs:74-85 | the radio button checked on load names the current position |
| SettingsWindow.CategoryCues | ErgoHealthCue/Windows/SettingsWindow.xaml.cs:139-177 | the cues the checked radio shows are a subsequence of all cues; `CategoryCuesExact` states which |
| SettingsWindow.CategoryCuesExact | ErgoHealthCue/Windows/SettingsWindow.xaml.cs:139-177 | the shown list holds exactly the cues of the checked category, in the original order; with no radio checked it holds all cues |
| SettingsWindow.DefaultTypeFor | ErgoHealthCue/Windows/SettingsWindow.xaml.cs:188-197 | the type offered for a new cue belongs to the checked category, is a position change exactly under that radio, and is SittingStretch when nothing is checked |
| SettingsWindow.AddedCueShows | ErgoHealthCue/Windows/SettingsWindow.xaml.cs:199-204 | a cue added in the checked category appears at the end of the shown list |
| SettingsWindow.RemoveFirstRemovesOne | ErgoHealthCue/Windows/SettingsWindow.xaml.cs:219 | `List.Remove` removes exactly one occurrence when present and changes nothing otherwise |
| SettingsWindow.RemoveFirstAt | ErgoHealthCue/Windows/SettingsWindow.xaml.cs:219 | removal deletes the first occurrence, at its index |
| SettingsWindow.SelectLanguage | ErgoHealthCue/Windows/SettingsWindow.xaml.cs:59-67 | the language loop selects the first item whose tag is the saved language, if any |
| SettingsWindow.SettingsWindow.constructor | ErgoHealthCue/Windows/SettingsWindow.xaml.cs:21-94 | the form is loaded from the settings, and the working cue list and its filtered view are set up |
| SettingsWindow.SettingsWindow.CollectCategory | ErgoHealthCue/Windows/SettingsWindow.xaml.cs:174-177 | the collecting loop yields exactly the category's cues |
| SettingsWindow.SettingsWindow.FilterCues | ErgoHealthCue/Windows/SettingsWindow.xaml.cs:139-183 | the shown list and caption follow the checked radio |
| SettingsWindow.SettingsWindow.SelectRadio | ErgoHealthCue/Windows/SettingsWindow.xaml.cs:134-137 | checking a radio refilters the list |
| SettingsWindow.SettingsWindow.AddCue | ErgoHealthCue/Windows/SettingsWindow.xaml.cs:185-205 | the dialog is offered the category's default type; an accepted cue is appended and the view refiltered; a cancelled dialog changes nothing |
| SettingsWindow.SettingsWindow.RemoveCue | ErgoHealthCue/Windows/SettingsWindow.xaml.cs:207-227 | a confirmed removal of a selected cue removes its first occurrence and refilters; otherwise nothing changes; the "Please select a cue to remove." notice is returned exactly when no cue is selected |
| SettingsWindow.SettingsWindow.ResetToDefault | ErgoHealthCue/Windows/SettingsWindow.xaml.cs:229-250 | a confirmed reset replaces the cues with the defaults and refilters; otherwise nothing changes |
| SettingsWindow.SettingsWindow.WriteIntervals | ErgoHealthCue/Windows/SettingsWindow.xaml.cs:322-328 | the validated intervals and the random flags are written to the settings |
| SettingsWindow.SettingsWindow.WriteRest | ErgoHealthCue/Windows/SettingsWindow.xaml.cs:331-352 | language, cues, position, leaderboard flag and trimmed username are written, and the startup choice is returned |
| SettingsWindow.SettingsWindow.Commit | ErgoHealthCue/Windows/SettingsWindow.xaml.cs:322-359 | all fields are written, and the save is rejected with the username message exactly when the leaderboard is on and the username is blank |
| SettingsWindow.SettingsWindow.Save | ErgoHealthCue/Windows/SettingsWindow.xaml.cs:258-366 | an interval failure writes nothing and reports the first failing group; otherwise the fields are written, and the save succeeds exactly when the leaderboard is off or the username is not blank |
| PauseDuration.ParseBoxes | ErgoHealthCue/Windows/PauseDurationWindow.xaml.cs:17-27 | a parsed box holds a 32-bit value |
| PauseDuration.TypedValues | ErgoHealthCue/Windows/PauseDurationWindow.xaml.cs:17-27 | typing two 32-bit numbers yields exactly those numbers |
| PauseDuration.ValidatePauseAsWritten | ErgoHealthCue/Windows/PauseDurationWindow.xaml.cs:14-41 | the handler as written accepts only parsed, non-negative hours, minutes in 0..59 and a non-zero total of at most 480, computed with 32-bit wrap-around |
| PauseDuration.AsWrittenAcceptsNegativePause | ErgoHealthCue/Windows/PauseDurationWindow.xaml.cs:30-41 | 35791395 hours and 0 minutes pass the checks as written, with a total of −2147483596 minutes |
| PauseDuration.ValidatePause | ErgoHealthCue/Windows/PauseDurationWindow.xaml.cs:14-41 | a pause is accepted exactly when the hours parse as non-negative, the minutes parse within 0..59 and the true total is 1..480 minutes; each rejection carries its message |
| PauseDuration.AsWrittenAgreesWithoutOverflow | ErgoHealthCue/Windows/PauseDurationWindow.xaml.cs:30-41 | when the total fits in 32 bits, the handler as written and the corrected one agree |
| PauseDuration.AsWrittenDiffersOnlyOnOverflow | ErgoHealthCue/Windows/PauseDurationWindow.xaml.cs:30-41 | the two differ only on totals that overflow 32 bits |
| PauseDuration.PauseDurationTicks | ErgoHealthCue/Windows/PauseDurationWindow.xaml.cs:43 | a duration is produced exactly for an accepted pause, and lies between 1 minute and 8 hours |
| AddCue.BlankCue | ErgoHealthCue/Windows/AddCueWindow.xaml.cs:9 | the dialog's initial cue has the first type, empty texts and is enabled |
| AddCue.InitialSelection | ErgoHealthCue/Windows/AddCueWindow.xaml.cs:18-25 | the combo box starts at the given default type, or at the first type |
| AddCue.CueFromForm | ErgoHealthCue/Windows/AddCueWindow.xaml.cs:28-48 | a cue is built exactly when title and description are not blank; a blank title is reported first; the cue carries the selected type and the trimmed texts |
| AddCue.CueTextsTrimmed | ErgoHealthCue/Windows/AddCueWindow.xaml.cs:42-48 | an accepted cue's title and description have no surrounding white space |
| AddCue.SurroundingSpaceIgnored | ErgoHealthCue/Windows/AddCueWindow.xaml.cs:30-46 | white space around the title and around the description does not change the outcome (error or cue) |
| AddCue.AddCueWindow.constructor | ErgoHealthCue/Windows/AddCueWindow.xaml.cs:11-26 | the dialog opens with a blank cue, the initial selection and no result |
| AddCue.AddCueWindow.Select | ErgoHealthCue/Windows/AddCueWindow.xaml.cs:44 | the selected type becomes the given one |
| AddCue.AddCueWindow.Ok | ErgoHealthCue/Windows/AddCueWindow.xaml.cs:28-52 | OK closes the dialog with the built cue, or keeps it open with the warning and leaves the cue unchanged |
| AddCue.AddCueWindow.Cancel | ErgoHealthCue/Windows/AddCueWindow.xaml.cs:54-58 | Cancel closes the dialog with a negative result |
| AddCue.AddCueWindow.Outcome | ErgoHealthCue/Windows/AddCueWindow.xaml.cs:50 | the caller receives a cue exactly when the dialog was accepted |
| StatisticsWindow.StatusText | ErgoHealthCue/Windows/StatisticsWindow.xaml.cs:20-23 | "Completed" exactly for completed cues, "Dismissed" exactly for the rest |
| StatisticsWindow.Summarize | ErgoHealthCue/Windows/StatisticsWindow.xaml.cs:46-49 | the total counts every statistic and splits into completed plus dismissed |
| StatisticsWindow.SummarizeSnoc | ErgoHealthCue/Windows/StatisticsWindow.xaml.cs:47-49 | one more statistic adds one to the total and one to exactly one of the two counts |
| StatisticsWindow.GetResponseTime | ErgoHealthCue/Windows/StatisticsWindow.xaml.cs:67-83 | "N/A" exactly when the cue was neither completed nor dismissed; otherwise the formatted time between showing and responding |
| StatisticsWindow.FormatDuration | ErgoHealthCue/Windows/StatisticsWindow.xaml.cs:73-79 | the response time text; `DurationComponents`, `WholeDaysDropped` and `NegativeDurationShowsSeconds` state what it shows |
| StatisticsWindow.DurationComponents | ErgoHealthCue/Windows/StatisticsWindow.xaml.cs:73-79 | under a minute the seconds are shown; under an hour the whole minutes; hours and minutes are the `TimeSpan` components |
| StatisticsWindow.WholeDaysDropped | ErgoHealthCue/Windows/StatisticsWindow.xaml.cs:78-79 | the format shows the `Hours` component, so a response a day later reads the same |
| StatisticsWindow.NegativeDurationShowsSeconds | ErgoHealthCue/Windows/StatisticsWindow.xaml.cs:73-75 | a negative duration is shown as its seconds component, between −59 and 0 |
| StatisticsWindow.MapRows | ErgoHealthCue/Windows/StatisticsWindow.xaml.cs:54-61 | each statistic becomes one row, in the same position |
| StatisticsWindow.Rows | ErgoHealthCue/Windows/StatisticsWindow.xaml.cs:52-62 | the grid has one row per statistic; `RowsNewestFirst` states their order and content |
| StatisticsWindow.InsertThenMap | ErgoHealthCue/Windows/StatisticsWindow.xaml.cs:52-62 | inserting then projecting equals projecting then inserting |
| StatisticsWindow.SortThenMap | ErgoHealthCue/Windows/StatisticsWindow.xaml.cs:52-62 | ordering statistics then projecting equals projecting then ordering rows |
| StatisticsWindow.RowsNewestFirst | ErgoHealthCue/Windows/StatisticsWindow.xaml.cs:52-62 | the grid shows every statistic once, newest first, with ties in log order |
| StatisticsWindow.StatisticsWindow.constructor | ErgoHealthCue/Windows/StatisticsWindow.xaml.cs:42-65 | the window shows the summary counts and the ordered rows |
| BadgeList.CheckedMeans | ErgoHealthCue/Windows/BadgeListWindow.xaml.cs:42-115 | the table check holds exactly when the thresholds strictly ascend and none of the given names occurs |
| BadgeList.PositiveBadgesChecked | ErgoHealthCue/Windows/BadgeListWindow.xaml.cs:42-78 | the positive table has 100 badges with strictly ascending thresholds and none of the seven streak-only names |
| BadgeList.NegativeBadgesChecked | ErgoHealthCue/Windows/BadgeListWindow.xaml.cs:100-115 | the negative table has 13 badges with strictly ascending thresholds and none of the seven streak-only names |
| BadgeList.TablesChecked | ErgoHealthCue/Windows/BadgeListWindow.xaml.cs:42-115 | both tables ascend and omit the seven streak-only names |
| BadgeList.OrderOfAscending | ErgoHealthCue/Windows/BadgeListWindow.xaml.cs:80 | ordering an ascending table by threshold leaves it as it is |
| BadgeList.CardOf | ErgoHealthCue/Windows/BadgeListWindow.xaml.cs:82-96 | a card is unlocked exactly when its name is unlocked; locked cards show "???" and a lock; unlocked cards show "Complete/Dismiss N cues in a row" |
| BadgeList.CardsPointwise | ErgoHealthCue/Windows/BadgeListWindow.xaml.cs:80-97 | the i-th card is the card of the i-th badge |
| BadgeList.CardsLayout | ErgoHealthCue/Windows/BadgeListWindow.xaml.cs:80-134 | cards from an ascending table are in ascending threshold order and marked from the unlocked list |
| BadgeList.ConcatLayout | ErgoHealthCue/Windows/BadgeListWindow.xaml.cs:117-134 | positive cards followed by negative cards form the split layout |
| BadgeList.ListOf | ErgoHealthCue/Windows/BadgeListWindow.xaml.cs:37-134 | the window builds one card per badge of its two tables; `ListCards`, `LayoutOfSizes` and `UnlistedNameIgnored` state the cards |
| BadgeList.ListCards | ErgoHealthCue/Windows/BadgeListWindow.xaml.cs:80-134 | the list is the positive cards followed by the negative cards |
| BadgeList.UnlockedCount | ErgoHealthCue/Windows/BadgeListWindow.xaml.cs:137 | the unlocked count is between 0 and the number of cards |
| BadgeList.Subtitle | ErgoHealthCue/Windows/BadgeListWindow.xaml.cs:137-138 | the "N / M badges unlocked" line over a list of cards |
| BadgeList.CardsIgnoreUnlisted | ErgoHealthCue/Windows/BadgeListWindow.xaml.cs:82 | unlocking a name the table does not list changes no card |
| BadgeList.UnlistedNameIgnored | ErgoHealthCue/Windows/BadgeListWindow.xaml.cs:82-138 | unlocking a name neither table lists changes nothing in the list |
| BadgeList.DefinitionsChecked | ErgoHealthCue/Windows/BadgeListWindow.xaml.cs:42-115 | the window's definitions are the two checked tables |
| BadgeList.LayoutOfSizes | ErgoHealthCue/Windows/BadgeListWindow.xaml.cs:37-134 | checked definitions give 100 positive cards, then 13 negative ones, each in ascending order |
| BadgeList.AllBadgesLayout | ErgoHealthCue/Windows/BadgeListWindow.xaml.cs:37-134 | the window's badge list has that layout for every unlocked list |
| BadgeList.StreakOnlyBadgesNotCounted | ErgoHealthCue/Windows/BadgeListWindow.xaml.cs:137-138 | the seven streak badges neither table lists ("First Steps" at a streak of 10, "Getting Started", "Building Habits", "Dedication", "Committed", "Grandmaster", "Legend") have no card, so unlocking one changes no card and no count |
| BadgeList.Displayed | ErgoHealthCue/Windows/BadgeListWindow.xaml.cs:146-170 | a filter shows a subsequence of the cards; `DisplayedExact` and `PositiveAndNegativeSplit` state which |
| BadgeList.DisplayedExact | ErgoHealthCue/Windows/BadgeListWindow.xaml.cs:146-170 | the shown cards are exactly those the filter admits, in list order, and all of them under "All" |
| BadgeList.PositiveAndNegativeSplit | ErgoHealthCue/Windows/BadgeListWindow.xaml.cs:152-159 | the positive and negative filters split the cards between them |
| BadgeList.BadgeListWindow.constructor | ErgoHealthCue/Windows/BadgeListWindow.xaml.cs:29-35 | the window takes the unlocked badges and the definitions, and shows the initial filter |
| BadgeList.BadgeListWindow.Open | ErgoHealthCue/Windows/BadgeListWindow.xaml.cs:33-34 | opening loads the cards and shows the chosen filter |
| BadgeList.BadgeListWindow.LoadBadges | ErgoHealthCue/Windows/BadgeListWindow.xaml.cs:37-139 | the cards are `ListOf` the definitions and the subtitle counts the unlocked cards |
| BadgeList.BadgeListWindow.SubtitleOf | ErgoHealthCue/Windows/BadgeListWindow.xaml.cs:137-138 | counting the unlocked cards one by one gives the line `Subtitle` specifies |
| BadgeList.CardsUnlockedCount | ErgoHealthCue/Windows/BadgeListWindow.xaml.cs:82-97 | the unlocked cards of a table are exactly its badges whose names the user has unlocked |
| BadgeList.WindowSubtitle | ErgoHealthCue/Windows/BadgeListWindow.xaml.cs:137-138 | the window lists 113 cards and its subtitle counts the badges of both tables whose names are unlocked |
| BadgeList.BadgeListWindow.CardsInOrder | ErgoHealthCue/Windows/BadgeListWindow.xaml.cs:80-97 | the card-building loop yields `Cards` of the ordered table |
| BadgeList.BadgeListWindow.SelectFilter | ErgoHealthCue/Windows/BadgeListWindow.xaml.cs:141-144 | choosing a filter shows exactly the cards it admits |
| BadgeList.BadgeListWindow.UpdateDisplay | ErgoHealthCue/Windows/BadgeListWindow.xaml.cs:146-170 | the display loop shows `Displayed` of the cards under the current filter |

## Left out

- **Persistence.** The JSON settings and statistics files are not part of this model.
  - DataService is not part of this model; statistics go to `StatisticsLog`.
  - The `SaveSettings` calls after an outcome, a position change or a settings save are
    not modelled.
- **Firebase.** The network calls and their `HttpClient` are not modelled.
  - A fetch is an `Option` argument; `None` stands for a fetch that threw.
  - `UpdateLeaderboardAsync` in the overlay only forwards to the service, and is not
    modelled.
- **Windows registry.** StartupService is not part of this model. The settings window
  receives the current startup flag and returns the flag to store.
- **Idle detection.** The `GetLastInputInfo` idle check is a foreign call. Its answer is
  the `isActive` argument.
- **Time and randomness.**
  - `DispatcherTimer` scheduling is modelled as an enabled flag, an interval and a start
    time per timer.
  - `DateTime.Now` and `Guid.NewGuid()` are arguments.
  - `Random` is the `draw` argument.
- **Floating point.** `GetProgressPercentage`, `LeaderboardEntry.CompletionRate` and the
  overlay's timer bar are floating-point display values.
- XPCalculator.CalculateXPGain: the modifier is computed in exact real arithmetic. An IEEE
  double product that lands just below an integer could floor one lower.
- XPCalculator.CalculateXPGain: the 32-bit overflow of `intervalMinutes - 30` for
  intervals near `int.MinValue` is not modelled, because the settings never allow them.
- Progress.UserProgress.AddXP: `CurrentXP` and `TotalXPEarned` are unbounded integers. The
  32-bit wrap-around after more than two billion XP is not modelled.
- Scheduler.CueScheduler.PauseFor: requires a non-negative duration. The exception
  `DispatcherTimer` throws for a negative interval is not modelled.
- Scheduler.CueScheduler.ScheduleNextExerciseCue: requires `min <= max + 1` (with `max + 1`
  wrapped to 32 bits) when random intervals are on, because `Random.Next` throws otherwise.
  `ScheduleNextPositionCue`, `ExerciseTimerTick` and `PositionTimerTick` have the same
  requirement, and `Start` and `UpdateSettings` require it of both groups (`SettingsDrawable`).
  The model also does not capture the `ArgumentOutOfRangeException` the
  `DispatcherTimer.Interval` setter throws for a negative interval or one above
  `Int32.MaxValue` milliseconds (about 35791 minutes); the settings window accepts such
  maxima, and the model then records the interval as if the timer had taken it.
- **User interface.**
  - Animations, flashing, brushes, colours and the countdown text are not modelled.
  - The badge-unlocked and level-up popups are not modelled. The overlay returns the new
    badges and the level-up flag instead.
  - Message boxes are values. The timeout notice (`HandleTimeout`, `CountdownTick`), the
    no-selection notice of `RemoveCue`, the reset success message of `ResetToDefault`, the
    validation messages of `Save` and the warnings of the add-cue dialog are returned. The
    yes/no confirmations of `RemoveCue` and `ResetToDefault` are the `confirmed` argument.
    Captions and icons are not modelled.
  - The `BadgeViewModel` colour, style and tooltip fields are not modelled.
  - The settings window's visibility toggles and its statistics and leaderboard buttons
    are not modelled.
- SettingsWindow.SettingsWindow.constructor: sets the filtered list to `CategoryCues`
  directly, the value `FilterCues` computes, instead of calling the loop.
- SettingsWindow.RemoveFirst: compares cues by value where `List.Remove` on a class compares
  references. The two agree while the cues in the list are distinct values, as cues with
  distinct ids are.
- SettingsWindow.SettingsWindow.Save: the text boxes are held as their `TryParse` results.
  A null `Text`, a null language tag and a null radio state beyond "unchecked" are not
  modelled.
- **Pause dialog.** `CancelButton_Click` in PauseDurationWindow and its `DialogResult` are
  not modelled. An accepted pause is the value `PauseDurationTicks` returns.
- **Application wiring and other windows.**
  - App.xaml.cs (the tray, the wiring between the services, first-run prompts) is not
    part of this model.
  - The windows outside the core are not part of this model: leaderboard, badge-unlocked,
    welcome, username prompt and level-up.
  - `DataService.CreateDefaultSettings` is not part of this model. The default cue list
    is an argument of `ResetToDefault`.

## Findings

| source | as written | input that shows it | evidently intended | confidence | as-written member | corrected member |
|---|---|---|---|---|---|---|
| ErgoHealthCue/Windows/PauseDurationWindow.xaml.cs:30-41 | `hours * 60 + minutes` is computed in unchecked 32-bit arithmetic. It is then checked only against `== 0` and `> 480`. | hours = 35791395, minutes = 0: the total wraps to −2147483596, which is non-zero and below 480, so the pause is accepted with a negative duration | accept only pauses whose true total is between 1 and 480 minutes | not executed | PauseDuration.ValidatePauseAsWritten, PauseDuration.AsWrittenAcceptsNegativePause | PauseDuration.ValidatePause |
