/**
 * The cue scheduler (Services/CueScheduler.cs). Two repeating timers raise exercise and
 * position-change cues, a third ends a timed pause.
 *
 * Each `DispatcherTimer` is an `enabled` flag plus an interval in ticks; a timer tick is a
 * method that may only run while its timer is enabled. `Random.Shared` is an oracle: every
 * random call takes a `draw` argument, and `Random.Next(n)` is `draw % n`. The raised events
 * are appended to the `events` outbox; `DateTime.Now` is the `now` argument.
 */
module Scheduler {
  import opened Wrappers
  import opened Numeric
  import opened Seqs
  import StableSort
  import opened Models

  datatype SchedulerEvent =
    | CueTriggered(cue: Cue)
    | CueTriggeredManually(cue: Cue, isManual: bool)
    | PauseEnded

  /** The three position-availability switches of the settings. */
  datatype Availability = Availability(standing: bool, sitting: bool, floor: bool) {
    predicate Has(p: DeskPosition) {
      match p
      case Standing => standing
      case Sitting => sitting
      case Floor => floor
    }
  }

  // ---------------------------------------------------------------------------
  // Interval draws

  /** `Random.Next(lo, hi)`: a value in `[lo, hi)`, or `lo` itself when the range is empty. */
  function RandomBetween(lo: int, hi: int, draw: nat): (r: int)
    requires lo <= hi
    ensures lo == hi ==> r == lo
    ensures lo < hi ==> lo <= r < hi
  {
    if lo == hi then lo else lo + draw % (hi - lo)
  }

  /** `Random.Next(min, max + 1)` accepts its bounds (`max + 1` is computed in 32 bits). */
  predicate CanDraw(min: int, max: int, useRandom: bool) {
    !useRandom || min <= Wrap32(max + 1)
  }

  /**
   * The interval in minutes that `ScheduleNext*Cue` chooses: the minimum when randomisation is
   * off, otherwise `Random.Next(min, max + 1)` with `max + 1` computed in 32 bits.
   */
  function DrawInterval(min: int, max: int, useRandom: bool, draw: nat): (r: int)
    requires CanDraw(min, max, useRandom)
    ensures !useRandom ==> r == min
    ensures useRandom && min == Wrap32(max + 1) ==> r == min
    ensures useRandom && min < Wrap32(max + 1) ==> min <= r < Wrap32(max + 1)
  {
    if useRandom then RandomBetween(min, Wrap32(max + 1), draw) else min
  }

  /**
   * With `min <= max` (and `max + 1` still a 32-bit value) a drawn interval lies in
   * `[min, max]`; with randomisation off it is `min`.
   */
  lemma DrawIntervalBounds(min: int, max: int, useRandom: bool, draw: nat)
    requires min <= max && IsInt32(max) && max < Int32Max
    ensures CanDraw(min, max, useRandom)
    ensures min <= DrawInterval(min, max, useRandom, draw) <= max
    ensures !useRandom ==> DrawInterval(min, max, useRandom, draw) == min
  {
  }

  /** Every interval in `[min, max]` can be drawn when randomisation is on. */
  lemma DrawIntervalCovers(min: int, max: int, v: int)
    requires IsInt32(max) && max < Int32Max && min <= v <= max
    ensures CanDraw(min, max, true)
    ensures exists draw: nat :: DrawInterval(min, max, true, draw) == v
  {
    var draw: nat := v - min;
    assert DrawInterval(min, max, true, draw) == v;
  }

  // ---------------------------------------------------------------------------
  // Candidate selection

  predicate IsEnabledExercise(c: Cue) {
    c.isEnabled && !IsPositionChange(c.cueType)
  }

  predicate IsEnabledPositionChange(c: Cue) {
    c.isEnabled && IsPositionChange(c.cueType)
  }

  function HasOtherId(id: Guid): Cue -> bool {
    (c: Cue) => c.id != id
  }

  function SuitsCurrent(p: DeskPosition): Cue -> bool {
    (c: Cue) => SuitsPosition(c.cueType, p)
  }

  /** A position-change cue whose target position is available; other cues pass. */
  function TargetAvailable(avail: Availability): Cue -> bool {
    (c: Cue) => match c.cueType
      case DeskStanding => avail.standing
      case DeskSitting => avail.sitting
      case DeskFloor => avail.floor
      case _ => true
  }

  /** The candidates without the last shown cue. */
  function ExcludeLast(candidates: seq<Cue>, last: Option<Guid>): seq<Cue> {
    if last.Some? then Filter(candidates, HasOtherId(last.value)) else candidates
  }

  /** A narrowed list, or the list it came from when narrowing left nothing. */
  function Fallback(narrowed: seq<Cue>, all: seq<Cue>): seq<Cue> {
    if narrowed == [] then all else narrowed
  }

  /** The candidates meant for the current position, when that position is available. */
  function AppropriateCues(candidates: seq<Cue>, pos: DeskPosition, avail: Availability): seq<Cue> {
    if avail.Has(pos) then Filter(candidates, SuitsCurrent(pos)) else candidates
  }

  /** `SelectExerciseForCurrentPosition`: a draw among the appropriate candidates, or among all. */
  function SelectExerciseForCurrentPosition(
    candidates: seq<Cue>, pos: DeskPosition, avail: Availability, draw: nat): (c: Cue)
    requires candidates != []
    ensures c in candidates
  {
    var appropriate := Fallback(AppropriateCues(candidates, pos, avail), candidates);
    FilterMeaning(candidates, SuitsCurrent(pos));
    appropriate[draw % |appropriate|]
  }

  /** The exercise cue `TriggerExerciseCue` shows, if any. */
  function ExerciseChoice(
    cues: seq<Cue>, last: Option<Guid>, pos: DeskPosition, avail: Availability, draw: nat): (r: Option<Cue>)
    ensures r.Some? ==> r.value in cues && IsEnabledExercise(r.value)
  {
    var all := Filter(cues, IsEnabledExercise);
    if all == [] then None
    else
      ExcludeLastMembers(all, last);
      var c := SelectExerciseForCurrentPosition(Fallback(ExcludeLast(all, last), all), pos, avail, draw);
      FilterMember(cues, IsEnabledExercise, c);
      Some(c)
  }

  /** The enabled position-change cues whose target position is available. */
  function PositionCandidates(cues: seq<Cue>, avail: Availability): seq<Cue> {
    Filter(Filter(cues, IsEnabledPositionChange), TargetAvailable(avail))
  }

  /** An enabled position-change cue with an available target is a candidate. */
  lemma PositionCandidate(cues: seq<Cue>, avail: Availability, c: Cue)
    requires c in cues && IsEnabledPositionChange(c) && avail.Has(TargetPosition(c.cueType).value)
    ensures c in PositionCandidates(cues, avail)
  {
    FilterKeeps(cues, IsEnabledPositionChange, c);
    assert TargetAvailable(avail)(c);
    FilterKeeps(Filter(cues, IsEnabledPositionChange), TargetAvailable(avail), c);
  }

  /** The position-change cue `TriggerPositionCue` shows, if any. */
  function PositionChoice(cues: seq<Cue>, last: Option<Guid>, avail: Availability, draw: nat): (r: Option<Cue>)
    ensures r.Some? ==> r.value in cues && IsEnabledPositionChange(r.value) && TargetAvailable(avail)(r.value)
  {
    var all := PositionCandidates(cues, avail);
    if all == [] then None
    else
      ExcludeLastMembers(all, last);
      var candidates := Fallback(ExcludeLast(all, last), all);
      var c := candidates[draw % |candidates|];
      FilterMember(Filter(cues, IsEnabledPositionChange), TargetAvailable(avail), c);
      FilterMember(cues, IsEnabledPositionChange, c);
      Some(c)
  }

  /** Members of an exclusion are members of what it excluded from. */
  lemma ExcludeLastMembers(all: seq<Cue>, last: Option<Guid>)
    ensures forall i :: 0 <= i < |ExcludeLast(all, last)| ==> ExcludeLast(all, last)[i] in all
    ensures last.Some? ==> forall i :: 0 <= i < |ExcludeLast(all, last)| ==> ExcludeLast(all, last)[i].id != last.value
  {
    if last.Some? {
      FilterMeaning(all, HasOtherId(last.value));
    }
  }

  /**
   * An exercise is shown exactly when some enabled exercise cue (not a position change)
   * exists, and what is shown is one of those.
   */
  lemma ExerciseChoiceSound(cues: seq<Cue>, last: Option<Guid>, pos: DeskPosition, avail: Availability, draw: nat)
    ensures ExerciseChoice(cues, last, pos, avail, draw).Some?
        <==> exists i :: 0 <= i < |cues| && IsEnabledExercise(cues[i])
    ensures ExerciseChoice(cues, last, pos, avail, draw).Some? ==>
      var c := ExerciseChoice(cues, last, pos, avail, draw).value;
      c in cues && c.isEnabled && !IsPositionChange(c.cueType)
  {
    var all := Filter(cues, IsEnabledExercise);
    if all != [] {
      ExcludeLastMembers(all, last);
      var c := ExerciseChoice(cues, last, pos, avail, draw).value;
      assert c in all;
      FilterMember(cues, IsEnabledExercise, c);
    } else {
      forall i | 0 <= i < |cues| ensures !IsEnabledExercise(cues[i]) {
        if IsEnabledExercise(cues[i]) {
          FilterKeeps(cues, IsEnabledExercise, cues[i]);
        }
      }
    }
  }

  /**
   * Anti-repetition: when some enabled exercise cue has an id other than the last shown one,
   * the shown cue is not the last one.
   */
  lemma ExerciseChoiceAvoidsRepeat(cues: seq<Cue>, last: Guid, pos: DeskPosition, avail: Availability, draw: nat)
    requires exists i :: 0 <= i < |cues| && IsEnabledExercise(cues[i]) && cues[i].id != last
    ensures ExerciseChoice(cues, Some(last), pos, avail, draw).Some?
    ensures ExerciseChoice(cues, Some(last), pos, avail, draw).value.id != last
  {
    var i :| 0 <= i < |cues| && IsEnabledExercise(cues[i]) && cues[i].id != last;
    var all := Filter(cues, IsEnabledExercise);
    FilterKeeps(cues, IsEnabledExercise, cues[i]);
    FilterKeeps(all, HasOtherId(last), cues[i]);
    ExcludeLastMembers(all, Some(last));
  }

  /** With exactly one enabled exercise cue, that cue is shown every time. */
  lemma ExerciseChoiceSingle(cues: seq<Cue>, last: Option<Guid>, pos: DeskPosition, avail: Availability, draw: nat)
    requires |Filter(cues, IsEnabledExercise)| == 1
    ensures ExerciseChoice(cues, last, pos, avail, draw) == Some(Filter(cues, IsEnabledExercise)[0])
  {
    var all := Filter(cues, IsEnabledExercise);
    var candidates := Fallback(ExcludeLast(all, last), all);
    assert forall i :: 0 <= i < |candidates| ==> candidates[i] == all[0] by {
      ExcludeLastMembers(all, last);
    }
    var c := SelectExerciseForCurrentPosition(candidates, pos, avail, draw);
    assert c == all[0];
  }

  /** Every enabled exercise cue carries the id of the last shown one, so exclusion leaves nothing. */
  predicate OnlyLastEnabled(cues: seq<Cue>, last: Option<Guid>) {
    last.Some? && forall i :: 0 <= i < |cues| && IsEnabledExercise(cues[i]) ==> cues[i].id == last.value
  }

  /**
   * An enabled exercise cue is among the candidates `TriggerExerciseCue` draws from when it is
   * not the last shown one, or when every enabled exercise cue is (the fallback).
   */
  lemma ExerciseCandidate(cues: seq<Cue>, last: Option<Guid>, c: Cue)
    requires c in cues && IsEnabledExercise(c)
    requires last.None? || c.id != last.value || OnlyLastEnabled(cues, last)
    ensures var all := Filter(cues, IsEnabledExercise);
      c in Fallback(ExcludeLast(all, last), all)
  {
    var all := Filter(cues, IsEnabledExercise);
    FilterKeeps(cues, IsEnabledExercise, c);
    if last.Some? && c.id != last.value {
      FilterKeeps(all, HasOtherId(last.value), c);
    } else if last.Some? {
      FilterMeaning(cues, IsEnabledExercise);
      forall i | 0 <= i < |all| ensures !HasOtherId(last.value)(all[i]) {
        var j :| 0 <= j < |cues| && cues[j] == all[i];
      }
      StableSort.FilterNone(all, HasOtherId(last.value));
    }
  }

  /**
   * The position preference: when the current position is available and an enabled exercise
   * cue for it is eligible (it is not the last shown cue, or every enabled exercise cue is),
   * the shown cue is meant for that position.
   */
  lemma ExerciseChoicePrefersPosition(
    cues: seq<Cue>, last: Option<Guid>, pos: DeskPosition, avail: Availability, draw: nat)
    requires avail.Has(pos)
    requires exists i :: (0 <= i < |cues| && IsEnabledExercise(cues[i]) && SuitsPosition(cues[i].cueType, pos)
      && (last.None? || cues[i].id != last.value || OnlyLastEnabled(cues, last)))
    ensures ExerciseChoice(cues, last, pos, avail, draw).Some?
    ensures SuitsPosition(ExerciseChoice(cues, last, pos, avail, draw).value.cueType, pos)
  {
    var i :| 0 <= i < |cues| && IsEnabledExercise(cues[i]) && SuitsPosition(cues[i].cueType, pos)
      && (last.None? || cues[i].id != last.value || OnlyLastEnabled(cues, last));
    var c := cues[i];
    var all := Filter(cues, IsEnabledExercise);
    FilterKeeps(cues, IsEnabledExercise, c);
    ExerciseCandidate(cues, last, c);
    var candidates := Fallback(ExcludeLast(all, last), all);
    FilterKeeps(candidates, SuitsCurrent(pos), c);
    var appropriate := AppropriateCues(candidates, pos, avail);
    var chosen := appropriate[draw % |appropriate|];
    assert chosen in appropriate;
    FilterMember(candidates, SuitsCurrent(pos), chosen);
  }

  /** Any cue of a non-empty candidate list can be selected, if it suits the position or the position is unavailable. */
  lemma SelectReachable(candidates: seq<Cue>, pos: DeskPosition, avail: Availability, c: Cue)
    requires c in candidates
    requires !avail.Has(pos) || SuitsPosition(c.cueType, pos)
    ensures exists draw: nat :: SelectExerciseForCurrentPosition(candidates, pos, avail, draw) == c
  {
    var appropriate := AppropriateCues(candidates, pos, avail);
    if avail.Has(pos) {
      FilterKeeps(candidates, SuitsCurrent(pos), c);
    }
    assert c in appropriate;
    var m :| 0 <= m < |appropriate| && appropriate[m] == c;
    assert Fallback(appropriate, candidates) == appropriate;
    var draw: nat := m;
    assert draw % |appropriate| == m;
    assert SelectExerciseForCurrentPosition(candidates, pos, avail, draw) == c;
  }

  /**
   * Every eligible enabled exercise cue (not the last shown one, or every enabled one is) can
   * be chosen, provided it is meant for the current position or that position is unavailable.
   */
  lemma ExerciseChoiceReachable(
    cues: seq<Cue>, last: Option<Guid>, pos: DeskPosition, avail: Availability, c: Cue)
    requires c in cues && IsEnabledExercise(c)
    requires last.None? || c.id != last.value || OnlyLastEnabled(cues, last)
    requires !avail.Has(pos) || SuitsPosition(c.cueType, pos)
    ensures exists draw: nat :: ExerciseChoice(cues, last, pos, avail, draw) == Some(c)
  {
    var all := Filter(cues, IsEnabledExercise);
    FilterKeeps(cues, IsEnabledExercise, c);
    ExerciseCandidate(cues, last, c);
    var candidates := Fallback(ExcludeLast(all, last), all);
    SelectReachable(candidates, pos, avail, c);
    var draw: nat :| SelectExerciseForCurrentPosition(candidates, pos, avail, draw) == c;
    assert ExerciseChoice(cues, last, pos, avail, draw) == Some(c);
  }

  /**
   * A position-change cue is shown exactly when some enabled one with an available target
   * exists, and what is shown is one of those.
   */
  lemma PositionChoiceSound(cues: seq<Cue>, last: Option<Guid>, avail: Availability, draw: nat)
    ensures PositionChoice(cues, last, avail, draw).Some?
        <==> exists i :: 0 <= i < |cues| && IsEnabledPositionChange(cues[i]) && TargetPosition(cues[i].cueType).Some?
               && avail.Has(TargetPosition(cues[i].cueType).value)
    ensures PositionChoice(cues, last, avail, draw).Some? ==>
      var c := PositionChoice(cues, last, avail, draw).value;
      c in cues && c.isEnabled && IsPositionChange(c.cueType) && avail.Has(TargetPosition(c.cueType).value)
  {
    var enabled := Filter(cues, IsEnabledPositionChange);
    var all := Filter(enabled, TargetAvailable(avail));
    if all != [] {
      ExcludeLastMembers(all, last);
      var candidates := Fallback(ExcludeLast(all, last), all);
      var c := candidates[draw % |candidates|];
      assert c in all;
      FilterMember(enabled, TargetAvailable(avail), c);
      FilterMember(cues, IsEnabledPositionChange, c);
    } else {
      forall i | 0 <= i < |cues| && IsEnabledPositionChange(cues[i])
        ensures !avail.Has(TargetPosition(cues[i].cueType).value)
      {
        FilterKeeps(cues, IsEnabledPositionChange, cues[i]);
        if avail.Has(TargetPosition(cues[i].cueType).value) {
          FilterKeeps(enabled, TargetAvailable(avail), cues[i]);
        }
      }
    }
  }

  /**
   * Anti-repetition for position changes: when some eligible position-change cue has another
   * id than the last shown one, the shown cue is not the last one.
   */
  lemma PositionChoiceAvoidsRepeat(cues: seq<Cue>, last: Guid, avail: Availability, draw: nat)
    requires exists i :: (0 <= i < |cues| && IsEnabledPositionChange(cues[i])
      && avail.Has(TargetPosition(cues[i].cueType).value) && cues[i].id != last)
    ensures PositionChoice(cues, Some(last), avail, draw).Some?
    ensures PositionChoice(cues, Some(last), avail, draw).value.id != last
  {
    var i :| 0 <= i < |cues| && IsEnabledPositionChange(cues[i])
      && avail.Has(TargetPosition(cues[i].cueType).value) && cues[i].id != last;
    var enabled := Filter(cues, IsEnabledPositionChange);
    FilterKeeps(cues, IsEnabledPositionChange, cues[i]);
    var all := Filter(enabled, TargetAvailable(avail));
    FilterKeeps(enabled, TargetAvailable(avail), cues[i]);
    FilterKeeps(all, HasOtherId(last), cues[i]);
    ExcludeLastMembers(all, Some(last));
  }

  /** Each element of a list is the pick of some draw. */
  lemma PickReachable(s: seq<Cue>, c: Cue)
    requires c in s
    ensures exists draw: nat :: s[draw % |s|] == c
  {
    var m :| 0 <= m < |s| && s[m] == c;
    var draw: nat := m;
    assert s[draw % |s|] == c;
  }

  /** Every enabled position-change cue with an available target was the last one shown. */
  predicate OnlyLastEligible(cues: seq<Cue>, last: Option<Guid>, avail: Availability) {
    && last.Some?
    && forall i :: 0 <= i < |cues| && IsEnabledPositionChange(cues[i]) && TargetAvailable(avail)(cues[i]) ==>
         cues[i].id == last.value
  }

  /**
   * An eligible position-change cue survives the exclusion of the last cue, or the fallback
   * restores it when it was the last cue and the only eligible one.
   */
  lemma PositionCandidateKept(cues: seq<Cue>, last: Option<Guid>, avail: Availability, c: Cue)
    requires c in cues && IsEnabledPositionChange(c) && avail.Has(TargetPosition(c.cueType).value)
    requires last.None? || c.id != last.value || OnlyLastEligible(cues, last, avail)
    ensures var all := PositionCandidates(cues, avail);
      c in Fallback(ExcludeLast(all, last), all)
  {
    var enabled := Filter(cues, IsEnabledPositionChange);
    var all := PositionCandidates(cues, avail);
    PositionCandidate(cues, avail, c);
    if last.Some? && c.id != last.value {
      FilterKeeps(all, HasOtherId(last.value), c);
    } else if last.Some? {
      forall i | 0 <= i < |all| ensures !HasOtherId(last.value)(all[i]) {
        FilterMember(enabled, TargetAvailable(avail), all[i]);
        FilterMember(cues, IsEnabledPositionChange, all[i]);
        var j :| 0 <= j < |cues| && cues[j] == all[i];
      }
      StableSort.FilterNone(all, HasOtherId(last.value));
    }
  }

  /**
   * Every eligible position-change cue can be chosen: one other than the last shown, or the
   * last shown one when it is the only eligible cue.
   */
  lemma PositionChoiceReachable(cues: seq<Cue>, last: Option<Guid>, avail: Availability, c: Cue)
    requires c in cues && IsEnabledPositionChange(c) && avail.Has(TargetPosition(c.cueType).value)
    requires last.None? || c.id != last.value || OnlyLastEligible(cues, last, avail)
    ensures exists draw: nat :: PositionChoice(cues, last, avail, draw) == Some(c)
  {
    var all := PositionCandidates(cues, avail);
    PositionCandidateKept(cues, last, avail, c);
    var candidates := Fallback(ExcludeLast(all, last), all);
    PickReachable(candidates, c);
    var draw: nat :| candidates[draw % |candidates|] == c;
    assert PositionChoice(cues, last, avail, draw) == Some(c);
  }

  /** What a `*TimeRemaining` getter reports: the rest of the interval, or zero when stopped or paused. */
  function TimeRemaining(enabled: bool, paused: bool, startTime: DateTime, interval: int, now: DateTime): (r: int)
    ensures r >= 0
    ensures !enabled || paused ==> r == 0
    ensures now >= startTime ==> r <= if interval > 0 then interval else 0
    ensures enabled && !paused && interval - (now - startTime) > 0 ==> r + (now - startTime) == interval
  {
    if !enabled || paused then 0
    else
      var remaining := interval - (now - startTime);
      if remaining > 0 then remaining else 0
  }

  // ---------------------------------------------------------------------------
  // The scheduler

  class CueScheduler {
    var settings: AppSettings
    var lastExerciseCueId: Option<Guid>
    var lastPositionCueId: Option<Guid>
    var isPaused: bool
    var exerciseTimerEnabled: bool
    var positionTimerEnabled: bool
    var pauseTimerEnabled: bool
    var exerciseTimerStartTime: DateTime
    var positionTimerStartTime: DateTime
    /** The drawn intervals, in ticks. */
    var exerciseTimerInterval: int
    var positionTimerInterval: int
    var pauseTimerInterval: int
    /** The raised events, oldest first. */
    var events: seq<SchedulerEvent>

    /** While paused both cue timers are stopped, and the pause timer only runs while paused. */
    predicate PausedQuiet()
      reads this
    {
      && (pauseTimerEnabled ==> isPaused)
      && (isPaused ==> !exerciseTimerEnabled && !positionTimerEnabled)
    }

    function CurrentAvailability(): Availability
      reads this, settings
    {
      Availability(settings.standingPositionAvailable, settings.sittingPositionAvailable, settings.floorPositionAvailable)
    }

    /** Both interval draws the settings call for are possible. */
    predicate SettingsDrawable(s: AppSettings)
      reads s
    {
      && CanDraw(s.minExerciseIntervalMinutes, s.maxExerciseIntervalMinutes, s.useRandomExerciseIntervals)
      && CanDraw(s.minPositionIntervalMinutes, s.maxPositionIntervalMinutes, s.useRandomPositionIntervals)
    }

    function ExerciseTimeRemaining(now: DateTime): int
      reads this
    {
      TimeRemaining(exerciseTimerEnabled, isPaused, exerciseTimerStartTime, exerciseTimerInterval, now)
    }

    function PositionTimeRemaining(now: DateTime): int
      reads this
    {
      TimeRemaining(positionTimerEnabled, isPaused, positionTimerStartTime, positionTimerInterval, now)
    }

    constructor (settings: AppSettings)
      ensures this.settings == settings
      ensures lastExerciseCueId.None? && lastPositionCueId.None?
      ensures !isPaused && !exerciseTimerEnabled && !positionTimerEnabled && !pauseTimerEnabled
      ensures exerciseTimerInterval == 0 && positionTimerInterval == 0 && pauseTimerInterval == 0
      ensures exerciseTimerStartTime == 0 && positionTimerStartTime == 0
      ensures events == []
      ensures PausedQuiet()
    {
      this.settings := settings;
      lastExerciseCueId, lastPositionCueId := None, None;
      isPaused := false;
      exerciseTimerEnabled, positionTimerEnabled, pauseTimerEnabled := false, false, false;
      exerciseTimerStartTime, positionTimerStartTime := 0, 0;
      exerciseTimerInterval, positionTimerInterval, pauseTimerInterval := 0, 0, 0;
      events := [];
    }

    method ScheduleNextExerciseCue(draw: nat)
      requires CanDraw(settings.minExerciseIntervalMinutes, settings.maxExerciseIntervalMinutes,
                       settings.useRandomExerciseIntervals)
      modifies this`exerciseTimerInterval
      ensures exerciseTimerInterval == TicksPerMinute * DrawInterval(settings.minExerciseIntervalMinutes,
        settings.maxExerciseIntervalMinutes, settings.useRandomExerciseIntervals, draw)
    {
      var intervalMinutes: int;
      if settings.useRandomExerciseIntervals {
        intervalMinutes := RandomBetween(settings.minExerciseIntervalMinutes,
                                         Wrap32(settings.maxExerciseIntervalMinutes + 1), draw);
      } else {
        intervalMinutes := settings.minExerciseIntervalMinutes;
      }
      exerciseTimerInterval := TicksPerMinute * intervalMinutes;
    }

    method ScheduleNextPositionCue(draw: nat)
      requires CanDraw(settings.minPositionIntervalMinutes, settings.maxPositionIntervalMinutes,
                       settings.useRandomPositionIntervals)
      modifies this`positionTimerInterval
      ensures positionTimerInterval == TicksPerMinute * DrawInterval(settings.minPositionIntervalMinutes,
        settings.maxPositionIntervalMinutes, settings.useRandomPositionIntervals, draw)
    {
      var intervalMinutes: int;
      if settings.useRandomPositionIntervals {
        intervalMinutes := RandomBetween(settings.minPositionIntervalMinutes,
                                         Wrap32(settings.maxPositionIntervalMinutes + 1), draw);
      } else {
        intervalMinutes := settings.minPositionIntervalMinutes;
      }
      positionTimerInterval := TicksPerMinute * intervalMinutes;
    }

    /** Draws both intervals and starts both cue timers. */
    method Start(now: DateTime, exerciseDraw: nat, positionDraw: nat)
      requires SettingsDrawable(settings)
      modifies this`exerciseTimerInterval, this`positionTimerInterval
      modifies this`exerciseTimerStartTime, this`positionTimerStartTime
      modifies this`exerciseTimerEnabled, this`positionTimerEnabled
      ensures exerciseTimerInterval == TicksPerMinute * DrawInterval(settings.minExerciseIntervalMinutes,
        settings.maxExerciseIntervalMinutes, settings.useRandomExerciseIntervals, exerciseDraw)
      ensures positionTimerInterval == TicksPerMinute * DrawInterval(settings.minPositionIntervalMinutes,
        settings.maxPositionIntervalMinutes, settings.useRandomPositionIntervals, positionDraw)
      ensures exerciseTimerStartTime == now && positionTimerStartTime == now
      ensures exerciseTimerEnabled && positionTimerEnabled
      ensures !isPaused && old(PausedQuiet()) ==> PausedQuiet()
    {
      ScheduleNextExerciseCue(exerciseDraw);
      ScheduleNextPositionCue(positionDraw);
      exerciseTimerStartTime := now;
      positionTimerStartTime := now;
      exerciseTimerEnabled := true;
      positionTimerEnabled := true;
    }

    method Stop()
      modifies this`exerciseTimerEnabled, this`positionTimerEnabled
      ensures !exerciseTimerEnabled && !positionTimerEnabled
      ensures old(PausedQuiet()) ==> PausedQuiet()
    {
      exerciseTimerEnabled := false;
      positionTimerEnabled := false;
    }

    /** Pauses indefinitely: every timer stops. */
    method Pause()
      modifies this`isPaused, this`exerciseTimerEnabled, this`positionTimerEnabled, this`pauseTimerEnabled
      ensures isPaused && !exerciseTimerEnabled && !positionTimerEnabled && !pauseTimerEnabled
      ensures PausedQuiet()
    {
      isPaused := true;
      exerciseTimerEnabled := false;
      positionTimerEnabled := false;
      pauseTimerEnabled := false;
    }

    /** Pauses for `duration` ticks: the cue timers stop and the pause timer starts. */
    method PauseFor(duration: int)
      requires duration >= 0
      modifies this`isPaused, this`exerciseTimerEnabled, this`positionTimerEnabled
      modifies this`pauseTimerEnabled, this`pauseTimerInterval
      ensures isPaused && !exerciseTimerEnabled && !positionTimerEnabled
      ensures pauseTimerEnabled && pauseTimerInterval == duration
      ensures PausedQuiet()
    {
      isPaused := true;
      exerciseTimerEnabled := false;
      positionTimerEnabled := false;
      pauseTimerInterval := duration;
      pauseTimerEnabled := true;
    }

    /** Ends a pause: the cue timers restart with the intervals drawn before, not fresh ones. */
    method Resume(now: DateTime)
      modifies this`isPaused, this`pauseTimerEnabled
      modifies this`exerciseTimerStartTime, this`positionTimerStartTime
      modifies this`exerciseTimerEnabled, this`positionTimerEnabled
      ensures !isPaused && !pauseTimerEnabled
      ensures exerciseTimerStartTime == now && positionTimerStartTime == now
      ensures exerciseTimerEnabled && positionTimerEnabled
      ensures PausedQuiet()
    {
      isPaused := false;
      pauseTimerEnabled := false;
      exerciseTimerStartTime := now;
      positionTimerStartTime := now;
      exerciseTimerEnabled := true;
      positionTimerEnabled := true;
    }

    /** The pause timer expires: resume, then announce the end of the pause. */
    method PauseTimerTick(now: DateTime)
      requires pauseTimerEnabled
      modifies this`isPaused, this`pauseTimerEnabled
      modifies this`exerciseTimerStartTime, this`positionTimerStartTime
      modifies this`exerciseTimerEnabled, this`positionTimerEnabled, this`events
      ensures !isPaused && !pauseTimerEnabled
      ensures exerciseTimerStartTime == now && positionTimerStartTime == now
      ensures exerciseTimerEnabled && positionTimerEnabled
      ensures events == old(events) + [PauseEnded]
      ensures PausedQuiet()
    {
      pauseTimerEnabled := false;
      Resume(now);
      events := events + [PauseEnded];
    }

    /** Takes new settings; restarts the cue timers with fresh draws only if one of them was running. */
    method UpdateSettings(newSettings: AppSettings, now: DateTime, exerciseDraw: nat, positionDraw: nat)
      requires exerciseTimerEnabled || positionTimerEnabled ==> SettingsDrawable(newSettings)
      modifies this`settings, this`exerciseTimerInterval, this`positionTimerInterval
      modifies this`exerciseTimerStartTime, this`positionTimerStartTime
      modifies this`exerciseTimerEnabled, this`positionTimerEnabled
      ensures settings == newSettings
      ensures old(exerciseTimerEnabled || positionTimerEnabled) ==>
        && exerciseTimerInterval == TicksPerMinute * DrawInterval(settings.minExerciseIntervalMinutes,
             settings.maxExerciseIntervalMinutes, settings.useRandomExerciseIntervals, exerciseDraw)
        && positionTimerInterval == TicksPerMinute * DrawInterval(settings.minPositionIntervalMinutes,
             settings.maxPositionIntervalMinutes, settings.useRandomPositionIntervals, positionDraw)
        && exerciseTimerStartTime == now && positionTimerStartTime == now
        && exerciseTimerEnabled && positionTimerEnabled
      ensures !old(exerciseTimerEnabled || positionTimerEnabled) ==>
        && exerciseTimerInterval == old(exerciseTimerInterval) && positionTimerInterval == old(positionTimerInterval)
        && exerciseTimerStartTime == old(exerciseTimerStartTime)
        && positionTimerStartTime == old(positionTimerStartTime)
        && !exerciseTimerEnabled && !positionTimerEnabled
      ensures old(PausedQuiet()) ==> PausedQuiet()
    {
      settings := newSettings;
      if exerciseTimerEnabled || positionTimerEnabled {
        Stop();
        Start(now, exerciseDraw, positionDraw);
      }
    }

    /** Shows an exercise cue now; the timers are not touched. */
    method TriggerNow(isManual: bool, draw: nat)
      modifies this`lastExerciseCueId, this`events
      ensures var choice := ExerciseChoice(settings.cues, old(lastExerciseCueId), settings.currentPosition,
                                           CurrentAvailability(), draw);
        if choice.Some? then
          lastExerciseCueId == Some(choice.value.id)
          && events == old(events) + [CueTriggeredManually(choice.value, isManual)]
        else
          lastExerciseCueId == old(lastExerciseCueId) && events == old(events)
    {
      TriggerExerciseCue(isManual, draw);
    }

    method TriggerExerciseCue(isManual: bool, draw: nat)
      modifies this`lastExerciseCueId, this`events
      ensures var choice := ExerciseChoice(settings.cues, old(lastExerciseCueId), settings.currentPosition,
                                           CurrentAvailability(), draw);
        if choice.Some? then
          lastExerciseCueId == Some(choice.value.id)
          && events == old(events) + [CueTriggeredManually(choice.value, isManual)]
        else
          lastExerciseCueId == old(lastExerciseCueId) && events == old(events)
    {
      var enabledCues := Filter(settings.cues, IsEnabledExercise);
      if enabledCues == [] {
        return;
      }
      var allEnabled := enabledCues;
      if lastExerciseCueId.Some? {
        enabledCues := Filter(enabledCues, HasOtherId(lastExerciseCueId.value));
      }
      if enabledCues == [] {
        enabledCues := allEnabled;
      }
      var selectedCue := SelectExerciseForCurrentPosition(enabledCues, settings.currentPosition,
                                                          CurrentAvailability(), draw);
      lastExerciseCueId := Some(selectedCue.id);
      events := events + [CueTriggeredManually(selectedCue, isManual)];
    }

    method TriggerPositionCue(draw: nat)
      modifies this`lastPositionCueId, this`events
      ensures var choice := PositionChoice(settings.cues, old(lastPositionCueId), CurrentAvailability(), draw);
        if choice.Some? then
          lastPositionCueId == Some(choice.value.id) && events == old(events) + [CueTriggered(choice.value)]
        else
          lastPositionCueId == old(lastPositionCueId) && events == old(events)
    {
      var enabledCues := Filter(Filter(settings.cues, IsEnabledPositionChange), TargetAvailable(CurrentAvailability()));
      if enabledCues == [] {
        return;
      }
      var allEnabled := enabledCues;
      if lastPositionCueId.Some? {
        enabledCues := Filter(enabledCues, HasOtherId(lastPositionCueId.value));
      }
      if enabledCues == [] {
        enabledCues := allEnabled;
      }
      var selectedCue := enabledCues[draw % |enabledCues|];
      lastPositionCueId := Some(selectedCue.id);
      events := events + [CueTriggered(selectedCue)];
    }

    /** The exercise timer fires: show an exercise, draw the next interval, restart the clock. */
    method ExerciseTimerTick(now: DateTime, selectDraw: nat, intervalDraw: nat)
      requires exerciseTimerEnabled
      requires CanDraw(settings.minExerciseIntervalMinutes, settings.maxExerciseIntervalMinutes,
                       settings.useRandomExerciseIntervals)
      modifies this`lastExerciseCueId, this`events, this`exerciseTimerInterval, this`exerciseTimerStartTime
      ensures var choice := ExerciseChoice(settings.cues, old(lastExerciseCueId), settings.currentPosition,
                                           CurrentAvailability(), selectDraw);
        if choice.Some? then
          lastExerciseCueId == Some(choice.value.id)
          && events == old(events) + [CueTriggeredManually(choice.value, false)]
        else
          lastExerciseCueId == old(lastExerciseCueId) && events == old(events)
      ensures exerciseTimerInterval == TicksPerMinute * DrawInterval(settings.minExerciseIntervalMinutes,
        settings.maxExerciseIntervalMinutes, settings.useRandomExerciseIntervals, intervalDraw)
      ensures exerciseTimerStartTime == now
    {
      TriggerExerciseCue(false, selectDraw);
      ScheduleNextExerciseCue(intervalDraw);
      exerciseTimerStartTime := now;
    }

    /** The position timer fires: show a position change, draw the next interval, restart the clock. */
    method PositionTimerTick(now: DateTime, selectDraw: nat, intervalDraw: nat)
      requires positionTimerEnabled
      requires CanDraw(settings.minPositionIntervalMinutes, settings.maxPositionIntervalMinutes,
                       settings.useRandomPositionIntervals)
      modifies this`lastPositionCueId, this`events, this`positionTimerInterval, this`positionTimerStartTime
      ensures var choice := PositionChoice(settings.cues, old(lastPositionCueId), CurrentAvailability(), selectDraw);
        if choice.Some? then
          lastPositionCueId == Some(choice.value.id) && events == old(events) + [CueTriggered(choice.value)]
        else
          lastPositionCueId == old(lastPositionCueId) && events == old(events)
      ensures positionTimerInterval == TicksPerMinute * DrawInterval(settings.minPositionIntervalMinutes,
        settings.maxPositionIntervalMinutes, settings.useRandomPositionIntervals, intervalDraw)
      ensures positionTimerStartTime == now
    {
      TriggerPositionCue(selectDraw);
      ScheduleNextPositionCue(intervalDraw);
      positionTimerStartTime := now;
    }

    /** Records the user's new desk position in the settings. */
    method UpdatePosition(newPosition: DeskPosition)
      modifies settings`currentPosition
      ensures settings.currentPosition == newPosition
    {
      settings.currentPosition := newPosition;
    }
  }
}
