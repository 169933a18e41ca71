/**
 * The logic of the cue overlay (Windows/CueOverlayWindow.xaml.cs): one shown cue, its
 * five-minute countdown and the three ways it ends (completed, dismissed, timed out), each
 * with its effect on the user's progress, the statistics log and the desk position.
 *
 * The idle check behind the countdown is the `isActive` argument of each tick, and
 * `DateTime.Now` is the `now` argument of each handler. Drawing, animation and pop-ups are
 * not modelled.
 */
module Overlay {
  import opened Wrappers
  import opened Numeric
  import opened Models
  import opened Progress
  import XPCalculator
  import Scheduler

  /** The countdown length in seconds. */
  const CountdownSeconds: int := 300

  /** The persisted statistics, as the application appends to them. */
  class StatisticsLog {
    var records: seq<CueStatistic>

    constructor (records: seq<CueStatistic>)
      ensures this.records == records
    {
      this.records := records;
    }

    method AddStatistic(s: CueStatistic)
      modifies this
      ensures records == old(records) + [s]
    {
      records := records + [s];
    }
  }

  // ---------------------------------------------------------------------------
  // Experience at stake

  /** The mean of the interval bounds, as C# computes `(min + max) / 2` on 32-bit ints. */
  function AverageInterval(min: int, max: int): (r: int)
    ensures 0 <= min <= max && IsInt32(min + max) ==> min <= r <= max
  {
    TruncDiv(Wrap32(min + max), 2)
  }

  /** The bounds the average is taken over: position bounds for a position change, else exercise bounds. */
  function AverageFor(t: CueType, minPosition: int, maxPosition: int, minExercise: int, maxExercise: int): int {
    if IsPositionChange(t) then AverageInterval(minPosition, maxPosition) else AverageInterval(minExercise, maxExercise)
  }

  /** The experience a completion earns; nothing for a manual trigger. */
  function PotentialXP(t: CueType, avg: int, manual: bool): (r: int)
    ensures r >= 0 && (r == 0 <==> manual)
  {
    if manual then 0
    else
      XPCalculator.GainBounds(t, avg);
      XPCalculator.CalculateXPGain(t, avg, true)
  }

  /** The experience a dismissal or timeout costs (a positive amount); nothing for a manual trigger. */
  function PenaltyXP(t: CueType, avg: int, manual: bool): (r: int)
    ensures r >= 0 && (r == 0 <==> manual)
  {
    if manual then 0
    else
      XPCalculator.PenaltyBounds(t, avg);
      var gain := XPCalculator.CalculateXPGain(t, avg, false);
      if gain < 0 then -gain else gain
  }

  /**
   * For a manual trigger nothing is at stake; otherwise the reward is at least 7 and the
   * penalty is half of it, rounded down, so both are positive and the `> 0` guards of the
   * handlers always pass.
   */
  lemma StakesOfACue(t: CueType, avg: int, manual: bool)
    ensures manual ==> PotentialXP(t, avg, manual) == 0 && PenaltyXP(t, avg, manual) == 0
    ensures !manual ==> PotentialXP(t, avg, manual) >= 7
    ensures !manual ==> PenaltyXP(t, avg, manual) == PotentialXP(t, avg, manual) / 2
    ensures !manual ==> PenaltyXP(t, avg, manual) >= 3
  {
    if !manual {
      XPCalculator.GainBounds(t, avg);
      XPCalculator.PenaltyIsHalfTheGain(t, avg);
    }
  }

  // ---------------------------------------------------------------------------
  // Effects on progress

  /** Completing: add the reward, extend the streak, then unlock badges; nothing when manual or worthless. */
  function CompletionEffect(p: ProgressState, manual: bool, potential: int): (r: (ProgressState, seq<string>))
    ensures manual ==> r == (p, [])
    ensures r.0.unlockedBadges == p.unlockedBadges + r.1
  {
    if !manual && potential > 0 then UnlockBadges(AfterIncrementStreak(AfterAddXP(p, potential)))
    else (p, [])
  }

  /** Dismissing or timing out: take the penalty and break the streak; nothing when manual or free. */
  function PenaltyEffect(p: ProgressState, manual: bool, penalty: int): (r: ProgressState)
    ensures manual ==> r == p
    ensures r == p.(currentXP := r.currentXP, currentStreak := r.currentStreak)
  {
    if !manual && penalty > 0 then AfterBreakStreak(AfterRemoveXP(p, penalty)) else p
  }

  /**
   * A rewarded completion raises the total by the reward, extends the current streak by one,
   * never lowers the level, only appends badges, and keeps the progress valid.
   */
  lemma CompletionRewards(p: ProgressState, manual: bool, potential: int)
    requires Valid(p) && potential >= 0
    ensures var (q, gained) := CompletionEffect(p, manual, potential);
      && Valid(q)
      && (!manual && potential > 0 ==>
            && q.totalXPEarned == p.totalXPEarned + potential
            && q.currentStreak == p.currentStreak + 1
            && q.level >= p.level
            && q.unlockedBadges == p.unlockedBadges + gained)
      && (manual || potential == 0 ==> q == p && gained == [])
  {
    if !manual && potential > 0 {
      var a := AfterAddXP(p, potential);
      AddXPSettles(p, potential);
      AddXPPreservesValid(p, potential);
      var b := AfterIncrementStreak(a);
      UnlockBadgesPreservesValid(b);
    }
  }

  /**
   * A penalised outcome zeroes the current streak, keeps the level, the total and the best
   * streak, floors the balance at zero, and keeps the progress valid.
   */
  lemma PenaltyCosts(p: ProgressState, manual: bool, penalty: int)
    requires Valid(p) && penalty >= 0
    ensures var q := PenaltyEffect(p, manual, penalty);
      && Valid(q)
      && (!manual && penalty > 0 ==>
            && q.currentStreak == 0
            && q.level == p.level && q.totalXPEarned == p.totalXPEarned && q.bestStreak == p.bestStreak
            && q.currentXP == (if p.currentXP - penalty < 0 then 0 else p.currentXP - penalty)
            && q.unlockedBadges == p.unlockedBadges)
      && (manual || penalty == 0 ==> q == p)
  {
    RemoveXPFloors(p, penalty);
  }

  // ---------------------------------------------------------------------------
  const PenaltyNoticeStart: string := "Time's up! You lost "
  const PenaltyNoticeEnd: string := " XP for not completing the exercise.\nYour streak has been broken!"
  const PlainTimeoutNotice: string := "Time's up! Please complete the exercise promptly next time."

  /**
   * The notice a timeout shows: the XP lost and the broken streak when a penalty was taken,
   * otherwise a plain reminder.
   */
  function TimeoutNotice(manual: bool, penalty: int): (r: string)
    ensures !manual && penalty > 0 ==> r == PenaltyNoticeStart + IntToString(penalty) + PenaltyNoticeEnd
    ensures manual || penalty <= 0 ==> r == PlainTimeoutNotice
  {
    if !manual && penalty > 0 then PenaltyNoticeStart + IntToString(penalty) + PenaltyNoticeEnd
    else PlainTimeoutNotice
  }

  // The window

  class CueOverlayWindow {
    const cue: Cue
    const settings: AppSettings
    const scheduler: Scheduler.CueScheduler
    const log: StatisticsLog
    const isManualTrigger: bool
    const potentialXP: int
    const penaltyXP: int
    const previousLevel: int
    var statistic: CueStatistic
    var remainingSeconds: int
    var wasUserActive: bool
    var countdownRunning: bool
    var isOpen: bool
    /** The ticks on which the user was active, counted since the window opened. */
    ghost var activeTicks: int

    /** While open the countdown runs and has counted down exactly one second per active tick. */
    ghost predicate Valid()
      reads this
    {
      && 0 <= penaltyXP && 0 <= potentialXP
      && (countdownRunning <==> isOpen)
      && (isOpen ==> 0 < remainingSeconds <= CountdownSeconds && remainingSeconds + activeTicks == CountdownSeconds)
    }

    /** Whether the cue is one of the three position changes, the ones that move the desk. */
    function IsPositionChangeCue(): (r: bool)
      ensures r <==> TargetPosition(cue.cueType).Some?
    {
      cue.cueType == DeskStanding || cue.cueType == DeskSitting || cue.cueType == DeskFloor
    }

    /** Shows `cue`: works out what is at stake and starts the countdown. */
    constructor (cue: Cue, settings: AppSettings, scheduler: Scheduler.CueScheduler, log: StatisticsLog,
                 isManualTrigger: bool, statisticId: Guid, now: DateTime)
      ensures this.cue == cue && this.settings == settings && this.scheduler == scheduler && this.log == log
      ensures this.isManualTrigger == isManualTrigger
      ensures previousLevel == settings.progress.level
      ensures var avg := AverageFor(cue.cueType, settings.minPositionIntervalMinutes, settings.maxPositionIntervalMinutes,
                                    settings.minExerciseIntervalMinutes, settings.maxExerciseIntervalMinutes);
        potentialXP == PotentialXP(cue.cueType, avg, isManualTrigger)
        && penaltyXP == PenaltyXP(cue.cueType, avg, isManualTrigger)
      ensures statistic == CueStatistic(statisticId, cue.id, cue.title, cue.cueType, now, None, None, false)
      ensures remainingSeconds == CountdownSeconds && wasUserActive && activeTicks == 0
      ensures isOpen && countdownRunning && Valid()
    {
      this.cue := cue;
      this.settings := settings;
      this.scheduler := scheduler;
      this.log := log;
      this.isManualTrigger := isManualTrigger;
      previousLevel := settings.progress.level;
      var avgInterval := if cue.cueType == DeskStanding || cue.cueType == DeskSitting || cue.cueType == DeskFloor
        then AverageInterval(settings.minPositionIntervalMinutes, settings.maxPositionIntervalMinutes)
        else AverageInterval(settings.minExerciseIntervalMinutes, settings.maxExerciseIntervalMinutes);
      if isManualTrigger {
        potentialXP := 0;
        penaltyXP := 0;
      } else {
        potentialXP := XPCalculator.CalculateXPGain(cue.cueType, avgInterval, true);
        var gain := XPCalculator.CalculateXPGain(cue.cueType, avgInterval, false);
        penaltyXP := if gain < 0 then -gain else gain;
      }
      StakesOfACue(cue.cueType, avgInterval, isManualTrigger);
      statistic := CueStatistic(statisticId, cue.id, cue.title, cue.cueType, now, None, None, false);
      remainingSeconds := CountdownSeconds;
      wasUserActive := true;
      activeTicks := 0;
      countdownRunning := true;
      isOpen := true;
    }

    /**
     * One second of the countdown. Only an active second counts; the 300th active second
     * times the cue out.
     */
    method CountdownTick(isActive: bool, now: DateTime) returns (notice: Option<string>)
      requires countdownRunning && Valid()
      requires Progress.Valid(settings.progress.State())
      modifies this, settings.progress, log
      ensures Valid() && Progress.Valid(settings.progress.State())
      ensures wasUserActive == isActive
      ensures !isActive ==> (remainingSeconds == old(remainingSeconds) && activeTicks == old(activeTicks)
        && isOpen && unchanged(settings.progress, log))
      ensures isActive ==> remainingSeconds == old(remainingSeconds) - 1 && activeTicks == old(activeTicks) + 1
      ensures isActive ==> (!isOpen <==> activeTicks == CountdownSeconds)
      ensures !isOpen ==>
        && log.records == old(log.records) + [old(statistic).(dismissedAt := Some(now), wasCompleted := false)]
        && settings.progress.State() == PenaltyEffect(old(settings.progress.State()), isManualTrigger, penaltyXP)
      ensures isOpen ==> unchanged(settings.progress, log)
      ensures notice.Some? <==> !isOpen
      ensures !isOpen ==> notice == Some(TimeoutNotice(isManualTrigger, penaltyXP))
    {
      notice := None;
      if isActive {
        if !wasUserActive {
          wasUserActive := true;
        }
        remainingSeconds := remainingSeconds - 1;
        activeTicks := activeTicks + 1;
        if remainingSeconds <= 0 {
          var text := HandleTimeout(now);
          notice := Some(text);
        }
      } else {
        if wasUserActive {
          wasUserActive := false;
        }
      }
    }

    /** Completes the cue: record it, reward it, move the desk position, and report level-ups. */
    method Complete(now: DateTime) returns (newBadges: seq<string>, levelUp: bool)
      requires isOpen && Valid()
      requires Progress.Valid(settings.progress.State())
      modifies this, settings.progress, log, scheduler.settings`currentPosition
      ensures !isOpen && !countdownRunning && Valid()
      ensures !isManualTrigger ==> log.records == old(log.records) + [old(statistic).(completedAt := Some(now), wasCompleted := true)]
      ensures isManualTrigger ==> log.records == old(log.records)
      ensures (settings.progress.State(), newBadges)
           == CompletionEffect(old(settings.progress.State()), isManualTrigger, potentialXP)
      ensures Progress.Valid(settings.progress.State())
      ensures TargetPosition(cue.cueType).Some? ==> scheduler.settings.currentPosition == TargetPosition(cue.cueType).value
      ensures TargetPosition(cue.cueType).None? ==> scheduler.settings.currentPosition == old(scheduler.settings.currentPosition)
      ensures levelUp <==> !isManualTrigger && settings.progress.level > previousLevel
    {
      countdownRunning := false;
      if !isManualTrigger {
        statistic := statistic.(completedAt := Some(now), wasCompleted := true);
        log.AddStatistic(statistic);
      }
      newBadges := [];
      CompletionRewards(settings.progress.State(), isManualTrigger, potentialXP);
      if !isManualTrigger && potentialXP > 0 {
        settings.progress.AddXP(potentialXP);
        settings.progress.IncrementStreak();
        newBadges := settings.progress.CheckAndUnlockBadges();
      }
      UpdateDeskPosition();
      levelUp := !isManualTrigger && settings.progress.level > previousLevel;
      isOpen := false;
    }

    /** Dismisses the cue: record it and take the penalty; the desk position stays. */
    method Dismiss(now: DateTime)
      requires isOpen && Valid()
      requires Progress.Valid(settings.progress.State())
      modifies this, settings.progress, log
      ensures !isOpen && !countdownRunning && Valid()
      ensures !isManualTrigger ==> log.records == old(log.records) + [old(statistic).(dismissedAt := Some(now), wasCompleted := false)]
      ensures isManualTrigger ==> log.records == old(log.records)
      ensures settings.progress.State() == PenaltyEffect(old(settings.progress.State()), isManualTrigger, penaltyXP)
      ensures Progress.Valid(settings.progress.State())
    {
      countdownRunning := false;
      if !isManualTrigger {
        statistic := statistic.(dismissedAt := Some(now), wasCompleted := false);
        log.AddStatistic(statistic);
      }
      PenaltyCosts(settings.progress.State(), isManualTrigger, penaltyXP);
      if !isManualTrigger && penaltyXP > 0 {
        settings.progress.RemoveXP(penaltyXP);
        settings.progress.BreakStreak();
      }
      isOpen := false;
    }

    /** The countdown ran out: the cue is recorded as not completed even when manual. */
    method HandleTimeout(now: DateTime) returns (notice: string)
      requires isOpen && Progress.Valid(settings.progress.State()) && 0 <= penaltyXP && 0 <= potentialXP
      modifies this, settings.progress, log
      ensures !isOpen && !countdownRunning && Valid()
      ensures log.records == old(log.records) + [old(statistic).(dismissedAt := Some(now), wasCompleted := false)]
      ensures settings.progress.State() == PenaltyEffect(old(settings.progress.State()), isManualTrigger, penaltyXP)
      ensures Progress.Valid(settings.progress.State())
      ensures remainingSeconds == old(remainingSeconds) && wasUserActive == old(wasUserActive)
      ensures activeTicks == old(activeTicks)
      ensures notice == TimeoutNotice(isManualTrigger, penaltyXP)
    {
      countdownRunning := false;
      statistic := statistic.(dismissedAt := Some(now), wasCompleted := false);
      log.AddStatistic(statistic);
      PenaltyCosts(settings.progress.State(), isManualTrigger, penaltyXP);
      if !isManualTrigger && penaltyXP > 0 {
        settings.progress.RemoveXP(penaltyXP);
        settings.progress.BreakStreak();
      }
      notice := TimeoutNotice(isManualTrigger, penaltyXP);
      isOpen := false;
    }

    /** A position-change cue moves the recorded desk position to its target. */
    method UpdateDeskPosition()
      modifies scheduler.settings`currentPosition
      ensures TargetPosition(cue.cueType).Some? ==> scheduler.settings.currentPosition == TargetPosition(cue.cueType).value
      ensures TargetPosition(cue.cueType).None? ==> scheduler.settings.currentPosition == old(scheduler.settings.currentPosition)
    {
      var newPosition := TargetPosition(cue.cueType);
      if newPosition.Some? {
        scheduler.UpdatePosition(newPosition.value);
      }
    }
  }
}
