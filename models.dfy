/**
 * The entities of the application (Models/CueType.cs, Cue.cs, CueStatistic.cs,
 * LeaderboardEntry.cs and AppSettings.cs).
 *
 * A `Guid` is an opaque identity that is only ever compared for equality; a `DateTime` is a
 * count of 100-nanosecond ticks, and a `TimeSpan` is a difference of two of them.
 */
module Models {
  import opened Wrappers
  import Progress

  type Guid = int
  type DateTime = int

  const TicksPerSecond: int := 10_000_000
  const TicksPerMinute: int := 60 * TicksPerSecond
  const TicksPerHour: int := 60 * TicksPerMinute

  datatype CueType =
    // position changes
    | DeskStanding | DeskSitting | DeskFloor
    // position-specific stretches and drills
    | StandingStretch | StandingMobilityDrill
    | SittingStretch | SittingMobilityDrill
    | FloorStretch | FloorMobilityDrill

  /** The members of `CueType` in declaration order (what `Enum.GetValues` lists). */
  const AllCueTypes: seq<CueType> := [
    DeskStanding, DeskSitting, DeskFloor,
    StandingStretch, StandingMobilityDrill,
    SittingStretch, SittingMobilityDrill,
    FloorStretch, FloorMobilityDrill
  ]

  datatype DeskPosition = Standing | Sitting | Floor

  /** The three desk-position cue types. */
  predicate IsPositionChange(t: CueType) {
    t == DeskStanding || t == DeskSitting || t == DeskFloor
  }

  /** The stretch and the drill meant to be done in desk position `p`. */
  predicate SuitsPosition(t: CueType, p: DeskPosition) {
    match p
    case Standing => t == StandingStretch || t == StandingMobilityDrill
    case Sitting => t == SittingStretch || t == SittingMobilityDrill
    case Floor => t == FloorStretch || t == FloorMobilityDrill
  }

  /** The desk position a position-change cue moves to; none for an exercise. */
  function TargetPosition(t: CueType): (r: Option<DeskPosition>)
    ensures r.Some? <==> IsPositionChange(t)
  {
    match t
    case DeskStanding => Some(Standing)
    case DeskSitting => Some(Sitting)
    case DeskFloor => Some(Floor)
    case _ => None
  }

  datatype Cue = Cue(
    id: Guid,
    cueType: CueType,
    title: string,
    description: string,
    isEnabled: bool,
    createdAt: DateTime)

  /** One presented cue and how it ended. */
  datatype CueStatistic = CueStatistic(
    id: Guid,
    cueId: Guid,
    cueTitle: string,
    cueType: CueType,
    shownAt: DateTime,
    completedAt: Option<DateTime>,
    dismissedAt: Option<DateTime>,
    wasCompleted: bool)

  datatype LeaderboardEntry = LeaderboardEntry(
    userId: string,
    username: string,
    level: int,
    totalXP: int,
    completedCues: int,
    dismissedCues: int,
    lastUpdated: DateTime)

  /**
   * The settings singleton. The fields `leaderboardEnabled`, `username` and `userId` are the
   * ones the settings window and the leaderboard read and write.
   */
  class AppSettings {
    var minExerciseIntervalMinutes: int
    var maxExerciseIntervalMinutes: int
    var useRandomExerciseIntervals: bool
    var minPositionIntervalMinutes: int
    var maxPositionIntervalMinutes: int
    var useRandomPositionIntervals: bool
    var standingPositionAvailable: bool
    var sittingPositionAvailable: bool
    var floorPositionAvailable: bool
    var startOnWindowsStartup: bool
    var currentPosition: DeskPosition
    var language: string
    var cues: seq<Cue>
    var progress: Progress.UserProgress
    var leaderboardEnabled: bool
    var username: string
    var userId: string

    /** Whether the settings mark desk position `p` as available. */
    function IsAvailable(p: DeskPosition): bool
      reads this
    {
      match p
      case Standing => standingPositionAvailable
      case Sitting => sittingPositionAvailable
      case Floor => floorPositionAvailable
    }

    constructor (userId: string)
      ensures minExerciseIntervalMinutes == 30 && maxExerciseIntervalMinutes == 45
      ensures useRandomExerciseIntervals
      ensures minPositionIntervalMinutes == 60 && maxPositionIntervalMinutes == 120
      ensures useRandomPositionIntervals
      ensures standingPositionAvailable && sittingPositionAvailable && floorPositionAvailable
      ensures !startOnWindowsStartup && currentPosition == Sitting && language == "auto"
      ensures cues == [] && fresh(progress) && progress.State() == Progress.InitialProgress
      ensures !leaderboardEnabled && username == "" && this.userId == userId
    {
      minExerciseIntervalMinutes, maxExerciseIntervalMinutes := 30, 45;
      useRandomExerciseIntervals := true;
      minPositionIntervalMinutes, maxPositionIntervalMinutes := 60, 120;
      useRandomPositionIntervals := true;
      standingPositionAvailable, sittingPositionAvailable, floorPositionAvailable := true, true, true;
      startOnWindowsStartup := false;
      currentPosition := Sitting;
      language := "auto";
      cues := [];
      progress := new Progress.UserProgress();
      leaderboardEnabled := false;
      username := "";
      this.userId := userId;
    }
  }
}
