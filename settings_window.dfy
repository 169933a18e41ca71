/**
 * The settings window (Windows/SettingsWindow.xaml.cs): the form it loads from the settings,
 * the validation and write-back of `SaveButton_Click`, the position filter over the cue list,
 * and the add, remove and reset buttons that edit that list.
 *
 * The controls are a `Form` value. A check box's `IsChecked` is a `bool?`, an
 * `Option<bool>` here, because the code reads it both as `== true` and as `?? true`. An
 * interval text box is held as what `int.TryParse` reads from its text
 * (`Numeric.TryParseInt32`): the number, or `None` when the text does not parse.
 */
module SettingsWindow {
  import opened Wrappers
  import opened Numeric
  import opened Seqs
  import opened Models
  import Scheduler

  /** Which of the grouped desk-position radio buttons is checked, if any. */
  datatype RadioChoice = StandingChecked | SittingChecked | FloorChecked | PositionChangesChecked | NoneChecked

  /** The "random" check box and the parsed min, max and fixed text boxes for one kind of interval. */
  datatype IntervalInputs = IntervalInputs(randomChecked: Option<bool>, min: Option<int>, max: Option<int>, fixed: Option<int>)

  /**
   * The window's controls. `language` is the tag of the selected language item, or `None`
   * when no item is selected.
   */
  datatype Form = Form(
    exercise: IntervalInputs,
    position: IntervalInputs,
    startupChecked: Option<bool>,
    language: Option<string>,
    leaderboardChecked: Option<bool>,
    usernameText: string,
    radio: RadioChoice)

  /** A validated pair of interval bounds, in minutes. */
  datatype IntervalPair = IntervalPair(min: int, max: int)

  datatype SaveOutcome = Saved | Rejected(message: string)

  const UsernameMessage: string := "Please enter a username to enable the leaderboard."
  const NoSelectionMessage: string := "Please select a cue to remove."

  /** C#'s `b ?? fallback` on a `bool?`. */
  function OrElse(b: Option<bool>, fallback: bool): bool {
    if b.Some? then b.value else fallback
  }

  // ---------------------------------------------------------------------------
  // Interval validation

  function MinMessage(kind: string): string {
    "Please enter a valid minimum " + kind + " interval (at least 1 minute)."
  }

  function MaxMessage(kind: string): string {
    "Maximum " + kind + " interval must be greater than or equal to minimum interval."
  }

  function FixedMessage(kind: string): string {
    "Please enter a valid " + kind + " interval (at least 1 minute)."
  }

  /** Every parsed box holds a 32-bit value, as `int.TryParse` produces. */
  predicate ParsedBoxes(inputs: IntervalInputs) {
    && (inputs.min.Some? ==> IsInt32(inputs.min.value))
    && (inputs.max.Some? ==> IsInt32(inputs.max.value))
    && (inputs.fixed.Some? ==> IsInt32(inputs.fixed.value))
  }

  /**
   * The checks `SaveButton_Click` makes on one kind of interval (`kind` is "exercise" or
   * "position"). In random mode the minimum must parse and be at least 1, then the maximum
   * must parse and be at least the minimum; otherwise the fixed value must parse and be at
   * least 1 and becomes both bounds. The first failed check names the message.
   */
  function ValidateIntervals(inputs: IntervalInputs, kind: string): (r: Result<IntervalPair>)
    ensures r.Ok? ==> 1 <= r.value.min <= r.value.max
    ensures r.Ok? && inputs.randomChecked == Some(true) ==>
      inputs.min == Some(r.value.min) && inputs.max == Some(r.value.max)
    ensures r.Ok? && inputs.randomChecked != Some(true) ==>
      r.value.min == r.value.max && inputs.fixed == Some(r.value.min)
    ensures inputs.randomChecked == Some(true) ==>
      (r.Ok? <==> (inputs.min.Some? && inputs.max.Some? && 1 <= inputs.min.value <= inputs.max.value))
    ensures inputs.randomChecked != Some(true) ==>
      (r.Ok? <==> (inputs.fixed.Some? && 1 <= inputs.fixed.value))
    ensures r.Err? && inputs.randomChecked == Some(true) ==>
      r.message == (if inputs.min.None? || inputs.min.value < 1 then MinMessage(kind) else MaxMessage(kind))
    ensures r.Err? && inputs.randomChecked != Some(true) ==> r.message == FixedMessage(kind)
  {
    if inputs.randomChecked == Some(true) then
      if inputs.min.None? || inputs.min.value < 1 then Err(MinMessage(kind))
      else if inputs.max.None? || inputs.max.value < inputs.min.value then Err(MaxMessage(kind))
      else Ok(IntervalPair(inputs.min.value, inputs.max.value))
    else
      if inputs.fixed.None? || inputs.fixed.value < 1 then Err(FixedMessage(kind))
      else Ok(IntervalPair(inputs.fixed.value, inputs.fixed.value))
  }

  /** The interval boxes as the window fills them: the text boxes it does not fill stay empty. */
  function LoadIntervals(useRandom: bool, min: int, max: int): (r: IntervalInputs)
    ensures ParsedBoxes(r)
  {
    if useRandom then IntervalInputs(Some(true), TryParseInt32(IntToString(min)), TryParseInt32(IntToString(max)), TryParseInt32(""))
    else IntervalInputs(Some(false), TryParseInt32(""), TryParseInt32(""), TryParseInt32(IntToString(min)))
  }

  /**
   * Loading stored bounds that satisfy the checks and saving them untouched gives them back
   * (in fixed mode both bounds become the stored minimum).
   */
  lemma LoadThenValidate(useRandom: bool, min: int, max: int, kind: string)
    requires IsInt32(min) && IsInt32(max) && 1 <= min && (useRandom ==> min <= max)
    ensures ValidateIntervals(LoadIntervals(useRandom, min, max), kind)
         == Ok(if useRandom then IntervalPair(min, max) else IntervalPair(min, min))
  {
    ParseFormatRoundTrip(min);
    ParseFormatRoundTrip(max);
  }

  /**
   * Validated bounds can be drawn from by the scheduler as long as the maximum is below
   * `int.MaxValue` (for `int.MaxValue` itself, `max + 1` wraps and `Random.Next` throws).
   */
  lemma ValidatedIntervalsDrawable(inputs: IntervalInputs, kind: string, useRandom: bool)
    requires ParsedBoxes(inputs) && ValidateIntervals(inputs, kind).Ok?
    ensures var p := ValidateIntervals(inputs, kind).value;
      p.max < Int32Max <==> Scheduler.CanDraw(p.min, p.max, true)
    ensures var p := ValidateIntervals(inputs, kind).value;
      p.max < Int32Max ==> Scheduler.CanDraw(p.min, p.max, useRandom)
  {
    var p := ValidateIntervals(inputs, kind).value;
    if p.max == Int32Max {
      assert Wrap32(p.max + 1) == Int32Min;
    }
  }

  // ---------------------------------------------------------------------------
  // Position filter

  /** The desk position a checked radio button stands for; none for position changes or no choice. */
  function PositionFor(radio: RadioChoice): Option<DeskPosition> {
    match radio
    case StandingChecked => Some(Standing)
    case SittingChecked => Some(Sitting)
    case FloorChecked => Some(Floor)
    case _ => None
  }

  /** The radio button the window checks for the stored desk position. */
  function RadioFor(p: DeskPosition): (r: RadioChoice)
    ensures PositionFor(r) == Some(p)
  {
    match p
    case Standing => StandingChecked
    case Sitting => SittingChecked
    case Floor => FloorChecked
  }

  /** Whether cues of type `t` are listed under the filter `radio`. */
  predicate TypeInCategory(t: CueType, radio: RadioChoice) {
    match radio
    case StandingChecked => SuitsPosition(t, Standing)
    case SittingChecked => SuitsPosition(t, Sitting)
    case FloorChecked => SuitsPosition(t, Floor)
    case PositionChangesChecked => IsPositionChange(t)
    case NoneChecked => true
  }

  function ShowsIn(radio: RadioChoice): Cue -> bool {
    (c: Cue) => TypeInCategory(c.cueType, radio)
  }

  /** The cues the grid lists under the filter `radio`. */
  function CategoryCues(cues: seq<Cue>, radio: RadioChoice): (r: seq<Cue>)
    ensures IsSubsequence(r, cues)
  {
    FilterIsSubsequence(cues, ShowsIn(radio));
    Filter(cues, ShowsIn(radio))
  }

  const StandingCaption: string := "Showing: Standing Position Cues"
  const SittingCaption: string := "Showing: Sitting Position Cues"
  const FloorCaption: string := "Showing: Floor Position Cues"
  const PositionChangeCaption: string := "Showing: Position Change Cues"
  const AllCaption: string := "Showing: All Cues"

  /** The caption above the grid for the filter `radio`. */
  function FilterCaption(radio: RadioChoice): string {
    match radio
    case StandingChecked => StandingCaption
    case SittingChecked => SittingCaption
    case FloorChecked => FloorCaption
    case PositionChangesChecked => PositionChangeCaption
    case NoneChecked => AllCaption
  }

  /**
   * The grid lists exactly the cues of the selected category, in their original order, and
   * every cue when no radio button is checked.
   */
  lemma CategoryCuesExact(cues: seq<Cue>, radio: RadioChoice)
    ensures forall c :: c in CategoryCues(cues, radio) <==> c in cues && TypeInCategory(c.cueType, radio)
    ensures IsSubsequence(CategoryCues(cues, radio), cues)
    ensures radio == NoneChecked ==> CategoryCues(cues, radio) == cues
  {
    forall c | c in CategoryCues(cues, radio) ensures c in cues && TypeInCategory(c.cueType, radio) {
      FilterMember(cues, ShowsIn(radio), c);
    }
    forall c | c in cues && TypeInCategory(c.cueType, radio) ensures c in CategoryCues(cues, radio) {
      FilterKeeps(cues, ShowsIn(radio), c);
    }
    FilterIsSubsequence(cues, ShowsIn(radio));
    if radio == NoneChecked {
      FilterKeepsAll(cues, ShowsIn(radio));
    }
  }

  /**
   * The type a new cue starts with: the stretch of the filtered position, `DeskStanding` for
   * position changes, and `SittingStretch` when no radio button is checked.
   */
  function DefaultTypeFor(radio: RadioChoice): (t: CueType)
    ensures TypeInCategory(t, radio)
    ensures radio == NoneChecked ==> t == SittingStretch
    ensures !IsPositionChange(t) ==> t == StandingStretch || t == SittingStretch || t == FloorStretch
    ensures IsPositionChange(t) <==> radio == PositionChangesChecked
  {
    match radio
    case StandingChecked => StandingStretch
    case SittingChecked => SittingStretch
    case FloorChecked => FloorStretch
    case PositionChangesChecked => DeskStanding
    case NoneChecked => SittingStretch
  }

  /** A cue added with the offered default type appears at the end of the refreshed grid. */
  lemma AddedCueShows(cues: seq<Cue>, c: Cue, radio: RadioChoice)
    requires c.cueType == DefaultTypeFor(radio)
    ensures CategoryCues(cues + [c], radio) == CategoryCues(cues, radio) + [c]
  {
    FilterSnoc(cues, c, ShowsIn(radio));
  }

  // ---------------------------------------------------------------------------
  // Removing a cue

  /**
   * `Collection.Remove`: drops the first occurrence of `x`, if there is one. `Cue` does not
   * override `Equals`, so the collection compares references; here cues are compared as
   * values, which picks the same element while no two cues in the list are equal (distinct
   * ids ensure that).
   */
  function RemoveFirst(s: seq<Cue>, x: Cue): seq<Cue> {
    if s == [] then []
    else if s[0] == x then s[1..]
    else [s[0]] + RemoveFirst(s[1..], x)
  }

  /** Removing a cue that is listed drops exactly one copy of it; removing one that is not changes nothing. */
  lemma {:induction false} RemoveFirstRemovesOne(s: seq<Cue>, x: Cue)
    ensures x in s ==> |RemoveFirst(s, x)| == |s| - 1 && multiset(RemoveFirst(s, x)) + multiset{x} == multiset(s)
    ensures x !in s ==> RemoveFirst(s, x) == s
  {
    if s != [] {
      var t := s[1..];
      assert s == [s[0]] + t;
      if s[0] != x {
        RemoveFirstRemovesOne(t, x);
        assert x in s <==> x in t;
        assert RemoveFirst(s, x) == [s[0]] + RemoveFirst(t, x);
      }
    }
  }

  /** When `i` is the first position holding `x`, exactly that element goes: everything before and after it stays in place. */
  lemma {:induction false} RemoveFirstAt(s: seq<Cue>, x: Cue, i: int)
    requires 0 <= i < |s| && s[i] == x && x !in s[..i]
    ensures RemoveFirst(s, x) == s[..i] + s[i + 1..]
  {
    if i == 0 {
      assert s[..0] + s[1..] == s[1..];
    } else {
      var t := s[1..];
      assert x !in t[..i - 1] by {
        assert t[..i - 1] == s[..i][1..];
      }
      RemoveFirstAt(t, x, i - 1);
      assert RemoveFirst(s, x) == [s[0]] + RemoveFirst(t, x) by {
        assert s[0] in s[..i];
      }
      assert [s[0]] + (t[..i - 1] + t[i..]) == s[..i] + s[i + 1..] by {
        assert s[..i] == [s[0]] + t[..i - 1];
        assert t[i..] == s[i + 1..];
      }
    }
  }

  // ---------------------------------------------------------------------------
  // The window

  /** The selected language item: the first item whose tag is `language`, if any. */
  function LanguageSelection(tags: seq<string>, language: string): Option<string> {
    if language in tags then Some(language) else None
  }

  /** Finds the combo box item whose tag is the stored language; nothing is selected without one. */
  method SelectLanguage(tags: seq<string>, language: string) returns (selected: Option<string>)
    ensures selected == LanguageSelection(tags, language)
  {
    var index := -1;
    var i := 0;
    while i < |tags| && index < 0
      invariant 0 <= i <= |tags|
      invariant index < 0 ==> language !in tags[..i]
      invariant index < |tags| && (index >= 0 ==> tags[index] == language)
    {
      if tags[i] == language {
        index := i;
      }
      assert tags[..i + 1] == tags[..i] + [tags[i]];
      i := i + 1;
    }
    assert index < 0 ==> tags[..i] == tags;
    selected := if index >= 0 then Some(tags[index]) else None;
  }

  class SettingsWindow {
    const settings: AppSettings
    var form: Form
    var allCues: seq<Cue>
    var filteredCues: seq<Cue>
    var filterText: string

    /** The form as the constructor fills it from the settings. */
    static function LoadForm(s: AppSettings, startupEnabled: bool, language: Option<string>): Form
      reads s
    {
      Form(LoadIntervals(s.useRandomExerciseIntervals, s.minExerciseIntervalMinutes, s.maxExerciseIntervalMinutes),
           LoadIntervals(s.useRandomPositionIntervals, s.minPositionIntervalMinutes, s.maxPositionIntervalMinutes),
           Some(startupEnabled), language, Some(s.leaderboardEnabled), s.username,
           RadioFor(s.currentPosition))
    }

    /**
     * Loads the settings into the controls (`startupEnabled` is what the startup service
     * reports, `tags` are the language items' tags) and lists the cues of the stored position.
     */
    constructor (settings: AppSettings, startupEnabled: bool, tags: seq<string>)
      ensures this.settings == settings
      ensures form == LoadForm(settings, startupEnabled, LanguageSelection(tags, settings.language))
      ensures allCues == settings.cues
      ensures filteredCues == CategoryCues(allCues, form.radio) && filterText == FilterCaption(form.radio)
    {
      var selected := SelectLanguage(tags, settings.language);
      var loaded := LoadForm(settings, startupEnabled, selected);
      // the initial filter: the list `FilterCues` produces for the loaded radio button
      var shown := CategoryCues(settings.cues, loaded.radio);
      this.settings := settings;
      form := loaded;
      allCues := settings.cues;
      filteredCues := shown;
      filterText := FilterCaption(loaded.radio);
    }

    /** Adds the cues of the checked category to an emptied grid, one at a time, in list order. */
    static method CollectCategory(cues: seq<Cue>, radio: RadioChoice) returns (shown: seq<Cue>)
      ensures shown == CategoryCues(cues, radio)
    {
      var keep := ShowsIn(radio);
      shown := [];
      var i := 0;
      while i < |cues|
        invariant 0 <= i <= |cues|
        invariant shown == Filter(cues[..i], keep)
      {
        FilterSnoc(cues[..i], cues[i], keep);
        assert cues[..i + 1] == cues[..i] + [cues[i]];
        if keep(cues[i]) {
          shown := shown + [cues[i]];
        }
        i := i + 1;
      }
      assert cues[..i] == cues;
    }

    /** Refills the grid with the cues of the checked category, in list order. */
    method FilterCues()
      modifies this`filteredCues, this`filterText
      ensures filteredCues == CategoryCues(allCues, form.radio)
      ensures filterText == FilterCaption(form.radio)
    {
      filteredCues := CollectCategory(allCues, form.radio);
      filterText := FilterCaption(form.radio);
    }

    /** A position radio button was checked: the grid follows it. */
    method SelectRadio(choice: RadioChoice)
      modifies this`form, this`filteredCues, this`filterText
      ensures form == old(form).(radio := choice)
      ensures filteredCues == CategoryCues(allCues, choice) && filterText == FilterCaption(choice)
    {
      form := form.(radio := choice);
      FilterCues();
    }

    /**
     * The add button: offers the add-cue dialog the filter's default type and, when the dialog
     * returns a cue, appends it and refreshes the grid.
     */
    method AddCue(dialogCue: Option<Cue>) returns (offered: CueType)
      modifies this`allCues, this`filteredCues, this`filterText
      ensures offered == DefaultTypeFor(form.radio)
      ensures dialogCue.Some? ==> (allCues == old(allCues) + [dialogCue.value]
        && filteredCues == CategoryCues(allCues, form.radio) && filterText == FilterCaption(form.radio))
      ensures dialogCue.None? ==> allCues == old(allCues) && filteredCues == old(filteredCues) && filterText == old(filterText)
    {
      offered := DefaultTypeFor(form.radio);
      if dialogCue.Some? {
        allCues := allCues + [dialogCue.value];
        FilterCues();
      }
    }

    /**
     * The remove button: with a selected row and a confirmation, drops that cue and refreshes
     * the grid; without a selection it only reports that a row must be selected.
     */
    method RemoveCue(selected: Option<Cue>, confirmed: bool) returns (notice: Option<string>)
      modifies this`allCues, this`filteredCues, this`filterText
      ensures notice.Some? <==> selected.None?
      ensures selected.None? ==> notice == Some(NoSelectionMessage)
      ensures selected.Some? && confirmed ==> (allCues == RemoveFirst(old(allCues), selected.value)
        && filteredCues == CategoryCues(allCues, form.radio) && filterText == FilterCaption(form.radio))
      ensures !(selected.Some? && confirmed) ==>
        (allCues == old(allCues) && filteredCues == old(filteredCues) && filterText == old(filterText))
    {
      notice := if selected.None? then Some(NoSelectionMessage) else None;
      if selected.Some? && confirmed {
        allCues := RemoveFirst(allCues, selected.value);
        FilterCues();
      }
    }

    /**
     * The reset button: once confirmed, replaces every cue by the factory defaults one by one
     * and reports how many there are.
     */
    method ResetToDefault(confirmed: bool, defaults: seq<Cue>) returns (message: Option<string>)
      modifies this`allCues, this`filteredCues, this`filterText
      ensures confirmed ==> (allCues == defaults && filteredCues == CategoryCues(defaults, form.radio)
        && filterText == FilterCaption(form.radio)
        && message == Some("Reset to " + IntToString(|defaults|) + " default cues."))
      ensures !confirmed ==> (allCues == old(allCues) && filteredCues == old(filteredCues)
        && filterText == old(filterText) && message == None)
    {
      if !confirmed {
        return None;
      }
      allCues := [];
      var i := 0;
      while i < |defaults|
        invariant 0 <= i <= |defaults|
        invariant allCues == defaults[..i]
      {
        assert defaults[..i + 1] == defaults[..i] + [defaults[i]];
        allCues := allCues + [defaults[i]];
        i := i + 1;
      }
      assert defaults[..i] == defaults;
      FilterCues();
      message := Some("Reset to " + IntToString(|defaults|) + " default cues.");
    }

    /** The exercise-interval checks of a save on the current form. */
    function ExerciseCheck(): Result<IntervalPair>
      reads this`form
    {
      ValidateIntervals(form.exercise, "exercise")
    }

    /** The position-interval checks of a save on the current form. */
    function PositionCheck(): Result<IntervalPair>
      reads this`form
    {
      ValidateIntervals(form.position, "position")
    }

    /** Both kinds of interval pass, so a save gets past validation. */
    predicate IntervalsPass()
      reads this`form
    {
      ExerciseCheck().Ok? && PositionCheck().Ok?
    }

    /** The interval settings hold the bounds `ex` and `pos` and the random flags of the form. */
    predicate IntervalsWritten(ex: IntervalPair, pos: IntervalPair)
      reads this`form, settings
    {
      && settings.useRandomExerciseIntervals == OrElse(form.exercise.randomChecked, true)
      && settings.minExerciseIntervalMinutes == ex.min && settings.maxExerciseIntervalMinutes == ex.max
      && settings.useRandomPositionIntervals == OrElse(form.position.randomChecked, true)
      && settings.minPositionIntervalMinutes == pos.min && settings.maxPositionIntervalMinutes == pos.max
    }

    /**
     * The settings written after the intervals hold the form's values: the selected language
     * (or `language`, the one before, when no item is selected), the window's cue list, the
     * checked position (or `position`, the one before, for position changes or no choice), the
     * leaderboard flag and the username `name`.
     */
    predicate RestWritten(language: string, position: DeskPosition, name: string)
      reads this`form, this`allCues, settings
    {
      && settings.language == (if form.language.Some? then form.language.value else language)
      && settings.cues == allCues
      && settings.currentPosition == (if PositionFor(form.radio).Some? then PositionFor(form.radio).value else position)
      && settings.leaderboardEnabled == OrElse(form.leaderboardChecked, false)
      && settings.username == name
    }

    /** The first writes of a save whose intervals passed: both kinds of interval. */
    method WriteIntervals(ex: IntervalPair, pos: IntervalPair)
      modifies settings`useRandomExerciseIntervals, settings`minExerciseIntervalMinutes,
               settings`maxExerciseIntervalMinutes, settings`useRandomPositionIntervals,
               settings`minPositionIntervalMinutes, settings`maxPositionIntervalMinutes
      ensures IntervalsWritten(ex, pos)
    {
      settings.useRandomExerciseIntervals := OrElse(form.exercise.randomChecked, true);
      settings.minExerciseIntervalMinutes := ex.min;
      settings.maxExerciseIntervalMinutes := ex.max;
      settings.useRandomPositionIntervals := OrElse(form.position.randomChecked, true);
      settings.minPositionIntervalMinutes := pos.min;
      settings.maxPositionIntervalMinutes := pos.max;
    }

    /**
     * The writes that follow the intervals, in the order the window makes them: language (when
     * an item is selected), cues, position (when a position radio is checked), then the
     * leaderboard flag and the username, `name` being the trimmed text of its box. Returns the
     * value handed to the startup service.
     */
    method WriteRest(name: string) returns (startup: bool)
      modifies settings`language, settings`cues, settings`currentPosition,
               settings`leaderboardEnabled, settings`username
      ensures RestWritten(old(settings.language), old(settings.currentPosition), name)
      ensures startup == OrElse(form.startupChecked, false)
    {
      if form.language.Some? {
        settings.language := form.language.value;
      }
      settings.cues := allCues;
      var position := PositionFor(form.radio);
      if position.Some? {
        settings.currentPosition := position.value;
      }
      startup := OrElse(form.startupChecked, false);
      settings.leaderboardEnabled := OrElse(form.leaderboardChecked, false);
      settings.username := name;
    }

    /**
     * The part of a save that follows a passed validation: the writes of `WriteIntervals` and
     * `WriteRest`, then the username check, which rejects a blank username with the leaderboard
     * on and leaves the writes in place.
     */
    method Commit(ex: IntervalPair, pos: IntervalPair, name: string) returns (outcome: SaveOutcome, startup: bool)
      modifies settings`useRandomExerciseIntervals, settings`minExerciseIntervalMinutes,
               settings`maxExerciseIntervalMinutes, settings`useRandomPositionIntervals,
               settings`minPositionIntervalMinutes, settings`maxPositionIntervalMinutes,
               settings`language, settings`cues, settings`currentPosition,
               settings`leaderboardEnabled, settings`username
      ensures IntervalsWritten(ex, pos)
      ensures RestWritten(old(settings.language), old(settings.currentPosition), name)
      ensures startup == OrElse(form.startupChecked, false)
      ensures outcome == (if settings.leaderboardEnabled && IsBlank(name) then Rejected(UsernameMessage) else Saved)
    {
      WriteIntervals(ex, pos);
      startup := WriteRest(name);
      if settings.leaderboardEnabled && IsBlank(settings.username) {
        return Rejected(UsernameMessage), startup;
      }
      outcome := Saved;
    }

    /**
     * The save button. Interval validation failures return before anything is written; once
     * both kinds pass, `Commit` writes the settings and checks the username. `Saved` is the
     * dialog closing with result `true`. `startup` is the value handed to the startup service,
     * if that point was reached.
     */
    method Save() returns (outcome: SaveOutcome, startup: Option<bool>)
      modifies settings`useRandomExerciseIntervals, settings`minExerciseIntervalMinutes,
               settings`maxExerciseIntervalMinutes, settings`useRandomPositionIntervals,
               settings`minPositionIntervalMinutes, settings`maxPositionIntervalMinutes,
               settings`language, settings`cues, settings`currentPosition,
               settings`leaderboardEnabled, settings`username
      ensures ExerciseCheck().Err? ==>
        outcome == Rejected(ExerciseCheck().message) && startup == None && unchanged(settings)
      ensures ExerciseCheck().Ok? && PositionCheck().Err? ==>
        outcome == Rejected(PositionCheck().message) && startup == None && unchanged(settings)
      ensures IntervalsPass() ==>
        && IntervalsWritten(ExerciseCheck().value, PositionCheck().value)
        && RestWritten(old(settings.language), old(settings.currentPosition), Trim(form.usernameText))
        && startup == Some(OrElse(form.startupChecked, false))
      ensures outcome == Saved <==> IntervalsPass() && !(settings.leaderboardEnabled && IsBlank(settings.username))
      ensures IntervalsPass() && outcome.Rejected? ==> outcome.message == UsernameMessage
      ensures outcome == Saved ==>
        && 1 <= settings.minExerciseIntervalMinutes <= settings.maxExerciseIntervalMinutes
        && 1 <= settings.minPositionIntervalMinutes <= settings.maxPositionIntervalMinutes
        && (settings.leaderboardEnabled ==> settings.username != [])
    {
      var ex := ExerciseCheck();
      if ex.Err? {
        return Rejected(ex.message), None;
      }
      var pos := PositionCheck();
      if pos.Err? {
        return Rejected(pos.message), None;
      }
      var startupEnabled;
      outcome, startupEnabled := Commit(ex.value, pos.value, Trim(form.usernameText));
      startup := Some(startupEnabled);
    }
  }
}
