/**
 * The pause-duration dialog (Windows/PauseDurationWindow.xaml.cs): hours and minutes typed as
 * text, checked in a fixed order, and turned into the length of a pause.
 *
 * The dialog computes `hours * 60 + minutes` in C#'s unchecked 32-bit arithmetic.
 * `ValidatePauseAsWritten` keeps that arithmetic, and `AsWrittenAcceptsNegativePause`
 * exhibits hours it lets through with a negative total. `ValidatePause` is the intended
 * check on the mathematical total, and it is the one that `PauseDurationTicks` and the rest
 * of the model use.
 */
module PauseDuration {
  import opened Wrappers
  import opened Numeric
  import opened Models

  /** The longest pause the dialog allows, in minutes (8 hours). */
  const MaxPauseMinutes: int := 480

  const HoursMessage: string := "Please enter a valid number of hours (0-8)"
  const MinutesMessage: string := "Please enter valid minutes (0-59)"
  const ZeroMessage: string := "Please enter a duration greater than 0"
  const MaxMessage: string := "Maximum pause duration is 8 hours"

  /** What the dialog reads from its two boxes: `int.TryParse` of each text. */
  datatype PauseInputs = PauseInputs(hours: Option<int>, minutes: Option<int>)

  function ParseBoxes(hoursText: string, minutesText: string): (r: PauseInputs)
    ensures r.hours.Some? ==> IsInt32(r.hours.value)
    ensures r.minutes.Some? ==> IsInt32(r.minutes.value)
  {
    PauseInputs(TryParseInt32(hoursText), TryParseInt32(minutesText))
  }

  /** The hours box passes its own check: it parses and is not negative (there is no upper check). */
  predicate HoursPass(inputs: PauseInputs) {
    inputs.hours.Some? && inputs.hours.value >= 0
  }

  /** The minutes box passes its own check: it parses and lies in 0..59. */
  predicate MinutesPass(inputs: PauseInputs) {
    inputs.minutes.Some? && 0 <= inputs.minutes.value < 60
  }

  /** The mathematical total in minutes, once both boxes have passed. */
  function Total(inputs: PauseInputs): int
    requires HoursPass(inputs) && MinutesPass(inputs)
  {
    inputs.hours.value * 60 + inputs.minutes.value
  }

  /**
   * The dialog's checks as the code runs them, with `hours * 60 + minutes` wrapping at 32
   * bits: the result is the total in minutes, or the message of the first failed check.
   */
  function ValidatePauseAsWritten(inputs: PauseInputs): (r: Result<int>)
    ensures r.Ok? ==> HoursPass(inputs) && MinutesPass(inputs)
    ensures r.Ok? ==> r.value != 0 && r.value <= MaxPauseMinutes
    ensures r.Ok? ==> (r.value - Total(inputs)) % TwoTo32 == 0
  {
    if inputs.hours.None? || inputs.hours.value < 0 then Err(HoursMessage)
    else if inputs.minutes.None? || inputs.minutes.value < 0 || inputs.minutes.value >= 60 then Err(MinutesMessage)
    else
      var totalMinutes := Wrap32(Wrap32(inputs.hours.value * 60) + inputs.minutes.value);
      if totalMinutes == 0 then Err(ZeroMessage)
      else if totalMinutes > MaxPauseMinutes then Err(MaxMessage)
      else Ok(totalMinutes)
  }

  /** Typing the decimal text of any 32-bit hours and minutes gives the dialog exactly those values. */
  lemma TypedValues(hours: int, minutes: int)
    requires IsInt32(hours) && IsInt32(minutes)
    ensures ParseBoxes(IntToString(hours), IntToString(minutes)) == PauseInputs(Some(hours), Some(minutes))
  {
    ParseFormatRoundTrip(hours);
    ParseFormatRoundTrip(minutes);
  }

  /**
   * 35791395 hours and 0 minutes (which the user can type, by `TypedValues`) pass every check:
   * `35791395 * 60` wraps to -2147483596, which is neither 0 nor above 480, so the dialog accepts
   * a negative pause.
   */
  lemma AsWrittenAcceptsNegativePause()
    ensures ValidatePauseAsWritten(PauseInputs(Some(35791395), Some(0))) == Ok(-2147483596)
  {
    assert Wrap32(35791395 * 60) == -2147483596;
  }

  /**
   * The intended checks, on the mathematical total: a pause is accepted exactly when the hours
   * parse and are not negative, the minutes parse and lie in 0..59, and `hours * 60 + minutes`
   * lies in 1..480, which is then its length in minutes. Otherwise the first failed check, in
   * the dialog's order, names the message.
   */
  function ValidatePause(inputs: PauseInputs): (r: Result<int>)
    ensures r.Ok? <==> (HoursPass(inputs) && MinutesPass(inputs) && 1 <= Total(inputs) <= MaxPauseMinutes)
    ensures r.Ok? ==> (1 <= r.value <= MaxPauseMinutes && r.value == Total(inputs))
    ensures r.Err? ==> (r.message ==
      if !HoursPass(inputs) then HoursMessage
      else if !MinutesPass(inputs) then MinutesMessage
      else if Total(inputs) == 0 then ZeroMessage
      else MaxMessage)
  {
    if inputs.hours.None? || inputs.hours.value < 0 then Err(HoursMessage)
    else if inputs.minutes.None? || inputs.minutes.value < 0 || inputs.minutes.value >= 60 then Err(MinutesMessage)
    else
      var totalMinutes := inputs.hours.value * 60 + inputs.minutes.value;
      if totalMinutes == 0 then Err(ZeroMessage)
      else if totalMinutes > MaxPauseMinutes then Err(MaxMessage)
      else Ok(totalMinutes)
  }

  /** Whenever `hours * 60 + minutes` fits in 32 bits, the dialog as written and the intended check agree. */
  lemma AsWrittenAgreesWithoutOverflow(inputs: PauseInputs)
    requires HoursPass(inputs) && MinutesPass(inputs) && Total(inputs) <= Int32Max
    ensures ValidatePauseAsWritten(inputs) == ValidatePause(inputs)
  {
    var h, m := inputs.hours.value, inputs.minutes.value;
    assert Wrap32(h * 60) == h * 60;
    assert Wrap32(h * 60 + m) == h * 60 + m;
  }

  /**
   * The two checks give the same answer on every input the intended check accepts and on every
   * input whose boxes fail their own checks; they can differ only on an overflowing total.
   */
  lemma AsWrittenDiffersOnlyOnOverflow(inputs: PauseInputs)
    ensures ValidatePauseAsWritten(inputs) != ValidatePause(inputs) ==>
      HoursPass(inputs) && MinutesPass(inputs) && Total(inputs) > Int32Max
  {
    if HoursPass(inputs) && MinutesPass(inputs) && Total(inputs) <= Int32Max {
      AsWrittenAgreesWithoutOverflow(inputs);
    }
  }

  /** The accepted pause as a `TimeSpan` (`TimeSpan.FromMinutes`), in ticks: positive and at most 8 hours. */
  function PauseDurationTicks(inputs: PauseInputs): (r: Option<int>)
    ensures r.Some? <==> ValidatePause(inputs).Ok?
    ensures r.Some? ==> TicksPerMinute <= r.value <= MaxPauseMinutes * TicksPerMinute
  {
    var checked := ValidatePause(inputs);
    if checked.Ok? then Some(checked.value * TicksPerMinute) else None
  }
}
