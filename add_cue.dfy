/**
 * The add-cue dialog (Windows/AddCueWindow.xaml.cs): it preselects a cue type, and its OK
 * button turns the typed title and description into a new enabled cue, or names the box that
 * is still blank.
 *
 * The identity and creation time a fresh `Cue` draws from `Guid.NewGuid()` and `DateTime.Now`
 * are parameters.
 */
module AddCue {
  import opened Wrappers
  import opened Numeric
  import opened Models

  const TitleMessage: string := "Please enter a title."
  const DescriptionMessage: string := "Please enter a description."

  /** A `Cue` as `new Cue()` makes it: the first cue type, empty texts, enabled. */
  function BlankCue(id: Guid, now: DateTime): (c: Cue)
    ensures c.cueType == AllCueTypes[0] && c.title == [] && c.description == [] && c.isEnabled
  {
    Cue(id, DeskStanding, "", "", true, now)
  }

  /** The type the combo box starts on: the one offered, or else the first in the list. */
  function InitialSelection(defaultType: Option<CueType>): (t: CueType)
    ensures defaultType.Some? ==> t == defaultType.value
    ensures defaultType.None? ==> t == AllCueTypes[0]
  {
    if defaultType.Some? then defaultType.value else AllCueTypes[0]
  }

  /**
   * What the OK button makes of the form: a blank title is reported first, then a blank
   * description; otherwise an enabled cue of the selected type whose title and description are
   * the typed texts trimmed.
   */
  function CueFromForm(selected: CueType, titleText: string, descriptionText: string, id: Guid, now: DateTime)
    : (r: Result<Cue>)
    ensures r.Ok? <==> !IsBlank(titleText) && !IsBlank(descriptionText)
    ensures IsBlank(titleText) ==> r == Err(TitleMessage)
    ensures !IsBlank(titleText) && IsBlank(descriptionText) ==> r == Err(DescriptionMessage)
    ensures r.Ok? ==> (r.value.cueType == selected && r.value.isEnabled
      && r.value.id == id && r.value.createdAt == now)
    ensures r.Ok? ==> r.value.title == Trim(titleText) && r.value.description == Trim(descriptionText)
  {
    if IsBlank(titleText) then Err(TitleMessage)
    else if IsBlank(descriptionText) then Err(DescriptionMessage)
    else Ok(Cue(id, selected, Trim(titleText), Trim(descriptionText), true, now))
  }

  /** The cue's title and description are non-empty and free of surrounding white space. */
  lemma CueTextsTrimmed(selected: CueType, titleText: string, descriptionText: string, id: Guid, now: DateTime)
    ensures var r := CueFromForm(selected, titleText, descriptionText, id, now);
      r.Ok? ==> (r.value.title != [] && r.value.description != []
        && Trim(r.value.title) == r.value.title && Trim(r.value.description) == r.value.description)
  {
    BlankIffTrimEmpty(titleText);
    BlankIffTrimEmpty(descriptionText);
    TrimIdempotent(titleText);
    TrimIdempotent(descriptionText);
  }

  /** Surrounding white space typed into either box does not change the cue the dialog makes. */
  lemma SurroundingSpaceIgnored(selected: CueType, titleText: string, descriptionText: string,
                                pad: string, descriptionPad: string, id: Guid, now: DateTime)
    requires IsBlank(pad) && IsBlank(descriptionPad)
    ensures CueFromForm(selected, pad + titleText + pad, descriptionPad + descriptionText + descriptionPad, id, now)
         == CueFromForm(selected, titleText, descriptionText, id, now)
  {
    PaddedTrim(titleText, pad);
    PaddedTrim(descriptionText, descriptionPad);
    BlankIffTrimEmpty(pad + titleText + pad);
    BlankIffTrimEmpty(titleText);
    BlankIffTrimEmpty(descriptionPad + descriptionText + descriptionPad);
    BlankIffTrimEmpty(descriptionText);
  }

  /** Trimming `pad + s + pad` for a blank `pad` gives what trimming `s` gives. */
  lemma {:induction false} PaddedTrim(s: string, pad: string)
    requires IsBlank(pad)
    ensures Trim(pad + s + pad) == Trim(s)
  {
    TrimStartPad(s + pad, pad);
    assert pad + s + pad == pad + (s + pad);
    TrimEndPad(TrimStart(s, IsWhiteSpace), pad);
    TrimStartAppend(s, pad);
  }

  lemma {:induction false} TrimStartPad(s: string, pad: string)
    requires IsBlank(pad)
    ensures TrimStart(pad + s, IsWhiteSpace) == TrimStart(s, IsWhiteSpace)
    decreases |pad|
  {
    if pad != [] {
      assert (pad + s)[0] == pad[0] && IsWhiteSpace(pad[0]);
      assert (pad + s)[1..] == pad[1..] + s;
      assert TrimStart(pad + s, IsWhiteSpace) == TrimStart(pad[1..] + s, IsWhiteSpace);
      TrimStartPad(s, pad[1..]);
    } else {
      assert pad + s == s;
    }
  }

  lemma {:induction false} TrimEndPad(s: string, pad: string)
    requires IsBlank(pad)
    ensures TrimEnd(s + pad, IsWhiteSpace) == TrimEnd(s, IsWhiteSpace)
    decreases |pad|
  {
    if pad != [] {
      var shorter := pad[..|pad| - 1];
      assert (s + pad)[|s + pad| - 1] == pad[|pad| - 1] && IsWhiteSpace(pad[|pad| - 1]);
      assert (s + pad)[..|s + pad| - 1] == s + shorter;
      assert TrimEnd(s + pad, IsWhiteSpace) == TrimEnd(s + shorter, IsWhiteSpace);
      TrimEndPad(s, shorter);
    } else {
      assert s + pad == s;
    }
  }

  /** Trimming the start of `s + pad` keeps the pad behind what trimming `s` keeps, unless `s` is blank. */
  lemma {:induction false} TrimStartAppend(s: string, pad: string)
    requires IsBlank(pad)
    ensures TrimEnd(TrimStart(s + pad, IsWhiteSpace), IsWhiteSpace)
         == TrimEnd(TrimStart(s, IsWhiteSpace) + pad, IsWhiteSpace)
    decreases |s|
  {
    if s != [] && IsWhiteSpace(s[0]) {
      assert (s + pad)[1..] == s[1..] + pad;
      TrimStartAppend(s[1..], pad);
    } else if s == [] {
      TrimStartPad([], pad);
      assert pad + [] == pad;
      TrimEndPad([], pad);
      assert [] + pad == pad;
      TrimEndAllWhite(TrimStart(pad, IsWhiteSpace));
    }
  }

  lemma TrimEndAllWhite(s: string)
    requires IsBlank(s)
    ensures TrimEnd(s, IsWhiteSpace) == []
  {
  }

  class AddCueWindow {
    /** `NewCue`: a blank cue until OK succeeds. */
    var newCue: Cue
    /** The type selected in the combo box. */
    var selected: CueType
    /** `DialogResult`: unset while the dialog is open. */
    var dialogResult: Option<bool>

    constructor (defaultType: Option<CueType>, id: Guid, now: DateTime)
      ensures newCue == BlankCue(id, now)
      ensures selected == InitialSelection(defaultType)
      ensures dialogResult == None
    {
      newCue := BlankCue(id, now);
      selected := InitialSelection(defaultType);
      dialogResult := None;
    }

    /** The user picks another type in the combo box. */
    method Select(t: CueType)
      modifies this`selected
      ensures selected == t
    {
      selected := t;
    }

    /**
     * The OK button: with both boxes filled, stores the new cue and closes with result true;
     * otherwise reports the first blank box and leaves the dialog as it was.
     */
    method Ok(titleText: string, descriptionText: string, id: Guid, now: DateTime) returns (warning: Option<string>)
      modifies this`newCue, this`dialogResult
      ensures var made := CueFromForm(selected, titleText, descriptionText, id, now);
        && (made.Ok? ==> newCue == made.value && dialogResult == Some(true) && warning == None)
        && (made.Err? ==> newCue == old(newCue) && dialogResult == old(dialogResult) && warning == Some(made.message))
    {
      var made := CueFromForm(selected, titleText, descriptionText, id, now);
      if made.Err? {
        return Some(made.message);
      }
      newCue := made.value;
      dialogResult := Some(true);
      warning := None;
    }

    /** The cancel button closes the dialog with result false. */
    method Cancel()
      modifies this`dialogResult
      ensures dialogResult == Some(false)
    {
      dialogResult := Some(false);
    }

    /** What `ShowDialog() == true` hands back to the caller: the new cue, when OK succeeded. */
    function Outcome(): (r: Option<Cue>)
      reads this`newCue, this`dialogResult
      ensures r.Some? <==> dialogResult == Some(true)
    {
      if dialogResult == Some(true) then Some(newCue) else None
    }
  }
}
