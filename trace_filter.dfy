/**
 * A trace filter: a button and a line edit holding a regular expression.
 * While the filter is active, every terminal line the expression finds a
 * match in is copied to the trace view in the filter's colours. The filter
 * can only be edited (by its settings dialog or by setSettings) while it is
 * inactive, and it saves its state as persistence items.
 */
module TraceFilter {
  import opened Common
  import opened Persistence
  import Text
  import GUIController

  const GREEN: U32 := 0x00FF00
  const BLACK: U32 := 0x000000

  /** The filter's settings: its id, the regular expression and the colours of the lines it matches. */
  datatype FilterSettings = FilterSettings(id: Byte, regex: string, background: U32, font: U32)

  /** A trace-filter line edit of the GUI: its text, whether it can be edited, and its colours. */
  datatype LineEdit = LineEdit(text: string, enabled: bool, background: U32, font: U32)

  /** A button's colours. */
  datatype Colors = Colors(background: U32, font: U32)

  /** The line edit the GUI shows for a filter id (an untouched one when the map holds none). */
  function LineAt(lines: map<Byte, LineEdit>, id: Byte): LineEdit
  {
    if id in lines then lines[id] else LineEdit("", true, 0, 0)
  }

  /**
   * setButtonState: green on black while active, otherwise the GUI's
   * background and text colours as they are when the button is painted.
   */
  function ButtonColors(active: bool, guiBackground: U32, guiText: U32): (c: Colors)
    ensures active ==> c == Colors(GREEN, BLACK)
    ensures !active ==> c == Colors(guiBackground, guiText)
  {
    if active then Colors(GREEN, BLACK) else Colors(guiBackground, guiText)
  }

  /** The name the filter registers with the persistence: "TRACE_FILTER" and its id. */
  function PersistenceName(id: Byte): (r: string)
    ensures |r| > 12 && r[..12] == "TRACE_FILTER"
    ensures Text.AllDigits(r[12..]) && Text.DecimalValue(r[12..]) == id
  {
    Text.Numbered("TRACE_FILTER", id)
  }

  // ---------------------------------------------------------------- persistence

  /** What the filter saves: whether it is active, its settings (with the line edit's text) and whether they are user-defined. */
  datatype Saved = Saved(active: bool, settings: FilterSettings, userDefined: bool)

  /** The keys, in the order onPersistenceWrite writes them. */
  const SAVED_KEYS: seq<string> := ["isActive", "text", "backgroundColor", "fontColor", "userDefined", "id"]

  /** onPersistenceWrite's six items; booleans are written as 0 or 1 by std::to_string. */
  function SavedItems(s: Saved): seq<PersistenceItem>
  {
    [PersistenceItem("isActive", Text.IntToDecimal(BoolToInt(s.active))),
     PersistenceItem("text", s.settings.regex),
     PersistenceItem("backgroundColor", Text.IntToDecimal(s.settings.background)),
     PersistenceItem("fontColor", Text.IntToDecimal(s.settings.font)),
     PersistenceItem("userDefined", Text.IntToDecimal(BoolToInt(s.userDefined))),
     PersistenceItem("id", Text.IntToDecimal(s.settings.id))]
  }

  /** Every number onPersistenceRead reads is one std::stoll accepts. */
  predicate NumbersReadable(items: seq<PersistenceItem>)
  {
    Readable(items, "isActive") && Readable(items, "backgroundColor") && Readable(items, "fontColor") &&
    Readable(items, "userDefined") && Readable(items, "id")
  }

  /**
   * onPersistenceRead: the settings are read over the current ones, the
   * user-defined flag over the current flag, and the active flag over false.
   */
  function Restore(items: seq<PersistenceItem>, current: FilterSettings, userDefined: bool): Saved
    requires NumbersReadable(items)
  {
    Saved(
      NumberOr(items, "isActive", BoolKind, 0) != 0,
      FilterSettings(
        NumberOr(items, "id", U8Kind, current.id),
        TextOr(items, "text", current.regex),
        NumberOr(items, "backgroundColor", U32Kind, current.background),
        NumberOr(items, "fontColor", U32Kind, current.font)),
      NumberOr(items, "userDefined", BoolKind, BoolToInt(userDefined)) != 0)
  }

  /** The saved items carry the six keys in order, and no key twice. */
  lemma SavedKeys(s: Saved)
    ensures |SavedItems(s)| == |SAVED_KEYS|
    ensures forall i :: 0 <= i < |SAVED_KEYS| ==> SavedItems(s)[i].key == SAVED_KEYS[i]
    ensures KeysDistinct(SavedItems(s))
  {
    var items := SavedItems(s);
    assert forall i :: 0 <= i < |SAVED_KEYS| ==> items[i].key == SAVED_KEYS[i];
    assert forall i, j :: 0 <= i < j < |SAVED_KEYS| ==> SAVED_KEYS[i] != SAVED_KEYS[j];
  }

  /** A boolean written as 0 or 1 reads back as itself. */
  lemma BoolReadBack(items: seq<PersistenceItem>, key: string, b: bool, current: int)
    requires Lookup(items, key) == Some(Text.IntToDecimal(BoolToInt(b)))
    ensures Readable(items, key)
    ensures (NumberOr(items, key, BoolKind, current) != 0) == b
  {
    NumberFieldReadBack(items, key, BoolKind, BoolToInt(b), current);
  }

  /** Each saved item is the one found under its key. */
  lemma SavedLookup(s: Saved, j: nat)
    requires j < |SAVED_KEYS|
    ensures Lookup(SavedItems(s), SAVED_KEYS[j]) == Some(SavedItems(s)[j].value)
  {
    SavedKeys(s);
    LookupUnique(SavedItems(s), j);
  }

  /** The saved flags read back as themselves. */
  lemma SavedFlagsBack(s: Saved, userDefined: bool)
    ensures Readable(SavedItems(s), "isActive") && Readable(SavedItems(s), "userDefined")
    ensures (NumberOr(SavedItems(s), "isActive", BoolKind, 0) != 0) == s.active
    ensures (NumberOr(SavedItems(s), "userDefined", BoolKind, BoolToInt(userDefined)) != 0) == s.userDefined
  {
    SavedLookup(s, 0);
    SavedLookup(s, 4);
    BoolReadBack(SavedItems(s), "isActive", s.active, 0);
    BoolReadBack(SavedItems(s), "userDefined", s.userDefined, BoolToInt(userDefined));
  }

  /** The saved settings read back as themselves. */
  lemma SavedSettingsBack(s: Saved, current: FilterSettings)
    ensures Readable(SavedItems(s), "backgroundColor") && Readable(SavedItems(s), "fontColor") && Readable(SavedItems(s), "id")
    ensures TextOr(SavedItems(s), "text", current.regex) == s.settings.regex
    ensures NumberOr(SavedItems(s), "backgroundColor", U32Kind, current.background) == s.settings.background
    ensures NumberOr(SavedItems(s), "fontColor", U32Kind, current.font) == s.settings.font
    ensures NumberOr(SavedItems(s), "id", U8Kind, current.id) == s.settings.id
  {
    var items := SavedItems(s);
    SavedLookup(s, 1);
    SavedLookup(s, 2);
    SavedLookup(s, 3);
    SavedLookup(s, 5);
    NumberFieldReadBack(items, "backgroundColor", U32Kind, s.settings.background, current.background);
    NumberFieldReadBack(items, "fontColor", U32Kind, s.settings.font, current.font);
    NumberFieldReadBack(items, "id", U8Kind, s.settings.id, current.id);
  }

  /** Restoring the saved items gives the saved state back, whatever the filter held before. */
  lemma SavedRoundTrip(s: Saved, current: FilterSettings, userDefined: bool)
    ensures NumbersReadable(SavedItems(s))
    ensures Restore(SavedItems(s), current, userDefined) == s
  {
    SavedFlagsBack(s, userDefined);
    SavedSettingsBack(s, current);
  }

  /** Without saved items the settings and the user-defined flag stay, and the filter comes back inactive. */
  lemma RestoreNothing(current: FilterSettings, userDefined: bool)
    ensures NumbersReadable([])
    ensures Restore([], current, userDefined) == Saved(false, current, userDefined)
  {
    assert (BoolToInt(userDefined) != 0) == userDefined;
  }

  // ---------------------------------------------------------------- the filter

  class Filter {
    const buttonId: U32
    /** The name registered with the persistence. */
    const name: string
    var settings: FilterSettings
    var userDefined: bool
    var active: bool
    /** The expression m_regex was built from; None for the default-constructed std::regex. */
    var compiled: Option<string>
    /** The GUI's trace-filter line edits, by filter id. */
    var lines: map<Byte, LineEdit>
    var button: Colors

    /**
     * The filter's invariant: the line edit shows the filter's colours; while
     * active, the button is green on black, the expression in use is the
     * settings' one, the line edit shows it and cannot be edited. While
     * inactive the button keeps the GUI colours it was last painted with.
     */
    ghost predicate Valid()
      reads this
    {
      var line := LineAt(lines, settings.id);
      (active ==> button == Colors(GREEN, BLACK)) &&
      line.background == settings.background && line.font == settings.font &&
      (active ==> compiled == Some(settings.regex) && line.text == settings.regex && !line.enabled)
    }

    /**
     * The constructor: the palette's colours, an empty expression, inactive
     * and not user-defined; the line edit enabled in the palette's colours
     * and the button in the GUI's current colours. getButtonID must have
     * found the button.
     */
    constructor(id: Byte, buttonId: U32, lines: map<Byte, LineEdit>, paletteBase: U32, paletteText: U32, guiBackground: U32, guiText: U32)
      requires buttonId != UINT32_MAX
      ensures Valid() && !active && !userDefined && compiled == None
      ensures button == Colors(guiBackground, guiText)
      ensures settings == FilterSettings(id, "", paletteBase, paletteText) && name == PersistenceName(id)
      ensures this.lines == lines[id := LineAt(lines, id).(enabled := true, background := paletteBase, font := paletteText)]
    {
      this.buttonId := buttonId;
      name := PersistenceName(id);
      settings := FilterSettings(id, "", paletteBase, paletteText);
      userDefined := false;
      active := false;
      compiled := None;
      button := ButtonColors(false, guiBackground, guiText);
      this.lines := lines[id := LineAt(lines, id).(enabled := true, background := paletteBase, font := paletteText)];
    }

    /** isActive. */
    predicate IsActive()
      reads this
    {
      active
    }

    /**
     * tryMatch: the settings when the filter is active and the search (the
     * regular expression, a parameter here) finds the expression in the
     * text; nothing otherwise.
     */
    function TryMatch(text: string, search: (string, string) -> bool): (r: Option<FilterSettings>)
      requires Valid()
      reads this
      ensures r.Some? <==> active && search(settings.regex, text)
      ensures r.Some? ==> r.value == settings
    {
      if active && compiled.Some? && search(compiled.value, text) then Some(settings) else None
    }

    /**
     * handleNewSettings: the settings replaced, the line edit of the (new) id
     * updated, then the expression rebuilt. `accepts` says which expressions
     * std::regex accepts; on any other it throws std::regex_error, which
     * nothing catches (the program ends), after the settings and the line
     * edit were already updated and with the old expression still in use.
     */
    method HandleNewSettings(s: FilterSettings, accepts: string -> bool) returns (thrown: bool)
      modifies this
      ensures thrown <==> !accepts(s.regex)
      ensures settings == s && compiled == (if thrown then old(compiled) else Some(s.regex))
      ensures lines == old(lines)[s.id := LineAt(old(lines), s.id).(text := s.regex, background := s.background, font := s.font)]
      ensures active == old(active) && userDefined == old(userDefined) && button == old(button)
    {
      settings := s;
      lines := lines[s.id := LineAt(lines, s.id).(background := s.background, font := s.font)];
      lines := lines[s.id := LineAt(lines, s.id).(text := s.regex)];
      thrown := !accepts(s.regex);
      if !thrown {
        compiled := Some(s.regex);
      }
    }

    /**
     * setSettings: applied only while the filter is inactive; the result says
     * whether it was. An expression std::regex refuses throws from
     * handleNewSettings before the result is returned.
     */
    method SetSettings(s: FilterSettings, accepts: string -> bool) returns (applied: bool, thrown: bool)
      requires Valid()
      modifies this
      ensures Valid() && applied == !old(active)
      ensures thrown <==> applied && !accepts(s.regex)
      ensures applied ==> settings == s && compiled == (if thrown then old(compiled) else Some(s.regex))
      ensures applied ==> lines == old(lines)[s.id := LineAt(old(lines), s.id).(text := s.regex, background := s.background, font := s.font)]
      ensures !applied ==> settings == old(settings) && compiled == old(compiled) && lines == old(lines)
      ensures active == old(active) && userDefined == old(userDefined)
    {
      applied, thrown := false, false;
      if !active {
        thrown := HandleNewSettings(s, accepts);
        applied := true;
      }
    }

    /**
     * onButtonClicked: an inactive filter takes the line edit's text as its
     * expression, locks the line edit and becomes active; an active one
     * unlocks it and becomes inactive. The button is repainted, in the GUI's
     * current colours when the filter becomes inactive. A text std::regex
     * refuses throws once it is stored as the expression: the filter stays
     * inactive and nothing else changes.
     */
    method OnButtonClicked(guiBackground: U32, guiText: U32, accepts: string -> bool) returns (thrown: bool)
      requires Valid()
      modifies this
      ensures Valid() && userDefined == old(userDefined)
      ensures thrown <==> !old(active) && !accepts(LineAt(old(lines), old(settings).id).text)
      ensures thrown ==>
        settings == old(settings).(regex := LineAt(old(lines), old(settings).id).text) &&
        active == old(active) && compiled == old(compiled) && lines == old(lines) && button == old(button)
      ensures !thrown ==> active == !old(active) && button == ButtonColors(active, guiBackground, guiText)
      ensures !old(active) && !thrown ==>
        var line := LineAt(old(lines), old(settings).id);
        settings == old(settings).(regex := line.text) && compiled == Some(line.text) &&
        lines == old(lines)[settings.id := line.(enabled := false)]
      ensures old(active) ==>
        settings == old(settings) && compiled == old(compiled) &&
        lines == old(lines)[settings.id := LineAt(old(lines), settings.id).(enabled := true)]
    {
      var line := LineAt(lines, settings.id);
      thrown := false;
      if !active {
        settings := settings.(regex := line.text);
        if !accepts(settings.regex) {
          thrown := true;
          return;
        }
        compiled := Some(settings.regex);
        button := ButtonColors(true, guiBackground, guiText);
        lines := lines[settings.id := line.(enabled := false)];
        active := true;
      } else {
        button := ButtonColors(false, guiBackground, guiText);
        lines := lines[settings.id := line.(enabled := true)];
        active := false;
      }
    }

    /**
     * onContextMenuRequested: refused while active. Otherwise the line
     * edit's text is taken as the expression and the dialog is shown; when it
     * is accepted its settings replace the filter's and become user-defined,
     * and an expression std::regex refuses throws from handleNewSettings.
     */
    method OnContextMenuRequested(result: Option<bool>, chosen: FilterSettings, accepts: string -> bool) returns (thrown: bool)
      requires Valid()
      modifies this
      ensures Valid() && active == old(active) && button == old(button)
      ensures thrown <==> !old(active) && result == Some(true) && !accepts(chosen.regex)
      ensures old(active) ==> settings == old(settings) && userDefined == old(userDefined) && lines == old(lines) && compiled == old(compiled)
      ensures !old(active) && result == Some(true) ==>
        settings == chosen && userDefined && compiled == (if thrown then old(compiled) else Some(chosen.regex)) &&
        lines == old(lines)[chosen.id := LineAt(old(lines), chosen.id).(text := chosen.regex, background := chosen.background, font := chosen.font)]
      ensures !old(active) && result != Some(true) ==>
        settings == old(settings).(regex := LineAt(old(lines), old(settings).id).text) &&
        userDefined == old(userDefined) && lines == old(lines) && compiled == old(compiled)
    {
      thrown := false;
      if !active {
        settings := settings.(regex := LineAt(lines, settings.id).text);
        if result == Some(true) {
          userDefined := true;
          thrown := HandleNewSettings(chosen, accepts);
        }
      }
    }

    /** onButtonEvent: only this filter's button is handled; a click toggles, a context menu request edits. */
    method OnButtonEvent(id: U32, event: GUIController.ButtonEvent, result: Option<bool>, chosen: FilterSettings,
                         guiBackground: U32, guiText: U32, accepts: string -> bool) returns (thrown: bool)
      requires Valid()
      modifies this
      ensures Valid()
      ensures id != buttonId ==> unchanged(this) && !thrown
      ensures id == buttonId && event == GUIController.Clicked ==>
        (thrown <==> !old(active) && !accepts(LineAt(old(lines), old(settings).id).text)) &&
        (!thrown ==> active == !old(active) && button == ButtonColors(active, guiBackground, guiText)) &&
        (thrown ==> active == old(active) && button == old(button))
      ensures id == buttonId && event == GUIController.ContextMenuRequested ==>
        active == old(active) && button == old(button) &&
        (thrown <==> !old(active) && result == Some(true) && !accepts(chosen.regex))
    {
      thrown := false;
      if id == buttonId {
        match event {
          case Clicked => thrown := OnButtonClicked(guiBackground, guiText, accepts);
          case ContextMenuRequested => thrown := OnContextMenuRequested(result, chosen, accepts);
        }
      }
    }

    /**
     * refreshUi: the button repainted in the GUI's current colours (or green
     * on black while active); unless user-defined, the filter's colours
     * follow the palette.
     */
    method RefreshUi(paletteBase: U32, paletteText: U32, guiBackground: U32, guiText: U32)
      requires Valid()
      modifies this
      ensures Valid() && active == old(active) && userDefined == old(userDefined) && compiled == old(compiled)
      ensures button == ButtonColors(active, guiBackground, guiText)
      ensures !userDefined ==> settings == old(settings).(background := paletteBase, font := paletteText)
      ensures userDefined ==> settings == old(settings)
      ensures lines == old(lines)[settings.id := LineAt(old(lines), settings.id).(background := settings.background, font := settings.font)]
    {
      button := ButtonColors(active, guiBackground, guiText);
      if !userDefined {
        settings := settings.(background := paletteBase, font := paletteText);
      }
      lines := lines[settings.id := LineAt(lines, settings.id).(background := settings.background, font := settings.font)];
    }

    /** onPersistenceWrite: the six items, with the text taken from the line edit. */
    method OnPersistenceWrite(buffer: seq<PersistenceItem>) returns (out: seq<PersistenceItem>)
      ensures out == buffer + SavedItems(Saved(active, settings.(regex := LineAt(lines, settings.id).text), userDefined))
    {
      var text := LineAt(lines, settings.id).text;
      out := WriteNumber(buffer, "isActive", BoolToInt(active));
      out := WriteString(out, "text", text);
      out := WriteNumber(out, "backgroundColor", settings.background);
      out := WriteNumber(out, "fontColor", settings.font);
      out := WriteNumber(out, "userDefined", BoolToInt(userDefined));
      out := WriteNumber(out, "id", settings.id);
    }

    /**
     * onPersistenceRead: the restored settings go through handleNewSettings,
     * then the restored active flag is shown on the button and the line edit.
     * A restored expression std::regex refuses throws from handleNewSettings.
     */
    method OnPersistenceRead(items: seq<PersistenceItem>, guiBackground: U32, guiText: U32, accepts: string -> bool) returns (thrown: bool)
      requires Valid() && NumbersReadable(items)
      modifies this
      ensures thrown <==> !accepts(Restore(items, old(settings), old(userDefined)).settings.regex)
      ensures !thrown ==> Valid() && button == ButtonColors(active, guiBackground, guiText)
      ensures !thrown ==> Restore(items, old(settings), old(userDefined)) == Saved(active, settings, userDefined)
      ensures !thrown ==> compiled == Some(settings.regex)
      ensures !thrown ==> lines == old(lines)[settings.id := LineAt(old(lines), settings.id).(text := settings.regex, background := settings.background, font := settings.font, enabled := !active)]
      ensures thrown ==>
        var r := Restore(items, old(settings), old(userDefined));
        settings == r.settings && userDefined == r.userDefined && active == old(active) && compiled == old(compiled) && button == old(button)
    {
      var restored := ReadSaved(items, settings, userDefined);
      thrown := ShowRestored(restored, guiBackground, guiText, accepts);
    }

    /**
     * The part of onPersistenceRead after the reads: the restored state
     * applied and shown. When handleNewSettings throws, the button, the line
     * edit's lock and the active flag are left as they were.
     */
    method ShowRestored(r: Saved, guiBackground: U32, guiText: U32, accepts: string -> bool) returns (thrown: bool)
      requires Valid()
      modifies this
      ensures thrown <==> !accepts(r.settings.regex)
      ensures !thrown ==> Valid() && Saved(active, settings, userDefined) == r && compiled == Some(r.settings.regex)
      ensures !thrown ==> button == ButtonColors(r.active, guiBackground, guiText)
      ensures !thrown ==> lines == old(lines)[r.settings.id := LineAt(old(lines), r.settings.id).(text := r.settings.regex, background := r.settings.background, font := r.settings.font, enabled := !r.active)]
      ensures thrown ==>
        settings == r.settings && userDefined == r.userDefined && active == old(active) && compiled == old(compiled) && button == old(button) &&
        lines == old(lines)[r.settings.id := LineAt(old(lines), r.settings.id).(text := r.settings.regex, background := r.settings.background, font := r.settings.font)]
    {
      var s := r.settings;
      var shown := LineAt(lines, s.id).(text := s.regex, background := s.background, font := s.font, enabled := !r.active);
      userDefined := r.userDefined;
      thrown := HandleNewSettings(s, accepts);
      if thrown {
        return;
      }
      button := ButtonColors(r.active, guiBackground, guiText);
      lines := lines[s.id := LineAt(lines, s.id).(enabled := !r.active)];
      assert LineAt(lines, s.id) == shown;
      active := r.active;
    }
  }

  /** The six readItem calls of onPersistenceRead. */
  method ReadSaved(items: seq<PersistenceItem>, current: FilterSettings, userDefined: bool) returns (r: Saved)
    requires NumbersReadable(items)
    ensures r == Restore(items, current, userDefined)
  {
    var active := ReadNumber(items, "isActive", BoolKind);
    var found, regex := ReadString(items, "text", current.regex);
    var background := ReadNumber(items, "backgroundColor", U32Kind);
    var font := ReadNumber(items, "fontColor", U32Kind);
    var user := ReadNumber(items, "userDefined", BoolKind);
    var id := ReadNumber(items, "id", U8Kind);
    var s := current.(regex := regex);
    if background.Value? { s := s.(background := background.v); }
    if font.Value? { s := s.(font := font.v); }
    if id.Value? { s := s.(id := id.v); }
    r := Saved(active.Value? && active.v != 0, s, if user.Value? then user.v != 0 else userDefined);
  }
}
