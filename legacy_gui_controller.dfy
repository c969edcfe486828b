/**
 * The first GUI controller, kept in the main application: the same listener
 * registries, dispatch, port switch and theme names as the current one, plus
 * lookups of labels and trace filters by object name, per-view scrolling
 * flags, a command history that grows at the top, and trace-filter colour
 * setters that write a one-property stylesheet.
 */
module LegacyGUIController {
  import opened Common
  import opened Text
  import opened Stylesheets
  import opened GUIController

  /** A trace filter of the main window: the object names of its button and its line edit. */
  datatype TraceFilterNames = TraceFilterNames(button: string, lineEdit: string)

  /** onSetTraceFilterBackgroundColorSignal's stylesheet: "background-color: #%.6x;" and nothing else. */
  function BackgroundSheet(color: U32): string
  {
    BACKGROUND_TAG + FormatHex6(color) + ";"
  }

  /** onSetTraceFilterFontColorSignal's stylesheet: "color: #%.6x;" and nothing else. */
  function FontSheet(color: U32): string
  {
    COLOR_TAG + FormatHex6(color) + ";"
  }

  /** A one-tag stylesheet is split into that tag alone. */
  lemma OneTag(tag: string)
    requires ';' !in tag
    ensures GetlineSplit(tag + ";", ';') == [tag]
  {
    assert tag + ";" == tag + [';'] + [];
    SplitFirstToken(tag, ';', []);
  }

  /** A stylesheet of one generated tag sets that tag's item to its colour and leaves the other at 0. */
  lemma {:induction false} OneTagSheet(prefix: string, item: ColorItem, color: U32)
    requires (prefix == BACKGROUND_TAG && item == BackgroundColor) || (prefix == COLOR_TAG && item == Color)
    ensures ParseColors(prefix + FormatHex6(color) + ";") == map[BackgroundColor := 0, Color := 0][item := color]
  {
    var tag := prefix + FormatHex6(color);
    NoDelimiterInHex(color);
    assert ';' !in tag;
    OneTag(tag);
    if item == Color {
      ReadTag(prefix, "color", color);
    } else {
      ReadTag(prefix, "background-color", color);
    }
    var setting := Setting(item, color);
    assert Settings([tag]) == [setting];
    ApplyCons(map[BackgroundColor := 0, Color := 0], setting, []);
    assert [setting] + [] == [setting];
  }

  /**
   * The background setter replaces the whole stylesheet: read back, it holds
   * the colour just set and 0 for the font colour, whatever was set before.
   */
  lemma BackgroundSheetHoldsOneColor(color: U32)
    ensures ColorOf(ParseColors(BackgroundSheet(color)), BackgroundColor) == color
    ensures ColorOf(ParseColors(BackgroundSheet(color)), Color) == 0
  {
    OneTagSheet(BACKGROUND_TAG, BackgroundColor, color);
  }

  /** Likewise the font setter: the background colour reads back as 0. */
  lemma FontSheetHoldsOneColor(color: U32)
    ensures ColorOf(ParseColors(FontSheet(color)), BackgroundColor) == 0
    ensures ColorOf(ParseColors(FontSheet(color)), Color) == color
  {
    OneTagSheet(COLOR_TAG, Color, color);
  }

  class Controller {
    const buttons: seq<Button>
    /** The object names of the port labels. */
    const labels: seq<string>
    const filters: seq<TraceFilterNames>
    var listeners: seq<ButtonEventItem>
    var themeListeners: seq<Listener>
    var theme: Theme
    /** The two list views with their colours, counters and scrolling flags. */
    var terminal: seq<TraceLine>
    var terminalCount: U32
    var terminalScrolling: bool
    var trace: seq<TraceLine>
    var traceCount: U32
    var traceScrolling: bool
    var ports: seq<string>
    var currentPort: int
    var history: seq<string>
    /** The stylesheet of each trace filter's line edit, by filter id. */
    var filterSheets: map<U32, string>

    /** The same invariant as the current controller's: unique subscriptions, distinct theme listeners, counters that count their views. */
    ghost predicate Valid()
      reads this
    {
      |buttons| < UINT32_MAX && |labels| < UINT32_MAX && |filters| < UINT32_MAX && theme != ThemesMax &&
      Unique(listeners) && Distinct(themeListeners) &&
      terminalCount == |terminal| % TWO_32 && traceCount == |trace| % TWO_32 &&
      -1 <= currentPort < |ports|
    }

    /** The constructor: the theme the settings name, empty views with their counters at zero and scrolling off. */
    constructor(buttons: seq<Button>, labels: seq<string>, filters: seq<TraceFilterNames>, ports: seq<string>, currentPort: int, theme: Theme)
      requires |buttons| < UINT32_MAX && |labels| < UINT32_MAX && |filters| < UINT32_MAX
      requires theme != ThemesMax && -1 <= currentPort < |ports|
      ensures Valid()
      ensures this.buttons == buttons && this.labels == labels && this.filters == filters && this.theme == theme
      ensures this.ports == ports && this.currentPort == currentPort
      ensures listeners == [] && themeListeners == [] && terminal == [] && trace == [] && history == []
      ensures terminalCount == 0 && traceCount == 0 && !terminalScrolling && !traceScrolling && filterSheets == map[]
    {
      this.buttons := buttons;
      this.labels := labels;
      this.filters := filters;
      this.theme := theme;
      this.ports := ports;
      this.currentPort := currentPort;
      listeners, themeListeners := [], [];
      terminal, terminalCount, terminalScrolling := [], 0, false;
      trace, traceCount, traceScrolling := [], 0, false;
      history, filterSheets := [], map[];
    }

    /** getButtonID: the first button with the name, UINT32_MAX when there is none. */
    method GetButtonID(name: string) returns (r: U32)
      requires Valid()
      ensures r == UINT32_MAX <==> forall i :: 0 <= i < |buttons| ==> buttons[i].name != name
      ensures r != UINT32_MAX ==> r < |buttons| && buttons[r].name == name
      ensures forall i :: 0 <= i < r && i < |buttons| ==> buttons[i].name != name
    {
      var names := Names(buttons);
      r := FirstNamed(names, name);
      if r != UINT32_MAX {
        assert forall i :: 0 <= i < r ==> names[..r][i] == names[i];
      }
    }

    /** getLabelID: the first label with the name, UINT32_MAX when there is none. */
    method GetLabelID(name: string) returns (r: U32)
      requires Valid()
      ensures r == UINT32_MAX <==> name !in labels
      ensures r != UINT32_MAX ==> r < |labels| && labels[r] == name && name !in labels[..r]
    {
      r := FirstNamed(labels, name);
    }

    /** getTraceFilterID: the first trace filter whose button or line edit has the name, UINT32_MAX when there is none. */
    method GetTraceFilterID(name: string) returns (r: U32)
      requires Valid()
      ensures r == UINT32_MAX <==> forall i :: 0 <= i < |filters| ==> filters[i].button != name && filters[i].lineEdit != name
      ensures r != UINT32_MAX ==> r < |filters| && (filters[r].button == name || filters[r].lineEdit == name)
      ensures forall i :: 0 <= i < r && i < |filters| ==> filters[i].button != name && filters[i].lineEdit != name
    {
      r := UINT32_MAX;
      var i := 0;
      while i < |filters|
        invariant 0 <= i <= |filters|
        invariant forall j :: 0 <= j < i ==> filters[j].button != name && filters[j].lineEdit != name
      {
        if filters[i].button == name || filters[i].lineEdit == name {
          return i;
        }
        i := i + 1;
      }
    }

    method SubscribeForButtonEvent(id: U32, event: ButtonEvent, listener: Listener)
      requires Valid()
      modifies this`listeners
      ensures Valid() && listeners == Subscribed(old(listeners), id, event, listener)
      ensures ListenerFor(listeners, id, event) == Some(listener)
    {
      SubscribeRegisters(listeners, id, event, listener);
      listeners := Subscribed(listeners, id, event, listener);
    }

    method UnsubscribeFromButtonEvent(id: U32, event: ButtonEvent, listener: Listener)
      requires Valid()
      modifies this`listeners
      ensures Valid() && listeners == Unsubscribed(old(listeners), id, event, listener)
      ensures old(ListenerFor(listeners, id, event)) == Some(listener) ==> ListenerFor(listeners, id, event) == None
    {
      UnsubscribeRemoves(listeners, id, event, listener);
      listeners := Unsubscribed(listeners, id, event, listener);
    }

    /** onButtonClicked and onButtonContextMenuRequested: only a button's own signal is dispatched, to the listeners of that button and event. */
    method Dispatch(sender: nat, event: ButtonEvent) returns (id: Option<U32>, notified: seq<Listener>)
      requires Valid()
      ensures id.None? <==> forall i :: 0 <= i < |buttons| ==> buttons[i].widget != sender
      ensures id.Some? ==> id.value < |buttons| && buttons[id.value].widget == sender
      ensures id.None? ==> notified == []
      ensures id.Some? ==> notified == Notified(listeners, id.value, event)
    {
      var k := WidgetIndex(buttons, sender);
      id, notified := None, [];
      if k < |buttons| {
        id := Some(k);
        notified := Deliver(listeners, k, event);
      }
    }

    /** onAddToTerminalViewSignal: the line appended in its colours, the counter incremented; the view scrolls iff its scrolling is enabled. */
    method AddToTerminalView(text: string, background: U32, font: U32) returns (scrolled: bool)
      requires Valid()
      modifies this`terminal, this`terminalCount
      ensures Valid() && terminal == old(terminal) + [TraceLine(text, background, font)]
      ensures terminalCount == (old(terminalCount) + 1) % TWO_32
      ensures scrolled == terminalScrolling
    {
      terminal := terminal + [TraceLine(text, background, font)];
      terminalCount := (terminalCount + 1) % TWO_32;
      scrolled := terminalScrolling;
    }

    /** onAddToTraceViewSignal: the same for the trace view and its own flag. */
    method AddToTraceView(text: string, background: U32, font: U32) returns (scrolled: bool)
      requires Valid()
      modifies this`trace, this`traceCount
      ensures Valid() && trace == old(trace) + [TraceLine(text, background, font)]
      ensures traceCount == (old(traceCount) + 1) % TWO_32
      ensures scrolled == traceScrolling
    {
      trace := trace + [TraceLine(text, background, font)];
      traceCount := (traceCount + 1) % TWO_32;
      scrolled := traceScrolling;
    }

    method SetTerminalScrollingEnabled(enabled: bool)
      modifies this`terminalScrolling
      ensures terminalScrolling == enabled
    {
      terminalScrolling := enabled;
    }

    method SetTraceScrollingEnabled(enabled: bool)
      modifies this`traceScrolling
      ensures traceScrolling == enabled
    {
      traceScrolling := enabled;
    }

    /** onClearTerminalViewSignal: the view emptied, the counter reset; the scrolling flag stays. */
    method ClearTerminalView()
      requires Valid()
      modifies this`terminal, this`terminalCount
      ensures Valid() && terminal == [] && terminalCount == 0
    {
      terminal, terminalCount := [], 0;
    }

    /** onClearTraceViewSignal: the view emptied, the counter reset; the scrolling flag stays. */
    method ClearTraceView()
      requires Valid()
      modifies this`trace, this`traceCount
      ensures Valid() && trace == [] && traceCount == 0
    {
      trace, traceCount := [], 0;
    }

    /** onPortSwitchRequest, as in the current controller. */
    method OnPortSwitchRequest()
      requires Valid()
      modifies this`currentPort
      ensures Valid() && currentPort == NextPort(old(currentPort), |ports|)
    {
      if |ports| > 1 {
        currentPort := if currentPort == |ports| - 1 then 0 else currentPort + 1;
      }
    }

    /** onSetCommandHistorySignal: the box cleared and refilled with the last command first. */
    method SetCommandsHistory(commands: seq<string>)
      modifies this`history
      ensures history == Reversed(commands)
    {
      history := InsertEachAtTop([], commands);
    }

    /** onAddCommandToHistorySignal: the command inserted at the top. */
    method AddCommandToHistory(command: string)
      modifies this`history
      ensures history == [command] + old(history)
    {
      history := [command] + history;
    }

    /** onSetTraceFilterBackgroundColorSignal: the filter's stylesheet becomes the background colour alone. */
    method SetTraceFilterBackgroundColor(id: U32, color: U32)
      requires id < |filters|
      modifies this`filterSheets
      ensures filterSheets == old(filterSheets)[id := BackgroundSheet(color)]
    {
      filterSheets := filterSheets[id := BackgroundSheet(color)];
    }

    /** onSetTraceFilterFontColorSignal: the filter's stylesheet becomes the font colour alone. */
    method SetTraceFilterFontColor(id: U32, color: U32)
      requires id < |filters|
      modifies this`filterSheets
      ensures filterSheets == old(filterSheets)[id := FontSheet(color)]
    {
      filterSheets := filterSheets[id := FontSheet(color)];
    }

    method SubscribeForThemeReloadEvent(listener: Listener)
      requires Valid()
      modifies this`themeListeners
      ensures Valid() && themeListeners == ThemeSubscribed(old(themeListeners), listener)
    {
      ThemeSubscribeOnce(themeListeners, listener);
      themeListeners := ThemeSubscribed(themeListeners, listener);
    }

    method UnsubscribeFromThemeReloadEvent(listener: Listener)
      requires Valid()
      modifies this`themeListeners
      ensures Valid() && themeListeners == ThemeUnsubscribed(old(themeListeners), listener)
      ensures listener !in themeListeners
    {
      ThemeUnsubscribeRemoves(themeListeners, listener);
      themeListeners := ThemeUnsubscribed(themeListeners, listener);
    }

    /** onReloadThemeSignal: the theme loaded, then every non-null theme listener told, in order. */
    method ReloadTheme(t: Theme) returns (notified: seq<Listener>)
      requires Valid() && t != ThemesMax
      modifies this`theme
      ensures Valid() && theme == t
      ensures notified == NonNull(themeListeners)
    {
      theme := t;
      notified := NotifyThemeListeners(themeListeners);
    }
  }
}
