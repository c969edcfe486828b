/**
 * The GUI controller's bookkeeping behind the widgets: the button and theme
 * listener registries and the dispatch of button events to them, the item
 * counters of the terminal and trace views, the cyclic switch of the port
 * selection, the command history box and the theme names. The widgets
 * themselves are not part of this model; a widget or a listener is known by
 * its address, a natural number here.
 */
module GUIController {
  import opened Common
  import Listeners

  /** The events a button reports to its listeners. */
  datatype ButtonEvent = Clicked | ContextMenuRequested

  /** A listener's address; NULL is the null pointer. */
  type Listener = nat
  const NULL: Listener := 0

  /** One subscription: the listener told about the event on the button. */
  datatype ButtonEventItem = ButtonEventItem(id: U32, event: ButtonEvent, listener: Listener)

  /** A button of the main window: its widget's address and its object name. */
  datatype Button = Button(widget: nat, name: string)

  /** A line of the trace view and its colours. */
  datatype TraceLine = TraceLine(text: string, background: U32, font: U32)

  /** The application themes; ThemesMax is the enum's end marker, which nameToTheme returns for an unknown name. */
  datatype Theme = Default | Dark | ThemesMax

  const THEME_NAMES: seq<string> := ["DEFAULT", "DARK"]

  // ---------------------------------------------------------------- searching

  /** std::find_if on the button and event: the index of the first such subscription, or the length. */
  function KeyIndex(items: seq<ButtonEventItem>, id: U32, event: ButtonEvent): (k: nat)
    ensures k <= |items|
    ensures k < |items| ==> items[k].id == id && items[k].event == event
    ensures forall j :: 0 <= j < k ==> !(items[j].id == id && items[j].event == event)
  {
    if items == [] then 0
    else if items[0].id == id && items[0].event == event then 0
    else
      var k := 1 + KeyIndex(items[1..], id, event);
      assert forall j :: 1 <= j < k ==> items[j] == items[1..][j - 1];
      k
  }

  /** std::find of a widget among the buttons: the index of its button, or the length. */
  function WidgetIndex(buttons: seq<Button>, widget: nat): (k: nat)
    ensures k <= |buttons|
    ensures k < |buttons| ==> buttons[k].widget == widget
    ensures forall j :: 0 <= j < k ==> buttons[j].widget != widget
  {
    if buttons == [] then 0
    else if buttons[0].widget == widget then 0
    else
      var k := 1 + WidgetIndex(buttons[1..], widget);
      assert forall j :: 1 <= j < k ==> buttons[j] == buttons[1..][j - 1];
      k
  }

  // ---------------------------------------------------------------- button listeners

  /** The subscription for the button and event: its listener, when there is one. */
  function ListenerFor(items: seq<ButtonEventItem>, id: U32, event: ButtonEvent): (r: Option<Listener>)
    ensures r.None? <==> forall j :: 0 <= j < |items| ==> !(items[j].id == id && items[j].event == event)
  {
    var k := KeyIndex(items, id, event);
    if k < |items| then Some(items[k].listener) else None
  }

  /** At most one subscription per button and event. */
  predicate Unique(items: seq<ButtonEventItem>)
  {
    forall i, j :: 0 <= i < j < |items| ==> !(items[i].id == items[j].id && items[i].event == items[j].event)
  }

  /** subscribeForButtonEvent: an existing subscription for the button and event is replaced in place, otherwise one is appended. */
  function Subscribed(items: seq<ButtonEventItem>, id: U32, event: ButtonEvent, listener: Listener): seq<ButtonEventItem>
  {
    var k := KeyIndex(items, id, event);
    if k < |items| then items[k := ButtonEventItem(id, event, listener)]
    else items + [ButtonEventItem(id, event, listener)]
  }

  /** unsubscribeFromButtonEvent: the first subscription matching all three is erased; without one nothing changes. */
  function Unsubscribed(items: seq<ButtonEventItem>, id: U32, event: ButtonEvent, listener: Listener): seq<ButtonEventItem>
  {
    var k := Listeners.FirstIndex(items, ButtonEventItem(id, event, listener));
    if k < |items| then items[..k] + items[k + 1..] else items
  }

  /** The listeners a button event is delivered to, in subscription order: those of the button and event that are not null. */
  function Notified(items: seq<ButtonEventItem>, id: U32, event: ButtonEvent): seq<Listener>
  {
    if items == [] then [] else Reached(items[0], id, event) + Notified(items[1..], id, event)
  }

  /** The subscription's listener, when it is subscribed for the button and event and is not null. */
  function Reached(item: ButtonEventItem, id: U32, event: ButtonEvent): seq<Listener>
  {
    if item.id == id && item.event == event && item.listener != NULL then [item.listener] else []
  }

  /** Under Unique, the subscription of any item is that item's listener. */
  lemma ListenerAt(items: seq<ButtonEventItem>, j: nat)
    requires Unique(items) && j < |items|
    ensures ListenerFor(items, items[j].id, items[j].event) == Some(items[j].listener)
  {
    var id, event := items[j].id, items[j].event;
    var k := KeyIndex(items, id, event);
    assert k == j;
  }

  /** A subscription list that is Unique stays so without its first entry. */
  lemma UniqueTail(items: seq<ButtonEventItem>)
    requires Unique(items) && items != []
    ensures Unique(items[1..])
  {
    assert forall i :: 0 <= i < |items| - 1 ==> items[1..][i] == items[i + 1];
  }

  /** The lookup decided by the first subscription, or left to the rest. */
  lemma ListenerForCons(items: seq<ButtonEventItem>, id: U32, event: ButtonEvent)
    requires items != []
    ensures ListenerFor(items, id, event) ==
      if items[0].id == id && items[0].event == event then Some(items[0].listener) else ListenerFor(items[1..], id, event)
  {
    if !(items[0].id == id && items[0].event == event) {
      var k := KeyIndex(items[1..], id, event);
      if k < |items| - 1 {
        assert items[k + 1] == items[1..][k];
      }
    }
  }

  /** The subscription list after subscribing agrees with the old one for every other button and event. */
  lemma SubscribeKeepsOther(items: seq<ButtonEventItem>, id: U32, event: ButtonEvent, listener: Listener, i: U32, e: ButtonEvent)
    requires Unique(items) && Unique(Subscribed(items, id, event, listener)) && !(i == id && e == event)
    ensures ListenerFor(Subscribed(items, id, event, listener), i, e) == ListenerFor(items, i, e)
  {
    var r := Subscribed(items, id, event, listener);
    var k := KeyIndex(items, id, event);
    var jr := KeyIndex(r, i, e);
    if jr < |r| {
      assert jr != k && jr < |items| && r[jr] == items[jr];
      ListenerAt(r, jr);
      ListenerAt(items, jr);
    } else {
      forall j | 0 <= j < |items|
        ensures !(items[j].id == i && items[j].event == e)
      {
        if j != k {
          assert r[j] == items[j];
        }
      }
    }
  }

  /**
   * Subscribing keeps one subscription per button and event: afterwards the
   * button and event have the new listener, and every other button and
   * event keeps its own.
   */
  lemma SubscribeRegisters(items: seq<ButtonEventItem>, id: U32, event: ButtonEvent, listener: Listener)
    requires Unique(items)
    ensures Unique(Subscribed(items, id, event, listener))
    ensures ListenerFor(Subscribed(items, id, event, listener), id, event) == Some(listener)
    ensures forall i: U32, e :: !(i == id && e == event) ==>
      ListenerFor(Subscribed(items, id, event, listener), i, e) == ListenerFor(items, i, e)
  {
    var r := Subscribed(items, id, event, listener);
    var k := KeyIndex(items, id, event);
    // r differs from items only in one position, holding the key (id, event)
    assert forall j :: 0 <= j < |r| && j != k ==> j < |items| && r[j] == items[j];
    assert k < |r| && r[k] == ButtonEventItem(id, event, listener);
    ListenerAt(r, k);
    forall i: U32, e | !(i == id && e == event)
      ensures ListenerFor(r, i, e) == ListenerFor(items, i, e)
    {
      SubscribeKeepsOther(items, id, event, listener, i, e);
    }
  }

  /** Erasing a subscription keeps every other button and event as it was. */
  lemma EraseKeepsOther(items: seq<ButtonEventItem>, k: nat, i: U32, e: ButtonEvent)
    requires Unique(items) && k < |items| && Unique(items[..k] + items[k + 1..])
    requires !(i == items[k].id && e == items[k].event)
    ensures ListenerFor(items[..k] + items[k + 1..], i, e) == ListenerFor(items, i, e)
  {
    var r := items[..k] + items[k + 1..];
    var jr := KeyIndex(r, i, e);
    if jr < |r| {
      var j := if jr < k then jr else jr + 1;
      assert r[jr] == items[j];
      ListenerAt(r, jr);
      ListenerAt(items, j);
    } else {
      forall j | 0 <= j < |items|
        ensures !(items[j].id == i && items[j].event == e)
      {
        if j != k {
          assert items[j] == r[if j < k then j else j - 1];
        }
      }
    }
  }

  /** Erasing one subscription keeps the others unique, leaves its button and event without one and every other as it was. */
  lemma EraseOne(items: seq<ButtonEventItem>, k: nat)
    requires Unique(items) && k < |items|
    ensures Unique(items[..k] + items[k + 1..])
    ensures ListenerFor(items[..k] + items[k + 1..], items[k].id, items[k].event) == None
    ensures forall i: U32, e :: !(i == items[k].id && e == items[k].event) ==>
      ListenerFor(items[..k] + items[k + 1..], i, e) == ListenerFor(items, i, e)
  {
    var r := items[..k] + items[k + 1..];
    assert forall j :: 0 <= j < |r| ==> r[j] == items[if j < k then j else j + 1];
    forall i: U32, e | !(i == items[k].id && e == items[k].event)
      ensures ListenerFor(r, i, e) == ListenerFor(items, i, e)
    {
      EraseKeepsOther(items, k, i, e);
    }
  }

  /**
   * Unsubscribing the listener of a button and event removes the
   * subscription; any other listener leaves the registry as it was. Other
   * buttons and events keep their listeners either way.
   */
  lemma UnsubscribeRemoves(items: seq<ButtonEventItem>, id: U32, event: ButtonEvent, listener: Listener)
    requires Unique(items)
    ensures Unique(Unsubscribed(items, id, event, listener))
    ensures ListenerFor(items, id, event) == Some(listener) ==>
      ListenerFor(Unsubscribed(items, id, event, listener), id, event) == None
    ensures ListenerFor(items, id, event) != Some(listener) ==> Unsubscribed(items, id, event, listener) == items
    ensures forall i: U32, e :: !(i == id && e == event) ==>
      ListenerFor(Unsubscribed(items, id, event, listener), i, e) == ListenerFor(items, i, e)
  {
    var k := Listeners.FirstIndex(items, ButtonEventItem(id, event, listener));
    if k < |items| {
      assert items[k].id == id && items[k].event == event && items[k].listener == listener;
      assert Unsubscribed(items, id, event, listener) == items[..k] + items[k + 1..];
      ListenerAt(items, k);
      EraseOne(items, k);
    } else {
      NoExactMatch(items, id, event, listener);
    }
  }

  /** Without a subscription of the listener itself, the button and event have some other listener or none. */
  lemma NoExactMatch(items: seq<ButtonEventItem>, id: U32, event: ButtonEvent, listener: Listener)
    requires Listeners.FirstIndex(items, ButtonEventItem(id, event, listener)) == |items|
    ensures ListenerFor(items, id, event) != Some(listener)
  {
    var j := KeyIndex(items, id, event);
    if j < |items| {
      assert items[j] != ButtonEventItem(id, event, listener);
    }
  }

  /** A button event reaches exactly the non-null listener subscribed for that button and event, and nothing else. */
  lemma {:induction false} NotifiedIsSubscriber(items: seq<ButtonEventItem>, id: U32, event: ButtonEvent)
    requires Unique(items)
    ensures Notified(items, id, event) ==
      match ListenerFor(items, id, event)
      case Some(l) => if l != NULL then [l] else []
      case None => []
  {
    if items != [] {
      var rest := items[1..];
      UniqueTail(items);
      NotifiedIsSubscriber(rest, id, event);
      ListenerForCons(items, id, event);
      if items[0].id == id && items[0].event == event {
        assert forall j :: 0 <= j < |rest| ==> rest[j] == items[j + 1];
        assert ListenerFor(rest, id, event) == None;
      }
    }
  }

  /** The prefix of the list one subscription longer. */
  lemma {:induction false} NotifiedAppend(items: seq<ButtonEventItem>, item: ButtonEventItem, id: U32, event: ButtonEvent)
    ensures Notified(items + [item], id, event) == Notified(items, id, event) + Reached(item, id, event)
  {
    if items == [] {
      assert ([] + [item])[1..] == [];
    } else {
      assert (items + [item])[1..] == items[1..] + [item];
      NotifiedAppend(items[1..], item, id, event);
    }
  }

  // ---------------------------------------------------------------- theme listeners

  /** No listener subscribed twice. */
  predicate Distinct(s: seq<Listener>)
  {
    forall i, j :: 0 <= i < j < |s| ==> s[i] != s[j]
  }

  /** subscribeForThemeReloadEvent: appended unless already subscribed. */
  function ThemeSubscribed(s: seq<Listener>, listener: Listener): seq<Listener>
  {
    if listener in s then s else s + [listener]
  }

  /** unsubscribeFromThemeReloadEvent: the first occurrence erased; nothing changes for a listener not subscribed. */
  function ThemeUnsubscribed(s: seq<Listener>, listener: Listener): seq<Listener>
  {
    var k := Listeners.FirstIndex(s, listener);
    if k < |s| then s[..k] + s[k + 1..] else s
  }

  /** Subscribing to theme reloads adds the listener once, keeping the list free of duplicates. */
  lemma ThemeSubscribeOnce(s: seq<Listener>, listener: Listener)
    requires Distinct(s)
    ensures Distinct(ThemeSubscribed(s, listener))
    ensures (set x | x in ThemeSubscribed(s, listener)) == (set x | x in s) + {listener}
    ensures ThemeSubscribed(ThemeSubscribed(s, listener), listener) == ThemeSubscribed(s, listener)
  {
  }

  /** Unsubscribing removes the listener and only it, and keeps the list free of duplicates. */
  lemma ThemeUnsubscribeRemoves(s: seq<Listener>, listener: Listener)
    requires Distinct(s)
    ensures Distinct(ThemeUnsubscribed(s, listener))
    ensures (set x | x in ThemeUnsubscribed(s, listener)) == (set x | x in s) - {listener}
  {
    var r := ThemeUnsubscribed(s, listener);
    var k := Listeners.FirstIndex(s, listener);
    if k < |s| {
      assert forall j :: 0 <= j < k ==> r[j] == s[j];
      assert forall j :: k <= j < |r| ==> r[j] == s[j + 1];
      assert forall x :: x in s && x != listener ==> x in r by {
        forall x | x in s && x != listener ensures x in r {
          var j :| 0 <= j < |s| && s[j] == x;
          if j < k { assert r[j] == x; } else { assert r[j - 1] == x; }
        }
      }
    }
  }

  /** The non-null theme listeners, in subscription order: the ones a reload notifies. */
  function NonNull(s: seq<Listener>): (r: seq<Listener>)
    ensures forall x :: x in r <==> x in s && x != NULL
  {
    if s == [] then [] else (if s[0] != NULL then [s[0]] else []) + NonNull(s[1..])
  }

  // ---------------------------------------------------------------- themes

  /** themeToName: the enumerator's own name. */
  function ThemeToName(theme: Theme): (r: string)
    requires theme != ThemesMax
    ensures r in THEME_NAMES
  {
    match theme
    case Default => THEME_NAMES[0]
    case Dark => THEME_NAMES[1]
  }

  /** nameToTheme: the theme whose name it is, ThemesMax for any other name. */
  function NameToTheme(name: string): (r: Theme)
    ensures r == ThemesMax <==> name !in THEME_NAMES
  {
    var k := Listeners.FirstIndex(THEME_NAMES, name);
    if k == 0 then Default else if k == 1 then Dark else ThemesMax
  }

  /** The two translations are inverses of each other. */
  lemma ThemeNamesInverse(theme: Theme, name: string)
    ensures theme != ThemesMax ==> NameToTheme(ThemeToName(theme)) == theme
    ensures NameToTheme(name) != ThemesMax ==> ThemeToName(NameToTheme(name)) == name
  {
    var k := Listeners.FirstIndex(THEME_NAMES, name);
    assert THEME_NAMES[0] != THEME_NAMES[1];
  }

  // ---------------------------------------------------------------- port switch and history

  /** onPortSwitchRequest's choice: the next entry, wrapping to the first; nothing moves with fewer than two entries. */
  function NextPort(current: int, count: nat): (r: int)
    requires -1 <= current < count
    ensures -1 <= r < count
    ensures count > 1 ==> 0 <= r
  {
    if count <= 1 then current
    else if current == count - 1 then 0
    else current + 1
  }

  /** n switches in a row. */
  function SwitchTimes(current: int, count: nat, n: nat): (r: int)
    requires -1 <= current < count
    ensures -1 <= r < count
    decreases n
  {
    if n == 0 then current else SwitchTimes(NextPort(current, count), count, n - 1)
  }

  /** Switching is cyclic: from any selected entry the switches visit the following entries, wrap to the first, and after as many switches as there are entries come back to it. */
  lemma {:induction false} SwitchCycles(current: nat, count: nat, n: nat)
    requires current < count && n <= count
    ensures SwitchTimes(current, count, n) ==
      if count <= 1 then current else if current + n < count then current + n else current + n - count
  {
    if n > 0 {
      SwitchCycles(current, count, n - 1);
      SwitchLast(current, count, n - 1);
    }
  }

  /** One more switch after n. */
  lemma {:induction false} SwitchLast(current: int, count: nat, n: nat)
    requires -1 <= current < count
    ensures SwitchTimes(current, count, n + 1) == NextPort(SwitchTimes(current, count, n), count)
    decreases n
  {
    if n > 0 {
      SwitchLast(NextPort(current, count), count, n - 1);
    }
  }

  /** The sequence in reverse order. */
  function Reversed<T>(s: seq<T>): (r: seq<T>)
    ensures |r| == |s|
    ensures forall i :: 0 <= i < |s| ==> r[i] == s[|s| - 1 - i]
  {
    if s == [] then [] else Reversed(s[1..]) + [s[0]]
  }

  // ---------------------------------------------------------------- the loops both controllers share

  /** The linear search of getButtonID (and getLabelID): the index of the first widget with the name, UINT32_MAX when there is none. */
  method FirstNamed(names: seq<string>, name: string) returns (r: U32)
    requires |names| < UINT32_MAX
    ensures r == UINT32_MAX <==> name !in names
    ensures r != UINT32_MAX ==> r < |names| && names[r] == name && name !in names[..r]
  {
    r := UINT32_MAX;
    var i := 0;
    while i < |names|
      invariant 0 <= i <= |names|
      invariant name !in names[..i]
    {
      if names[i] == name {
        return i;
      }
      assert names[..i + 1] == names[..i] + [names[i]];
      i := i + 1;
    }
    assert names[..i] == names;
  }

  /** The loop of the button event slots: each non-null listener subscribed for the button and event is notified, in order. */
  method Deliver(items: seq<ButtonEventItem>, id: U32, event: ButtonEvent) returns (notified: seq<Listener>)
    ensures notified == Notified(items, id, event)
  {
    notified := [];
    var i := 0;
    while i < |items|
      invariant 0 <= i <= |items|
      invariant notified == Notified(items[..i], id, event)
    {
      NotifiedAppend(items[..i], items[i], id, event);
      assert items[..i] + [items[i]] == items[..i + 1];
      var item := items[i];
      if item.id == id && item.event == event && item.listener != NULL {
        notified := notified + [item.listener];
      }
      i := i + 1;
    }
    assert items[..i] == items;
  }

  /** The loop of onReloadThemeSignal: every non-null theme listener is told, in order. */
  method NotifyThemeListeners(s: seq<Listener>) returns (notified: seq<Listener>)
    ensures notified == NonNull(s)
  {
    notified := [];
    var i := 0;
    while i < |s|
      invariant 0 <= i <= |s|
      invariant notified + NonNull(s[i..]) == NonNull(s)
    {
      assert s[i..][1..] == s[i + 1..];
      if s[i] != NULL {
        notified := notified + [s[i]];
      }
      i := i + 1;
    }
  }

  /** The loop of onSetCommandHistorySignal: each command inserted at index 0 of the box, so the last one ends up first. */
  method InsertEachAtTop(box: seq<string>, commands: seq<string>) returns (r: seq<string>)
    ensures r == Reversed(commands) + box
  {
    r := box;
    var i := 0;
    while i < |commands|
      invariant 0 <= i <= |commands|
      invariant r == Reversed(commands[..i]) + box
    {
      ReversedPush(commands[..i], commands[i]);
      assert commands[..i] + [commands[i]] == commands[..i + 1];
      r := [commands[i]] + r;
      i := i + 1;
    }
    assert commands[..i] == commands;
  }

  /** The object names of the buttons, in order. */
  function Names(buttons: seq<Button>): (r: seq<string>)
    ensures |r| == |buttons| && forall i :: 0 <= i < |buttons| ==> r[i] == buttons[i].name
  {
    seq(|buttons|, i requires 0 <= i < |buttons| => buttons[i].name)
  }

  // ---------------------------------------------------------------- the controller

  class Controller {
    /** The main window's buttons, in the order that gives their ids. */
    const buttons: seq<Button>
    /** Widgets standing in for a button (a trace filter's line edit, the command line, the shortcuts). */
    const shortcuts: map<nat, nat>
    var listeners: seq<ButtonEventItem>
    var themeListeners: seq<Listener>
    /** The theme the window shows. */
    var theme: Theme
    var terminal: seq<string>
    var terminalCount: U32
    var trace: seq<TraceLine>
    var traceCount: U32
    /** The port selection box: its entries and its current index (-1 for none). */
    var ports: seq<string>
    var currentPort: int
    /** The command box: its entries and its current index (-1 for none). */
    var history: seq<string>
    var currentCommand: int

    /**
     * The controller's invariant: one subscription per button and event, no
     * theme listener twice, each item counter is the number of lines its
     * view holds (kept in a uint32_t, so modulo 2^32), and the selections
     * point into their boxes.
     */
    ghost predicate Valid()
      reads this
    {
      |buttons| < UINT32_MAX && theme != ThemesMax &&
      Unique(listeners) && Distinct(themeListeners) &&
      terminalCount == |terminal| % TWO_32 && traceCount == |trace| % TWO_32 &&
      -1 <= currentPort < |ports| && -1 <= currentCommand < |history|
    }

    /** The constructor: no subscriptions, empty views with their counters at zero. */
    constructor(buttons: seq<Button>, shortcuts: map<nat, nat>, ports: seq<string>, currentPort: int, theme: Theme)
      requires |buttons| < UINT32_MAX && theme != ThemesMax && -1 <= currentPort < |ports|
      ensures Valid()
      ensures this.buttons == buttons && this.shortcuts == shortcuts && this.theme == theme
      ensures this.ports == ports && this.currentPort == currentPort
      ensures listeners == [] && themeListeners == [] && terminal == [] && trace == [] && history == []
      ensures terminalCount == 0 && traceCount == 0 && currentCommand == -1
    {
      this.buttons := buttons;
      this.shortcuts := shortcuts;
      this.theme := theme;
      this.ports := ports;
      this.currentPort := currentPort;
      listeners := [];
      themeListeners := [];
      terminal := [];
      terminalCount := 0;
      trace := [];
      traceCount := 0;
      history := [];
      currentCommand := -1;
    }

    /** getButtonID: the index of the first button with the name, UINT32_MAX when there is none. */
    method GetButtonID(name: string) returns (r: U32)
      requires Valid()
      ensures r == UINT32_MAX <==> forall i :: 0 <= i < |buttons| ==> buttons[i].name != name
      ensures r != UINT32_MAX ==> r < |buttons| && buttons[r].name == name
      ensures forall i :: 0 <= i < r && i < |buttons| ==> buttons[i].name != name
    {
      var names := Names(buttons);
      r := FirstNamed(names, name);
      if r != UINT32_MAX {
        assert forall i :: 0 <= i < r ==> names[..r][i] == names[i];
      }
    }

    method SubscribeForButtonEvent(id: U32, event: ButtonEvent, listener: Listener)
      requires Valid()
      modifies this
      ensures Valid()
      ensures listeners == Subscribed(old(listeners), id, event, listener)
      ensures ListenerFor(listeners, id, event) == Some(listener)
      ensures unchanged(this`themeListeners) && unchanged(this`terminal) && unchanged(this`trace) && unchanged(this`theme)
      ensures unchanged(this`ports) && unchanged(this`currentPort) && unchanged(this`history) && unchanged(this`currentCommand)
      ensures terminalCount == old(terminalCount) && traceCount == old(traceCount)
    {
      SubscribeRegisters(listeners, id, event, listener);
      listeners := Subscribed(listeners, id, event, listener);
    }

    method UnsubscribeFromButtonEvent(id: U32, event: ButtonEvent, listener: Listener)
      requires Valid()
      modifies this
      ensures Valid()
      ensures listeners == Unsubscribed(old(listeners), id, event, listener)
      ensures old(ListenerFor(listeners, id, event)) == Some(listener) ==> ListenerFor(listeners, id, event) == None
      ensures unchanged(this`themeListeners) && unchanged(this`terminal) && unchanged(this`trace) && unchanged(this`theme)
      ensures unchanged(this`ports) && unchanged(this`currentPort) && unchanged(this`history) && unchanged(this`currentCommand)
      ensures terminalCount == old(terminalCount) && traceCount == old(traceCount)
    {
      UnsubscribeRemoves(listeners, id, event, listener);
      listeners := Unsubscribed(listeners, id, event, listener);
    }

    /** The button a widget's signal stands for: its shortcut's button, or the widget itself. */
    function ButtonOf(sender: nat): (r: Option<U32>)
      requires |buttons| < UINT32_MAX
      reads this
      ensures r.Some? ==> r.value < |buttons|
      ensures r.None? <==> forall i :: 0 <= i < |buttons| ==> buttons[i].widget != (if sender in shortcuts then shortcuts[sender] else sender)
    {
      var target := if sender in shortcuts then shortcuts[sender] else sender;
      var k := WidgetIndex(buttons, target);
      if k < |buttons| then Some(k) else None
    }

    /**
     * onButtonClicked and onButtonContextMenuRequested: the sender is mapped
     * to its button, and each non-null listener subscribed for that button
     * and event is notified, in subscription order. A sender that is no
     * button notifies nobody.
     */
    method Dispatch(sender: nat, event: ButtonEvent) returns (id: Option<U32>, notified: seq<Listener>)
      requires Valid()
      ensures id == ButtonOf(sender)
      ensures id.None? ==> notified == []
      ensures id.Some? ==> notified == Notified(listeners, id.value, event)
    {
      id := ButtonOf(sender);
      notified := [];
      if id.Some? {
        notified := Deliver(listeners, id.value, event);
      }
    }

    /** onAddToTerminalViewSignal: the line appended and the counter incremented. */
    method AddToTerminalView(text: string)
      requires Valid()
      modifies this`terminal, this`terminalCount
      ensures Valid() && terminal == old(terminal) + [text]
      ensures terminalCount == (old(terminalCount) + 1) % TWO_32
    {
      terminal := terminal + [text];
      terminalCount := (terminalCount + 1) % TWO_32;
    }

    /** onAddToTraceViewSignal: the line appended in its colours and the counter incremented. */
    method AddToTraceView(text: string, background: U32, font: U32)
      requires Valid()
      modifies this`trace, this`traceCount
      ensures Valid() && trace == old(trace) + [TraceLine(text, background, font)]
      ensures traceCount == (old(traceCount) + 1) % TWO_32
    {
      trace := trace + [TraceLine(text, background, font)];
      traceCount := (traceCount + 1) % TWO_32;
    }

    /** onClearTerminalViewSignal: the view emptied and the counter reset. */
    method ClearTerminalView()
      requires Valid()
      modifies this`terminal, this`terminalCount
      ensures Valid() && terminal == [] && terminalCount == 0
    {
      terminal := [];
      terminalCount := 0;
    }

    /** onClearTraceViewSignal: the view emptied and the counter reset. */
    method ClearTraceView()
      requires Valid()
      modifies this`trace, this`traceCount
      ensures Valid() && trace == [] && traceCount == 0
    {
      trace := [];
      traceCount := 0;
    }

    /** onPortSwitchRequest: with two entries or more the selection moves on, wrapping at the end; otherwise it stays. */
    method OnPortSwitchRequest()
      requires Valid()
      modifies this`currentPort
      ensures Valid() && currentPort == NextPort(old(currentPort), |ports|)
    {
      var count := |ports|;
      if count > 1 {
        if currentPort == count - 1 {
          currentPort := 0;
        } else {
          currentPort := currentPort + 1;
        }
      }
    }

    /** onSetCommandHistorySignal: the box cleared, then each command inserted at the top, so the last one is shown first. */
    method SetCommandsHistory(commands: seq<string>)
      requires Valid()
      modifies this`history, this`currentCommand
      ensures Valid() && history == Reversed(commands) && currentCommand == -1
    {
      history := InsertEachAtTop([], commands);
      currentCommand := -1;
    }

    method SubscribeForThemeReloadEvent(listener: Listener)
      requires Valid()
      modifies this`themeListeners
      ensures Valid() && themeListeners == ThemeSubscribed(old(themeListeners), listener)
    {
      ThemeSubscribeOnce(themeListeners, listener);
      themeListeners := ThemeSubscribed(themeListeners, listener);
    }

    method UnsubscribeFromThemeReloadEvent(listener: Listener)
      requires Valid()
      modifies this`themeListeners
      ensures Valid() && themeListeners == ThemeUnsubscribed(old(themeListeners), listener)
      ensures listener !in themeListeners
    {
      ThemeUnsubscribeRemoves(themeListeners, listener);
      themeListeners := ThemeUnsubscribed(themeListeners, listener);
    }

    /** onReloadThemeSignal: the theme loaded, then every non-null theme listener told, in subscription order. */
    method ReloadTheme(t: Theme) returns (notified: seq<Listener>)
      requires Valid() && t != ThemesMax
      modifies this`theme
      ensures Valid() && theme == t
      ensures notified == NonNull(themeListeners)
    {
      theme := t;
      notified := NotifyThemeListeners(themeListeners);
    }
  }

  /** Reversing a sequence with one more element puts that element first. */
  lemma ReversedPush<T>(s: seq<T>, x: T)
    ensures Reversed(s + [x]) == [x] + Reversed(s)
  {
  }

  /** Reversing twice gives the sequence back: the history box read bottom-up is the history. */
  lemma ReversedTwice<T>(s: seq<T>)
    ensures Reversed(Reversed(s)) == s
  {
  }
}
