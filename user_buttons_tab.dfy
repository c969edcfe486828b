/**
 * A tab of user buttons: it owns buttons_count user buttons, named after
 * their place among the buttons of all tabs, and a name the user can change
 * through a dialog. The name is saved and restored through the persistence.
 */
module UserButtonsTab {
  import opened Common
  import opened Text
  import opened Persistence
  import GUIController
  import UserButton

  const TAB_NAME_KEY: string := "tabName"

  /** The name a tab has until it is renamed: "TAB" and its id. */
  function DefaultTabName(tabId: Byte): (r: string)
    ensures |r| > 3 && r[..3] == "TAB"
    ensures AllDigits(r[3..]) && DecimalValue(r[3..]) == tabId
  {
    Numbered("TAB", tabId)
  }

  /** The place of the tab's button i among the buttons of all tabs. */
  function GlobalIndex(tabId: Byte, count: Byte, i: nat): nat
  {
    tabId * count + i
  }

  /** The object name of the tab's button i: "BUTTON" and its place among all buttons. */
  function ButtonName(tabId: Byte, count: Byte, i: nat): (r: string)
    ensures |r| > 6 && r[..6] == "BUTTON"
    ensures AllDigits(r[6..]) && DecimalValue(r[6..]) == GlobalIndex(tabId, count, i)
  {
    Numbered("BUTTON", GlobalIndex(tabId, count, i))
  }

  /** A button of an earlier tab comes before every button of a later one. */
  lemma EarlierTabFirst(t1: Byte, t2: Byte, count: Byte, i: nat, j: nat)
    requires t1 < t2 && i < count
    ensures GlobalIndex(t1, count, i) < GlobalIndex(t2, count, j)
  {
    var gap: nat := t2 - t1 - 1;
    assert t2 * count == t1 * count + count + gap * count;
  }

  /** Below buttons_count, different tabs or indices give different places among all buttons. */
  lemma GlobalIndexDistinct(t1: Byte, t2: Byte, count: Byte, i: nat, j: nat)
    requires i < count && j < count && (t1, i) != (t2, j)
    ensures GlobalIndex(t1, count, i) != GlobalIndex(t2, count, j)
  {
    if t1 < t2 {
      EarlierTabFirst(t1, t2, count, i, j);
    } else if t2 < t1 {
      EarlierTabFirst(t2, t1, count, j, i);
    }
  }

  /** The buttons of all tabs have distinct object names. */
  lemma ButtonNamesDistinct(t1: Byte, t2: Byte, count: Byte, i: nat, j: nat)
    requires i < count && j < count && (t1, i) != (t2, j)
    ensures ButtonName(t1, count, i) != ButtonName(t2, count, j)
  {
    GlobalIndexDistinct(t1, t2, count, i, j);
  }

  // ---------------------------------------------------------------- persistence ids of the buttons

  /** The id the constructor passes to the tab's button i as written: its index within the tab. */
  function ButtonIdAsWritten(tabId: Byte, count: Byte, i: nat): (r: Byte)
    requires i < count
    ensures r == i
  {
    i
  }

  /**
   * With the id as written, button 0 of tab 0 and button 0 of tab 1 register
   * under the same persistence name although they are different buttons, so
   * each is restored from both saved blocks and ends with the last one.
   */
  lemma PersistenceNamesCollide(count: Byte)
    requires count > 0
    ensures ButtonName(0, count, 0) != ButtonName(1, count, 0)
    ensures ButtonIdAsWritten(0, count, 0) == ButtonIdAsWritten(1, count, 0)
    ensures UserButton.PersistenceName(ButtonIdAsWritten(0, count, 0))
         == UserButton.PersistenceName(ButtonIdAsWritten(1, count, 0))
  {
    ButtonNamesDistinct(0, 1, count, 0, 0);
  }

  /** The id as intended: the button's place among all buttons, so its persistence name is its object name. */
  function ButtonId(tabId: Byte, count: Byte, i: nat): (r: Byte)
    requires i < count && tabId * count + count <= TWO_8
    ensures UserButton.PersistenceName(r) == ButtonName(tabId, count, i)
  {
    GlobalIndex(tabId, count, i)
  }

  /** With the intended id, no two buttons of any tabs share a persistence name. */
  lemma PersistenceNamesDistinct(t1: Byte, t2: Byte, count: Byte, i: nat, j: nat)
    requires i < count && j < count && (t1, i) != (t2, j)
    requires t1 * count + count <= TWO_8 && t2 * count + count <= TWO_8
    ensures UserButton.PersistenceName(ButtonId(t1, count, i)) != UserButton.PersistenceName(ButtonId(t2, count, j))
  {
    ButtonNamesDistinct(t1, t2, count, i, j);
  }

  // ---------------------------------------------------------------- tab name persistence

  /** What onPersistenceRead makes the name: the saved one, or "" when none was saved. */
  function RestoredName(items: seq<PersistenceItem>): string
  {
    TextOr(items, TAB_NAME_KEY, "")
  }

  /** A name saved after items of other owners is restored as it was saved. */
  lemma TabNameRoundTrip(before: seq<PersistenceItem>, name: string)
    requires forall i :: 0 <= i < |before| ==> before[i].key != TAB_NAME_KEY
    ensures RestoredName(before + [PersistenceItem(TAB_NAME_KEY, name)]) == name
  {
    LookupAppended(before, TAB_NAME_KEY, name);
  }

  /** Without a saved name the tab's name becomes empty, not the default one. */
  lemma NoSavedName(items: seq<PersistenceItem>)
    requires forall i :: 0 <= i < |items| ==> items[i].key != TAB_NAME_KEY
    ensures RestoredName(items) == ""
  {
    assert Lookup(items, TAB_NAME_KEY).None?;
  }

  // ---------------------------------------------------------------- the tab's buttons

  /** The window has a button named ButtonName(tab, count, k) for every k below count. */
  predicate WindowHasButtons(window: seq<GUIController.Button>, tabId: Byte, count: Byte)
  {
    forall k :: 0 <= k < count ==> exists b :: 0 <= b < |window| && window[b].name == ButtonName(tabId, count, k)
  }

  /**
   * Each button k has the id the constructor gives it, its index k within the
   * tab, and stands for the window's button named ButtonName(tab, count, k).
   */
  ghost predicate Placed(window: seq<GUIController.Button>, made: seq<UserButton.Button>, tabId: Byte, count: Byte)
  {
    |made| <= count &&
    forall k :: 0 <= k < |made| ==>
      made[k].id == ButtonIdAsWritten(tabId, count, k) && made[k].buttonId < |window| &&
      window[made[k].buttonId].name == ButtonName(tabId, count, k)
  }

  /** Each button k is subscribed for clicks and context menu requests under selves[k]. */
  ghost predicate AllSubscribed(listeners: seq<GUIController.ButtonEventItem>, made: seq<UserButton.Button>, selves: seq<GUIController.Listener>)
  {
    |made| <= |selves| &&
    forall k :: 0 <= k < |made| ==>
      GUIController.ListenerFor(listeners, made[k].buttonId, GUIController.Clicked) == Some(selves[k]) &&
      GUIController.ListenerFor(listeners, made[k].buttonId, GUIController.ContextMenuRequested) == Some(selves[k])
  }

  /**
   * Subscribing one more button, for a window button none of the others
   * stands for, keeps the others subscribed.
   */
  lemma SubscribedAppend(before: seq<GUIController.ButtonEventItem>, after: seq<GUIController.ButtonEventItem>,
                         made: seq<UserButton.Button>, selves: seq<GUIController.Listener>, button: UserButton.Button)
    requires AllSubscribed(before, made, selves) && |made| < |selves|
    requires forall k :: 0 <= k < |made| ==> made[k].buttonId != button.buttonId
    requires forall i: U32, e :: i != button.buttonId ==>
      GUIController.ListenerFor(after, i, e) == GUIController.ListenerFor(before, i, e)
    requires GUIController.ListenerFor(after, button.buttonId, GUIController.Clicked) == Some(selves[|made|])
    requires GUIController.ListenerFor(after, button.buttonId, GUIController.ContextMenuRequested) == Some(selves[|made|])
    ensures AllSubscribed(after, made + [button], selves)
  {
    var all := made + [button];
    forall k | 0 <= k < |all|
      ensures GUIController.ListenerFor(after, all[k].buttonId, GUIController.Clicked) == Some(selves[k])
      ensures GUIController.ListenerFor(after, all[k].buttonId, GUIController.ContextMenuRequested) == Some(selves[k])
    {
      if k < |made| {
        var i := made[k].buttonId;
        assert all[k] == made[k];
        assert GUIController.ListenerFor(after, i, GUIController.Clicked) == GUIController.ListenerFor(before, i, GUIController.Clicked);
        assert GUIController.ListenerFor(after, i, GUIController.ContextMenuRequested)
            == GUIController.ListenerFor(before, i, GUIController.ContextMenuRequested);
      }
    }
  }

  /** One more button, with its index as its id, for the window button of its name. */
  lemma PlacedAppend(window: seq<GUIController.Button>, made: seq<UserButton.Button>, tabId: Byte, count: Byte, button: UserButton.Button)
    requires Placed(window, made, tabId, count) && |made| < count
    requires button.id == ButtonIdAsWritten(tabId, count, |made|) && button.buttonId < |window|
    requires window[button.buttonId].name == ButtonName(tabId, count, |made|)
    ensures Placed(window, made + [button], tabId, count)
  {
    var all := made + [button];
    assert forall k :: 0 <= k < |made| ==> all[k] == made[k];
  }

  /**
   * The constructor's loop: button i of the tab is created for the window
   * button named ButtonName(tab, count, i), with id i, subscribed under
   * selves[i]. The object names differ, so every button keeps its
   * subscriptions; the ids repeat across tabs (PersistenceNamesCollide).
   */
  method CreateButtons(controller: GUIController.Controller, tabId: Byte, count: Byte, selves: seq<GUIController.Listener>)
    returns (made: seq<UserButton.Button>)
    requires controller.Valid()
    requires |selves| == count && forall k :: 0 <= k < |selves| ==> selves[k] != GUIController.NULL
    requires WindowHasButtons(controller.buttons, tabId, count)
    modifies controller
    ensures controller.Valid() && |made| == count
    ensures Placed(controller.buttons, made, tabId, count)
    ensures AllSubscribed(controller.listeners, made, selves)
  {
    made := [];
    var i := 0;
    while i < count
      invariant 0 <= i <= count && |made| == i && controller.Valid()
      invariant Placed(controller.buttons, made, tabId, count)
      invariant AllSubscribed(controller.listeners, made, selves)
    {
      ghost var before := controller.listeners;
      var button := new UserButton.Button(controller, ButtonIdAsWritten(tabId, count, i), ButtonName(tabId, count, i), selves[i]);
      forall k | 0 <= k < i
        ensures made[k].buttonId != button.buttonId
      {
        ButtonNamesDistinct(tabId, tabId, count, k, i);
      }
      SubscribedAppend(before, controller.listeners, made, selves, button);
      PlacedAppend(controller.buttons, made, tabId, count, button);
      made := made + [button];
      i := i + 1;
    }
  }

  // ---------------------------------------------------------------- the tab

  class Tab {
    const tabId: Byte
    const buttonsCount: Byte
    const buttons: seq<UserButton.Button>
    var tabName: string
    /** The title the controller shows for the tab. */
    var shownName: string
    /** Whether the tab is subscribed for name change requests of its tab id. */
    var subscribed: bool

    /** The controller shows the tab's own name. */
    ghost predicate Valid()
      reads this
    {
      shownName == tabName
    }

    /**
     * The constructor: the tab subscribes for name change requests, creates
     * its buttons, each with its index within the tab as its id and
     * subscribed under its own address for its own button of the window, and
     * shows its default name.
     */
    constructor(controller: GUIController.Controller, tabId: Byte, buttonsCount: Byte, selves: seq<GUIController.Listener>)
      requires controller.Valid()
      requires |selves| == buttonsCount && forall k :: 0 <= k < |selves| ==> selves[k] != GUIController.NULL
      requires WindowHasButtons(controller.buttons, tabId, buttonsCount)
      modifies controller
      ensures Valid() && controller.Valid() && subscribed
      ensures this.tabId == tabId && this.buttonsCount == buttonsCount && tabName == DefaultTabName(tabId)
      ensures |buttons| == buttonsCount
      ensures Placed(controller.buttons, buttons, tabId, buttonsCount)
      ensures AllSubscribed(controller.listeners, buttons, selves)
    {
      this.tabId := tabId;
      this.buttonsCount := buttonsCount;
      var made := CreateButtons(controller, tabId, buttonsCount, selves);
      buttons := made;
      tabName := DefaultTabName(tabId);
      shownName := tabName;
      subscribed := true;
    }

    /** The destructor: the subscription for name change requests is withdrawn. */
    method Destroy()
      modifies this
      ensures !subscribed && tabName == old(tabName) && shownName == old(shownName)
    {
      subscribed := false;
    }

    /** setTabName: the name is stored and the controller shows it. */
    method SetTabName(name: string)
      modifies this
      ensures Valid() && tabName == name && subscribed == old(subscribed)
    {
      tabName := name;
      shownName := tabName;
    }

    /** onTabNameChangeRequest: the dialog's outcome is a parameter; only a returned name renames the tab. */
    method OnTabNameChangeRequest(result: Option<string>)
      requires Valid()
      modifies this
      ensures Valid() && subscribed == old(subscribed)
      ensures tabName == result.GetOr(old(tabName))
    {
      if result.Some? {
        SetTabName(result.value);
      }
    }

    /** onPersistenceRead: the saved name, or "" when there is none, becomes the tab's name. */
    method OnPersistenceRead(items: seq<PersistenceItem>)
      modifies this
      ensures Valid() && tabName == RestoredName(items) && subscribed == old(subscribed)
    {
      var found, name := ReadString(items, TAB_NAME_KEY, "");
      SetTabName(name);
    }

    /** onPersistenceWrite: the name is appended under "tabName". */
    method OnPersistenceWrite(buffer: seq<PersistenceItem>) returns (out: seq<PersistenceItem>)
      ensures out == buffer + [PersistenceItem(TAB_NAME_KEY, tabName)]
    {
      out := WriteString(buffer, TAB_NAME_KEY, tabName);
    }
  }
}
