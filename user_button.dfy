/**
 * A user button: a button of the main window whose label and command text
 * the user edits in a dialog. A click runs the commands through the button's
 * commands executor; the button stays checked and disabled until the
 * execution reports its end. The label and the commands are saved and
 * restored through the persistence.
 */
module UserButton {
  import opened Common
  import opened Text
  import opened Persistence
  import GUIController
  import ButtonCommandsExecutor

  /** The dialog's settings: the button's label and its raw command text. */
  datatype Settings = Settings(buttonName: string, rawCommands: string)

  /**
   * What the controller shows of the button: whether it is checkable,
   * checked and enabled, and the text this handler gave it ("" before any).
   */
  datatype View = View(checkable: bool, checked: bool, enabled: bool, text: string)

  const NAME_KEY: string := "ButtonName"
  const COMMANDS_KEY: string := "ButtonCommands"

  /** The name the button registers with the persistence: "BUTTON" and its id. */
  function PersistenceName(id: Byte): (r: string)
    ensures |r| > 6 && r[..6] == "BUTTON"
    ensures AllDigits(r[6..]) && DecimalValue(r[6..]) == id
  {
    Numbered("BUTTON", id)
  }

  // ---------------------------------------------------------------- persistence

  /** What onPersistenceWrite appends: the label, then the command text. */
  function SavedItems(s: Settings): seq<PersistenceItem>
  {
    [PersistenceItem(NAME_KEY, s.buttonName), PersistenceItem(COMMANDS_KEY, s.rawCommands)]
  }

  /** What onPersistenceRead makes of the items: each key found replaces its field, a missing one keeps it. */
  function Restore(items: seq<PersistenceItem>, current: Settings): Settings
  {
    Settings(TextOr(items, NAME_KEY, current.buttonName), TextOr(items, COMMANDS_KEY, current.rawCommands))
  }

  /** No item holds one of the button's keys. */
  predicate Foreign(items: seq<PersistenceItem>)
  {
    forall i :: 0 <= i < |items| ==> items[i].key != NAME_KEY && items[i].key != COMMANDS_KEY
  }

  /** Settings saved after items of other owners are restored as they were saved. */
  lemma SavedRoundTrip(before: seq<PersistenceItem>, s: Settings, current: Settings)
    requires Foreign(before)
    ensures Restore(before + SavedItems(s), current) == s
  {
    var first := before + [PersistenceItem(NAME_KEY, s.buttonName)];
    assert before + SavedItems(s) == first + [PersistenceItem(COMMANDS_KEY, s.rawCommands)];
    LookupAppended(before, NAME_KEY, s.buttonName);
    LookupKeepsFirst(first, [PersistenceItem(COMMANDS_KEY, s.rawCommands)], NAME_KEY);
    LookupAppended(first, COMMANDS_KEY, s.rawCommands);
  }

  /** Items without the button's keys leave its settings as they are. */
  lemma RestoreKeeps(items: seq<PersistenceItem>, current: Settings)
    requires Foreign(items)
    ensures Restore(items, current) == current
  {
    assert Lookup(items, NAME_KEY).None? && Lookup(items, COMMANDS_KEY).None?;
  }

  // ---------------------------------------------------------------- the handler

  class Button {
    const id: Byte
    /** The id the controller gave the button, found by its object name. */
    const buttonId: U32
    /** The handler's own address, under which it subscribes. */
    const self: GUIController.Listener
    const executor: ButtonCommandsExecutor.Executor
    var settings: Settings
    var view: View

    /** The button is checkable and is checked exactly while it is disabled. */
    ghost predicate Valid()
      reads this
    {
      view.checkable && view.checked == !view.enabled
    }

    /**
     * The constructor: the button is found by its object name (asserted to
     * exist), subscribed for clicks and context menu requests under `self`
     * and made checkable; every other button keeps its subscriptions.
     */
    constructor(controller: GUIController.Controller, id: Byte, buttonName: string, self: GUIController.Listener)
      requires controller.Valid() && self != GUIController.NULL
      requires exists i :: 0 <= i < |controller.buttons| && controller.buttons[i].name == buttonName
      modifies controller
      ensures Valid() && controller.Valid()
      ensures this.id == id && this.self == self
      ensures buttonId < |controller.buttons| && controller.buttons[buttonId].name == buttonName
      ensures forall i :: 0 <= i < buttonId ==> controller.buttons[i].name != buttonName
      ensures settings == Settings("", "") && view == View(true, false, true, "")
      ensures fresh(executor) && executor.commands == [] && !executor.isRunning
      ensures GUIController.ListenerFor(controller.listeners, buttonId, GUIController.Clicked) == Some(self)
      ensures GUIController.ListenerFor(controller.listeners, buttonId, GUIController.ContextMenuRequested) == Some(self)
      ensures forall i: U32, e :: i != buttonId ==>
        GUIController.ListenerFor(controller.listeners, i, e) == GUIController.ListenerFor(old(controller.listeners), i, e)
    {
      this.id := id;
      this.self := self;
      executor := new ButtonCommandsExecutor.Executor();
      var found := controller.GetButtonID(buttonName);
      buttonId := found;
      settings := Settings("", "");
      view := View(true, false, true, "");
      new;
      ghost var before := controller.listeners;
      controller.SubscribeForButtonEvent(buttonId, GUIController.Clicked, self);
      ghost var between := controller.listeners;
      GUIController.SubscribeRegisters(before, buttonId, GUIController.Clicked, self);
      controller.SubscribeForButtonEvent(buttonId, GUIController.ContextMenuRequested, self);
      GUIController.SubscribeRegisters(between, buttonId, GUIController.ContextMenuRequested, self);
    }

    /**
     * The destructor: both subscriptions are withdrawn, so neither event of
     * the button reaches the handler any more; other buttons keep theirs.
     */
    method Destroy(controller: GUIController.Controller)
      requires controller.Valid()
      modifies controller
      ensures controller.Valid()
      ensures GUIController.ListenerFor(controller.listeners, buttonId, GUIController.Clicked) != Some(self)
      ensures GUIController.ListenerFor(controller.listeners, buttonId, GUIController.ContextMenuRequested) != Some(self)
      ensures forall i: U32, e :: i != buttonId ==>
        GUIController.ListenerFor(controller.listeners, i, e) == GUIController.ListenerFor(old(controller.listeners), i, e)
    {
      ghost var before := controller.listeners;
      controller.UnsubscribeFromButtonEvent(buttonId, GUIController.Clicked, self);
      ghost var between := controller.listeners;
      GUIController.UnsubscribeRemoves(before, buttonId, GUIController.Clicked, self);
      controller.UnsubscribeFromButtonEvent(buttonId, GUIController.ContextMenuRequested, self);
      GUIController.UnsubscribeRemoves(between, buttonId, GUIController.ContextMenuRequested, self);
    }

    /**
     * onButtonEvent: an event of another button is ignored; a click starts
     * the execution, a context menu request opens the dialog, whose outcome
     * is a parameter.
     */
    method OnButtonEvent(buttonId: U32, event: GUIController.ButtonEvent, result: Option<bool>, chosen: Settings)
      requires Valid()
      modifies this, executor
      ensures Valid()
      ensures buttonId != this.buttonId ==> unchanged(this) && unchanged(executor)
      ensures buttonId == this.buttonId && event == GUIController.Clicked ==>
        view == old(view).(checked := true, enabled := false) && settings == old(settings) && executor.isRunning
      ensures buttonId == this.buttonId && event == GUIController.ContextMenuRequested ==>
        settings == (if result == Some(true) then chosen else old(settings))
    {
      if buttonId == this.buttonId {
        if event == GUIController.Clicked {
          OnUserButtonClicked();
        } else {
          OnUserButtonContextMenuRequested(result, chosen);
        }
      }
    }

    /** A click: the button is checked and disabled, then the execution starts. */
    method OnUserButtonClicked()
      requires Valid()
      modifies this, executor
      ensures Valid()
      ensures view == old(view).(checked := true, enabled := false) && settings == old(settings)
      ensures executor.isRunning
      ensures executor.commands == old(executor.commands) && executor.rawText == old(executor.rawText)
    {
      view := view.(checked := true, enabled := false);
      var started := executor.Execute();
    }

    /** The execution's end, whatever its result: the button is unchecked and enabled again. */
    method OnCommandExecutionEvent(result: bool)
      requires Valid()
      modifies this
      ensures Valid()
      ensures view == old(view).(checked := false, enabled := true) && settings == old(settings)
    {
      view := view.(checked := false, enabled := true);
    }

    /** The dialog's outcome is applied only when the dialog was accepted and says so. */
    method OnUserButtonContextMenuRequested(result: Option<bool>, chosen: Settings)
      requires Valid()
      modifies this, executor
      ensures Valid()
      ensures result == Some(true) ==> settings == chosen && view == old(view).(text := chosen.buttonName)
      ensures result != Some(true) ==> unchanged(this) && unchanged(executor)
    {
      if result.Some? {
        if result.value {
          HandleNewSettings(chosen);
        }
      }
    }

    /**
     * handleNewSettings: the settings are stored, the executor parses their
     * command text (it refuses while an execution runs) and the button shows
     * the new label.
     */
    method HandleNewSettings(s: Settings)
      requires Valid()
      modifies this, executor
      ensures Valid()
      ensures settings == s && view == old(view).(text := s.buttonName)
      ensures !old(executor.isRunning) ==> executor.rawText == s.rawCommands
      ensures !old(executor.isRunning) ==>
        executor.commands == ButtonCommandsExecutor.Build(ButtonCommandsExecutor.Action, GetlineSplit(s.rawCommands, '\n')).commands
      ensures old(executor.isRunning) ==> executor.commands == old(executor.commands) && executor.rawText == old(executor.rawText)
      ensures executor.isRunning == old(executor.isRunning)
    {
      settings := s;
      var count, finished := executor.ParseCommands(settings.rawCommands);
      view := view.(text := s.buttonName);
    }

    /** onPersistenceRead: the stored label and commands replace the current ones, key by key. */
    method OnPersistenceRead(items: seq<PersistenceItem>)
      requires Valid()
      modifies this, executor
      ensures Valid()
      ensures settings == Restore(items, old(settings)) && view == old(view).(text := settings.buttonName)
      ensures executor.isRunning == old(executor.isRunning)
    {
      var foundName, name := ReadString(items, NAME_KEY, settings.buttonName);
      var foundCommands, commands := ReadString(items, COMMANDS_KEY, settings.rawCommands);
      HandleNewSettings(Settings(name, commands));
    }

    /** onPersistenceWrite: the label and the commands are appended to the buffer. */
    method OnPersistenceWrite(buffer: seq<PersistenceItem>) returns (out: seq<PersistenceItem>)
      ensures out == buffer + SavedItems(settings)
    {
      out := WriteString(buffer, NAME_KEY, settings.buttonName);
      out := WriteString(out, COMMANDS_KEY, settings.rawCommands);
    }
  }
}
