/**
 * The main application's PortSettingDialog: the name tables of the port
 * settings enums, the name-to-value lookups, and the list of widgets the
 * dialog has put into its form.
 */
module PortSettingDialog {
  import Listeners
  import PortSettings

  /** The name arrays, built from the macro lists in enum order; the port type names are the settings' own table. */
  const DATA_BITS_NAMES: seq<string> := ["BITS5", "BITS6", "BITS7", "BITS8"]
  const PARITY_BITS_NAMES: seq<string> := ["NONE", "EVEN", "ODD", "MARK", "SPACE"]
  const STOP_BITS_NAMES: seq<string> := ["ONE", "TWO"]

  /** The four enums; each closes with an X_MAX enumerator equal to its number of names. */
  datatype Table = PortTypes | DataBits | ParityBits | StopBits

  function Names(t: Table): seq<string>
  {
    match t
    case PortTypes => PortSettings.PORT_TYPE_NAMES
    case DataBits => DATA_BITS_NAMES
    case ParityBits => PARITY_BITS_NAMES
    case StopBits => STOP_BITS_NAMES
  }

  function Max(t: Table): nat
  {
    |Names(t)|
  }

  /**
   * stringToPortType, stringToDataBits, stringToParityBits, stringToStopBits:
   * std::find over the table; the position of the name, or X_MAX when it is
   * not there.
   */
  function StringTo(t: Table, name: string): (v: nat)
    ensures v <= Max(t)
    ensures v < Max(t) ==> Names(t)[v] == name
    ensures v == Max(t) <==> name !in Names(t)
  {
    Listeners.FirstIndex(Names(t), name)
  }

  predicate Distinct(names: seq<string>)
  {
    forall i, j :: 0 <= i < j < |names| ==> names[i] != names[j]
  }

  /** In a table without repeated names, the position found for an entry is that entry's own. */
  lemma FirstIndexOfDistinct(names: seq<string>, v: nat)
    requires Distinct(names) && v < |names|
    ensures Listeners.FirstIndex(names, names[v]) == v
  {
  }

  /** Every valid value's name is looked up as that value. */
  lemma StringToRoundTrip(t: Table, v: nat)
    requires v < Max(t)
    ensures StringTo(t, Names(t)[v]) == v
  {
    assert Distinct(Names(t));
    FirstIndexOfDistinct(Names(t), v);
  }

  /** A form row, identified by the widget it holds. */
  type WidgetId = nat

  /** form.removeRow(widget) for each widget in turn: a widget not in the form leaves it as it is. */
  function RemoveRows(form: seq<WidgetId>, widgets: seq<WidgetId>): seq<WidgetId>
    decreases |widgets|
  {
    if widgets == [] then form
    else RemoveRows(Listeners.RemoveFirst(form, widgets[0]), widgets[1..])
  }

  /** Removing the rows takes exactly the widgets away from the form, whichever of them were there. */
  lemma {:induction false} RemoveRowsTakesWidgets(form: seq<WidgetId>, widgets: seq<WidgetId>)
    ensures multiset(RemoveRows(form, widgets)) == multiset(form) - multiset(widgets)
    decreases |widgets|
  {
    if widgets != [] {
      var w := widgets[0];
      var next := Listeners.RemoveFirst(form, w);
      RemoveFirstTakes(form, w);
      RemoveRowsTakesWidgets(next, widgets[1..]);
      FirstAndRest(widgets);
      DifferenceTwice(multiset(form), multiset{w}, multiset(widgets[1..]));
    }
  }

  lemma RemoveFirstTakes(form: seq<WidgetId>, w: WidgetId)
    ensures multiset(Listeners.RemoveFirst(form, w)) == multiset(form) - multiset{w}
  {
    if w !in form {
      assert multiset(form)[w] == 0;
      assert multiset(form) - multiset{w} == multiset(form);
    }
  }

  lemma FirstAndRest(widgets: seq<WidgetId>)
    requires widgets != []
    ensures multiset(widgets) == multiset{widgets[0]} + multiset(widgets[1..])
  {
    assert widgets == [widgets[0]] + widgets[1..];
  }

  lemma DifferenceTwice<T>(a: multiset<T>, b: multiset<T>, c: multiset<T>)
    ensures a - b - c == a - (b + c)
  {
    assert forall x :: (a - b - c)[x] == (a - (b + c))[x];
  }

  class Dialog {
    /** The rows of m_form. */
    var form: seq<WidgetId>
    /** m_current_widgets: the widgets the current view added. */
    var currentWidgets: seq<WidgetId>

    constructor()
      ensures form == [] && currentWidgets == []
    {
      form := [];
      currentWidgets := [];
    }

    /** clearDialog: removes the row of every tracked widget, then forgets them all. */
    method ClearDialog()
      modifies this
      ensures form == RemoveRows(old(form), old(currentWidgets))
      ensures multiset(form) == multiset(old(form)) - multiset(old(currentWidgets))
      ensures currentWidgets == []
    {
      var rows: seq<WidgetId> := form;
      var widgets: seq<WidgetId> := currentWidgets;
      var i := 0;
      while i < |widgets|
        invariant 0 <= i <= |widgets|
        invariant RemoveRows(rows, widgets[i..]) == RemoveRows(old(form), widgets)
      {
        assert widgets[i..][1..] == widgets[i + 1..];
        rows := Listeners.RemoveFirst(rows, widgets[i]);
        i := i + 1;
      }
      RemoveRowsTakesWidgets(form, widgets);
      form := rows;
      currentWidgets := [];
    }
  }
}
