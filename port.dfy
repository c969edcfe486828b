/**
 * Port: one terminal port. It owns the port settings, the drivers proxy built
 * from them and the port button, whose state (disconnected, connecting,
 * connected) moves with button clicks, driver events and the reconnection
 * timer. Every state change is reported to the port listeners.
 *
 * The GUI is modelled by what the port writes to it (button text and colours,
 * throughput text) and the error dialog by the messages shown. Timers are
 * modelled by whether they run and by the retry timeout.
 */
module Port {
  import opened Common
  import Text
  import SerialDriver
  import PortSettings
  import DriversProxy
  import Persistence
  import GUIController
  import Framing
  import SocketWrite

  const DEFAULT_CONNECT_RETRY_PERIOD: nat := 1000
  const GREEN: U32 := 0x00FF00
  const BLUE: U32 := 0x0000FF
  const BLACK: U32 := 0x000000

  datatype ButtonState = Disconnected | Connecting | Connected

  /** The events a port reports. */
  datatype Event = PortDisconnected | PortConnecting | PortConnected | NewData

  datatype PortEvent = PortEvent(portId: Byte, name: string, backgroundColor: U32, fontColor: U32, event: Event, data: seq<Byte>)

  /** The two timers of a port: the connection retry timer and the throughput window timer. */
  datatype Timers = Timers(retryRunning: bool, retryTimeout: nat, throughputRunning: bool)

  /** What the port has written to the GUI. */
  datatype Gui = Gui(buttonText: string, background: U32, font: U32, throughputText: string)

  /** "PORT" followed by the port id in decimal. */
  function DefaultName(id: Byte): (name: string)
    ensures |name| > 4
  {
    "PORT" + Text.NatToDecimal(id)
  }

  /** The default name reads back as the port id after its "PORT" prefix. */
  lemma DefaultNameReadBack(id: Byte)
    ensures DefaultName(id)[..4] == "PORT" && Text.ParseDecimalPrefix(DefaultName(id)[4..]) == Some(id as int)
  {
    var digits := Text.NatToDecimal(id);
    Text.DecimalRoundTrip(id);
    assert DefaultName(id)[4..] == digits;
  }

  /** handleNewSettings keeps the settings as given, except that an empty name becomes "PORT<id>". */
  function Named(s: PortSettings.Settings): (r: PortSettings.Settings)
    ensures r.portName != []
    ensures r.(portName := s.portName) == s
    ensures s.portName != [] ==> r == s
  {
    if s.portName == [] then s.(portName := DefaultName(s.portId)) else s
  }

  /** A serial port gets a serial proxy; every other type an ethernet (socket) proxy. */
  function BackendFor(s: PortSettings.Settings): (b: DriversProxy.Backend)
    ensures b.SerialBackend? <==> s.portType == PortSettings.Serial
    ensures b.SerialBackend? ==> b.settings == s.serial
    ensures b.SocketBackend? ==> b.ipAddress == s.ipAddress && b.port == s.port
  {
    if s.portType == PortSettings.Serial then DriversProxy.SerialBackend(s.serial)
    else DriversProxy.SocketBackend(s.ipAddress, s.port)
  }

  /**
   * setButtonColors: green on black when connected, blue on black when
   * connecting, otherwise the GUI's background and text colours as they are
   * when the button is painted.
   */
  function ButtonColors(st: ButtonState, guiBackground: U32, guiText: U32): (U32, U32)
  {
    match st
    case Connected => (GREEN, BLACK)
    case Connecting => (BLUE, BLACK)
    case Disconnected => (guiBackground, guiText)
  }

  /** notifyListeners: the event with the port's id, name and colours. */
  function Notice(s: PortSettings.Settings, ev: Event, data: seq<Byte>): PortEvent
  {
    PortEvent(s.portId, s.portName, s.traceColor, s.fontColor, ev, data)
  }

  /** The message of onSerialConnectionFailed; errorText and errorCode stand for strerror(errno) and errno. */
  function SerialErrorMessage(s: PortSettings.Settings, errorText: string, errorCode: int): string
  {
    "Cannot open " + s.serial.device + " [" + s.portName + "]\n" + errorText + " (" + Text.IntToDecimal(errorCode) + ")"
  }

  /** Whether proxy->start() succeeds on a stopped proxy, given the outcome of the driver's system calls. */
  function StartSucceeds(b: DriversProxy.Backend, outcome: bool): bool
  {
    if b.SerialBackend? then SerialDriver.InTranslationMaps(b.settings) && outcome else outcome
  }

  // ---------------------------------------------------------------- persistence

  /** Settings whose enum values all have names, as toName asserts when they are saved. */
  predicate Persistable(s: PortSettings.Settings)
  {
    s.portType != PortSettings.PortTypeMax &&
    s.serial.baudRate < SerialDriver.Max(SerialDriver.BaudRate) &&
    s.serial.dataBits < SerialDriver.Max(SerialDriver.DataBitType) &&
    s.serial.parityBits < SerialDriver.Max(SerialDriver.ParityType) &&
    s.serial.stopBits < SerialDriver.Max(SerialDriver.StopBitType)
  }

  function Item(key: string, value: string): Persistence.PersistenceItem
  {
    Persistence.PersistenceItem(key, value)
  }

  /** onPersistenceWrite: the thirteen items, in this order. */
  function PersistenceItems(s: PortSettings.Settings): seq<Persistence.PersistenceItem>
    requires Persistable(s)
  {
    EndpointItems(s) + SerialItems(s) + LookItems(s)
  }

  function EndpointItems(s: PortSettings.Settings): seq<Persistence.PersistenceItem>
  {
    [Item("ipAddress", s.ipAddress),
     Item("ipPort", Text.IntToDecimal(s.port)),
     Item("portId", Text.IntToDecimal(s.portId)),
     Item("portName", s.portName)]
  }

  function SerialItems(s: PortSettings.Settings): seq<Persistence.PersistenceItem>
    requires Persistable(s)
  {
    [Item("baudRate", SerialDriver.ToName(SerialDriver.BaudRate, s.serial.baudRate)),
     Item("dataBits", SerialDriver.ToName(SerialDriver.DataBitType, s.serial.dataBits)),
     Item("parityBits", SerialDriver.ToName(SerialDriver.ParityType, s.serial.parityBits)),
     Item("stopBits", SerialDriver.ToName(SerialDriver.StopBitType, s.serial.stopBits)),
     Item("device", s.serial.device),
     Item("mode", Text.IntToDecimal(s.serial.mode))]
  }

  function LookItems(s: PortSettings.Settings): seq<Persistence.PersistenceItem>
    requires Persistable(s)
  {
    [Item("traceColor", Text.IntToDecimal(s.traceColor)),
     Item("fontColor", Text.IntToDecimal(s.fontColor)),
     Item("type", PortSettings.PortTypeName(s.portType))]
  }

  predicate NumbersReadable(items: seq<Persistence.PersistenceItem>)
  {
    Persistence.Readable(items, "ipPort") && Persistence.Readable(items, "portId") && Persistence.Readable(items, "mode") &&
    Persistence.Readable(items, "traceColor") && Persistence.Readable(items, "fontColor")
  }

  /**
   * onPersistenceRead: every field is read over the current settings; the
   * enum fields are read as names (starting from the current value's name)
   * and converted back with fromName.
   */
  function Restored(cur: PortSettings.Settings, items: seq<Persistence.PersistenceItem>): PortSettings.Settings
    requires Persistable(cur) && NumbersReadable(items)
  {
    PortSettings.Settings(
      Persistence.NumberOr(items, "portId", Persistence.U8Kind, cur.portId),
      PortSettings.PortTypeFromName(Persistence.TextOr(items, "type", PortSettings.PortTypeName(cur.portType))),
      Persistence.TextOr(items, "portName", cur.portName),
      SerialDriver.Settings(
        Persistence.TextOr(items, "device", cur.serial.device),
        SerialDriver.FromName(SerialDriver.BaudRate, Persistence.TextOr(items, "baudRate", SerialDriver.ToName(SerialDriver.BaudRate, cur.serial.baudRate))),
        SerialDriver.FromName(SerialDriver.ParityType, Persistence.TextOr(items, "parityBits", SerialDriver.ToName(SerialDriver.ParityType, cur.serial.parityBits))),
        SerialDriver.FromName(SerialDriver.StopBitType, Persistence.TextOr(items, "stopBits", SerialDriver.ToName(SerialDriver.StopBitType, cur.serial.stopBits))),
        SerialDriver.FromName(SerialDriver.DataBitType, Persistence.TextOr(items, "dataBits", SerialDriver.ToName(SerialDriver.DataBitType, cur.serial.dataBits))),
        Persistence.NumberOr(items, "mode", Persistence.U8Kind, cur.serial.mode)),
      Persistence.TextOr(items, "ipAddress", cur.ipAddress),
      Persistence.NumberOr(items, "ipPort", Persistence.U32Kind, cur.port),
      Persistence.NumberOr(items, "traceColor", Persistence.U32Kind, cur.traceColor),
      Persistence.NumberOr(items, "fontColor", Persistence.U32Kind, cur.fontColor))
  }

  /** The keys of the thirteen saved items, in the order they are written. */
  const PERSISTENCE_KEYS: seq<string> :=
    ["ipAddress", "ipPort", "portId", "portName", "baudRate", "dataBits", "parityBits",
     "stopBits", "device", "mode", "traceColor", "fontColor", "type"]

  /** No key is written twice. */
  lemma PersistenceKeysDistinct()
    ensures forall i, j :: 0 <= i < j < |PERSISTENCE_KEYS| ==> PERSISTENCE_KEYS[i] != PERSISTENCE_KEYS[j]
  {
  }

  /** The saved items carry the keys in that order. */
  lemma ItemKeys(s: PortSettings.Settings)
    requires Persistable(s)
    ensures |PersistenceItems(s)| == |PERSISTENCE_KEYS|
    ensures forall i :: 0 <= i < |PERSISTENCE_KEYS| ==> PersistenceItems(s)[i].key == PERSISTENCE_KEYS[i]
  {
  }

  /** Each saved item is what the lookup of its key finds. */
  lemma SavedLookup(s: PortSettings.Settings, i: nat)
    requires Persistable(s) && i < |PERSISTENCE_KEYS|
    ensures Persistence.Lookup(PersistenceItems(s), PersistenceItems(s)[i].key) == Some(PersistenceItems(s)[i].value)
  {
    ItemKeys(s);
    PersistenceKeysDistinct();
    Persistence.LookupAt(PersistenceItems(s), i);
  }

  /** Each item of the serial block is what the lookup of its key finds. */
  lemma SerialSaved(s: PortSettings.Settings, j: nat)
    requires Persistable(s) && j < 6
    ensures Persistence.Lookup(PersistenceItems(s), SerialItems(s)[j].key) == Some(SerialItems(s)[j].value)
  {
    var front, serial, look := EndpointItems(s), SerialItems(s), LookItems(s);
    assert |front| == 4 && |serial| == 6;
    assert (front + serial + look)[4 + j] == serial[j];
    SavedLookup(s, 4 + j);
  }

  /** A serial enum field saved as its name is read back as itself. */
  lemma NameFieldReadBack(items: seq<Persistence.PersistenceItem>, key: string, kind: SerialDriver.Kind, v: nat, current: string)
    requires kind != SerialDriver.Unsupported && v < SerialDriver.Max(kind)
    requires Persistence.Lookup(items, key) == Some(SerialDriver.ToName(kind, v))
    ensures SerialDriver.FromName(kind, Persistence.TextOr(items, key, current)) == v
  {
    SerialDriver.NameRoundTrip(kind, v, "");
  }

  /** The port number and port id of saved settings are read back as saved. */
  lemma EndpointNumbersReadBack(cur: PortSettings.Settings, s: PortSettings.Settings)
    requires Persistable(cur) && Persistable(s)
    ensures Persistence.Readable(PersistenceItems(s), "ipPort") && Persistence.Readable(PersistenceItems(s), "portId")
    ensures Persistence.NumberOr(PersistenceItems(s), "ipPort", Persistence.U32Kind, cur.port) == s.port as int
    ensures Persistence.NumberOr(PersistenceItems(s), "portId", Persistence.U8Kind, cur.portId) == s.portId as int
  {
    var items := PersistenceItems(s);
    SavedLookup(s, 1);
    assert items[1] == EndpointItems(s)[1];
    SavedLookup(s, 2);
    assert items[2] == EndpointItems(s)[2];
    Persistence.NumberFieldReadBack(items, "ipPort", Persistence.U32Kind, s.port as int, cur.port as int);
    Persistence.NumberFieldReadBack(items, "portId", Persistence.U8Kind, s.portId as int, cur.portId as int);
  }

  /** The data mode of saved settings is read back as saved. */
  lemma ModeReadBack(cur: PortSettings.Settings, s: PortSettings.Settings)
    requires Persistable(cur) && Persistable(s)
    ensures Persistence.Readable(PersistenceItems(s), "mode")
    ensures Persistence.NumberOr(PersistenceItems(s), "mode", Persistence.U8Kind, cur.serial.mode) == s.serial.mode as int
  {
    var items := PersistenceItems(s);
    SavedLookup(s, 9);
    assert items[9] == SerialItems(s)[5];
    Persistence.NumberFieldReadBack(items, "mode", Persistence.U8Kind, s.serial.mode as int, cur.serial.mode as int);
  }

  /** The two colours of saved settings are read back as saved. */
  lemma ColoursReadBack(cur: PortSettings.Settings, s: PortSettings.Settings)
    requires Persistable(cur) && Persistable(s)
    ensures Persistence.Readable(PersistenceItems(s), "traceColor") && Persistence.Readable(PersistenceItems(s), "fontColor")
    ensures Persistence.NumberOr(PersistenceItems(s), "traceColor", Persistence.U32Kind, cur.traceColor) == s.traceColor as int
    ensures Persistence.NumberOr(PersistenceItems(s), "fontColor", Persistence.U32Kind, cur.fontColor) == s.fontColor as int
  {
    var items := PersistenceItems(s);
    SavedLookup(s, 10);
    assert items[10] == LookItems(s)[0];
    SavedLookup(s, 11);
    assert items[11] == LookItems(s)[1];
    Persistence.NumberFieldReadBack(items, "traceColor", Persistence.U32Kind, s.traceColor as int, cur.traceColor as int);
    Persistence.NumberFieldReadBack(items, "fontColor", Persistence.U32Kind, s.fontColor as int, cur.fontColor as int);
  }

  /** The baud rate of saved settings is read back, by name, as saved. */
  lemma BaudReadBack(cur: PortSettings.Settings, s: PortSettings.Settings)
    requires Persistable(cur) && Persistable(s)
    ensures SerialDriver.FromName(SerialDriver.BaudRate, Persistence.TextOr(PersistenceItems(s), "baudRate", SerialDriver.ToName(SerialDriver.BaudRate, cur.serial.baudRate))) == s.serial.baudRate
  {
    SerialSaved(s, 0);
    NameFieldReadBack(PersistenceItems(s), "baudRate", SerialDriver.BaudRate, s.serial.baudRate, SerialDriver.ToName(SerialDriver.BaudRate, cur.serial.baudRate));
  }

  /** The data bits of saved settings are read back, by name, as saved. */
  lemma DataBitsReadBack(cur: PortSettings.Settings, s: PortSettings.Settings)
    requires Persistable(cur) && Persistable(s)
    ensures SerialDriver.FromName(SerialDriver.DataBitType, Persistence.TextOr(PersistenceItems(s), "dataBits", SerialDriver.ToName(SerialDriver.DataBitType, cur.serial.dataBits))) == s.serial.dataBits
  {
    SerialSaved(s, 1);
    NameFieldReadBack(PersistenceItems(s), "dataBits", SerialDriver.DataBitType, s.serial.dataBits, SerialDriver.ToName(SerialDriver.DataBitType, cur.serial.dataBits));
  }

  /** The parity and stop bits of saved settings are read back, by name, as saved. */
  lemma ParityStopReadBack(cur: PortSettings.Settings, s: PortSettings.Settings)
    requires Persistable(cur) && Persistable(s)
    ensures SerialDriver.FromName(SerialDriver.ParityType, Persistence.TextOr(PersistenceItems(s), "parityBits", SerialDriver.ToName(SerialDriver.ParityType, cur.serial.parityBits))) == s.serial.parityBits
    ensures SerialDriver.FromName(SerialDriver.StopBitType, Persistence.TextOr(PersistenceItems(s), "stopBits", SerialDriver.ToName(SerialDriver.StopBitType, cur.serial.stopBits))) == s.serial.stopBits
  {
    var items := PersistenceItems(s);
    SerialSaved(s, 2);
    SerialSaved(s, 3);
    NameFieldReadBack(items, "parityBits", SerialDriver.ParityType, s.serial.parityBits, SerialDriver.ToName(SerialDriver.ParityType, cur.serial.parityBits));
    NameFieldReadBack(items, "stopBits", SerialDriver.StopBitType, s.serial.stopBits, SerialDriver.ToName(SerialDriver.StopBitType, cur.serial.stopBits));
  }

  /** The port type of saved settings is read back, by name, as saved. */
  lemma TypeReadBack(cur: PortSettings.Settings, s: PortSettings.Settings)
    requires Persistable(cur) && Persistable(s)
    ensures PortSettings.PortTypeFromName(Persistence.TextOr(PersistenceItems(s), "type", PortSettings.PortTypeName(cur.portType))) == s.portType
  {
    SavedLookup(s, 12);
    assert PersistenceItems(s)[12] == LookItems(s)[2];
    PortSettings.PortTypeNameRoundTrip(s.portType, "");
  }

  /** The address and name of saved settings are read back as saved. */
  lemma EndpointTextsReadBack(cur: PortSettings.Settings, s: PortSettings.Settings)
    requires Persistable(cur) && Persistable(s)
    ensures Persistence.TextOr(PersistenceItems(s), "ipAddress", cur.ipAddress) == s.ipAddress
    ensures Persistence.TextOr(PersistenceItems(s), "portName", cur.portName) == s.portName
  {
    var items := PersistenceItems(s);
    SavedLookup(s, 0);
    assert items[0] == EndpointItems(s)[0];
    SavedLookup(s, 3);
    assert items[3] == EndpointItems(s)[3];
  }

  /** The device of saved settings is read back as saved. */
  lemma DeviceReadBack(cur: PortSettings.Settings, s: PortSettings.Settings)
    requires Persistable(cur) && Persistable(s)
    ensures Persistence.TextOr(PersistenceItems(s), "device", cur.serial.device) == s.serial.device
  {
    SavedLookup(s, 8);
    assert PersistenceItems(s)[8] == SerialItems(s)[4];
  }

  /** Restoring the items saved from settings gives those settings back, whatever the settings were before. */
  lemma PersistenceRoundTrip(cur: PortSettings.Settings, s: PortSettings.Settings)
    requires Persistable(cur) && Persistable(s)
    ensures NumbersReadable(PersistenceItems(s))
    ensures Restored(cur, PersistenceItems(s)) == s
  {
    EndpointNumbersReadBack(cur, s);
    ModeReadBack(cur, s);
    ColoursReadBack(cur, s);
    BaudReadBack(cur, s);
    DataBitsReadBack(cur, s);
    ParityStopReadBack(cur, s);
    TypeReadBack(cur, s);
    EndpointTextsReadBack(cur, s);
    DeviceReadBack(cur, s);
  }

  // ---------------------------------------------------------------- the port

  class Port {
    const retryTimerId: nat
    const throughputTimerId: nat
    /** The id getButtonID found for the port's button. */
    const buttonId: U32
    var settings: PortSettings.Settings
    var buttonState: ButtonState
    var proxy: DriversProxy.Proxy
    var timers: Timers
    var gui: Gui
    /** The error dialogs shown, in order. */
    var errors: seq<string>
    /** The events reported to the port listeners, in order. */
    var emitted: seq<PortEvent>

    /**
     * The port invariant: the name is never empty, the proxy matches the
     * settings' type and reports to this port, and the button shows the name,
     * in the colours of the current state while connecting or connected (a
     * disconnected button keeps the GUI colours it was last painted with).
     */
    ghost predicate Valid()
      reads this, proxy
    {
      settings.portName != [] &&
      proxy.backend == BackendFor(settings) && proxy.hasListener &&
      gui.buttonText == settings.portName &&
      (buttonState != Disconnected ==> (gui.background, gui.font) == ButtonColors(buttonState, 0, 0))
    }

    /** The constructor: id and "PORT<id>" over the default settings, a disconnected button, a DISCONNECTED report. */
    constructor(id: Byte, retryTimerId: nat, throughputTimerId: nat, buttonId: U32, guiBackground: U32, guiText: U32)
      ensures Valid() && gui.background == guiBackground && gui.font == guiText
      ensures settings == PortSettings.DEFAULT_SETTINGS.(portId := id, portName := DefaultName(id))
      ensures buttonState == Disconnected && !proxy.started && fresh(proxy)
      ensures timers == Timers(false, DEFAULT_CONNECT_RETRY_PERIOD, false)
      ensures emitted == [Notice(settings, PortDisconnected, [])] && errors == []
    {
      this.retryTimerId := retryTimerId;
      this.throughputTimerId := throughputTimerId;
      this.buttonId := buttonId;
      var s := PortSettings.DEFAULT_SETTINGS.(portId := id, portName := DefaultName(id));
      settings := s;
      buttonState := Disconnected;
      proxy := new DriversProxy.Proxy(BackendFor(s), true);
      timers := Timers(false, DEFAULT_CONNECT_RETRY_PERIOD, false);
      gui := Gui(s.portName, guiBackground, guiText, "");
      errors := [];
      emitted := [Notice(s, PortDisconnected, [])];
    }

    /** isOpened: the button is not in the DISCONNECTED state. */
    predicate IsOpened()
      reads this
    {
      buttonState != Disconnected
    }

    /** setState: the new state, and the button redrawn with the name and the state's colours. */
    method SetState(st: ButtonState, guiBackground: U32, guiText: U32)
      requires settings.portName != [] && proxy.backend == BackendFor(settings) && proxy.hasListener
      modifies this
      ensures Valid() && buttonState == st && (gui.background, gui.font) == ButtonColors(st, guiBackground, guiText)
      ensures settings == old(settings) && proxy == old(proxy) && timers == old(timers)
      ensures gui.throughputText == old(gui.throughputText) && errors == old(errors) && emitted == old(emitted)
    {
      buttonState := st;
      var colors := ButtonColors(st, guiBackground, guiText);
      gui := gui.(buttonText := settings.portName, background := colors.0, font := colors.1);
    }

    /** handleNewSettings: the settings replaced (an empty name defaulted) and a new, stopped proxy of the matching type. */
    method HandleNewSettings(s: PortSettings.Settings, guiBackground: U32, guiText: U32)
      modifies this
      ensures Valid() && settings == Named(s) && fresh(proxy) && !proxy.started
      ensures (gui.background, gui.font) == ButtonColors(buttonState, guiBackground, guiText)
      ensures buttonState == old(buttonState) && timers == old(timers)
      ensures gui.throughputText == old(gui.throughputText) && errors == old(errors) && emitted == old(emitted)
    {
      settings := Named(s);
      proxy := new DriversProxy.Proxy(BackendFor(settings), true);
      SetState(buttonState, guiBackground, guiText);
    }

    /** refreshUi: the button repainted for the current state, in the GUI's current colours while disconnected. */
    method RefreshUi(guiBackground: U32, guiText: U32)
      requires Valid()
      modifies this
      ensures Valid() && buttonState == old(buttonState) && (gui.background, gui.font) == ButtonColors(buttonState, guiBackground, guiText)
      ensures settings == old(settings) && proxy == old(proxy) && timers == old(timers)
      ensures gui.buttonText == old(gui.buttonText) && gui.throughputText == old(gui.throughputText) && errors == old(errors) && emitted == old(emitted)
    {
      SetState(buttonState, guiBackground, guiText);
    }

    /** setSettings: applied only while disconnected; the result says whether it was. */
    method SetSettings(s: PortSettings.Settings, guiBackground: U32, guiText: U32) returns (applied: bool)
      requires Valid()
      modifies this
      ensures Valid()
      ensures applied <==> old(buttonState) == Disconnected
      ensures applied ==> settings == Named(s) && fresh(proxy) && !proxy.started && gui.background == guiBackground && gui.font == guiText
      ensures !applied ==> settings == old(settings) && proxy == old(proxy) && gui == old(gui)
      ensures buttonState == old(buttonState) && timers == old(timers) && errors == old(errors) && emitted == old(emitted)
    {
      applied := false;
      if buttonState == Disconnected {
        HandleNewSettings(s, guiBackground, guiText);
        applied := true;
      }
    }

    /**
     * tryConnect: the proxy is stopped and started again. On success the
     * retry timer stops, the port is CONNECTED, reports it and starts the
     * throughput timer.
     */
    method TryConnect(outcome: bool, guiBackground: U32, guiText: U32) returns (result: bool)
      requires Valid()
      modifies this, proxy
      ensures Valid() && settings == old(settings) && proxy == old(proxy) && errors == old(errors)
      ensures result == StartSucceeds(proxy.backend, outcome) && proxy.started == result
      ensures result ==>
        buttonState == Connected &&
        timers == old(timers).(retryRunning := false, throughputRunning := true) &&
        emitted == old(emitted) + [Notice(settings, PortConnected, [])]
      ensures !result ==> buttonState == old(buttonState) && timers == old(timers) && gui == old(gui) && emitted == old(emitted)
      ensures gui.throughputText == old(gui.throughputText)
    {
      proxy.Stop();
      result := proxy.Start(outcome);
      if result {
        timers := timers.(retryRunning := false);
        SetState(Connected, guiBackground, guiText);
        emitted := emitted + [Notice(settings, PortConnected, [])];
        timers := timers.(throughputRunning := true);
      }
    }

    /** scheduleConnectionTrial and onEthernetConnectionFailed: the retry timer re-armed and started, CONNECTING reported. */
    method ScheduleConnectionTrial(guiBackground: U32, guiText: U32)
      requires Valid()
      modifies this
      ensures Valid() && settings == old(settings) && proxy == old(proxy) && errors == old(errors)
      ensures buttonState == Connecting
      ensures timers == old(timers).(retryRunning := true, retryTimeout := DEFAULT_CONNECT_RETRY_PERIOD)
      ensures emitted == old(emitted) + [Notice(settings, PortConnecting, [])]
      ensures gui.throughputText == old(gui.throughputText)
    {
      timers := timers.(retryTimeout := DEFAULT_CONNECT_RETRY_PERIOD, retryRunning := true);
      SetState(Connecting, guiBackground, guiText);
      emitted := emitted + [Notice(settings, PortConnecting, [])];
    }

    /**
     * onPortButtonClicked: a started proxy is stopped; a connecting port
     * gives up retrying; otherwise a connection is tried, and on failure a
     * serial port shows an error while any other port starts retrying.
     */
    method OnButtonClicked(outcome: bool, errorText: string, errorCode: int, guiBackground: U32, guiText: U32)
      requires Valid()
      modifies this, proxy
      ensures Valid() && settings == old(settings) && proxy == old(proxy)
      ensures old(proxy.started) ==>
        !proxy.started && buttonState == Disconnected && timers == old(timers) && errors == old(errors) &&
        emitted == old(emitted) + [Notice(settings, PortDisconnected, [])] &&
        gui.background == guiBackground && gui.font == guiText
      ensures !old(proxy.started) && old(buttonState) == Connecting ==>
        !proxy.started && buttonState == Disconnected && timers == old(timers).(retryRunning := false) && errors == old(errors) &&
        emitted == old(emitted) + [Notice(settings, PortDisconnected, [])] &&
        gui.background == guiBackground && gui.font == guiText
      ensures !old(proxy.started) && old(buttonState) != Connecting ==>
        proxy.started == StartSucceeds(proxy.backend, outcome) &&
        (proxy.started ==> buttonState == Connected && errors == old(errors) && emitted == old(emitted) + [Notice(settings, PortConnected, [])]) &&
        (!proxy.started && settings.portType == PortSettings.Serial ==>
          buttonState == old(buttonState) && emitted == old(emitted) && timers == old(timers) &&
          errors == old(errors) + [SerialErrorMessage(settings, errorText, errorCode)]) &&
        (!proxy.started && settings.portType != PortSettings.Serial ==>
          buttonState == Connecting && timers.retryRunning && errors == old(errors) &&
          emitted == old(emitted) + [Notice(settings, PortConnecting, [])])
    {
      if proxy.IsStarted() {
        proxy.Stop();
        SetState(Disconnected, guiBackground, guiText);
        emitted := emitted + [Notice(settings, PortDisconnected, [])];
      } else if buttonState == Connecting {
        timers := timers.(retryRunning := false);
        SetState(Disconnected, guiBackground, guiText);
        emitted := emitted + [Notice(settings, PortDisconnected, [])];
      } else {
        var ok := TryConnect(outcome, guiBackground, guiText);
        if !ok {
          if settings.portType == PortSettings.Serial {
            errors := errors + [SerialErrorMessage(settings, errorText, errorCode)];
          } else {
            ScheduleConnectionTrial(guiBackground, guiText);
          }
        }
      }
    }

    /**
     * onEvent: a lost endpoint makes the port CONNECTING and it reconnects at
     * once or starts retrying; received data is reported as NEW_DATA, unchanged.
     */
    method OnEvent(event: DriversProxy.Event, data: seq<Byte>, outcome: bool, guiBackground: U32, guiText: U32)
      requires Valid()
      modifies this, proxy
      ensures Valid() && settings == old(settings) && proxy == old(proxy) && errors == old(errors)
      ensures event == DriversProxy.DataReceived ==>
        emitted == old(emitted) + [Notice(settings, NewData, data)] && buttonState == old(buttonState) && timers == old(timers)
      ensures event == DriversProxy.EndpointDisconnected ==>
        proxy.started == StartSucceeds(proxy.backend, outcome) &&
        buttonState == (if proxy.started then Connected else Connecting) &&
        emitted == old(emitted) + [Notice(settings, PortConnecting, [])] +
          [Notice(settings, if proxy.started then PortConnected else PortConnecting, [])]
    {
      if event == DriversProxy.EndpointDisconnected {
        SetState(Connecting, guiBackground, guiText);
        emitted := emitted + [Notice(settings, PortConnecting, [])];
        var ok := TryConnect(outcome, guiBackground, guiText);
        if !ok {
          ScheduleConnectionTrial(guiBackground, guiText);
        }
      } else {
        emitted := emitted + [Notice(settings, NewData, data)];
      }
    }

    /**
     * onTimeout: the retry timer tries to reconnect and re-arms itself on
     * failure; the throughput timer restarts while the port is open and shows
     * the reported throughput (its "%.2f <unit>" text is an input), and clears
     * the throughput text otherwise.
     */
    method OnTimeout(timerId: nat, outcome: bool, guiBackground: U32, guiText: U32, reported: string)
      requires Valid() && retryTimerId != throughputTimerId
      modifies this, proxy
      ensures Valid() && settings == old(settings) && proxy == old(proxy) && errors == old(errors)
      ensures timerId == retryTimerId ==>
        proxy.started == StartSucceeds(proxy.backend, outcome) &&
        buttonState == (if proxy.started then Connected else Connecting) &&
        emitted == old(emitted) + [Notice(settings, if proxy.started then PortConnected else PortConnecting, [])]
      ensures timerId == throughputTimerId ==>
        buttonState == old(buttonState) && emitted == old(emitted) &&
        (old(IsOpened()) ==> timers == old(timers).(throughputRunning := true) && gui == old(gui).(throughputText := reported)) &&
        (!old(IsOpened()) ==> timers == old(timers) && gui == old(gui).(throughputText := ""))
      ensures timerId != retryTimerId && timerId != throughputTimerId ==>
        buttonState == old(buttonState) && emitted == old(emitted) && timers == old(timers) && gui == old(gui)
    {
      if timerId == retryTimerId {
        var ok := TryConnect(outcome, guiBackground, guiText);
        if !ok {
          ScheduleConnectionTrial(guiBackground, guiText);
        }
      }
      if timerId == throughputTimerId {
        if IsOpened() {
          timers := timers.(throughputRunning := true);
          gui := gui.(throughputText := reported);
        } else {
          gui := gui.(throughputText := "");
        }
      }
    }

    /** onPortButtonContextMenuRequested: the dialog's settings are applied only when it returned true. */
    method OnContextMenu(dialogResult: Option<bool>, newSettings: PortSettings.Settings, guiBackground: U32, guiText: U32)
      requires Valid()
      modifies this
      ensures Valid() && buttonState == old(buttonState) && timers == old(timers) && emitted == old(emitted)
      ensures dialogResult == Some(true) ==>
        settings == Named(newSettings) && fresh(proxy) && !proxy.started &&
        (gui.background, gui.font) == ButtonColors(buttonState, guiBackground, guiText)
      ensures dialogResult != Some(true) ==> settings == old(settings) && proxy == old(proxy) && gui == old(gui)
    {
      if dialogResult.Some? && dialogResult.value {
        HandleNewSettings(newSettings, guiBackground, guiText);
      }
    }

    /**
     * onButtonEvent: only the port's own button is handled; a click goes to
     * onPortButtonClicked and a context menu request to
     * onPortButtonContextMenuRequested.
     */
    method OnButtonEvent(id: U32, event: GUIController.ButtonEvent, outcome: bool, errorText: string, errorCode: int,
                         dialogResult: Option<bool>, newSettings: PortSettings.Settings, guiBackground: U32, guiText: U32)
      requires Valid()
      modifies this, proxy
      ensures Valid()
      ensures id != buttonId ==> unchanged(this) && unchanged(proxy)
      ensures id == buttonId && event == GUIController.Clicked ==>
        settings == old(settings) && proxy == old(proxy) &&
        (old(proxy.started) ==> !proxy.started && buttonState == Disconnected) &&
        (!old(proxy.started) && old(buttonState) == Connecting ==> !proxy.started && buttonState == Disconnected) &&
        (!old(proxy.started) && old(buttonState) != Connecting ==> proxy.started == StartSucceeds(proxy.backend, outcome))
      ensures id == buttonId && event == GUIController.ContextMenuRequested ==>
        buttonState == old(buttonState) && timers == old(timers) && emitted == old(emitted) &&
        (dialogResult == Some(true) ==> settings == Named(newSettings) && !proxy.started) &&
        (dialogResult != Some(true) ==> settings == old(settings) && proxy == old(proxy) && gui == old(gui))
    {
      if id == buttonId {
        match event {
          case Clicked => OnButtonClicked(outcome, errorText, errorCode, guiBackground, guiText);
          case ContextMenuRequested => OnContextMenu(dialogResult, newSettings, guiBackground, guiText);
        }
      }
    }

    /**
     * write: the data handed to the drivers proxy, whose backend is the one
     * the settings' type selects, and its answer returned.
     */
    method Write(data: seq<Byte>, size: nat, accepted: int, cap: nat -> int) returns (result: bool, wire: seq<Byte>)
      requires Valid()
      requires settings.portType == PortSettings.Serial ==> accepted <= |data|
      requires settings.portType != PortSettings.Serial ==> size <= |data|
      ensures settings.portType == PortSettings.Serial ==> wire == data && result == (accepted == size)
      ensures settings.portType != PortSettings.Serial && size <= Framing.SOCKET_MAX_PAYLOAD_LENGTH ==>
        (result, |wire|) == SocketWrite.SendLoopAsWritten(size, cap, 0, 0, size)
      ensures settings.portType != PortSettings.Serial ==> |wire| <= size && wire == data[..|wire|]
      ensures settings.portType != PortSettings.Serial && wire == data[..size] ==> result
      ensures settings.portType != PortSettings.Serial && size > Framing.SOCKET_MAX_PAYLOAD_LENGTH ==> !result
    {
      result, wire := proxy.Write(data, size, accepted, cap);
    }

    /** onPersistenceWrite: the thirteen items appended to the buffer. */
    method OnPersistenceWrite(buffer: seq<Persistence.PersistenceItem>) returns (out: seq<Persistence.PersistenceItem>)
      requires Persistable(settings)
      ensures out == buffer + PersistenceItems(settings)
    {
      var s := settings;
      var front := WriteEndpoint(buffer, s);
      var serial := WriteSerial(front, s);
      out := WriteLook(serial, s);
      ItemsInOrder(buffer, EndpointItems(s), SerialItems(s), LookItems(s));
    }

    /** onPersistenceRead: the restored settings go through handleNewSettings. */
    method OnPersistenceRead(items: seq<Persistence.PersistenceItem>, guiBackground: U32, guiText: U32)
      requires Persistable(settings) && NumbersReadable(items)
      modifies this
      ensures Valid() && settings == Named(Restored(old(settings), items)) && fresh(proxy) && !proxy.started
      ensures buttonState == old(buttonState) && timers == old(timers) && errors == old(errors) && emitted == old(emitted)
      ensures (gui.background, gui.font) == ButtonColors(buttonState, guiBackground, guiText)
    {
      HandleNewSettings(Restored(settings, items), guiBackground, guiText);
    }
  }

  lemma ItemsInOrder(buffer: seq<Persistence.PersistenceItem>, front: seq<Persistence.PersistenceItem>, serial: seq<Persistence.PersistenceItem>, look: seq<Persistence.PersistenceItem>)
    ensures buffer + front + serial + look == buffer + (front + serial + look)
  {
  }

  /** The first four writeItem calls of onPersistenceWrite. */
  method WriteEndpoint(buffer: seq<Persistence.PersistenceItem>, s: PortSettings.Settings) returns (out: seq<Persistence.PersistenceItem>)
    ensures out == buffer + EndpointItems(s)
  {
    out := Persistence.WriteString(buffer, "ipAddress", s.ipAddress);
    out := Persistence.WriteNumber(out, "ipPort", s.port);
    out := Persistence.WriteNumber(out, "portId", s.portId);
    out := Persistence.WriteString(out, "portName", s.portName);
  }

  /** The six writeItem calls for the serial settings. */
  method WriteSerial(buffer: seq<Persistence.PersistenceItem>, s: PortSettings.Settings) returns (out: seq<Persistence.PersistenceItem>)
    requires Persistable(s)
    ensures out == buffer + SerialItems(s)
  {
    out := Persistence.WriteString(buffer, "baudRate", SerialDriver.ToName(SerialDriver.BaudRate, s.serial.baudRate));
    out := Persistence.WriteString(out, "dataBits", SerialDriver.ToName(SerialDriver.DataBitType, s.serial.dataBits));
    out := Persistence.WriteString(out, "parityBits", SerialDriver.ToName(SerialDriver.ParityType, s.serial.parityBits));
    out := Persistence.WriteString(out, "stopBits", SerialDriver.ToName(SerialDriver.StopBitType, s.serial.stopBits));
    out := Persistence.WriteString(out, "device", s.serial.device);
    out := Persistence.WriteNumber(out, "mode", s.serial.mode);
  }

  /** The last three writeItem calls: the colours and the port type. */
  method WriteLook(buffer: seq<Persistence.PersistenceItem>, s: PortSettings.Settings) returns (out: seq<Persistence.PersistenceItem>)
    requires Persistable(s)
    ensures out == buffer + LookItems(s)
  {
    out := Persistence.WriteNumber(buffer, "traceColor", s.traceColor);
    out := Persistence.WriteNumber(out, "fontColor", s.fontColor);
    out := Persistence.WriteString(out, "type", PortSettings.PortTypeName(s.portType));
  }
}
