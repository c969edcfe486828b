/**
 * PortSettingDialog::Settings: the settings of one terminal port, with the
 * short text shown on the port button and the comparison that decides whether
 * a dialog result changed anything.
 */
module PortSettings {
  import opened Common
  import Text
  import SerialDriver

  /** The port types, in enum order; PortTypeMax is the closing PORT_TYPE_MAX enumerator. */
  datatype PortType = Serial | Ethernet | PortTypeMax

  /** The port type names, from the macro list in enum order. */
  const PORT_TYPE_NAMES: seq<string> := ["SERIAL", "ETHERNET"]

  /** EnumValue<PortType>::toName: the table entry of a valid type (asserted). */
  function PortTypeName(t: PortType): (name: string)
    requires t != PortTypeMax
    ensures name in PORT_TYPE_NAMES
  {
    if t == Serial then PORT_TYPE_NAMES[0] else PORT_TYPE_NAMES[1]
  }

  /** EnumValue<PortType>::fromName: the type whose name it is, or PORT_TYPE_MAX. */
  function PortTypeFromName(name: string): (t: PortType)
    ensures t != PortTypeMax <==> name in PORT_TYPE_NAMES
  {
    if name == PORT_TYPE_NAMES[0] then Serial
    else if name == PORT_TYPE_NAMES[1] then Ethernet
    else PortTypeMax
  }

  /** fromName inverts toName, and toName inverts fromName on every known name. */
  lemma PortTypeNameRoundTrip(t: PortType, name: string)
    ensures t != PortTypeMax ==> PortTypeFromName(PortTypeName(t)) == t
    ensures PortTypeFromName(name) != PortTypeMax ==> PortTypeName(PortTypeFromName(name)) == name
  {
  }


  datatype Settings = Settings(
    portId: Byte,
    portType: PortType,
    portName: string,
    serial: SerialDriver.Settings,
    ipAddress: string,
    port: U32,
    traceColor: U32,
    fontColor: U32)

  /** The default member initialisers. */
  const DEFAULT_SETTINGS: Settings :=
    Settings(0, Serial, "", SerialDriver.Settings("", 0, 0, 0, 0, 0), "127.0.0.1", 1234, 0xFFFFFF, 0)

  /** The serial part is readable when its baud rate is a valid enumerator, which toName asserts. */
  predicate ShortStringDefined(s: Settings)
  {
    s.portType == Serial ==> s.serial.baudRate < SerialDriver.Max(SerialDriver.BaudRate)
  }

  /**
   * shortSettingsString: "name/device/SER/<baud name>" for a serial port,
   * "name/ETH/<ip>:<port>" for every other type.
   */
  function ShortSettingsString(s: Settings): (r: string)
    requires ShortStringDefined(s)
  {
    if s.portType == Serial then
      s.portName + "/" + s.serial.device + "/" + "SER" + "/" + SerialDriver.ToName(SerialDriver.BaudRate, s.serial.baudRate)
    else
      s.portName + "/" + "ETH" + "/" + s.ipAddress + ":" + Text.NatToDecimal(s.port)
  }

  /** A string built as prefix + tail splits back into the two. */
  lemma SplitAt(prefix: string, tail: string)
    ensures (prefix + tail)[..|prefix|] == prefix && (prefix + tail)[|prefix|..] == tail
  {
  }

  /**
   * A serial port's short string is "name/device/SER/" followed by the baud
   * rate's name, which fromName reads back as the baud rate.
   */
  lemma SerialShortString(s: Settings)
    requires s.portType == Serial && s.serial.baudRate < SerialDriver.Max(SerialDriver.BaudRate)
    ensures
      var name := SerialDriver.ToName(SerialDriver.BaudRate, s.serial.baudRate);
      var r := ShortSettingsString(s);
      |name| <= |r| && r[..|r| - |name|] == s.portName + "/" + s.serial.device + "/SER/" &&
      SerialDriver.FromName(SerialDriver.BaudRate, r[|r| - |name|..]) == s.serial.baudRate
  {
    var name := SerialDriver.ToName(SerialDriver.BaudRate, s.serial.baudRate);
    var prefix := s.portName + "/" + s.serial.device + "/SER/";
    assert ShortSettingsString(s) == prefix + name;
    SplitAt(prefix, name);
    SerialDriver.NameRoundTrip(SerialDriver.BaudRate, s.serial.baudRate, name);
  }

  /**
   * Any other port's short string is "name/ETH/ip:" followed by the decimal
   * port number, which reads back as the port.
   */
  lemma EthernetShortString(s: Settings)
    requires s.portType != Serial
    ensures
      var digits := Text.NatToDecimal(s.port);
      var r := ShortSettingsString(s);
      |digits| <= |r| && r[..|r| - |digits|] == s.portName + "/ETH/" + s.ipAddress + ":" &&
      Text.ParseDecimalPrefix(r[|r| - |digits|..]) == Some(s.port as int)
  {
    var digits := Text.NatToDecimal(s.port);
    var prefix := s.portName + "/ETH/" + s.ipAddress + ":";
    assert ShortSettingsString(s) == prefix + digits;
    SplitAt(prefix, digits);
    Text.DecimalRoundTrip(s.port);
  }

  /** operator==: every field but port_id; equal exactly when the two are the same once the port id is set aside. */
  predicate Equal(a: Settings, b: Settings): (r: bool)
    ensures r <==> a.(portId := b.portId) == b
  {
    a.portType == b.portType && a.portName == b.portName && a.serial == b.serial &&
    a.ipAddress == b.ipAddress && a.port == b.port && a.traceColor == b.traceColor && a.fontColor == b.fontColor
  }

  /** operator!=: the two differ in some field other than the port id. */
  predicate NotEqual(a: Settings, b: Settings): (r: bool)
    ensures r <==> a.(portId := b.portId) != b
  {
    !Equal(a, b)
  }

  /** operator== is an equivalence. */
  lemma EqualIsEquivalence(a: Settings, b: Settings, c: Settings)
    ensures Equal(a, a)
    ensures Equal(a, b) ==> Equal(b, a)
    ensures Equal(a, b) && Equal(b, c) ==> Equal(a, c)
  {
  }
}
