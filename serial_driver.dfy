/**
 * QtSerialDriver: the serial port driver on top of QSerialPort. The model
 * keeps the enum name tables, the settings check done by open(), the running
 * flag of the reading thread, the receive buffer with its index and the
 * listener list. The QSerialPort calls are replaced by their results.
 */
module SerialDriver {
  import opened Common
  import opened Framing
  import Listeners

  const SERIAL_MAX_PAYLOAD_LENGTH: nat := 4096

  /**
   * The enum name tables, one entry per enumerator in enum order; the
   * enumerators are the keys of the QSerialPort translation maps.
   */
  const BAUD_RATE_NAMES: seq<string> := ["BR_1200", "BR_2400", "BR_4800", "BR_9600", "BR_19200", "BR_38400", "BR_57600", "BR_115200"]
  const DATA_BIT_NAMES: seq<string> := ["FIVE", "SIX", "SEVEN", "EIGHT"]
  const PARITY_NAMES: seq<string> := ["NONE", "EVEN", "ODD"]
  const STOP_BIT_NAMES: seq<string> := ["ONE", "TWO"]

  /** The enum types EnumValue is instantiated with; Unsupported is any other type, served by the generic template. */
  datatype Kind = BaudRate | ParityType | StopBitType | DataBitType | Unsupported

  function Names(kind: Kind): seq<string>
  {
    match kind
    case BaudRate => BAUD_RATE_NAMES
    case ParityType => PARITY_NAMES
    case StopBitType => STOP_BIT_NAMES
    case DataBitType => DATA_BIT_NAMES
    case Unsupported => []
  }

  /** The X_MAX enumerator that closes each enum: one past the last valid value. */
  function Max(kind: Kind): nat
  {
    |Names(kind)|
  }

  predicate Distinct(names: seq<string>)
  {
    forall i, j :: 0 <= i < j < |names| ==> names[i] != names[j]
  }

  /** No two enumerators share a name. */
  lemma NamesDistinct(kind: Kind)
    ensures Distinct(Names(kind))
  {
  }

  /** toName: the table entry of a valid value (asserted); the generic template gives "". */
  function ToName(kind: Kind, v: nat): (name: string)
    requires kind != Unsupported ==> v < Max(kind)
    ensures kind != Unsupported ==> name in Names(kind)
    ensures kind == Unsupported ==> name == ""
  {
    if kind == Unsupported then "" else Names(kind)[v]
  }

  /** fromName: the index of the name in the table, or MAX when it is not there; the generic template gives 0. */
  function FromName(kind: Kind, name: string): (v: nat)
    ensures kind != Unsupported ==> v <= Max(kind) && (v < Max(kind) <==> name in Names(kind))
    ensures kind == Unsupported ==> v == 0
  {
    if kind == Unsupported then 0 else Listeners.FirstIndex(Names(kind), name)
  }

  /** fromName inverts toName on every valid value, and toName inverts fromName on every known name. */
  lemma NameRoundTrip(kind: Kind, v: nat, name: string)
    requires kind != Unsupported
    ensures v < Max(kind) ==> FromName(kind, ToName(kind, v)) == v
    ensures FromName(kind, name) < Max(kind) ==> ToName(kind, FromName(kind, name)) == name
  {
    if v < Max(kind) {
      NamesDistinct(kind);
    }
  }

  /** EnumValue<T>: a value of one of the enums together with its name conversions. */
  class EnumValue {
    const kind: Kind
    var value: nat

    constructor(kind: Kind, value: nat)
      ensures this.kind == kind && this.value == value
    {
      this.kind := kind;
      this.value := value;
    }

    /** fromName: for the four enums value becomes the name's index, or MAX; the generic template leaves it alone. */
    method SetFromName(name: string) returns (v: nat)
      modifies this
      ensures v == FromName(kind, name)
      ensures value == (if kind == Unsupported then old(value) else v)
    {
      if kind == Unsupported {
        return 0;
      }
      value := Max(kind);
      var i := 0;
      while i < |Names(kind)| && Names(kind)[i] != name
        invariant 0 <= i <= |Names(kind)|
        invariant forall j :: 0 <= j < i ==> Names(kind)[j] != name
      {
        i := i + 1;
      }
      if i < |Names(kind)| {
        value := i;
      }
      v := value;
    }
  }

  /** The serial settings of a port; mode is the DataMode, whose only enumerator NEW_LINE_DELIMITER is 0. */
  datatype Settings = Settings(device: string, baudRate: nat, parityBits: nat, stopBits: nat, dataBits: nat, mode: Byte)

  /** All four values are keys of the QSerialPort translation maps. */
  predicate InTranslationMaps(s: Settings)
  {
    s.baudRate < Max(BaudRate) && s.dataBits < Max(DataBitType) &&
    s.parityBits < Max(ParityType) && s.stopBits < Max(StopBitType)
  }

  datatype DriverEvent = DataRecv

  /** One notifyListeners(ev, data, size) call. */
  datatype Notification = Notification(event: DriverEvent, data: seq<Byte>, size: nat)

  /** A SerialListener pointer; None is a null pointer. */
  type ListenerId = nat

  function FrameEvents(frames: seq<seq<Byte>>): (evs: seq<Notification>)
    ensures |evs| == |frames|
    ensures forall i :: 0 <= i < |frames| ==> evs[i] == Notification(DataRecv, frames[i], |frames[i]|)
  {
    seq(|frames|, i requires 0 <= i < |frames| => Notification(DataRecv, frames[i], |frames[i]|))
  }

  class Driver {
    /** The reading thread runs (isOpened). */
    var running: bool
    /** The settings last handed to QSerialPort. */
    var configured: Option<Settings>
    var recvBuffer: array<Byte>
    var recvIdx: nat
    var listeners: seq<Option<ListenerId>>

    ghost predicate Valid()
      reads this
    {
      recvBuffer.Length == SERIAL_MAX_PAYLOAD_LENGTH && recvIdx <= recvBuffer.Length
    }

    ghost function Pending(): seq<Byte>
      reads this, recvBuffer
      requires Valid()
    {
      recvBuffer[..recvIdx]
    }

    constructor()
      ensures Valid() && recvIdx == 0 && !running && configured == None && listeners == []
    {
      running := false;
      configured := None;
      recvBuffer := new Byte[SERIAL_MAX_PAYLOAD_LENGTH](_ => 0);
      recvIdx := 0;
      listeners := [];
    }

    /** isOpened: the reading thread is running. */
    predicate IsOpened()
      reads this
    {
      running
    }

    /**
     * open(mode, settings): the port is configured only when all four values
     * are in the translation maps, and opened only then; portOpens is the
     * result of QSerialPort::open.
     */
    method Open(settings: Settings, portOpens: bool) returns (result: bool)
      modifies this
      ensures result <==> InTranslationMaps(settings) && portOpens
      ensures configured == (if InTranslationMaps(settings) then Some(settings) else old(configured))
      ensures running == (old(running) || result)
      ensures recvBuffer == old(recvBuffer) && recvIdx == old(recvIdx) && listeners == old(listeners)
    {
      result := false;
      if InTranslationMaps(settings) {
        configured := Some(settings);
        if portOpens {
          result := true;
          running := true;
        }
      }
    }

    /** close: closes the port and stops the thread, only when opened. */
    method Close()
      modifies this
      ensures !IsOpened()
      ensures configured == old(configured) && recvBuffer == old(recvBuffer) && recvIdx == old(recvIdx) && listeners == old(listeners)
    {
      if IsOpened() {
        running := false;
      }
    }

    /**
     * One pass of receivingThread's loop after waitForReadyRead. read() stores
     * up to a full payload at the index with no wrap; when the bytes do not
     * fit behind the index the source writes past the buffer, which the model
     * reports as overflow, leaving the driver as it was. A read of 0 or -1
     * changes nothing.
     */
    method ReceiveStep(r: RecvResult) returns (events: seq<Notification>, overflow: bool)
      requires Valid()
      requires r.Received? ==> |r.data| <= SERIAL_MAX_PAYLOAD_LENGTH
      modifies this, recvBuffer
      ensures Valid() && recvBuffer == old(recvBuffer)
      ensures overflow <==> r.Received? && old(recvIdx) + |r.data| > SERIAL_MAX_PAYLOAD_LENGTH
      ensures !overflow && r.Received? && r.data != [] ==>
        events == FrameEvents(FrameList(old(Pending()) + r.data)) && Pending() == Retained(old(Pending()) + r.data)
      ensures overflow || !(r.Received? && r.data != []) ==> events == [] && Pending() == old(Pending())
      ensures running == old(running) && configured == old(configured) && listeners == old(listeners)
    {
      events := [];
      overflow := r.Received? && recvIdx + |r.data| > SERIAL_MAX_PAYLOAD_LENGTH;
      if !overflow && r.Received? && r.data != [] {
        Deposit(recvBuffer, recvIdx, r.data);
        assert recvBuffer[..recvIdx + |r.data|] == old(Pending()) + r.data;
        var frames, n := ExtractFrames(recvBuffer, recvIdx + |r.data|);
        recvIdx := n;
        events := FrameEvents(frames);
      }
    }

    method AddListener(l: Option<ListenerId>)
      modifies this
      ensures listeners == old(listeners) + [l]
      ensures running == old(running) && configured == old(configured) && recvBuffer == old(recvBuffer) && recvIdx == old(recvIdx)
    {
      listeners := listeners + [l];
    }

    method RemoveListener(l: Option<ListenerId>)
      modifies this
      ensures listeners == Listeners.RemoveFirst(old(listeners), l)
      ensures running == old(running) && configured == old(configured) && recvBuffer == old(recvBuffer) && recvIdx == old(recvIdx)
    {
      listeners := Listeners.RemoveFirst(listeners, l);
    }

    /** notifyListeners: every non-null listener, in registration order. */
    method NotifyListeners(n: Notification) returns (deliveries: seq<(ListenerId, Notification)>)
      ensures |deliveries| == |Listeners.NonNull(listeners)|
      ensures forall i :: 0 <= i < |deliveries| ==> deliveries[i] == (Listeners.NonNull(listeners)[i], n)
    {
      deliveries := Listeners.Deliver(listeners, n);
    }
  }

  /**
   * write(data, size): all of data is offered to QSerialPort::write, and the
   * result compares the count it reports (accepted, -1 on error) with size.
   */
  function Write(data: seq<Byte>, size: int, accepted: int): (result: bool)
    requires accepted <= |data|
    ensures result ==> size <= |data|
    ensures accepted == |data| ==> (result <==> size == |data|)
  {
    accepted == size
  }
}
