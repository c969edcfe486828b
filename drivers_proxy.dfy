/**
 * DriversProxy: one port's connection to a serial driver, a socket client or
 * a process driver, behind one start/stop/write interface, with the driver
 * events translated to the two events a port understands.
 */
module DriversProxy {
  import opened Common
  import SerialDriver
  import SocketClient
  import SocketWrite
  import Framing

  datatype Event = EndpointDisconnected | DataReceived

  /** The driver a proxy was built for, with what its constructor stored for it. */
  datatype Backend =
    | SerialBackend(settings: SerialDriver.Settings)
    | SocketBackend(ipAddress: string, port: U32)
    | ProcessBackend(processName: string)

  /** The events of the process driver. */
  datatype ProcessEvent = ProcessStarted | ProcessStopped | ProcessData

  /** One onEvent(event, data, size) call on the proxy's listener. */
  datatype Forwarded = Forwarded(event: Event, data: seq<Byte>, size: nat)

  /** onSerialEvent: DATA_RECV is data, anything else a disconnection. */
  function SerialEventMap(ev: SerialDriver.DriverEvent): (r: Event)
    ensures r == DataReceived <==> ev == SerialDriver.DataRecv
  {
    if ev == SerialDriver.DataRecv then DataReceived else EndpointDisconnected
  }

  /** onClientEvent: SERVER_DATA_RECV is data, anything else a disconnection. */
  function ClientEventMap(ev: SocketClient.ClientEvent): (r: Event)
    ensures r == DataReceived <==> ev == SocketClient.ServerDataRecv
  {
    if ev == SocketClient.ServerDataRecv then DataReceived else EndpointDisconnected
  }

  /** onProcessEvent: only PROCESS_STOPPED is a disconnection; every other event, PROCESS_STARTED included, is data. */
  function ProcessEventMap(ev: ProcessEvent): (r: Event)
    ensures r == EndpointDisconnected <==> ev == ProcessStopped
  {
    if ev == ProcessStopped then EndpointDisconnected else DataReceived
  }

  /** The listener call, data and size passed on unchanged; nothing without a listener. */
  function Forward(hasListener: bool, event: Event, data: seq<Byte>, size: nat): (r: seq<Forwarded>)
    ensures hasListener <==> |r| == 1
    ensures !hasListener ==> r == []
    ensures forall i :: 0 <= i < |r| ==> r[i].data == data && r[i].size == size && r[i].event == event
  {
    if hasListener then [Forwarded(event, data, size)] else []
  }

  class Proxy {
    /** Exactly one driver is created, by the constructor chosen. */
    const backend: Backend
    const hasListener: bool
    /** isStarted of that driver: opened, connected or running. */
    var started: bool

    constructor(backend: Backend, hasListener: bool)
      ensures this.backend == backend && this.hasListener == hasListener && !started
    {
      this.backend := backend;
      this.hasListener := hasListener;
      started := false;
    }

    predicate IsStarted()
      reads this
    {
      started
    }

    /**
     * start: the serial driver opens when its settings are in the translation
     * maps and the port opens; the socket client connects unless it already
     * is; the process driver reports what it did. outcome is the result of
     * the underlying system calls.
     */
    method Start(outcome: bool) returns (result: bool)
      modifies this
      ensures backend.SerialBackend? ==> result == (SerialDriver.InTranslationMaps(backend.settings) && outcome)
      ensures backend.SocketBackend? ==> result == (!old(started) && outcome)
      ensures backend.ProcessBackend? ==> result == outcome
      ensures started == (old(started) || result)
    {
      if backend.SerialBackend? {
        result := SerialDriver.InTranslationMaps(backend.settings) && outcome;
      } else if backend.SocketBackend? {
        result := !started && outcome;
      } else {
        result := outcome;
      }
      started := started || result;
    }

    /** stop: close, disconnect or stop the one driver. */
    method Stop()
      modifies this
      ensures !started
    {
      started := false;
    }

    /**
     * write: to the serial driver when there is one, otherwise to the socket
     * client (a process-backed proxy has neither, and the source dereferences
     * a null pointer). accepted is the serial port's write count; cap is the
     * socket's send behaviour.
     */
    method Write(data: seq<Byte>, size: nat, accepted: int, cap: nat -> int) returns (result: bool, wire: seq<Byte>)
      requires !backend.ProcessBackend?
      requires backend.SerialBackend? ==> accepted <= |data|
      requires backend.SocketBackend? ==> size <= |data|
      ensures backend.SerialBackend? ==> wire == data && result == (accepted == size)
      ensures backend.SocketBackend? && size <= Framing.SOCKET_MAX_PAYLOAD_LENGTH ==>
        (result, |wire|) == SocketWrite.SendLoopAsWritten(size, cap, 0, 0, size)
      ensures backend.SocketBackend? ==> |wire| <= size && wire == data[..|wire|]
      ensures backend.SocketBackend? && wire == data[..size] ==> result
      ensures backend.SocketBackend? && size > Framing.SOCKET_MAX_PAYLOAD_LENGTH ==> !result
    {
      if backend.SerialBackend? {
        result, wire := SerialDriver.Write(data, size, accepted), data;
      } else {
        result, wire := SocketWrite.Write(SocketWrite.NewLineDelimiter, data, size, cap);
      }
    }
  }
}
