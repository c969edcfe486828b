/**
 * PortHandler: the older, socket-only port button. It connects a socket
 * client to the configured address, keeps retrying with a one-shot timer
 * while the server is not there, paints the button after its state and
 * shows the short settings text on a label. The socket client is reduced
 * to whether it is connected; every connect attempt's result is an input.
 */
module PortHandler {
  import opened Common
  import Text
  import PortSettings
  import SocketClient
  import Timers

  const DEFAULT_CONNECT_RETRY_PERIOD: nat := 1000

  datatype ButtonState = Disconnected | Connecting | Connected

  /** The events a PortHandler reports. */
  datatype Event = PortDisconnected | PortConnecting | PortConnected | NewData

  /** One listener call: the port name, the trace colour, the event and the data of the last client event. */
  datatype Notice = Notice(name: string, traceColor: U32, event: Event, data: seq<Byte>, size: nat)

  /** The label stylesheet before snprintf truncates it: the trace colour as "%.6x" between fixed text. */
  const LABEL_STYLE_PREFIX: string := "background-color: #"
  const LABEL_STYLE_SUFFIX: string := ";border-width:2px;border-style:solid;border-radius:10px;border-color:gray;"

  function FullLabelStyle(traceColor: U32): string
  {
    LABEL_STYLE_PREFIX + Text.FormatHex6(traceColor) + LABEL_STYLE_SUFFIX
  }

  /** snprintf(buf, n, ...): at most n - 1 characters of the formatted text. */
  function Snprintf(n: nat, text: string): (r: string)
    requires n > 0
    ensures |r| <= n - 1 && |r| <= |text|
    ensures r == text[..|r|]
    ensures |text| < n ==> r == text
  {
    if |text| < n then text else text[..n - 1]
  }

  /** handleNewSettings as written: snprintf limited to 100 characters, although the buffer holds 200. */
  function LabelStyleAsWritten(traceColor: U32): string
  {
    Snprintf(100, FullLabelStyle(traceColor))
  }

  /** The stylesheet as intended: snprintf limited by the 200-character buffer it fills. */
  function LabelStyle(traceColor: U32): string
  {
    Snprintf(200, FullLabelStyle(traceColor))
  }

  /** Every 32-bit colour prints at most eight digits, so the intended stylesheet is never cut. */
  lemma LabelStyleWhole(traceColor: U32)
    ensures |FullLabelStyle(traceColor)| <= 101
    ensures LabelStyle(traceColor) == FullLabelStyle(traceColor)
  {
    assert Text.Pow16(8) == 0x1_0000_0000;
    Text.HexLength(traceColor, 8);
  }

  /** Every 24-bit colour fits: the text is exactly 99 characters and comes out whole. */
  lemma LabelStyleFitsFor24Bits(traceColor: U32)
    requires traceColor <= 0xFF_FFFF
    ensures |FullLabelStyle(traceColor)| == 99
    ensures LabelStyleAsWritten(traceColor) == LabelStyle(traceColor)
  {
    LabelStyleWhole(traceColor);
  }

  /**
   * A colour above 24 bits prints more than six digits, and the 100-character
   * limit cuts the stylesheet short.
   */
  lemma LabelStyleCutAbove24Bits(traceColor: U32)
    requires traceColor > 0xFF_FFFF
    ensures |FullLabelStyle(traceColor)| > 99
    ensures LabelStyleAsWritten(traceColor) == FullLabelStyle(traceColor)[..99]
    ensures LabelStyleAsWritten(traceColor) != LabelStyle(traceColor)
  {
    assert Text.Pow16(6) == 0x100_0000;
    Text.HexLengthAbove(traceColor, 6);
    LabelStyleWhole(traceColor);
  }

  /**
   * The colours the settings dialog stores come from QColor::rgb(), whose alpha
   * byte is 0xFF: they print eight digits, and the stylesheet as written loses
   * its last two characters, "y;".
   */
  lemma RgbColoursCut(traceColor: U32)
    requires traceColor >= 0xFF00_0000
    ensures |FullLabelStyle(traceColor)| == 101
    ensures LabelStyleAsWritten(traceColor) == FullLabelStyle(traceColor)[..99]
    ensures FullLabelStyle(traceColor)[99..] == "y;"
  {
    assert Text.Pow16(7) == 0x1000_0000;
    Text.HexLengthAbove(traceColor, 7);
    LabelStyleWhole(traceColor);
    var full := FullLabelStyle(traceColor);
    assert full[99..] == LABEL_STYLE_SUFFIX[72..];
  }

  /** The listener call, or nothing without a listener. */
  function NoticesFor(hasListener: bool, s: PortSettings.Settings, event: Event, last: SocketClient.Notification): (r: seq<Notice>)
    ensures |r| == (if hasListener then 1 else 0)
    ensures forall i :: 0 <= i < |r| ==>
      r[i].name == s.portName && r[i].traceColor == s.traceColor && r[i].event == event &&
      r[i].data == last.data && r[i].size == last.size
  {
    if hasListener then [Notice(s.portName, s.traceColor, event, last.data, last.size)] else []
  }

  class Handler {
    /** m_timer_id: the retry timer created by the constructor. */
    var timerId: U32
    /** m_listener is set. */
    const hasListener: bool
    var settings: PortSettings.Settings
    var buttonState: ButtonState
    /** The state the button palette was last painted with, and the number of repaints. */
    var painted: ButtonState
    var repaints: nat
    /** m_socket->isConnected(). */
    var socketConnected: bool
    /** The retry timer is running, with this timeout. */
    var timerRunning: bool
    var retryTimeout: nat
    /**
     * m_last_event: the latest client event. Its data and size travel with
     * every notification; before the first client event they are empty.
     */
    var lastEvent: SocketClient.Notification
    var labelText: string
    var labelStyle: string
    /** The listener calls, oldest first. */
    var notices: seq<Notice>
    /** The error dialogs shown. */
    var errors: seq<string>

    /**
     * The button shows the state last set, a connected socket is exactly a
     * CONNECTED button, and the retry timer never runs while connected.
     */
    predicate Valid()
      reads this
    {
      painted == buttonState &&
      (socketConnected <==> buttonState == Connected) &&
      (timerRunning ==> !socketConnected)
    }

    /**
     * The constructor: default settings, the retry timer created with the
     * default period (timerId is what createTimer returned), a DISCONNECTED
     * button and a DISCONNECTED report.
     */
    constructor(timerId: U32, hasListener: bool)
      ensures Valid()
      ensures this.timerId == timerId && this.hasListener == hasListener
      ensures settings == PortSettings.DEFAULT_SETTINGS
      ensures buttonState == Disconnected && !socketConnected && !timerRunning
      ensures retryTimeout == DEFAULT_CONNECT_RETRY_PERIOD
      ensures notices == NoticesFor(hasListener, PortSettings.DEFAULT_SETTINGS, PortDisconnected, SocketClient.DISCONNECTED_EVENT)
      ensures errors == []
    {
      this.timerId := timerId;
      this.hasListener := hasListener;
      settings := PortSettings.DEFAULT_SETTINGS;
      buttonState := Disconnected;
      painted := Disconnected;
      repaints := 1;
      socketConnected := false;
      timerRunning := false;
      retryTimeout := DEFAULT_CONNECT_RETRY_PERIOD;
      lastEvent := SocketClient.DISCONNECTED_EVENT;
      labelText := "";
      labelStyle := "";
      notices := NoticesFor(hasListener, PortSettings.DEFAULT_SETTINGS, PortDisconnected, SocketClient.DISCONNECTED_EVENT);
      errors := [];
    }

    /** notifyListeners: one call carrying the last client event's data, when a listener is set. */
    method NotifyListeners(event: Event)
      modifies this
      ensures notices == old(notices) + NoticesFor(hasListener, settings, event, lastEvent)
      ensures unchanged(this`settings, this`buttonState, this`painted, this`repaints, this`socketConnected)
      ensures unchanged(this`timerRunning, this`retryTimeout, this`lastEvent, this`timerId)
      ensures unchanged(this`labelText, this`labelStyle, this`errors)
    {
      notices := notices + NoticesFor(hasListener, settings, event, lastEvent);
    }

    /** setButtonState: a new state is stored and painted; the current one changes nothing. */
    method SetButtonState(st: ButtonState)
      modifies this
      ensures buttonState == st
      ensures painted == (if st == old(buttonState) then old(painted) else st)
      ensures repaints == old(repaints) + (if st == old(buttonState) then 0 else 1)
      ensures unchanged(this`settings, this`socketConnected, this`timerRunning, this`retryTimeout, this`timerId)
      ensures unchanged(this`lastEvent, this`labelText, this`labelStyle, this`notices, this`errors)
    {
      if st != buttonState {
        buttonState := st;
        painted := st;
        repaints := repaints + 1;
      }
    }

    /** onClientEvent: the event is kept for the GUI thread's onPortEvent. */
    method OnClientEvent(event: SocketClient.ClientEvent, data: seq<Byte>, size: nat)
      modifies this`lastEvent
      ensures lastEvent == SocketClient.Notification(event, data, size)
    {
      lastEvent := SocketClient.Notification(event, data, size);
    }

    /**
     * tryConnectToSocket: connecting (refused by a connected socket, otherwise
     * `outcome`) stops the retry timer and reports CONNECTED; failing sets the
     * timer to the retry period, starts it and reports CONNECTING.
     */
    method TryConnectToSocket(outcome: bool) returns (result: bool)
      requires Valid() && !socketConnected
      modifies this
      ensures Valid()
      ensures result == outcome
      ensures result ==> buttonState == Connected && socketConnected && !timerRunning && retryTimeout == old(retryTimeout)
      ensures !result ==> buttonState == Connecting && !socketConnected && timerRunning && retryTimeout == DEFAULT_CONNECT_RETRY_PERIOD
      ensures notices == old(notices) + NoticesFor(hasListener, settings, if result then PortConnected else PortConnecting, lastEvent)
      ensures unchanged(this`settings, this`lastEvent, this`timerId, this`labelText, this`labelStyle, this`errors)
    {
      result := !socketConnected && outcome;
      socketConnected := result;
      if result {
        timerRunning := false;
        SetButtonState(Connected);
        NotifyListeners(PortConnected);
      } else {
        retryTimeout := DEFAULT_CONNECT_RETRY_PERIOD;
        timerRunning := true;
        SetButtonState(Connecting);
        NotifyListeners(PortConnecting);
      }
    }

    /** onPortEvent: a server disconnection disconnects and reports DISCONNECTED; data is reported as NEW_DATA. */
    method OnPortEvent()
      requires Valid()
      modifies this
      ensures Valid()
      ensures old(lastEvent).event == SocketClient.ServerDisconnected ==>
        !socketConnected && buttonState == Disconnected &&
        notices == old(notices) + NoticesFor(hasListener, settings, PortDisconnected, lastEvent)
      ensures old(lastEvent).event == SocketClient.ServerDataRecv ==>
        socketConnected == old(socketConnected) && buttonState == old(buttonState) &&
        notices == old(notices) + NoticesFor(hasListener, settings, NewData, lastEvent)
      ensures unchanged(this`settings, this`lastEvent, this`timerRunning, this`retryTimeout, this`timerId)
      ensures unchanged(this`labelText, this`labelStyle, this`errors)
    {
      if lastEvent.event == SocketClient.ServerDisconnected {
        socketConnected := false;
        SetButtonState(Disconnected);
        NotifyListeners(PortDisconnected);
      } else {
        NotifyListeners(NewData);
      }
    }

    /**
     * onTimeout: only the handler's own timer retries the connection. The
     * timers call back a running timer only, and a one-shot timer has stopped
     * by then.
     */
    method OnTimeout(id: U32, outcome: bool)
      requires Valid()
      requires id == timerId ==> timerRunning
      modifies this
      ensures Valid()
      ensures id != timerId ==> buttonState == old(buttonState) && notices == old(notices) && timerRunning == old(timerRunning)
      ensures id == timerId ==> buttonState == (if outcome then Connected else Connecting)
      ensures id == timerId ==> notices == old(notices) + NoticesFor(hasListener, settings, if outcome then PortConnected else PortConnecting, lastEvent)
      ensures socketConnected == (if id == timerId then outcome else old(socketConnected))
      ensures unchanged(this`settings, this`lastEvent, this`timerId, this`labelText, this`labelStyle, this`errors)
    {
      if id == timerId {
        timerRunning := false;
        var _ := TryConnectToSocket(outcome);
      }
    }

    /**
     * handleNewSettings: the settings are replaced and the label shows their
     * short text on the trace colour. The stylesheet is snprintf'd with a limit
     * of 100, so it comes out whole only for a colour of at most six digits.
     */
    method HandleNewSettings(s: PortSettings.Settings)
      requires PortSettings.ShortStringDefined(s)
      modifies this`settings, this`labelText, this`labelStyle
      ensures settings == s
      ensures labelText == PortSettings.ShortSettingsString(s)
      ensures |labelStyle| <= |FullLabelStyle(s.traceColor)| && labelStyle == FullLabelStyle(s.traceColor)[..|labelStyle|]
      ensures s.traceColor <= 0xFF_FFFF ==> labelStyle == FullLabelStyle(s.traceColor)
      ensures s.traceColor > 0xFF_FFFF ==> |labelStyle| == 99 && labelStyle != FullLabelStyle(s.traceColor)
    {
      settings := s;
      labelText := PortSettings.ShortSettingsString(s);
      labelStyle := LabelStyleAsWritten(s.traceColor);
      if s.traceColor <= 0xFF_FFFF {
        LabelStyleFitsFor24Bits(s.traceColor);
      } else {
        LabelStyleCutAbove24Bits(s.traceColor);
      }
    }

    /**
     * onPortButtonContextMenuRequested: the dialog's verdict is an input. An
     * accepted result replaces the settings, a rejected one shows an error
     * naming the new settings (their text form is `describe`), and a
     * cancelled dialog changes nothing.
     */
    method OnContextMenu(dialogResult: Option<bool>, newSettings: PortSettings.Settings, describe: string)
      requires Valid()
      requires dialogResult == Some(true) ==> PortSettings.ShortStringDefined(newSettings)
      modifies this
      ensures Valid()
      ensures dialogResult == Some(true) ==> settings == newSettings && labelText == PortSettings.ShortSettingsString(newSettings) && errors == old(errors)
      ensures dialogResult == Some(false) ==> settings == old(settings) && errors == old(errors) + ["Invalid port settings:\n" + describe]
      ensures dialogResult.None? ==> settings == old(settings) && errors == old(errors) && labelText == old(labelText)
      ensures unchanged(this`buttonState, this`painted, this`socketConnected, this`timerRunning, this`notices)
    {
      if dialogResult.Some? {
        if dialogResult.value {
          HandleNewSettings(newSettings);
          settings := newSettings;
        } else {
          errors := errors + ["Invalid port settings:\n" + describe];
        }
      }
    }

    /**
     * handleButtonClickEthernet: a connected socket is disconnected; a
     * connecting port stops retrying; otherwise a connection is attempted.
     */
    method HandleButtonClickEthernet(outcome: bool)
      requires Valid()
      modifies this
      ensures Valid()
      ensures old(socketConnected) ==>
        !socketConnected && buttonState == Disconnected && timerRunning == old(timerRunning) &&
        notices == old(notices) + NoticesFor(hasListener, settings, PortDisconnected, lastEvent)
      ensures !old(socketConnected) && old(buttonState) == Connecting ==>
        buttonState == Disconnected && !timerRunning &&
        notices == old(notices) + NoticesFor(hasListener, settings, PortDisconnected, lastEvent)
      ensures !old(socketConnected) && old(buttonState) != Connecting ==>
        socketConnected == outcome && buttonState == (if outcome then Connected else Connecting) &&
        notices == old(notices) + NoticesFor(hasListener, settings, if outcome then PortConnected else PortConnecting, lastEvent)
      ensures unchanged(this`settings, this`lastEvent, this`timerId, this`labelText, this`labelStyle, this`errors)
    {
      if socketConnected {
        socketConnected := false;
        SetButtonState(Disconnected);
        NotifyListeners(PortDisconnected);
      } else if buttonState == Connecting {
        timerRunning := false;
        SetButtonState(Disconnected);
        NotifyListeners(PortDisconnected);
      } else {
        var _ := TryConnectToSocket(outcome);
      }
    }

    /** onPortButtonClicked: ETHERNET ports are handled; a SERIAL click is only logged as not implemented. */
    method OnButtonClicked(outcome: bool)
      requires Valid()
      modifies this
      ensures Valid()
      ensures settings.portType != PortSettings.Ethernet ==>
        buttonState == old(buttonState) && socketConnected == old(socketConnected) && notices == old(notices)
      ensures settings.portType == PortSettings.Ethernet && !old(socketConnected) && old(buttonState) == Disconnected ==>
        buttonState == (if outcome then Connected else Connecting)
      ensures settings.portType == PortSettings.Ethernet && old(buttonState) != Disconnected ==>
        buttonState == Disconnected && !socketConnected && !timerRunning
      ensures unchanged(this`settings, this`lastEvent, this`timerId, this`labelText, this`labelStyle, this`errors)
    {
      if settings.portType == PortSettings.Ethernet {
        HandleButtonClickEthernet(outcome);
      }
    }

    /** The destructor: the timer is removed, the socket disconnected, and DISCONNECTED is shown and reported. */
    method Destroy()
      requires Valid()
      modifies this
      ensures Valid()
      ensures timerId == Timers.TIMERS_INVALID_ID && !timerRunning && !socketConnected && buttonState == Disconnected
      ensures notices == old(notices) + NoticesFor(hasListener, settings, PortDisconnected, lastEvent)
    {
      timerRunning := false;
      timerId := Timers.TIMERS_INVALID_ID;
      socketConnected := false;
      SetButtonState(Disconnected);
      NotifyListeners(PortDisconnected);
    }
  }
}
