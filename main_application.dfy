/**
 * MainApplication: the terminal window's bookkeeping. It prints the data of
 * every port with a time stamp to the terminal view and, once per trace
 * filter that matches, to the trace view; it keeps the id -> name map of the
 * open ports, sends commands to the current port with the selected line
 * ending, keeps a bounded command history per port, and saves and restores
 * its settings and that history through its persistence block.
 *
 * The GUI controller is modelled by what the application hands to it: the
 * lines of the terminal and trace views, the ports registered as opened or
 * closed, the command history shown, the current line ending and the logging
 * button colours. The clock, the trace filters' regular expressions, the
 * results of port writes and of opening the log file, and the file dialogs
 * are inputs.
 */
module MainApplication {
  import opened Common
  import Text
  import opened Serialize
  import opened CommandHistory
  import Port

  const TRACE_MARKER_COLOR: U32 := 0xFF0000
  const GREEN: U32 := 0x00FF00
  const BLACK: U32 := 0x000000

  /** The line endings offered by the combo box, in the order added; the first one is current until another is chosen. */
  const LINE_ENDINGS: seq<string> := ["\\r\\n", "\\n", "EMPTY"]

  // ---------------------------------------------------------------- decimal fields

  lemma {:induction false} ZerosValue(k: nat)
    ensures Text.AllDigits(Text.Zeros(k)) && Text.DecimalValue(Text.Zeros(k)) == 0
  {
    if k > 0 {
      assert Text.Zeros(k)[..k - 1] == Text.Zeros(k - 1);
      ZerosValue(k - 1);
    }
  }

  /** Leading zeros do not change the value of a run of digits. */
  lemma {:induction false} LeadingZeros(k: nat, d: string)
    requires Text.AllDigits(d)
    ensures Text.AllDigits(Text.Zeros(k) + d)
    ensures Text.DecimalValue(Text.Zeros(k) + d) == Text.DecimalValue(d)
    decreases |d|
  {
    var s := Text.Zeros(k) + d;
    assert forall i :: 0 <= i < |s| ==> Text.IsDigit(s[i]) by {
      forall i | 0 <= i < |s| ensures Text.IsDigit(s[i]) {
        if i >= k { assert s[i] == d[i - k]; }
      }
    }
    if d == [] {
      assert s == Text.Zeros(k);
      ZerosValue(k);
    } else {
      var init := d[..|d| - 1];
      assert s[..|s| - 1] == Text.Zeros(k) + init;
      assert Text.AllDigits(init);
      LeadingZeros(k, init);
    }
  }

  /** printf "%.<width>u": the decimal digits, with leading zeros up to width. */
  function Padded(n: nat, width: nat): (r: string)
    ensures |r| >= width && Text.AllDigits(r) && Text.DecimalValue(r) == n
    ensures |Text.NatToDecimal(n)| >= width ==> r == Text.NatToDecimal(n)
  {
    var d := Text.NatToDecimal(n);
    if |d| < width then
      LeadingZeros(width - |d|, d);
      Text.Zeros(width - |d|) + d
    else d
  }

  // ---------------------------------------------------------------- the line stamp and the log file name

  /** The struct tm fields that are printed: tm_mon counts months from 0, tm_year years from 1900. */
  datatype LocalTime = LocalTime(mday: nat, mon: nat, year: nat, hour: nat, min: nat, sec: nat, millis: nat)

  /** "<%u-" of the day of the month: what comes before the month field. */
  function StampHead(t: LocalTime): string
  {
    "<" + Text.NatToDecimal(t.mday) + "-"
  }

  /** "-%u %u:%.2u:%.2u:%.3lu>": what comes after the month field. */
  function StampTail(t: LocalTime): string
  {
    "-" + Text.NatToDecimal(t.year + 1900) + " " + Text.NatToDecimal(t.hour) + ":" + Padded(t.min, 2)
      + ":" + Padded(t.sec, 2) + ":" + Padded(t.millis, 3) + ">"
  }

  function StampWithMonth(t: LocalTime, month: nat): string
  {
    StampHead(t) + Padded(month, 2) + StampTail(t)
  }

  /** addToTerminal's stamp as written: the month field prints tm_mon itself. */
  function StampAsWritten(t: LocalTime): string
  {
    StampWithMonth(t, t.mon)
  }

  /** The stamp with the calendar month, tm_mon + 1. */
  function Stamp(t: LocalTime): string
  {
    StampWithMonth(t, t.mon + 1)
  }

  /** The two characters after the head of a stamp are the month field. */
  function MonthField(t: LocalTime, stamp: string): string
    requires |stamp| >= |StampHead(t)| + 2
  {
    stamp[|StampHead(t)|..|StampHead(t)| + 2]
  }

  lemma MonthFieldOf(t: LocalTime, month: nat)
    requires month < 100
    ensures |StampWithMonth(t, month)| >= |StampHead(t)| + 2
    ensures MonthField(t, StampWithMonth(t, month)) == Padded(month, 2)
  {
    var s := StampWithMonth(t, month);
    assert |Text.NatToDecimal(month)| <= 2 by {
      if month >= 10 {
        assert Text.NatToDecimal(month) == Text.NatToDecimal(month / 10) + [Text.DigitChar(month % 10)];
      }
    }
    assert s == StampHead(t) + (Padded(month, 2) + StampTail(t));
  }

  /** As written, a time in January is stamped with month "00". */
  lemma JanuaryStampedAsMonthZero(t: LocalTime)
    requires t.mon == 0
    ensures |StampAsWritten(t)| >= |StampHead(t)| + 2
    ensures MonthField(t, StampAsWritten(t)) == "00"
  {
    MonthFieldOf(t, 0);
    assert Padded(0, 2) == "00";
  }

  /** The corrected stamp's month field reads back as the calendar month, 1 to 12. */
  lemma StampMonthIsCalendarMonth(t: LocalTime)
    requires t.mon < 12
    ensures |Stamp(t)| >= |StampHead(t)| + 2
    ensures Text.AllDigits(MonthField(t, Stamp(t)))
    ensures Text.DecimalValue(MonthField(t, Stamp(t))) == t.mon + 1
    ensures 1 <= Text.DecimalValue(MonthField(t, Stamp(t))) <= 12
  {
    MonthFieldOf(t, t.mon + 1);
  }

  /** "log_%u%.2u%u_%.2u%.2u%.2u" of day, month, year, hour, minute, second. */
  function LogFileNameWithMonth(t: LocalTime, month: nat): string
  {
    "log_" + Text.NatToDecimal(t.mday) + Padded(month, 2) + Text.NatToDecimal(t.year + 1900)
      + "_" + Padded(t.hour, 2) + Padded(t.min, 2) + Padded(t.sec, 2)
  }

  /** createLogFileName as written: tm_mon is printed as the month. */
  function LogFileNameAsWritten(t: LocalTime): string
  {
    LogFileNameWithMonth(t, t.mon)
  }

  /** createLogFileName with the calendar month. */
  function LogFileName(t: LocalTime): string
  {
    LogFileNameWithMonth(t, t.mon + 1)
  }

  /** As written, a December log file and the next January's log file differ only in their year: months 11 and 00. */
  lemma LogFileMonthsAsWritten(t: LocalTime)
    requires t.mon == 11
    ensures LogFileNameAsWritten(t) == "log_" + Text.NatToDecimal(t.mday) + "11" + Text.NatToDecimal(t.year + 1900)
      + "_" + Padded(t.hour, 2) + Padded(t.min, 2) + Padded(t.sec, 2)
    ensures LogFileNameAsWritten(t.(mon := 0)) == "log_" + Text.NatToDecimal(t.mday) + "00" + Text.NatToDecimal(t.year + 1900)
      + "_" + Padded(t.hour, 2) + Padded(t.min, 2) + Padded(t.sec, 2)
  {
    assert Padded(11, 2) == "11";
    assert Padded(0, 2) == "00";
  }

  /** With the calendar month, December is "12" and January "01". */
  lemma LogFileMonths(t: LocalTime)
    requires t.mon == 11
    ensures LogFileName(t) == "log_" + Text.NatToDecimal(t.mday) + "12" + Text.NatToDecimal(t.year + 1900)
      + "_" + Padded(t.hour, 2) + Padded(t.min, 2) + Padded(t.sec, 2)
    ensures LogFileName(t.(mon := 0)) == "log_" + Text.NatToDecimal(t.mday) + "01" + Text.NatToDecimal(t.year + 1900)
      + "_" + Padded(t.hour, 2) + Padded(t.min, 2) + Padded(t.sec, 2)
  {
    assert Padded(12, 2) == "12";
    assert Padded(1, 2) == "01";
  }

  // ---------------------------------------------------------------- the terminal line

  /** What "%s" of c_str() prints: the text up to its first NUL. */
  function CString(s: string): (r: string)
    ensures |r| <= |s| && r == s[..|r|]
    ensures forall i :: 0 <= i < |r| ==> r[i] != '\0'
    ensures |r| < |s| ==> s[|r|] == '\0'
  {
    if s == [] || s[0] == '\0' then []
    else
      var rest := CString(s[1..]);
      assert ([s[0]] + rest)[1..] == rest;
      [s[0]] + rest
  }

  /** "[%s]<stamp>: %s" of the port name and the data, with the stamp as written. */
  function TerminalLine(portName: string, t: LocalTime, data: string): string
  {
    "[" + CString(portName) + "]" + StampAsWritten(t) + ": " + CString(data)
  }

  /** After "[<name>]" and the head of the stamp, the terminal line carries tm_mon itself as the month. */
  lemma TerminalLineMonth(portName: string, t: LocalTime, data: string)
    requires t.mon < 12
    ensures var head := "[" + CString(portName) + "]" + StampHead(t);
      |TerminalLine(portName, t, data)| >= |head| + 2 &&
      TerminalLine(portName, t, data)[..|head|] == head &&
      TerminalLine(portName, t, data)[|head|..|head| + 2] == Padded(t.mon, 2)
  {
    MonthFieldOf(t, t.mon);
    var name := "[" + CString(portName) + "]";
    var month := Padded(t.mon, 2);
    var tail := StampTail(t);
    var text := ": " + CString(data);
    assert StampAsWritten(t) == StampHead(t) + month + tail;
    FieldAfter(name, StampHead(t), month, tail, text);
  }

  /** In a + b + m + c + d, the part after a + b is m. */
  lemma FieldAfter(a: string, b: string, m: string, c: string, d: string)
    ensures var line := a + (b + m + c) + d;
      |line| >= |a + b| + |m| && line[..|a + b|] == a + b && line[|a + b|..|a + b| + |m|] == m
  {
    var line := a + (b + m + c) + d;
    assert line == (a + b) + (m + (c + d));
  }

  /** The line shown in the views: one trailing newline removed. */
  function Displayed(line: string): (r: string)
    ensures line == r + "\n" || (r == line && (line == [] || line[|line| - 1] != '\n'))
  {
    if line != [] && line[|line| - 1] == '\n' then line[..|line| - 1] else line
  }

  /** "MARKER<n>\n". */
  function MarkerText(n: nat): string
  {
    "MARKER" + Text.NatToDecimal(n) + "\n"
  }

  /** The marker number reads back from between "MARKER" and the newline, so different markers have different text. */
  lemma MarkerNumber(n: nat)
    ensures |MarkerText(n)| > 7 && MarkerText(n)[..6] == "MARKER"
    ensures var digits := MarkerText(n)[6..|MarkerText(n)| - 1];
      Text.AllDigits(digits) && Text.DecimalValue(digits) == n
  {
    assert MarkerText(n)[6..|MarkerText(n)| - 1] == Text.NatToDecimal(n);
  }

  lemma MarkersDiffer(n: nat, m: nat)
    requires n != m
    ensures MarkerText(n) != MarkerText(m)
  {
    MarkerNumber(n);
    MarkerNumber(m);
  }

  /** The text sent: the command with the suffix of the current line ending. */
  function WithEnding(text: string, ending: string): (r: string)
    ensures |r| >= |text| && r[..|text|] == text
    ensures ending == "\\r\\n" ==> r[|text|..] == "\r\n"
    ensures ending == "\\n" ==> r[|text|..] == "\n"
    ensures ending != "\\r\\n" && ending != "\\n" ==> r == text
  {
    if ending == "\\r\\n" then text + "\r\n"
    else if ending == "\\n" then text + "\n"
    else text
  }

  /** Of the endings offered, the first appends CR LF, the second LF and "EMPTY" nothing. */
  lemma OfferedEndings(text: string)
    ensures WithEnding(text, LINE_ENDINGS[0]) == text + "\r\n"
    ensures WithEnding(text, LINE_ENDINGS[1]) == text + "\n"
    ensures WithEnding(text, LINE_ENDINGS[2]) == text
  {
    assert LINE_ENDINGS[2] != "\\r\\n" && LINE_ENDINGS[2] != "\\n";
  }

  // ---------------------------------------------------------------- the views

  /**
   * One line printed by addToTerminal: the port name, the time and the data.
   * Its text is rendered by Full (the file log) and Shown (the views).
   */
  datatype Printed = Printed(port: string, time: LocalTime, data: string)
  {
    function Full(): string
    {
      TerminalLine(port, time, data)
    }

    function Shown(): string
    {
      Displayed(Full())
    }
  }

  /** A line of the terminal or the trace view, with its colours. */
  datatype Line = Line(printed: Printed, background: U32, font: U32)

  /** The terminal view, the trace view and the file log. */
  datatype Screen = Screen(terminal: seq<Line>, trace: seq<Line>, log: seq<Printed>)

  /** Each view shows a printed line without the newline the file log keeps. */
  lemma ShownIsFull(p: Printed)
    ensures p.Shown() == p.Full() || p.Shown() + "\n" == p.Full()
  {
  }

  function CountTrue(s: seq<bool>): (n: nat)
    ensures n <= |s|
  {
    if s == [] then 0 else CountTrue(s[..|s| - 1]) + (if s[|s| - 1] then 1 else 0)
  }

  function Copies(x: Line, n: nat): (r: seq<Line>)
    ensures |r| == n && forall i :: 0 <= i < n ==> r[i] == x
  {
    seq(n, i => x)
  }

  /** A view that holds maxTerminalTraces lines or more is cleared before a line is added. */
  function Room(view: seq<Line>, max: nat): seq<Line>
  {
    if |view| >= max then [] else view
  }

  /**
   * addToTerminal on the views: the line goes to the file log, to the
   * terminal view and, once per matching trace filter, to the trace view.
   */
  function Show(s: Screen, p: Printed, bg: U32, font: U32, matches: seq<bool>, max: nat): Screen
  {
    var line := Line(p, bg, font);
    Screen(Room(s.terminal, max) + [line], Room(s.trace, max) + Copies(line, CountTrue(matches)), s.log + [p])
  }

  /** A terminal view kept within max lines (at least one) stays within it. */
  function Limit(max: nat): nat
  {
    if max == 0 then 1 else max
  }

  /**
   * The terminal view stays within its limit and ends with the new line, the
   * file log gains it, and the trace view gains one copy per matching filter.
   */
  lemma ShowBounds(s: Screen, p: Printed, bg: U32, font: U32, matches: seq<bool>, max: nat)
    requires |s.terminal| <= Limit(max)
    ensures var r := Show(s, p, bg, font, matches, max);
      |r.terminal| <= Limit(max)
      && r.terminal[|r.terminal| - 1] == Line(p, bg, font)
      && r.log == s.log + [p]
      && |r.trace| == (if |s.trace| >= max then 0 else |s.trace|) + CountTrue(matches)
      && (forall i :: |r.trace| - CountTrue(matches) <= i < |r.trace| ==> r.trace[i] == Line(p, bg, font))
  {
  }

  /** Without a matching filter the trace view only loses lines, when it was full. */
  lemma NoMatchNoTrace(s: Screen, p: Printed, bg: U32, font: U32, matches: seq<bool>, max: nat)
    requires forall i :: 0 <= i < |matches| ==> !matches[i]
    ensures Show(s, p, bg, font, matches, max).trace == Room(s.trace, max)
  {
    NoneTrue(matches);
  }

  lemma {:induction false} NoneTrue(s: seq<bool>)
    requires forall i :: 0 <= i < |s| ==> !s[i]
    ensures CountTrue(s) == 0
  {
    if s != [] {
      NoneTrue(s[..|s| - 1]);
    }
  }

  // ---------------------------------------------------------------- the port map

  /** The first id, from k on, that names the port, or 0 when there is none. */
  function IdFrom(names: map<Byte, string>, name: string, k: nat): (id: Byte)
    requires k <= 0x100
    decreases 0x100 - k
  {
    if k == 0x100 then 0
    else
      var b: Byte := k;
      if b in names && names[b] == name then b else IdFrom(names, name, k + 1)
  }

  /** portNameToId: the first id in ascending order whose name matches, else 0. */
  function IdOf(names: map<Byte, string>, name: string): Byte
  {
    IdFrom(names, name, 0)
  }

  lemma {:induction false} IdFromFirst(names: map<Byte, string>, name: string, k: nat)
    requires k <= 0x100
    ensures (exists b: Byte :: k <= b && b in names && names[b] == name) ==>
      var id := IdFrom(names, name, k);
      k <= id && id in names && names[id] == name
      && forall b: Byte :: k <= b < id && b in names ==> names[b] != name
    ensures (forall b: Byte :: k <= b && b in names ==> names[b] != name) ==> IdFrom(names, name, k) == 0
    decreases 0x100 - k
  {
    if k < 0x100 {
      var b: Byte := k;
      if !(b in names && names[b] == name) {
        IdFromFirst(names, name, k + 1);
        assert forall c: Byte :: k <= c && c in names && names[c] == name ==> k + 1 <= c;
      }
    }
  }

  /** The id found names the port and no smaller id does; with no id naming it the result is 0. */
  lemma IdOfIsFirst(names: map<Byte, string>, name: string)
    ensures (exists b: Byte :: b in names && names[b] == name) ==>
      var id := IdOf(names, name);
      id in names && names[id] == name && forall b: Byte :: b < id && b in names ==> names[b] != name
    ensures (forall b: Byte :: b in names ==> names[b] != name) ==> IdOf(names, name) == 0
  {
    IdFromFirst(names, name, 0);
  }

  /** After CONNECTED, a name that no other port has is found under the id that connected. */
  lemma ConnectedPortFound(names: map<Byte, string>, id: Byte, name: string)
    requires forall b: Byte :: b in names && b != id ==> names[b] != name
    ensures IdOf(names[id := name], name) == id
  {
    var after := names[id := name];
    assert id in after && after[id] == name;
    IdOfIsFirst(after, name);
  }

  /** After DISCONNECTED, a non-empty name that no other port has is no longer found. */
  lemma DisconnectedPortForgotten(names: map<Byte, string>, id: Byte, name: string)
    requires name != [] && forall b: Byte :: b in names && b != id ==> names[b] != name
    ensures IdOf(names[id := []], name) == 0
  {
    IdOfIsFirst(names[id := []], name);
  }

  // ---------------------------------------------------------------- the command history

  function Commands(h: History, id: Byte): seq<string>
  {
    if id in h then h[id] else []
  }

  /** The port's history after addToCommandHistory of non-empty text. */
  function Added(h: History, id: Byte, text: string, max: nat): seq<string>
    requires max >= 1
  {
    var commands := Commands(h, id) + [text];
    KeepNewest(commands, max)
  }

  /** The added command is the newest, the older ones are the newest max - 2 from before, and fewer than max remain. */
  lemma AddedNewest(h: History, id: Byte, text: string, max: nat)
    requires max >= 2
    ensures 1 <= |Added(h, id, text, max)| < max
    ensures var r := Added(h, id, text, max);
      r[|r| - 1] == text && r[..|r| - 1] == KeepNewest(Commands(h, id), max - 1)
  {
    AddKeepsNewest(Commands(h, id), text, max);
  }

  /** With a limit of one, the while loop erases the command it just added. */
  lemma AddedWithLimitOne(h: History, id: Byte, text: string)
    ensures Added(h, id, text, 1) == []
  {
  }

  // ---------------------------------------------------------------- the state

  datatype Registration = Opened(name: string) | Closed(name: string)

  /** The button colours that setButtonState paints. */
  datatype Colors = Colors(background: U32, font: U32)

  function ButtonColors(active: bool, defaultBackground: U32, defaultFont: U32): (c: Colors)
  {
    if active then Colors(GREEN, BLACK) else Colors(defaultBackground, defaultFont)
  }

  /** One PortHandler's answer to a send: whether its write succeeded, the clock and the filters' verdicts on the line it caused. */
  datatype Reply = Reply(written: bool, time: LocalTime, matches: seq<bool>)

  /** The file the logger was asked to open: createLogFileName's name in the logging directory. */
  datatype LogFile = LogFile(directory: string, time: LocalTime)
  {
    function Path(): string
    {
      directory + "/" + LogFileNameAsWritten(time)
    }
  }

  /** The message box shown when the log file cannot be opened, with strerror and errno as the reason. */
  datatype LogFailure = CannotCreateLogfile(directory: string, reason: string)
  {
    function Message(): string
    {
      "Cannot create logfile @ " + directory + "\n" + reason
    }
  }

  /** Every field of the application, as a value. */
  datatype AppState = AppState(
    markerIndex: nat,
    scrollingActive: bool,
    traceScrollingActive: bool,
    fileLoggingPath: string,
    currentPortName: string,
    portNames: map<Byte, string>,
    history: History,
    screen: Screen,
    lineEnding: string,
    shownHistory: seq<string>,
    registered: seq<Registration>,
    sent: seq<string>,
    loggingActive: bool,
    logFile: Option<LogFile>,
    loggingButton: Colors,
    errors: seq<LogFailure>)

  /** The part of the state that sending changes: the views, the history, the history shown and the writes. */
  datatype Outputs = Outputs(screen: Screen, history: History, shownHistory: seq<string>, sent: seq<string>)

  /** addToTerminal on the outputs. */
  function Print(o: Outputs, portName: string, data: string, bg: U32, font: U32, t: LocalTime, matches: seq<bool>, maxTraces: nat): Outputs
  {
    o.(screen := Show(o.screen, Printed(portName, t, data), bg, font, matches, maxTraces))
  }

  /** addToCommandHistory on the outputs. */
  function Remember(o: Outputs, id: Byte, text: string, maxHistory: nat): Outputs
    requires maxHistory >= 1
  {
    if text == [] then o
    else
      var h := Added(o.history, id, text, maxHistory);
      o.(history := o.history[id := h], shownHistory := h)
  }

  /** The error line of a failed write. */
  function SendError(portName: string): string
  {
    "Cannot send data to port " + portName + "\n"
  }

  /** What sendToPort works with: the current port, its id, the command, the line ending and the colours. */
  datatype Request = Request(port: string, id: Byte, text: string, ending: string, bg: U32, font: U32)

  /** sendToPort's step for one PortHandler. */
  function SendStep(o: Outputs, q: Request, handler: string, reply: Reply, maxTraces: nat, maxHistory: nat): Outputs
    requires maxHistory >= 1
  {
    if handler != q.port then o
    else
      var data := WithEnding(q.text, q.ending);
      var o1 := o.(sent := o.sent + [data]);
      if reply.written then
        Remember(Print(o1, q.port, data, q.bg, q.font, reply.time, reply.matches, maxTraces), q.id, q.text, maxHistory)
      else
        Print(o1, q.port, SendError(q.port), q.bg, q.font, reply.time, reply.matches, maxTraces)
  }

  /** sendToPort's loop over the first k PortHandlers. */
  function SendAll(o: Outputs, q: Request, handlers: seq<string>, replies: seq<Reply>, maxTraces: nat, maxHistory: nat, k: nat): Outputs
    requires maxHistory >= 1 && k <= |handlers| == |replies|
  {
    if k == 0 then o
    else SendStep(SendAll(o, q, handlers, replies, maxTraces, maxHistory, k - 1), q, handlers[k - 1], replies[k - 1], maxTraces, maxHistory)
  }

  /**
   * A write to the current port adds the stamped data to the terminal view
   * when it succeeds and the stamped error line when it fails.
   */
  lemma SendStepShows(o: Outputs, q: Request, reply: Reply, maxTraces: nat, maxHistory: nat)
    requires maxHistory >= 1
    ensures var r := SendStep(o, q, q.port, reply, maxTraces, maxHistory);
      var shown := if reply.written then WithEnding(q.text, q.ending) else SendError(q.port);
      |r.screen.terminal| > 0
      && r.screen.terminal[|r.screen.terminal| - 1] == Line(Printed(q.port, reply.time, shown), q.bg, q.font)
      && r.screen.log == o.screen.log + [Printed(q.port, reply.time, shown)]
      && r.sent == o.sent + [WithEnding(q.text, q.ending)]
      && (reply.written ==> r == Remember(o.(screen := r.screen, sent := r.sent), q.id, q.text, maxHistory))
      && (!reply.written ==> r.history == o.history && r.shownHistory == o.shownHistory)
  {
    var data := WithEnding(q.text, q.ending);
    var shown := if reply.written then data else SendError(q.port);
    var printed := Print(o.(sent := o.sent + [data]), q.port, shown, q.bg, q.font, reply.time, reply.matches, maxTraces);
    assert printed == o.(screen := printed.screen, sent := o.sent + [data]);
    assert printed.screen.terminal == Room(o.screen.terminal, maxTraces) + [Line(Printed(q.port, reply.time, shown), q.bg, q.font)];
    assert SendStep(o, q, q.port, reply, maxTraces, maxHistory) == if reply.written then Remember(printed, q.id, q.text, maxHistory) else printed;
  }

  /** With no PortHandler of the current port's name, sending changes nothing. */
  lemma {:induction false} SendToNoPort(o: Outputs, q: Request, handlers: seq<string>, replies: seq<Reply>, maxTraces: nat, maxHistory: nat, k: nat)
    requires maxHistory >= 1 && k <= |handlers| == |replies|
    requires forall i :: 0 <= i < |handlers| ==> handlers[i] != q.port
    ensures SendAll(o, q, handlers, replies, maxTraces, maxHistory, k) == o
  {
    if k > 0 {
      SendToNoPort(o, q, handlers, replies, maxTraces, maxHistory, k - 1);
    }
  }

  /** The number of names equal to name. */
  function Matching(names: seq<string>, name: string): (n: nat)
    ensures n <= |names|
  {
    if names == [] then 0 else Matching(names[..|names| - 1], name) + (if names[|names| - 1] == name then 1 else 0)
  }

  /**
   * Every PortHandler of the current port's name is written the command with
   * the line ending, once each, whether the write succeeds or not.
   */
  lemma {:induction false} SendWrites(o: Outputs, q: Request, handlers: seq<string>, replies: seq<Reply>, maxTraces: nat, maxHistory: nat, k: nat)
    requires maxHistory >= 1 && k <= |handlers| == |replies|
    ensures var r := SendAll(o, q, handlers, replies, maxTraces, maxHistory, k);
      |r.sent| == |o.sent| + Matching(handlers[..k], q.port)
      && r.sent[..|o.sent|] == o.sent
      && forall i :: |o.sent| <= i < |r.sent| ==> r.sent[i] == WithEnding(q.text, q.ending)
  {
    if k > 0 {
      var before := SendAll(o, q, handlers, replies, maxTraces, maxHistory, k - 1);
      SendWrites(o, q, handlers, replies, maxTraces, maxHistory, k - 1);
      SendStepSent(before, q, handlers[k - 1], replies[k - 1], maxTraces, maxHistory);
      assert handlers[..k][..k - 1] == handlers[..k - 1];
    }
  }

  lemma SendStepSent(o: Outputs, q: Request, handler: string, reply: Reply, maxTraces: nat, maxHistory: nat)
    requires maxHistory >= 1
    ensures SendStep(o, q, handler, reply, maxTraces, maxHistory).sent
      == if handler == q.port then o.sent + [WithEnding(q.text, q.ending)] else o.sent
  {
  }

  /**
   * When the last PortHandler of the current port's name took the write, a
   * non-empty command is the newest entry of that port's history and is shown.
   */
  lemma {:induction false} SendRecordsCommand(o: Outputs, q: Request, handlers: seq<string>, replies: seq<Reply>, maxTraces: nat, maxHistory: nat, j: nat, k: nat)
    requires maxHistory >= 2 && j < k <= |handlers| == |replies|
    requires handlers[j] == q.port && replies[j].written && q.text != []
    requires forall i :: j < i < |handlers| ==> handlers[i] != q.port
    ensures var r := SendAll(o, q, handlers, replies, maxTraces, maxHistory, k);
      q.id in r.history && r.shownHistory == r.history[q.id]
      && |r.shownHistory| > 0 && r.shownHistory[|r.shownHistory| - 1] == q.text
    decreases k
  {
    if k - 1 > j {
      SendRecordsCommand(o, q, handlers, replies, maxTraces, maxHistory, j, k - 1);
    } else {
      var before := SendAll(o, q, handlers, replies, maxTraces, maxHistory, j);
      AddedNewest(before.history, q.id, q.text, maxHistory);
    }
  }

  // ---------------------------------------------------------------- the persistence image

  /** What onPersistenceWrite saves before the command history. */
  datatype Settings = Settings(version: string, path: string, scrolling: bool, traceScrolling: bool, lineEnding: string)

  /** The settings as the items serialized, in order: version, logging path, the two scrolling flags, line ending. */
  function SettingsItems(st: Settings): seq<Item>
  {
    [StrItem(st.version), StrItem(st.path), BoolItem(st.scrolling), BoolItem(st.traceScrolling), StrItem(st.lineEnding)]
  }

  /** The kinds of item onPersistenceRead deserializes before the history. */
  const SETTINGS_KINDS: seq<Item> := [StrItem(""), StrItem(""), BoolItem(false), BoolItem(false), StrItem("")]

  predicate SettingsStorable(st: Settings)
  {
    IsByteString(st.version) && |st.version| < TWO_32
    && IsByteString(st.path) && |st.path| < TWO_32
    && IsByteString(st.lineEnding) && |st.lineEnding| < TWO_32
  }

  function EncodeSettings(st: Settings): seq<Byte>
  {
    EncodeMany(Encode, SettingsItems(st))
  }

  /** The whole persistence block of the main window. */
  function EncodeImage(st: Settings, m: History): seq<Byte>
  {
    EncodeSettings(st) + EncodeHistory(m)
  }

  /** The settings of items of the settings' kinds. */
  function SettingsOf(items: seq<Item>): Settings
    requires OfKinds(items, SETTINGS_KINDS)
  {
    Settings(items[0].s, items[1].s, items[2].b, items[3].b, items[4].s)
  }

  /** onPersistenceRead's reads before the history, from the start of the block. */
  function ReadSettings(data: seq<Byte>): Option<Decoded<Settings>>
  {
    match ReadItems(data, 0, SETTINGS_KINDS)
    case None => None
    case Some(d) => Some(Decoded(SettingsOf(d.value), d.next))
  }

  datatype Image = Image(settings: Settings, entries: seq<Entry>)

  /** What onPersistenceRead reads: the settings, then the saved history entries. */
  function ReadImage(data: seq<Byte>): Option<Image>
  {
    match ReadSettings(data)
    case None => None
    case Some(st) =>
      match ReadHistory(data, st.next)
      case None => None
      case Some(entries) => Some(Image(st.value, entries.value))
  }

  /** The saved settings read back from the start of any block that begins with them. */
  lemma SettingsRoundTrip(data: seq<Byte>, st: Settings, rest: seq<Byte>)
    requires SettingsStorable(st)
    requires data == EncodeSettings(st) + rest
    ensures ReadSettings(data) == Some(Decoded(st, |EncodeSettings(st)|))
  {
    var items := SettingsItems(st);
    assert OfKinds(items, SETTINGS_KINDS);
    assert data == [] + EncodeMany(Encode, items) + rest;
    ItemsRoundTrip(data, [], items, SETTINGS_KINDS, rest, |EncodeSettings(st)|);
  }

  /**
   * onPersistenceRead reads back what onPersistenceWrite saved: the settings
   * and the history entries in ascending id order.
   */
  lemma ImageRoundTrip(st: Settings, m: History)
    requires SettingsStorable(st) && AllStorable(m) && |m| < 0x100
    ensures ReadImage(EncodeImage(st, m)) == Some(Image(st, EntriesOf(m, SortedKeys(m))))
  {
    var data := EncodeImage(st, m);
    SettingsRoundTrip(data, st, EncodeHistory(m));
    assert data == EncodeSettings(st) + EncodeHistory(m) + [];
    HistoryRoundTrip(data, EncodeSettings(st), m, [], |data|);
  }

  /**
   * Saving and restoring puts every saved port id up to PORT_HANDLERS_COUNT
   * over the history there was, and drops the other ids.
   */
  lemma SaveThenRestore(st: Settings, m: History, h: History)
    requires SettingsStorable(st) && AllStorable(m) && |m| < 0x100
    ensures ReadImage(EncodeImage(st, m)).Some?
    ensures Restore(h, ReadImage(EncodeImage(st, m)).value.entries) == h + RestorableFrom(m, 0)
  {
    ImageRoundTrip(st, m);
    RestoreSaved(h, m);
  }

  /** The five serialize calls of onPersistenceWrite before the history. */
  method WriteSettings(data: seq<Byte>, st: Settings) returns (out: seq<Byte>)
    ensures out == data + EncodeSettings(st)
  {
    out := Serialize.Serialize(data, StrItem(st.version));
    out := Serialize.Serialize(out, StrItem(st.path));
    out := Serialize.Serialize(out, BoolItem(st.scrolling));
    out := Serialize.Serialize(out, BoolItem(st.traceScrolling));
    out := Serialize.Serialize(out, StrItem(st.lineEnding));
    SettingsBytes(st);
  }

  lemma SettingsBytes(st: Settings)
    ensures EncodeSettings(st) == Encode(StrItem(st.version)) + Encode(StrItem(st.path)) + Encode(BoolItem(st.scrolling))
      + Encode(BoolItem(st.traceScrolling)) + Encode(StrItem(st.lineEnding))
  {
    var x0 := SettingsItems(st);
    var x1, x2, x3, x4 := x0[1..], x0[2..], x0[3..], x0[4..];
    assert x1[1..] == x2 && x2[1..] == x3 && x3[1..] == x4 && x4[1..] == [];
    var e4 := EncodeMany(Encode, x4);
    assert x4 == [StrItem(st.lineEnding)] && EncodeMany(Encode, x4[1..]) == [];
    assert e4 == Encode(StrItem(st.lineEnding)) + [];
    var e3 := EncodeMany(Encode, x3);
    assert e3 == Encode(BoolItem(st.traceScrolling)) + e4;
    var e2 := EncodeMany(Encode, x2);
    assert e2 == Encode(BoolItem(st.scrolling)) + e3;
    var e1 := EncodeMany(Encode, x1);
    assert e1 == Encode(StrItem(st.path)) + e2;
    assert EncodeSettings(st) == Encode(StrItem(st.version)) + e1;
  }

  /** The five deserialize calls of onPersistenceRead before the history. */
  method ReadSettingsAt(data: seq<Byte>) returns (st: Settings, next: nat)
    requires ReadSettings(data).Some?
    ensures ReadSettings(data) == Some(Decoded(st, next))
  {
    var k1 := SETTINGS_KINDS[1..];
    var k2 := k1[1..];
    var k3 := k2[1..];
    var k4 := k3[1..];
    ReadItemsNext(data, 0, SETTINGS_KINDS);
    var version, n1 := Deserialize(data, 0, StrItem(""));
    ReadItemsNext(data, n1, k1);
    var path, n2 := Deserialize(data, n1, StrItem(""));
    ReadItemsNext(data, n2, k2);
    var scrolling, n3 := Deserialize(data, n2, BoolItem(false));
    ReadItemsNext(data, n3, k3);
    var traceScrolling, n4 := Deserialize(data, n3, BoolItem(false));
    ReadItemsNext(data, n4, k4);
    var ending, n5 := Deserialize(data, n4, StrItem(""));
    assert k4[1..] == [];
    next := n5;
    st := Settings(version.s, path.s, scrolling.b, traceScrolling.b, ending.s);
    assert ReadItems(data, 0, SETTINGS_KINDS).value.value == [version, path, scrolling, traceScrolling, ending];
  }

  lemma ImageOf(data: seq<Byte>, st: Settings, after: nat, entries: seq<Entry>, next: nat)
    requires ReadSettings(data) == Some(Decoded(st, after))
    requires ReadHistory(data, after) == Some(Decoded(entries, next))
    ensures ReadImage(data) == Some(Image(st, entries))
  {
  }

  /** onPersistenceRead's reads: the settings, then the history entries. */
  method ReadImageAt(data: seq<Byte>) returns (image: Image)
    requires ReadImage(data).Some?
    ensures ReadImage(data) == Some(image)
  {
    var st, after := ReadSettingsAt(data);
    var entries, next := ReadHistoryAt(data, after);
    ImageOf(data, st, after, entries, next);
    image := Image(st, entries);
  }

  /** setCurrentLineEnding selects the combo box entry with that text; text that is not offered leaves the selection. */
  function SelectEnding(current: string, ending: string): (r: string)
    ensures r == ending || r == current
    ensures ending in LINE_ENDINGS ==> r == ending
  {
    if ending in LINE_ENDINGS then ending else current
  }

  // ---------------------------------------------------------------- the application

  class App {
    /** MainApplication_maxTerminalTraces. */
    const maxTraces: nat
    /** MAX_COMMANDS_HISTORY_ITEMS. */
    const maxHistory: nat

    var markerIndex: nat
    var scrollingActive: bool
    var traceScrollingActive: bool
    var fileLoggingPath: string
    var currentPortName: string
    var portNames: map<Byte, string>
    var history: History

    // what the GUI controller, the file logger and the port handlers were given
    var screen: Screen
    var lineEnding: string
    var shownHistory: seq<string>
    var registered: seq<Registration>
    var sent: seq<string>
    var loggingActive: bool
    var logFile: Option<LogFile>
    var loggingButton: Colors
    var errors: seq<LogFailure>

    function State(): AppState
      reads this
    {
      AppState(markerIndex, scrollingActive, traceScrollingActive, fileLoggingPath, currentPortName, portNames,
        history, screen, lineEnding, shownHistory, registered, sent, loggingActive, logFile, loggingButton, errors)
    }

    function Out(): Outputs
      reads this
    {
      Outputs(screen, history, shownHistory, sent)
    }

    /** The history limit lets a command stay, and the terminal view never holds more than maxTerminalTraces lines (at least one). */
    predicate Valid()
      reads this
    {
      maxHistory >= 1 && |screen.terminal| <= Limit(maxTraces)
    }

    /**
     * Scrolling on in both views, the logging button in its default colours,
     * the three line endings offered and the file logging path set to the
     * executable's directory. Restoring the persistence block is the separate
     * step OnPersistenceRead.
     */
    constructor(maxTraces: nat, maxHistory: nat, executablePath: string, defaultBackground: U32, defaultFont: U32)
      requires maxHistory >= 1
      ensures Valid()
      ensures this.maxTraces == maxTraces && this.maxHistory == maxHistory
      ensures State() == AppState(0, true, true, executablePath, [], map[], map[], Screen([], [], []), LINE_ENDINGS[0],
        [], [], [], false, None, Colors(defaultBackground, defaultFont), [])
    {
      this.maxTraces := maxTraces;
      this.maxHistory := maxHistory;
      markerIndex := 0;
      scrollingActive := true;
      traceScrollingActive := true;
      loggingActive := false;
      loggingButton := ButtonColors(false, defaultBackground, defaultFont);
      lineEnding := LINE_ENDINGS[0];
      fileLoggingPath := executablePath;
      currentPortName := [];
      portNames := map[];
      history := map[];
      screen := Screen([], [], []);
      shownHistory := [];
      registered := [];
      sent := [];
      logFile := None;
      errors := [];
    }

    /** portNameToId: the port map searched in ascending id order. */
    method PortNameToId(name: string) returns (id: Byte)
      ensures id == IdOf(portNames, name)
    {
      var k: nat := 0;
      while k < 0x100
        invariant k <= 0x100
        invariant IdFrom(portNames, name, k) == IdOf(portNames, name)
        decreases 0x100 - k
      {
        var b: Byte := k;
        if b in portNames && portNames[b] == name {
          return b;
        }
        k := k + 1;
      }
      id := 0;
    }

    /** addToCommandHistory: empty text is ignored; otherwise it is appended and the oldest commands dropped while maxHistory or more remain. */
    method AddToCommandHistory(id: Byte, text: string)
      requires Valid()
      modifies this
      ensures Valid()
      ensures Out() == Remember(old(Out()), id, text, maxHistory)
      ensures State() == old(State()).(history := history, shownHistory := shownHistory)
    {
      if text != [] {
        var commands := if id in history then history[id] else [];
        commands := TrimHistory(commands + [text], maxHistory);
        history := history[id := commands];
        shownHistory := commands;
      }
    }

    /**
     * addToTerminal: the stamped line goes to the file log; without its
     * trailing newline it goes to the terminal view and, once per matching
     * filter, to the trace view, each view cleared first when full.
     */
    method AddToTerminal(portName: string, data: string, bg: U32, font: U32, t: LocalTime, matches: seq<bool>)
      requires Valid()
      modifies this
      ensures Valid()
      ensures State() == old(State()).(screen := Show(old(screen), Printed(portName, t, data), bg, font, matches, maxTraces))
    {
      var printed := Printed(portName, t, data);
      var shown := Line(printed, bg, font);
      var terminal := screen.terminal;
      if |terminal| >= maxTraces {
        terminal := [];
      }
      var trace := screen.trace;
      if |trace| >= maxTraces {
        trace := [];
      }
      terminal := terminal + [shown];
      ghost var base := trace;
      var i := 0;
      while i < |matches|
        invariant i <= |matches|
        invariant trace == base + Copies(shown, CountTrue(matches[..i]))
      {
        assert matches[..i + 1][..i] == matches[..i];
        if matches[i] {
          trace := trace + [shown];
        }
        i := i + 1;
      }
      assert matches[..|matches|] == matches;
      screen := Screen(terminal, trace, screen.log + [printed]);
    }

    /** The marker counter goes up first; its "MARKER<n>\n" line is printed in the marker colour. */
    method OnMarkerButtonClicked(textColor: U32, t: LocalTime, matches: seq<bool>)
      requires Valid()
      modifies this
      ensures Valid()
      ensures State() == old(State()).(
        markerIndex := old(markerIndex) + 1,
        screen := Show(old(screen), Printed("MARKER", t, MarkerText(old(markerIndex) + 1)), TRACE_MARKER_COLOR, textColor, matches, maxTraces))
    {
      markerIndex := markerIndex + 1;
      AddToTerminal("MARKER", MarkerText(markerIndex), TRACE_MARKER_COLOR, textColor, t, matches);
    }

    method OnScrollButtonClicked()
      modifies this
      ensures State() == old(State()).(scrollingActive := !old(scrollingActive))
    {
      scrollingActive := !scrollingActive;
    }

    method OnTraceScrollButtonClicked()
      modifies this
      ensures State() == old(State()).(traceScrollingActive := !old(traceScrollingActive))
    {
      traceScrollingActive := !traceScrollingActive;
    }

    method OnTraceClearButtonClicked()
      modifies this
      ensures State() == old(State()).(screen := old(screen).(trace := []))
    {
      screen := screen.(trace := []);
    }

    method OnClearButtonClicked()
      requires Valid()
      modifies this
      ensures Valid()
      ensures State() == old(State()).(screen := old(screen).(terminal := []))
    {
      screen := screen.(terminal := []);
    }

    /**
     * onPortHandlerEvent: data is printed with the port's colours; CONNECTED
     * maps the id to the name and registers the port as opened; DISCONNECTED
     * registers it as closed and maps the id to the empty name.
     */
    method OnPortHandlerEvent(event: Port.PortEvent, t: LocalTime, matches: seq<bool>)
      requires Valid()
      modifies this
      ensures Valid()
      ensures State() == match event.event
        case NewData => old(State()).(screen := Show(old(screen), Printed(event.name, t, BytesToString(event.data)),
          event.backgroundColor, event.fontColor, matches, maxTraces))
        case PortConnected => old(State()).(portNames := old(portNames)[event.portId := event.name], registered := old(registered) + [Opened(event.name)])
        case PortDisconnected => old(State()).(portNames := old(portNames)[event.portId := []], registered := old(registered) + [Closed(event.name)])
        case PortConnecting => old(State())
    {
      match event.event {
        case NewData =>
          AddToTerminal(event.name, BytesToString(event.data), event.backgroundColor, event.fontColor, t, matches);
        case PortConnected =>
          portNames := portNames[event.portId := event.name];
          registered := registered + [Opened(event.name)];
        case PortDisconnected =>
          registered := registered + [Closed(event.name)];
          portNames := portNames[event.portId := []];
        case PortConnecting =>
      }
    }

    /** The history of the selected port (created empty when missing) is shown and the port becomes current. */
    method OnCurrentPortSelectionChanged(name: string)
      modifies this
      ensures var id := IdOf(old(portNames), name);
        State() == old(State()).(
          history := if id in old(history) then old(history) else old(history)[id := []],
          shownHistory := Commands(old(history), id),
          currentPortName := name)
    {
      var id := PortNameToId(name);
      if id !in history {
        history := history[id := []];
      }
      shownHistory := history[id];
      currentPortName := name;
    }

    /**
     * sendToPort: the command with the line ending is written to every
     * PortHandler named like the current port; a successful write prints the
     * data and records the command in the history, a failed one prints an
     * error line. The result tells whether any write succeeded.
     */
    method SendToPort(text: string, handlers: seq<string>, replies: seq<Reply>, bg: U32, font: U32) returns (result: bool)
      requires Valid() && |handlers| == |replies|
      modifies this
      ensures Valid()
      ensures result <==> exists i :: 0 <= i < |handlers| && handlers[i] == old(currentPortName) && replies[i].written
      ensures Out() == SendAll(old(Out()), Request(old(currentPortName), IdOf(old(portNames), old(currentPortName)), text, old(lineEnding), bg, font),
        handlers, replies, maxTraces, maxHistory, |handlers|)
      ensures State() == old(State()).(screen := screen, history := history, shownHistory := shownHistory, sent := sent)
    {
      result := false;
      var id := PortNameToId(currentPortName);
      var data := WithEnding(text, lineEnding);
      ghost var q := Request(currentPortName, id, text, lineEnding, bg, font);
      ghost var start := Out();
      var i := 0;
      while i < |handlers|
        invariant i <= |handlers| && Valid()
        invariant Out() == SendAll(start, q, handlers, replies, maxTraces, maxHistory, i)
        invariant State() == old(State()).(screen := screen, history := history, shownHistory := shownHistory, sent := sent)
        invariant result <==> exists j :: 0 <= j < i && handlers[j] == currentPortName && replies[j].written
      {
        var written := SendOne(id, text, data, handlers[i], replies[i], bg, font);
        result := result || written;
        i := i + 1;
      }
    }

    /** sendToPort's loop body for one PortHandler; the result tells whether it took the write. */
    method SendOne(id: Byte, text: string, data: string, handler: string, reply: Reply, bg: U32, font: U32) returns (written: bool)
      requires Valid() && data == WithEnding(text, lineEnding)
      modifies this
      ensures Valid()
      ensures written <==> handler == old(currentPortName) && reply.written
      ensures Out() == SendStep(old(Out()), Request(old(currentPortName), id, text, old(lineEnding), bg, font), handler, reply, maxTraces, maxHistory)
      ensures State() == old(State()).(screen := screen, history := history, shownHistory := shownHistory, sent := sent)
    {
      written := false;
      if handler == currentPortName {
        sent := sent + [data];
        if reply.written {
          written := true;
          AddToTerminal(currentPortName, data, bg, font, reply.time, reply.matches);
          AddToCommandHistory(id, text);
        } else {
          AddToTerminal(currentPortName, SendError(currentPortName), bg, font, reply.time, reply.matches);
        }
      }
    }

    /** The send button sends the command typed in the GUI and ignores the result. */
    method OnSendButtonClicked(command: string, handlers: seq<string>, replies: seq<Reply>, bg: U32, font: U32)
      requires Valid() && |handlers| == |replies|
      modifies this
      ensures Valid()
      ensures Out() == SendAll(old(Out()), Request(old(currentPortName), IdOf(old(portNames), old(currentPortName)), command, old(lineEnding), bg, font),
        handlers, replies, maxTraces, maxHistory, |handlers|)
      ensures State() == old(State()).(screen := screen, history := history, shownHistory := shownHistory, sent := sent)
    {
      var _ := SendToPort(command, handlers, replies, bg, font);
    }

    /**
     * The logging button starts file logging in a new file named after the
     * time in the logging directory, painting the button green when the file
     * opens and showing an error otherwise; pressed while logging, it stops.
     */
    method OnLoggingButtonClicked(t: LocalTime, fileOpened: bool, reason: string, defaultBackground: U32, defaultFont: U32)
      modifies this
      ensures !old(loggingActive) ==> State() == old(State()).(
        logFile := Some(LogFile(old(fileLoggingPath), t)),
        loggingActive := fileOpened,
        loggingButton := if fileOpened then Colors(GREEN, BLACK) else old(loggingButton),
        errors := if fileOpened then old(errors) else old(errors) + [CannotCreateLogfile(old(fileLoggingPath), reason)])
      ensures old(loggingActive) ==> State() == old(State()).(loggingActive := false, loggingButton := Colors(defaultBackground, defaultFont))
    {
      if !loggingActive {
        logFile := Some(LogFile(fileLoggingPath, t));
        if fileOpened {
          loggingActive := true;
          loggingButton := ButtonColors(true, defaultBackground, defaultFont);
        } else {
          errors := errors + [CannotCreateLogfile(fileLoggingPath, reason)];
        }
      } else {
        loggingActive := false;
        loggingButton := ButtonColors(false, defaultBackground, defaultFont);
      }
    }

    /**
     * onPersistenceWrite: the version, the logging path, both scrolling
     * flags, the current line ending and the history with its (uint8_t)
     * entry count, appended to the block.
     */
    method OnPersistenceWrite(data: seq<Byte>, version: string) returns (out: seq<Byte>)
      ensures out == data + EncodeImage(Settings(version, fileLoggingPath, scrollingActive, traceScrollingActive, lineEnding), history)
    {
      var st := Settings(version, fileLoggingPath, scrollingActive, traceScrollingActive, lineEnding);
      out := WriteSettings(data, st);
      out := WriteHistory(out, history);
      Associative(data, EncodeSettings(st), EncodeHistory(history));
    }

    /**
     * onPersistenceRead: the logging path and the scrolling flags are
     * restored, the saved line ending is selected, and every saved port id up
     * to PORT_HANDLERS_COUNT gets its saved commands; the version is only
     * logged.
     */
    method OnPersistenceRead(data: seq<Byte>)
      requires ReadImage(data).Some?
      modifies this
      ensures var image := ReadImage(data).value;
        State() == old(State()).(
          fileLoggingPath := image.settings.path,
          scrollingActive := image.settings.scrolling,
          traceScrollingActive := image.settings.traceScrolling,
          lineEnding := SelectEnding(old(lineEnding), image.settings.lineEnding),
          history := Restore(old(history), image.entries))
    {
      var image := ReadImageAt(data);
      Restored(image);
    }

    /** What onPersistenceRead does with the image it has read. */
    method Restored(image: Image)
      modifies this
      ensures State() == old(State()).(
          fileLoggingPath := image.settings.path,
          scrollingActive := image.settings.scrolling,
          traceScrollingActive := image.settings.traceScrolling,
          lineEnding := SelectEnding(old(lineEnding), image.settings.lineEnding),
          history := Restore(old(history), image.entries))
    {
      RestoreHistory(image.entries);
      fileLoggingPath := image.settings.path;
      scrollingActive := image.settings.scrolling;
      traceScrollingActive := image.settings.traceScrolling;
      lineEnding := SelectEnding(lineEnding, image.settings.lineEnding);
    }

    /** onPersistenceRead's loop: each saved port id up to PORT_HANDLERS_COUNT gets its saved commands, in order. */
    method RestoreHistory(entries: seq<Entry>)
      modifies this
      ensures State() == old(State()).(history := Restore(old(history), entries))
    {
      var i := 0;
      while i < |entries|
        invariant i <= |entries|
        invariant Restore(history, entries[i..]) == Restore(old(history), entries)
        invariant State() == old(State()).(history := history)
      {
        assert entries[i..][1..] == entries[i + 1..];
        var e := entries[i];
        if e.id <= PORT_HANDLERS_COUNT {
          history := history[e.id := e.commands];
        }
        i := i + 1;
      }
      assert entries[|entries|..] == [];
    }

    /** A path chosen in the logging dialog becomes the logging directory; a cancelled dialog changes nothing. */
    method OnLoggingButtonContextMenuRequested(chosen: Option<string>)
      modifies this
      ensures State() == if chosen.Some? then old(State()).(fileLoggingPath := chosen.value) else old(State())
    {
      if chosen.Some? {
        fileLoggingPath := chosen.value;
      }
    }
  }
}
