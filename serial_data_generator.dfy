/**
 * SerialDataGenerator: a command-line tool that sends a payload on a serial
 * port at a fixed period. Its options, "--name=value", set the serial
 * settings, the period, the payload size and the payload; the payload is
 * then made up and terminated with a newline.
 */
module SerialDataGenerator {
  import opened Common
  import opened Text
  import SerialDriver

  const DEFAULT_PAYLOAD_RATE: U32 := 100
  const DEFAULT_PAYLOAD_SIZE: U32 := 100
  const MAX_PAYLOAD_RATE: nat := 10000
  const MAX_PAYLOAD_SIZE: nat := 4096

  // ---------------------------------------------------------------- arguments

  /** isCommand: an argument is an option when it is longer than two characters and starts with "--". */
  function IsCommand(text: string): (r: bool)
    ensures r <==> |text| > 2 && text[0] == '-' && text[1] == '-'
  {
    |text| > 2 && StartsWith(text, "--")
  }

  /** An option argument cut at '=': the option's name and its value. */
  datatype Split = Split(command: string, value: string)

  /**
   * The two std::getline(ss, _, '=') calls: the command is the text before the
   * first '=', the value the text up to the next '=' ("" when there is none).
   */
  function SplitOption(arg: string): (r: Split)
    ensures '=' !in r.command && '=' !in r.value
  {
    var tokens := GetlineSplit(arg, '=');
    Split(if |tokens| > 0 then tokens[0] else "", if |tokens| > 1 then tokens[1] else "")
  }

  /** "name=value", optionally followed by "=anything", splits back into the name and the value. */
  lemma SplitJoin(command: string, value: string, rest: string)
    requires '=' !in command && '=' !in value && command != []
    ensures SplitOption(command + "=" + value) == Split(command, value)
    ensures SplitOption(command + "=" + value + "=" + rest) == Split(command, value)
  {
    SplitFirstToken(command, '=', value);
    if value != [] {
      SplitLastToken(value, '=');
    }
    assert command + "=" + value + "=" + rest == command + ['='] + (value + ['='] + rest);
    SplitFirstToken(command, '=', value + ['='] + rest);
    SplitFirstToken(value, '=', rest);
  }

  /** An option without '=' has an empty value. */
  lemma SplitAlone(command: string)
    requires '=' !in command && command != []
    ensures SplitOption(command) == Split(command, "")
  {
    SplitLastToken(command, '=');
  }

  // ---------------------------------------------------------------- options

  /** The program's globals: the serial settings, the send period in ms, the payload size and the payload. */
  datatype Config = Config(settings: SerialDriver.Settings, rate: U32, size: U32, payload: string)

  /** What parsing an option ends in: accepted, rejected, or std::stoi threw, which nothing catches. */
  datatype Verdict = Accepted | Rejected | Thrown

  datatype Parsed = Parsed(verdict: Verdict, config: Config)

  /** The settings with the value of one of the four enum fields replaced. */
  function WithEnum(s: SerialDriver.Settings, kind: SerialDriver.Kind, v: nat): SerialDriver.Settings
  {
    match kind
    case BaudRate => s.(baudRate := v)
    case ParityType => s.(parityBits := v)
    case StopBitType => s.(stopBits := v)
    case DataBitType => s.(dataBits := v)
    case Unsupported => s
  }

  /** The enum option of a command name, if it is one. */
  function EnumOption(command: string): SerialDriver.Kind
  {
    if command == "--baud" then SerialDriver.BaudRate
    else if command == "--parity" then SerialDriver.ParityType
    else if command == "--stop" then SerialDriver.StopBitType
    else if command == "--data" then SerialDriver.DataBitType
    else SerialDriver.Unsupported
  }

  /**
   * parsePayloadRate and parsePayloadSize: std::stoi, converted to uint32_t,
   * is accepted within 1..max.
   */
  function NumberOption(value: string, max: nat): (r: Option<Option<U32>>)
  {
    match Stoi(value)
    case None => None
    case Some(n) => var v := ToU32(n); Some(if 1 <= v <= max then Some(v) else None)
  }

  /** parseCommand: the outcome of one option on the globals; "--help" prints the help and is rejected. */
  function Apply(c: Config, command: string, value: string): (r: Parsed)
  {
    if value == [] then Parsed(Rejected, c)
    else if command == "--device" then Parsed(Accepted, c.(settings := c.settings.(device := value)))
    else if EnumOption(command) != SerialDriver.Unsupported then
      var kind := EnumOption(command);
      var v := SerialDriver.FromName(kind, value);
      Parsed(if v < SerialDriver.Max(kind) then Accepted else Rejected, c.(settings := WithEnum(c.settings, kind, v)))
    else if command == "--payload_rate" || command == "--payload_size" then
      var max := if command == "--payload_rate" then MAX_PAYLOAD_RATE else MAX_PAYLOAD_SIZE;
      match NumberOption(value, max)
      case None => Parsed(Thrown, c)
      case Some(None) => Parsed(Rejected, c)
      case Some(Some(v)) => Parsed(Accepted, if command == "--payload_rate" then c.(rate := v) else c.(size := v))
    else if command == "--payload" then Parsed(Accepted, c.(payload := value, size := ToU32(|value|)))
    else Parsed(Rejected, c)
  }

  /** A configuration the generator can run with: known enum values, a period and a size in range. */
  predicate Good(c: Config)
  {
    c.settings.baudRate < SerialDriver.Max(SerialDriver.BaudRate) &&
    c.settings.parityBits < SerialDriver.Max(SerialDriver.ParityType) &&
    c.settings.stopBits < SerialDriver.Max(SerialDriver.StopBitType) &&
    c.settings.dataBits < SerialDriver.Max(SerialDriver.DataBitType) &&
    1 <= c.rate <= MAX_PAYLOAD_RATE && 1 <= c.size
  }

  /** An empty value, "--help" and unknown options are never accepted and change nothing. */
  lemma RejectedOptions(c: Config, command: string, value: string)
    ensures value == [] ==> Apply(c, command, value) == Parsed(Rejected, c)
    ensures command == "--help" ==> Apply(c, command, value) == Parsed(Rejected, c)
    ensures command !in ["--device", "--baud", "--parity", "--stop", "--data", "--payload_rate", "--payload_size", "--payload"] ==>
      Apply(c, command, value) == Parsed(Rejected, c)
  {
  }

  /**
   * An accepted option keeps a good configuration good: an enum option only
   * with a known name, a period within 1..10000 and a size within 1..4096
   * or the payload's length.
   */
  lemma {:induction false} AcceptedKeepsGood(c: Config, command: string, value: string)
    requires Good(c) && |value| < TWO_32
    ensures Apply(c, command, value).verdict == Accepted ==> Good(Apply(c, command, value).config)
  {
    var kind := EnumOption(command);
    if value != [] && command != "--device" && kind != SerialDriver.Unsupported {
      var v := SerialDriver.FromName(kind, value);
      assert Apply(c, command, value).config.settings == WithEnum(c.settings, kind, v);
    }
  }

  /** A non-empty value of a numeric option: what its parse does to the configuration. */
  lemma ApplyNumber(c: Config, isRate: bool, value: string)
    requires value != []
    ensures var command := if isRate then "--payload_rate" else "--payload_size";
      var max := if isRate then MAX_PAYLOAD_RATE else MAX_PAYLOAD_SIZE;
      Apply(c, command, value) ==
        match NumberOption(value, max)
        case None => Parsed(Thrown, c)
        case Some(None) => Parsed(Rejected, c)
        case Some(Some(v)) => Parsed(Accepted, if isRate then c.(rate := v) else c.(size := v))
  {
  }

  /** The numeric options: a number outside 1..max, a negative one included, is rejected; a value stoi cannot read throws. */
  lemma NumberOptionRange(value: string, max: nat)
    requires max <= INT32_MAX
    ensures NumberOption(value, max).None? <==> Stoi(value).None?
    ensures NumberOption(value, max).Some? ==>
      (NumberOption(value, max).value.Some? <==> 1 <= Stoi(value).value <= max)
  {
  }

  // ---------------------------------------------------------------- processCommands

  /** The options from the first argument on, as intended: each must be an option and be accepted. */
  function Run(c: Config, args: seq<string>): (r: Parsed)
    decreases |args|
  {
    if args == [] then Parsed(Accepted, c)
    else if !IsCommand(args[0]) then Parsed(Rejected, c)
    else
      var split := SplitOption(args[0]);
      var p := Apply(c, split.command, split.value);
      if p.verdict != Accepted then p else Run(p.config, args[1..])
  }

  /** processCommands as intended: no arguments, a non-option or a failing option make it fail. */
  function Processed(c: Config, args: seq<string>): Parsed
  {
    if args == [] then Parsed(Rejected, c) else Run(c, args)
  }

  /** The loop as written: a non-option argument ends it with the result of the option before. */
  function RunAsWritten(c: Config, args: seq<string>, last: Verdict): Parsed
    decreases |args|
  {
    if args == [] || !IsCommand(args[0]) then Parsed(last, c)
    else
      var split := SplitOption(args[0]);
      var p := Apply(c, split.command, split.value);
      if p.verdict != Accepted then p else RunAsWritten(p.config, args[1..], Accepted)
  }

  /** processCommands as written: the result starts as false and keeps the last option's result. */
  function ProcessedAsWritten(c: Config, args: seq<string>): Parsed
  {
    RunAsWritten(c, args, Rejected)
  }

  /**
   * As written, an argument that is not an option is reported but does not
   * stop the program when an accepted option comes before it.
   */
  lemma NonOptionAcceptedAsWritten(c: Config, option: string, other: string)
    requires IsCommand(option) && !IsCommand(other)
    requires Apply(c, SplitOption(option).command, SplitOption(option).value).verdict == Accepted
    ensures ProcessedAsWritten(c, [option, other]).verdict == Accepted
    ensures Processed(c, [option, other]).verdict == Rejected
  {
    var args := [option, other];
    var p := Apply(c, SplitOption(option).command, SplitOption(option).value);
    assert args[0] == option && args[1..] == [other];
    assert RunAsWritten(p.config, [other], Accepted) == Parsed(Accepted, p.config);
    assert RunAsWritten(c, args, Rejected) == RunAsWritten(p.config, [other], Accepted);
    assert Run(p.config, [other]) == Parsed(Rejected, p.config);
    assert Run(c, args) == Run(p.config, [other]);
  }

  /** Such an input: "--device=x" followed by "y". */
  lemma DeviceThenNonOption(c: Config)
    ensures ProcessedAsWritten(c, ["--device=x", "y"]).verdict == Accepted
    ensures Processed(c, ["--device=x", "y"]).verdict == Rejected
  {
    assert SplitOption("--device=x") == Split("--device", "x") by {
      SplitJoin("--device", "x", "");
      assert "--device=x" == "--device" + "=" + "x";
    }
    NonOptionAcceptedAsWritten(c, "--device=x", "y");
  }

  /** Without a non-option argument both readings agree. */
  lemma {:induction false} AsWrittenAgrees(c: Config, args: seq<string>, last: Verdict)
    requires args != [] && forall i :: 0 <= i < |args| ==> IsCommand(args[i])
    ensures RunAsWritten(c, args, last) == Run(c, args)
    decreases |args|
  {
    var split := SplitOption(args[0]);
    var p := Apply(c, split.command, split.value);
    if p.verdict == Accepted && |args| > 1 {
      assert forall i :: 0 <= i < |args| - 1 ==> args[1..][i] == args[i + 1];
      AsWrittenAgrees(p.config, args[1..], Accepted);
    }
  }

  /** The intended loop accepts only when every argument is an option. */
  lemma {:induction false} RunOnlyOptions(c: Config, args: seq<string>)
    ensures Run(c, args).verdict == Accepted ==> forall i :: 0 <= i < |args| ==> IsCommand(args[i])
    decreases |args|
  {
    if args != [] && IsCommand(args[0]) {
      var split := SplitOption(args[0]);
      var p := Apply(c, split.command, split.value);
      if p.verdict == Accepted {
        RunOnlyOptions(p.config, args[1..]);
        assert forall i :: 1 <= i < |args| ==> args[i] == args[1..][i - 1];
      }
    }
  }

  /**
   * processCommands as intended accepts a command line only when it is not
   * empty and every argument is an option, so "--device=x y" is refused.
   */
  lemma ProcessedOnlyOptions(c: Config, args: seq<string>)
    ensures Processed(c, args).verdict == Accepted ==> args != [] && forall i :: 0 <= i < |args| ==> IsCommand(args[i])
  {
    RunOnlyOptions(c, args);
  }

  /** Accepted arguments are all options, each accepted in turn, and a good configuration stays good. */
  lemma {:induction false} RunAccepted(c: Config, args: seq<string>)
    requires Good(c) && forall i :: 0 <= i < |args| ==> |args[i]| < TWO_32
    ensures Run(c, args).verdict == Accepted ==>
      (forall i :: 0 <= i < |args| ==> IsCommand(args[i])) && Good(Run(c, args).config)
    decreases |args|
  {
    if args != [] && IsCommand(args[0]) {
      var split := SplitOption(args[0]);
      var p := Apply(c, split.command, split.value);
      if p.verdict == Accepted {
        assert |split.value| < TWO_32 by { SplitValueShorter(args[0]); }
        AcceptedKeepsGood(c, split.command, split.value);
        assert forall i :: 0 <= i < |args| - 1 ==> args[1..][i] == args[i + 1];
        RunAccepted(p.config, args[1..]);
      }
    }
  }

  /** The value is a piece of the argument, so no longer than it. */
  lemma SplitValueShorter(arg: string)
    ensures |SplitOption(arg).value| <= |arg|
  {
    var tokens := GetlineSplit(arg, '=');
    if |tokens| > 1 {
      var i := IndexOf(arg, '=');
      assert tokens[1..] == GetlineSplit(arg[i + 1..], '=');
      TokenShorter(arg[i + 1..]);
    }
  }

  /** The first token is a piece of the text. */
  lemma TokenShorter(s: string)
    ensures GetlineSplit(s, '=') != [] ==> |GetlineSplit(s, '=')[0]| <= |s|
  {
  }

  // ---------------------------------------------------------------- payload

  /** main after the options: an empty payload becomes size '0' characters; a newline is added and counted. */
  function Finalised(c: Config): (r: Config)
  {
    var body := if c.payload == [] then Zeros(c.size) else c.payload;
    c.(payload := body + "\n", size := ToU32(c.size + 1))
  }

  /**
   * The payload sent ends with the newline, and its length is the size
   * written with it when the payload was made up, or when the size is the
   * given payload's own.
   */
  lemma FinalisedPayload(c: Config)
    requires c.payload == [] || c.size == |c.payload|
    requires c.size < UINT32_MAX
    ensures var r := Finalised(c); |r.payload| == r.size && r.payload[|r.payload| - 1] == '\n'
    ensures c.payload == [] ==> Finalised(c).payload == Zeros(c.size) + "\n"
  {
  }

  // ---------------------------------------------------------------- the program

  class Generator {
    var settings: SerialDriver.Settings
    var payloadRate: U32
    var payloadSize: U32
    var payload: string

    function State(): Config
      reads this
    {
      Config(settings, payloadRate, payloadSize, payload)
    }

    /** The globals' initial values; the serial settings' defaults are a parameter. */
    constructor(defaults: SerialDriver.Settings)
      ensures State() == Config(defaults, DEFAULT_PAYLOAD_RATE, DEFAULT_PAYLOAD_SIZE, "")
    {
      settings, payloadRate, payloadSize, payload := defaults, DEFAULT_PAYLOAD_RATE, DEFAULT_PAYLOAD_SIZE, "";
    }

    /** parseDeviceCommand. */
    method ParseDevice(value: string) returns (ok: bool)
      modifies this
      ensures Parsed(if ok then Accepted else Rejected, State()) == Apply(old(State()), "--device", value)
    {
      ok := false;
      if value != [] {
        settings := settings.(device := value);
        ok := true;
      }
    }

    /** parseBaudrateCommand, parseParityBitsCommand, parseStopBitsCommand and parseDataBitsCommand. */
    method ParseEnum(kind: SerialDriver.Kind, value: string) returns (ok: bool)
      requires kind != SerialDriver.Unsupported
      modifies this
      ensures value == [] ==> !ok && State() == old(State())
      ensures value != [] ==> (ok <==> SerialDriver.FromName(kind, value) < SerialDriver.Max(kind))
      ensures value != [] ==> State() == old(State()).(settings := WithEnum(old(settings), kind, SerialDriver.FromName(kind, value)))
    {
      ok := false;
      if value != [] {
        var field := new SerialDriver.EnumValue(kind, 0);
        var v := field.SetFromName(value);
        settings := WithEnum(settings, kind, v);
        ok := v < SerialDriver.Max(kind);
      }
    }

    /** parsePayloadRate and parsePayloadSize. */
    method ParseNumber(value: string, isRate: bool) returns (v: Verdict)
      modifies this
      ensures var command := if isRate then "--payload_rate" else "--payload_size";
        Parsed(v, State()) == Apply(old(State()), command, value)
    {
      if value == [] {
        return Rejected;
      }
      ApplyNumber(old(State()), isRate, value);
      var max := if isRate then MAX_PAYLOAD_RATE else MAX_PAYLOAD_SIZE;
      var n := Stoi(value);
      if n.None? {
        return Thrown;
      }
      var number := ToU32(n.value);
      if 1 <= number <= max {
        if isRate {
          payloadRate := number;
        } else {
          payloadSize := number;
        }
        return Accepted;
      }
      return Rejected;
    }

    /** parsePayload. */
    method ParsePayload(value: string) returns (ok: bool)
      modifies this
      ensures Parsed(if ok then Accepted else Rejected, State()) == Apply(old(State()), "--payload", value)
    {
      ok := false;
      if value != [] {
        payload := value;
        payloadSize := ToU32(|value|);
        ok := true;
      }
    }

    /** parseCommand. */
    method ParseCommand(command: string, value: string) returns (v: Verdict)
      modifies this
      ensures Parsed(v, State()) == Apply(old(State()), command, value)
    {
      v := Rejected;
      var kind := EnumOption(command);
      if command == "--device" {
        var ok := ParseDevice(value);
        v := if ok then Accepted else Rejected;
      } else if kind != SerialDriver.Unsupported {
        var ok := ParseEnum(kind, value);
        v := if ok then Accepted else Rejected;
      } else if command == "--payload_rate" || command == "--payload_size" {
        v := ParseNumber(value, command == "--payload_rate");
      } else if command == "--payload" {
        var ok := ParsePayload(value);
        v := if ok then Accepted else Rejected;
      }
    }

    /**
     * processCommands over argv[1..], as written: the arguments are taken in
     * order; an option that is not accepted ends the loop with its result,
     * and an argument that is not an option ends it with the result of the
     * option before, false when there was none.
     */
    method ProcessCommands(args: seq<string>) returns (v: Verdict)
      modifies this
      ensures Parsed(v, State()) == ProcessedAsWritten(old(State()), args)
    {
      v := Rejected;
      var i := 0;
      while i < |args|
        invariant 0 <= i <= |args|
        invariant RunAsWritten(State(), args[i..], v) == ProcessedAsWritten(old(State()), args)
      {
        if !IsCommand(args[i]) {
          return;
        }
        var split := SplitOption(args[i]);
        v := ParseCommand(split.command, split.value);
        if v != Accepted {
          return;
        }
        assert args[i..][1..] == args[i + 1..];
        i := i + 1;
      }
    }

    /** main: the options, then, when processCommands returns true, the payload is finalised. */
    method Start(args: seq<string>) returns (ok: bool)
      modifies this
      ensures ok <==> ProcessedAsWritten(old(State()), args).verdict == Accepted
      ensures ok ==> State() == Finalised(ProcessedAsWritten(old(State()), args).config)
    {
      var v := ProcessCommands(args);
      ok := v == Accepted;
      if ok {
        Finalise();
      }
    }

    /** The payload's completion in main: made up when empty, then the newline, counted in the size. */
    method Finalise()
      modifies this
      ensures State() == Finalised(old(State()))
    {
      if payload == [] {
        payload := Zeros(payloadSize);
      }
      payload := payload + "\n";
      payloadSize := ToU32(payloadSize + 1);
    }
  }
}
