/**
 * The settings header generator: a build step that turns the top-level keys
 * of a JSON configuration into a C++ header with one DEF_SETTING_GROUP line
 * per key, typed by the JSON type of its value.
 */
module SettingsHeaderGen {
  import opened Common
  import opened Text

  /** A top-level JSON value as json.load gives it: int, bool, str, or anything else (float, null, list, object). */
  datatype JsonValue = JInt(i: int) | JBool(b: bool) | JStr(s: string) | JOther

  /** One key of the loaded object, in the object's iteration order. */
  datatype Entry = Entry(key: string, value: JsonValue)

  /** The input file: it cannot be opened, it is not valid JSON, or it loads as an object. */
  datatype Input = Unreadable | Malformed | Loaded(config: seq<Entry>)

  const USAGE: string := "Please provide correct arguments!"
  const STARTING: string := "Starting header generator"
  const FINISHED: string := "Header generator finished work!"

  /** The include guard pair and a blank line. */
  const GUARD: string := "#ifndef _SETTINGS_CONFIG_H\n#define _SETTINGS_CONFIG_H\n\n"

  /** The five-line banner and two blank lines. */
  const BANNER: string :=
    "/* ==========================================================*/\n" +
    "/* ========== auto-generated file - do not modify! ==========*/\n" +
    "/* ==========================================================*/\n" +
    "/* ==== edit system_config.json and rebuild the target! =====*/\n" +
    "/* ==========================================================*/\n\n\n"

  /** The first line of the SETTING_GROUPS macro, continued by a backslash. */
  const MACRO: string := "#define SETTING_GROUPS\\\n"

  /** Everything before the group lines. */
  const HEADER_START: string := GUARD + BANNER + MACRO

  const HEADER_END: string := "\n\n#endif"

  // ---------------------------------------------------------------- the text

  const GROUP_OPEN: string := "   DEF_SETTING_GROUP("
  const GROUP_CLOSE: string := ") \\"
  const INT_TYPE: string := "uint32_t, "
  const BOOL_TYPE: string := "bool, "
  const STR_TYPE: string := "std::string, "

  /** The type and the value the group line gives a JSON value; other values get neither. */
  function Typed(v: JsonValue): string
  {
    match v
    case JInt(i) => INT_TYPE + IntToDecimal(i)
    case JBool(b) => BOOL_TYPE + (if b then "true" else "false")
    case JStr(s) => STR_TYPE + "\"" + s + "\""
    case JOther => ""
  }

  /**
   * The type test is exact: the type's first letter tells the JSON type,
   * so a bool is never taken for an int; an int's text reads back as the
   * int, negative or not; a string is quoted as it is.
   */
  lemma TypedText(v: JsonValue)
    ensures var r := Typed(v);
      && (v.JOther? <==> r == [])
      && (v.JInt? ==> r[0] == 'u' && r[..|INT_TYPE|] == INT_TYPE && ParseDecimalPrefix(r[|INT_TYPE|..]) == Some(v.i))
      && (v.JBool? ==> r[0] == 'b' && r[..|BOOL_TYPE|] == BOOL_TYPE && r[|BOOL_TYPE|..] == (if v.b then "true" else "false"))
      && (v.JStr? ==> r[0] == 's' && r[..|STR_TYPE|] == STR_TYPE && r[|STR_TYPE|..] == "\"" + v.s + "\"")
  {
    var r := Typed(v);
    match v {
      case JInt(i) =>
        assert r[|INT_TYPE|..] == IntToDecimal(i);
        DecimalRoundTrip(i);
      case JBool(b) =>
      case JStr(s) =>
        assert r == STR_TYPE + ("\"" + s + "\"");
      case JOther =>
    }
  }

  /** The group line of one key, without its newline. */
  function Body(e: Entry): string
  {
    GROUP_OPEN + e.key + ", " + Typed(e.value) + GROUP_CLOSE
  }

  /** A group line names its key and holds the typed value between the comma and the closing. */
  lemma BodyParts(e: Entry)
    ensures var r := Body(e); var n := |GROUP_OPEN| + |e.key|;
      && |r| == n + 2 + |Typed(e.value)| + |GROUP_CLOSE|
      && r[..|GROUP_OPEN|] == GROUP_OPEN && r[|GROUP_OPEN|..n] == e.key
      && r[n + 2..|r| - |GROUP_CLOSE|] == Typed(e.value) && r[|r| - |GROUP_CLOSE|..] == GROUP_CLOSE
  {
  }

  /** The group line of one key with its newline. */
  function Line(e: Entry): string
  {
    Body(e) + "\n"
  }

  /** The group lines of the keys, in order. */
  function Lines(config: seq<Entry>): string
  {
    if config == [] then "" else Line(config[0]) + Lines(config[1..])
  }

  /** The whole header for a loaded configuration. */
  function HeaderText(config: seq<Entry>): (r: string)
    ensures StartsWith(r, HEADER_START)
    ensures |r| >= |HEADER_END| && r[|r| - |HEADER_END|..] == HEADER_END
  {
    var r := HEADER_START + Lines(config) + HEADER_END;
    assert r[..|HEADER_START|] == HEADER_START;
    assert r[|r| - |HEADER_END|..] == HEADER_END;
    r
  }

  // ---------------------------------------------------------------- one line per key

  /** No key and no string value holds a newline. */
  predicate SingleLine(config: seq<Entry>)
  {
    forall k :: 0 <= k < |config| ==> '\n' !in config[k].key && (config[k].value.JStr? ==> '\n' !in config[k].value.s)
  }

  lemma BodySingleLine(e: Entry)
    requires '\n' !in e.key && (e.value.JStr? ==> '\n' !in e.value.s)
    ensures '\n' !in Body(e)
  {
    assert '\n' !in GROUP_OPEN && '\n' !in GROUP_CLOSE && '\n' !in ", ";
    assert '\n' !in Typed(e.value) by {
      match e.value {
        case JInt(i) =>
          assert '\n' !in INT_TYPE;
          DecimalSingleLine(i);
        case JBool(b) =>
          assert '\n' !in BOOL_TYPE && '\n' !in "true" && '\n' !in "false";
        case JStr(s) =>
          assert '\n' !in STR_TYPE && '\n' !in "\"";
        case JOther =>
      }
    }
  }

  lemma DecimalSingleLine(i: int)
    ensures '\n' !in IntToDecimal(i)
  {
    var r := IntToDecimal(i);
    if i < 0 {
      assert r == [r[0]] + r[1..];
      assert forall k :: 0 <= k < |r[1..]| ==> IsDigit(r[1..][k]);
    } else {
      assert forall k :: 0 <= k < |r| ==> IsDigit(r[k]);
    }
  }

  /**
   * Splitting the group lines at newlines gives exactly one line per key,
   * in the object's order, when no key or string value holds a newline.
   */
  lemma {:induction false} OneLinePerKey(config: seq<Entry>)
    requires SingleLine(config)
    ensures var lines := GetlineSplit(Lines(config), '\n');
      |lines| == |config| && forall k :: 0 <= k < |config| ==> lines[k] == Body(config[k])
    decreases |config|
  {
    if config != [] {
      BodySingleLine(config[0]);
      assert SingleLine(config[1..]) by {
        forall k | 0 <= k < |config[1..]|
          ensures '\n' !in config[1..][k].key && (config[1..][k].value.JStr? ==> '\n' !in config[1..][k].value.s)
        {
          assert config[1..][k] == config[k + 1];
        }
      }
      OneLinePerKey(config[1..]);
      SplitFirstToken(Body(config[0]), '\n', Lines(config[1..]));
      var lines := GetlineSplit(Lines(config), '\n');
      var rest := GetlineSplit(Lines(config[1..]), '\n');
      assert lines == [Body(config[0])] + rest;
      forall k | 0 <= k < |config| ensures lines[k] == Body(config[k]) {
        if k > 0 {
          assert lines[k] == rest[k - 1] && config[1..][k - 1] == config[k];
        }
      }
    }
  }

  /** The group lines of a prefix of the keys, with one more key. */
  lemma {:induction false} LinesAppend(a: seq<Entry>, e: Entry)
    ensures Lines(a + [e]) == Lines(a) + Line(e)
    decreases |a|
  {
    if a == [] {
      assert [] + [e] == [e];
      assert Lines([e][1..]) == "";
    } else {
      assert (a + [e])[1..] == a[1..] + [e];
      LinesAppend(a[1..], e);
      Associative(Line(a[0]), Lines(a[1..]), Line(e));
    }
  }

  lemma Associative(a: string, b: string, c: string)
    ensures (a + b) + c == a + (b + c)
  {
  }

  lemma EmptyPrefix(s: string)
    ensures "" + s == s
  {
  }

  // ---------------------------------------------------------------- the script

  /**
   * The script: with fewer than two paths it only prints its usage;
   * otherwise an unreadable input stops it before the output is opened, a
   * malformed one after the output was truncated, and a loaded one writes
   * the header. The printed lines are returned; None means the output file
   * was not opened.
   */
  method Generate(argv: seq<string>, input: Input) returns (messages: seq<string>, output: Option<string>)
    ensures |argv| < 3 ==> messages == [USAGE] && output == None
    ensures |argv| >= 3 ==> |messages| >= 3 && messages[..3] == [STARTING, "INPUT FILE: " + argv[1], "OUTPUT FILE: " + argv[2]]
    ensures |argv| >= 3 && input.Unreadable? ==> output == None
    ensures |argv| >= 3 && input.Malformed? ==> output == Some("")
    ensures |argv| >= 3 && input.Loaded? ==> output == Some(HeaderText(input.config)) && messages[3..] == [FINISHED]
  {
    if |argv| < 3 {
      return [USAGE], None;
    }
    messages := [STARTING, "INPUT FILE: " + argv[1], "OUTPUT FILE: " + argv[2]];
    if input.Unreadable? {
      return messages, None;
    }
    var text := "";
    if input.Malformed? {
      return messages, Some(text);
    }
    text := WritePreamble(text);
    text := WriteGroups(text, input.config);
    text := text + HEADER_END;
    EmptyPrefix(HEADER_START);
    output := Some(text);
    messages := messages + [FINISHED];
  }

  /** The writes before the loop: the guard pair, the banner and the macro's first line. */
  method WritePreamble(text: string) returns (out: string)
    ensures out == text + HEADER_START
  {
    out := text + GUARD;
    out := out + BANNER;
    Associative(text, GUARD, BANNER);
    out := out + MACRO;
    Associative(text, GUARD + BANNER, MACRO);
  }

  /** The loop over the keys: one group line each, in the object's order. */
  method WriteGroups(text: string, config: seq<Entry>) returns (out: string)
    ensures out == text + Lines(config)
  {
    out := text;
    for i := 0 to |config|
      invariant out == text + Lines(config[..i])
    {
      out := WriteGroup(out, config[i]);
      assert config[..i + 1] == config[..i] + [config[i]];
      LinesAppend(config[..i], config[i]);
      Associative(text, Lines(config[..i]), Line(config[i]));
    }
    assert config[..|config|] == config;
  }

  /** The writes of one loop pass: the opening, the type and value, the closing. */
  method WriteGroup(text: string, e: Entry) returns (out: string)
    ensures out == text + Line(e)
  {
    out := text + (GROUP_OPEN + e.key + ", ");
    match e.value {
      case JInt(i) =>
        out := out + (INT_TYPE + IntToDecimal(i));
      case JBool(b) =>
        var value := "false";
        if b {
          value := "true";
        }
        out := out + (BOOL_TYPE + value);
      case JStr(s) =>
        out := out + (STR_TYPE + "\"" + s + "\"");
      case JOther =>
    }
    out := out + (GROUP_CLOSE + "\n");
  }
}
