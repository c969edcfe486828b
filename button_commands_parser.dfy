/**
 * ButtonCommandsParser: the command language of a user button. The text is
 * split into lines; a line starting with "__" is a special command, every
 * other line is sent to the port as it is. `__wait(N)` becomes waits of at
 * most 500 ms that add up to N, and `__repeat_start(X)` ... `__repeat_end()`
 * expands its body X times, nested loops included. The parsed commands are
 * run one at a time under a cursor.
 */
module ButtonCommandsParser {
  import opened Common
  import opened Text

  /** Longer waits are cut into steps of this many milliseconds. */
  const MAXIMUM_WAIT_TIME: nat := 500

  const WAIT: string := "__wait"
  const REPEAT_START: string := "__repeat_start"
  const REPEAT_END: string := "__repeat_end"

  /** A parsed command: a text for the writer, or a pause. */
  datatype Command = Write(text: string) | Wait(ms: nat)

  /** What running a command gives: the writer's answer, or true after a pause. */
  function Outcome(command: Command, writer: string -> bool): (r: bool)
    ensures command.Wait? ==> r
  {
    match command
    case Write(text) => writer(text)
    case Wait(_) => true
  }

  /** isSpecialCommand: `command.find("__", 0) == 0`. */
  predicate IsSpecialCommand(line: string)
  {
    StartsWith(line, "__")
  }

  // ---------------------------------------------------------------- the special-command pattern

  /** The characters `.` does not match in an ECMAScript std::regex. */
  predicate IsLineTerminator(c: char)
  {
    c == '\n' || c == '\r' || c == '\U{2028}' || c == '\U{2029}'
  }

  predicate NoLineTerminator(s: string)
  {
    forall i :: 0 <= i < |s| ==> !IsLineTerminator(s[i])
  }

  /** The index of the last c in s, or -1. */
  function LastIndexOf(s: string, c: char): (i: int)
    ensures -1 <= i < |s|
    ensures i >= 0 ==> s[i] == c
    ensures forall j :: i < j < |s| ==> s[j] != c
  {
    if s == [] then -1
    else if s[|s| - 1] == c then |s| - 1
    else LastIndexOf(s[..|s| - 1], c)
  }

  lemma {:induction false} LastIndexOfBefore(a: string, c: char, b: string)
    requires c !in b
    ensures LastIndexOf(a + [c] + b, c) == |a|
    decreases |b|
  {
    var s := a + [c] + b;
    if b == [] {
      assert s[|s| - 1] == c;
    } else {
      assert s[|s| - 1] == b[|b| - 1];
      assert s[..|s| - 1] == a + [c] + b[..|b| - 1];
      LastIndexOfBefore(a, c, b[..|b| - 1]);
    }
  }

  /** The two groups of `(__.*)\((.*)\)`. */
  datatype Special = Special(name: string, argument: string)

  /**
   * std::regex_match with "(__.*)\((.*)\)": the whole line must match, and the
   * greedy first group runs up to the last '(' before the closing ')'.
   */
  function MatchSpecial(line: string): (r: Option<Special>)
    ensures r.Some? ==> line == r.value.name + "(" + r.value.argument + ")"
    ensures r.Some? ==> StartsWith(r.value.name, "__") && '(' !in r.value.argument && NoLineTerminator(line)
  {
    if |line| >= 2 && line[..2] == "__" && line[|line| - 1] == ')' && NoLineTerminator(line) then
      var k := LastIndexOf(line[..|line| - 1], '(');
      if k >= 2 then
        var name, argument := line[..k], line[k + 1..|line| - 1];
        assert line == name + "(" + argument + ")" by {
          assert line == line[..k] + [line[k]] + line[k + 1..|line| - 1] + [line[|line| - 1]];
        }
        assert '(' !in argument by {
          forall j | 0 <= j < |argument| ensures argument[j] != '(' {
            assert argument[j] == line[..|line| - 1][k + 1 + j];
          }
        }
        Some(Special(name, argument))
      else None
    else None
  }

  /** Every line of the form `__name(argument)` matches with exactly those groups when the argument holds no '('. */
  lemma MatchOfSpecial(name: string, argument: string)
    requires StartsWith(name, "__") && '(' !in argument
    requires NoLineTerminator(name) && NoLineTerminator(argument)
    ensures MatchSpecial(name + "(" + argument + ")") == Some(Special(name, argument))
  {
    var line := name + "(" + argument + ")";
    assert line[..2] == name[..2];
    assert line[..|line| - 1] == name + ['('] + argument;
    LastIndexOfBefore(name, '(', argument);
    assert line[..|name|] == name;
    assert line[|name| + 1..|line| - 1] == argument;
    assert NoLineTerminator(line) by {
      forall i | 0 <= i < |line| ensures !IsLineTerminator(line[i]) {
        if i < |name| {
          assert line[i] == name[i];
        } else if |name| < i < |line| - 1 {
          assert line[i] == argument[i - |name| - 1];
        }
      }
    }
  }

  // ---------------------------------------------------------------- waits

  /** prepareWaitCommand: full 500 ms steps, then what is left. */
  function WaitCommands(time: nat): (r: seq<Command>)
    ensures forall i :: 0 <= i < |r| ==> r[i].Wait? && 0 < r[i].ms <= MAXIMUM_WAIT_TIME
    decreases time
  {
    if time == 0 then []
    else if time < MAXIMUM_WAIT_TIME then [Wait(time)]
    else [Wait(MAXIMUM_WAIT_TIME)] + WaitCommands(time - MAXIMUM_WAIT_TIME)
  }

  /** The total pause of a sequence of commands. */
  function TotalWait(commands: seq<Command>): nat
  {
    if commands == [] then 0
    else (if commands[0].Wait? then commands[0].ms else 0) + TotalWait(commands[1..])
  }

  /** A wait of N ms becomes ceil(N / 500) steps that add up to N. */
  lemma {:induction false} WaitSteps(time: nat)
    ensures TotalWait(WaitCommands(time)) == time
    ensures |WaitCommands(time)| == (time + MAXIMUM_WAIT_TIME - 1) / MAXIMUM_WAIT_TIME
    decreases time
  {
    if time >= MAXIMUM_WAIT_TIME {
      WaitSteps(time - MAXIMUM_WAIT_TIME);
      assert (time + MAXIMUM_WAIT_TIME - 1) / MAXIMUM_WAIT_TIME == (time - 1) / MAXIMUM_WAIT_TIME + 1;
      assert WaitCommands(time)[1..] == WaitCommands(time - MAXIMUM_WAIT_TIME);
    }
  }

  /** Every step but the last is 500 ms, and the last is N mod 500 when that is not 0. */
  lemma {:induction false} WaitStepSizes(time: nat)
    ensures forall i :: 0 <= i < |WaitCommands(time)| - 1 ==> WaitCommands(time)[i].ms == MAXIMUM_WAIT_TIME
    ensures time > 0 ==>
      WaitCommands(time)[|WaitCommands(time)| - 1].ms == if time % MAXIMUM_WAIT_TIME == 0 then MAXIMUM_WAIT_TIME else time % MAXIMUM_WAIT_TIME
    decreases time
  {
    if time >= MAXIMUM_WAIT_TIME {
      var rest := WaitCommands(time - MAXIMUM_WAIT_TIME);
      WaitStepSizes(time - MAXIMUM_WAIT_TIME);
      assert time % MAXIMUM_WAIT_TIME == (time - MAXIMUM_WAIT_TIME) % MAXIMUM_WAIT_TIME;
      assert WaitCommands(time) == [Wait(MAXIMUM_WAIT_TIME)] + rest;
    }
  }

  // ---------------------------------------------------------------- repeat loops

  predicate OpensLoop(line: string)
  {
    Contains(line, REPEAT_START)
  }

  predicate ClosesLoop(line: string)
  {
    Contains(line, REPEAT_END)
  }

  /** findRepeatEnd from index i with `skip` inner loops still open. */
  function RepeatEndFrom(lines: seq<string>, i: nat, skip: nat): (r: Option<nat>)
    ensures r.Some? ==> i <= r.value < |lines|
    decreases |lines| - i
  {
    if i >= |lines| then None
    else
      var open := if OpensLoop(lines[i]) then skip + 1 else skip;
      if ClosesLoop(lines[i]) then
        if open > 0 then RepeatEndFrom(lines, i + 1, open - 1) else Some(i)
      else RepeatEndFrom(lines, i + 1, open)
  }

  /** The index of the `__repeat_end` matching the loop opened by lines[0], if any. */
  function RepeatEnd(lines: seq<string>): (r: Option<nat>)
    ensures r.Some? ==> 1 <= r.value < |lines|
  {
    RepeatEndFrom(lines, 1, 0)
  }

  /** The nesting depth after lines[1..j]: loops opened minus loops closed. */
  function Depth(lines: seq<string>, j: nat): int
    requires j <= |lines|
  {
    if j <= 1 then 0
    else Depth(lines, j - 1) + (if OpensLoop(lines[j - 1]) then 1 else 0) - (if ClosesLoop(lines[j - 1]) then 1 else 0)
  }

  lemma {:induction false} RepeatEndFromDepth(lines: seq<string>, i: nat, skip: nat)
    requires 1 <= i <= |lines| && skip == Depth(lines, i)
    requires forall j :: 1 <= j <= i ==> Depth(lines, j) >= 0
    ensures var r := RepeatEndFrom(lines, i, skip);
      && (r.Some? ==> i <= r.value < |lines| && ClosesLoop(lines[r.value]) && Depth(lines, r.value + 1) == -1
                      && forall j :: 1 <= j <= r.value ==> Depth(lines, j) >= 0)
      && (r.None? ==> forall j :: 1 <= j <= |lines| ==> Depth(lines, j) >= 0)
    decreases |lines| - i
  {
    if i < |lines| {
      var open := if OpensLoop(lines[i]) then skip + 1 else skip;
      assert Depth(lines, i + 1) == open - (if ClosesLoop(lines[i]) then 1 else 0);
      if ClosesLoop(lines[i]) && open == 0 {
      } else {
        RepeatEndFromDepth(lines, i + 1, Depth(lines, i + 1));
      }
    }
  }

  /**
   * findRepeatEnd skips one `__repeat_end` for every inner `__repeat_start`:
   * the end found is the line where the nesting depth first drops below 0,
   * and no end is found when it never does.
   */
  lemma RepeatEndIsFirstUnbalanced(lines: seq<string>)
    requires lines != []
    ensures var r := RepeatEnd(lines);
      && (r.Some? ==> 1 <= r.value < |lines| && ClosesLoop(lines[r.value]) && Depth(lines, r.value + 1) == -1
                      && forall j :: 1 <= j <= r.value ==> Depth(lines, j) >= 0)
      && (r.None? ==> forall j :: 1 <= j <= |lines| ==> Depth(lines, j) >= 0)
  {
    RepeatEndFromDepth(lines, 1, 0);
  }

  /** The body repeated `count` times, one copy after another. */
  function Repeat(body: seq<Command>, count: nat): (r: seq<Command>)
    ensures |r| == count * |body|
  {
    if count == 0 then [] else Repeat(body, count - 1) + body
  }

  /** One round is the body itself, and a + b rounds are a rounds followed by b rounds. */
  lemma {:induction false} RepeatRounds(body: seq<Command>, a: nat, b: nat)
    ensures Repeat(body, 1) == body
    ensures Repeat(body, a + b) == Repeat(body, a) + Repeat(body, b)
    decreases b
  {
    assert Repeat(body, 1) == [] + body;
    if b > 0 {
      RepeatRounds(body, a, b - 1);
      assert Repeat(body, a + b) == Repeat(body, a + b - 1) + body;
      assert Repeat(body, a) + Repeat(body, b - 1) + body == Repeat(body, a) + (Repeat(body, b - 1) + body);
    } else {
      assert Repeat(body, a) + [] == Repeat(body, a);
    }
  }

  // ---------------------------------------------------------------- the whole text

  /** How processStrings treats one line. */
  datatype LineKind =
    | Plain                  // sent to the writer as it is
    | Ignored                // a special line that produces nothing
    | WaitFor(ms: nat)       // `__wait(N)` with N > 0
    | LoopOf(rounds: nat)    // `__repeat_start(X)` with X > 0

  /**
   * isSpecialCommand, then processSpecialCommand's match and atoi: a line that
   * does not match, an unknown name, a wait of at most 0 ms and a loop of at
   * most 0 rounds are ignored.
   */
  function Classify(line: string): (k: LineKind)
    ensures k.Plain? <==> !IsSpecialCommand(line)
    ensures k.WaitFor? ==> k.ms > 0 && MatchSpecial(line).Some? && MatchSpecial(line).value.name == WAIT
    ensures k.LoopOf? ==> k.rounds > 0 && MatchSpecial(line).Some? && MatchSpecial(line).value.name == REPEAT_START
  {
    if !IsSpecialCommand(line) then Plain
    else
      var m := MatchSpecial(line);
      if m.None? then Ignored
      else
        var argument := Atoi(m.value.argument);
        if m.value.name == WAIT && argument > 0 then WaitFor(argument)
        else if m.value.name == REPEAT_START && argument > 0 then LoopOf(argument)
        else Ignored
  }

  /**
   * processStrings: the commands of a sequence of lines, each line classified
   * by `classify`. A special line consumes as many lines as
   * processSpecialCommand reports.
   */
  function Process(classify: string -> LineKind, lines: seq<string>): seq<Command>
    decreases |lines|, 1
  {
    if lines == [] then []
    else if classify(lines[0]).Plain? then [Write(lines[0])] + Process(classify, lines[1..])
    else
      var special := SpecialCommand(classify, lines);
      special.0 + Process(classify, lines[special.1..])
  }

  /**
   * processSpecialCommand: the commands of the special line lines[0] and how
   * many lines it consumed. A loop consumes its body and its end line when
   * the end is found, and only its own line otherwise.
   */
  function SpecialCommand(classify: string -> LineKind, lines: seq<string>): (r: (seq<Command>, nat))
    requires lines != []
    ensures 1 <= r.1 <= |lines|
    decreases |lines|, 0
  {
    match classify(lines[0])
    case WaitFor(ms) => (WaitCommands(ms), 1)
    case LoopOf(rounds) =>
      var end := RepeatEnd(lines);
      if end.None? then ([], 1)
      else (Repeat(Process(classify, lines[1..end.value]), rounds), end.value + 1)
    case _ => ([], 1)
  }

  /** The commands of a button text: its lines as std::getline on '\n' gives them. */
  function ParseText(text: string): seq<Command>
  {
    Process(Classify, GetlineSplit(text, '\n'))
  }

  // ---------------------------------------------------------------- properties of the language

  /** Lines without the "__" prefix become one writer call each, with exactly their text, in order. */
  lemma {:induction false} PlainLines(lines: seq<string>)
    requires forall i :: 0 <= i < |lines| ==> !IsSpecialCommand(lines[i])
    ensures Process(Classify, lines) == seq(|lines|, i requires 0 <= i < |lines| => Write(lines[i]))
  {
    if lines != [] {
      assert Classify(lines[0]).Plain?;
      PlainLines(lines[1..]);
    }
  }

  /** A special line that is not understood is consumed and produces nothing. */
  lemma IgnoredSpecialLine(line: string, rest: seq<string>)
    requires IsSpecialCommand(line)
    requires var m := MatchSpecial(line);
      || m.None?
      || (m.value.name != WAIT && m.value.name != REPEAT_START)
      || (m.value.name == WAIT && Atoi(m.value.argument) <= 0)
      || (m.value.name == REPEAT_START && Atoi(m.value.argument) <= 0)
    ensures Process(Classify, [line] + rest) == Process(Classify, rest)
  {
    assert Classify(line) == Ignored;
    IgnoredStep(Classify, [line] + rest);
    assert ([line] + rest)[1..] == rest;
  }

  /** `__wait(N)` with N > 0 becomes its 500 ms steps, and the next line follows. */
  lemma WaitLine(argument: string, rest: seq<string>)
    requires '(' !in argument && NoLineTerminator(argument) && Atoi(argument) > 0
    ensures Process(Classify, [WAIT + "(" + argument + ")"] + rest) == WaitCommands(Atoi(argument)) + Process(Classify, rest)
  {
    var line := WAIT + "(" + argument + ")";
    WaitLineKind(argument);
    WaitStep(Classify, [line] + rest);
    assert ([line] + rest)[1..] == rest;
  }

  lemma WaitLineKind(argument: string)
    requires '(' !in argument && NoLineTerminator(argument) && Atoi(argument) > 0
    ensures Classify(WAIT + "(" + argument + ")") == WaitFor(Atoi(argument))
  {
    var line := WAIT + "(" + argument + ")";
    MatchOfSpecial(WAIT, argument);
    assert IsSpecialCommand(line) by {
      assert line[..2] == "__";
    }
  }

  /**
   * A loop with its matching end expands its body X times and consumes the
   * body and both loop lines; processing goes on after the end.
   */
  lemma LoopLine(lines: seq<string>, count: nat)
    requires lines != [] && IsSpecialCommand(lines[0])
    requires MatchSpecial(lines[0]).Some? && MatchSpecial(lines[0]).value.name == REPEAT_START
    requires count == Atoi(MatchSpecial(lines[0]).value.argument) && count > 0
    requires RepeatEnd(lines).Some?
    ensures var end := RepeatEnd(lines).value;
      Process(Classify, lines) == Repeat(Process(Classify, lines[1..end]), count) + Process(Classify, lines[end + 1..])
  {
    assert Classify(lines[0]) == LoopOf(count);
    LoopStep(Classify, lines);
  }

  /** A loop without a matching end consumes only its own line; the body is then processed as ordinary lines. */
  lemma UnclosedLoop(lines: seq<string>)
    requires lines != [] && IsSpecialCommand(lines[0])
    requires MatchSpecial(lines[0]).Some? && MatchSpecial(lines[0]).value.name == REPEAT_START
    requires RepeatEnd(lines).None?
    ensures Process(Classify, lines) == Process(Classify, lines[1..])
  {
    var k := Classify(lines[0]);
    if k.LoopOf? {
      LoopStep(Classify, lines);
    } else {
      assert k == Ignored;
      IgnoredStep(Classify, lines);
    }
  }

  lemma IgnoredStep(classify: string -> LineKind, lines: seq<string>)
    requires lines != [] && classify(lines[0]) == Ignored
    ensures Process(classify, lines) == Process(classify, lines[1..])
  {
  }

  lemma WaitStep(classify: string -> LineKind, lines: seq<string>)
    requires lines != [] && classify(lines[0]).WaitFor?
    ensures Process(classify, lines) == WaitCommands(classify(lines[0]).ms) + Process(classify, lines[1..])
  {
  }

  lemma LoopStep(classify: string -> LineKind, lines: seq<string>)
    requires lines != [] && classify(lines[0]).LoopOf?
    ensures RepeatEnd(lines).None? ==> Process(classify, lines) == Process(classify, lines[1..])
    ensures RepeatEnd(lines).Some? ==>
      Process(classify, lines)
      == Repeat(Process(classify, lines[1..RepeatEnd(lines).value]), classify(lines[0]).rounds)
         + Process(classify, lines[RepeatEnd(lines).value + 1..])
  {
  }

  /** The commands of a special line followed by those of the lines after it are those of all the lines. */
  lemma AfterSpecial(classify: string -> LineKind, before: seq<Command>, after: seq<Command>, strings: seq<string>, i: nat, processed: nat)
    requires i < |strings| && !classify(strings[i]).Plain?
    requires after == before + SpecialCommand(classify, strings[i..]).0 && processed == SpecialCommand(classify, strings[i..]).1
    ensures i + processed <= |strings| && after + Process(classify, strings[i + processed..]) == before + Process(classify, strings[i..])
  {
    var lines := strings[i..];
    assert lines[0] == strings[i];
    assert lines[processed..] == strings[i + processed..];
    Reassociate(before, SpecialCommand(classify, lines).0, Process(classify, lines[processed..]));
  }

  /** One step of processStrings at an ordinary line. */
  lemma PlainStep(classify: string -> LineKind, strings: seq<string>, i: nat)
    requires i < |strings| && classify(strings[i]).Plain?
    ensures Process(classify, strings[i..]) == [Write(strings[i])] + Process(classify, strings[i + 1..])
  {
    var lines := strings[i..];
    assert lines[0] == strings[i] && lines[1..] == strings[i + 1..];
  }

  // ---------------------------------------------------------------- the class

  class Parser {
    var commands: seq<Command>
    var current: nat

    constructor()
      ensures commands == [] && current == 0
    {
      commands, current := [], 0;
    }

    /** parseCommands: earlier commands are discarded, the cursor rewound and the new count returned. */
    method ParseCommands(text: string) returns (count: nat)
      modifies this
      ensures commands == ParseText(text) && current == 0
      ensures count == |commands|
    {
      commands := [];
      ProcessStrings(GetlineSplit(text, '\n'));
      current := 0;
      count := |commands|;
    }

    /** reset: the cursor goes back to the first command. */
    method Reset()
      modifies this
      ensures commands == old(commands) && current == 0
    {
      current := 0;
    }

    /**
     * runNext: the command under the cursor is run and the cursor advances;
     * at the end nothing runs and the answer is false.
     */
    method RunNext(writer: string -> bool) returns (result: bool)
      requires current <= |commands|
      modifies this
      ensures commands == old(commands) && current <= |commands|
      ensures old(current) < |commands| ==> current == old(current) + 1 && result == Outcome(commands[old(current)], writer)
      ensures old(current) == |commands| ==> current == old(current) && !result
    {
      result := false;
      if current < |commands| {
        result := Outcome(commands[current], writer);
        current := current + 1;
      }
    }

    function CommandsCount(): (r: nat)
      reads this
      ensures r == |commands|
    {
      |commands|
    }

    /** commandsExecuted: the distance of the cursor from the first command. */
    function CommandsExecuted(): (r: nat)
      reads this
      ensures r == current
    {
      current
    }

    /** processStrings: the commands of every line are appended in order. */
    method ProcessStrings(strings: seq<string>)
      modifies this
      ensures commands == old(commands) + Process(Classify, strings) && current == old(current)
      decreases |strings|, 4
    {
      var i := 0;
      assert strings[0..] == strings;
      while i < |strings|
        invariant 0 <= i <= |strings| && current == old(current)
        invariant commands + Process(Classify, strings[i..]) == old(commands) + Process(Classify, strings)
        decreases |strings| - i
      {
        i := ProcessLine(strings, i);
      }
      assert strings[|strings|..] == [];
    }

    /** One round of processStrings' loop: the line at i, special or not, and the index after what it consumed. */
    method ProcessLine(strings: seq<string>, i: nat) returns (next: nat)
      requires i < |strings|
      modifies this
      ensures i < next <= |strings| && current == old(current)
      ensures commands + Process(Classify, strings[next..]) == old(commands) + Process(Classify, strings[i..])
      decreases |strings|, 3
    {
      if IsSpecialCommand(strings[i]) {
        next := ProcessSpecialLine(strings, i);
      } else {
        next := ProcessPlainLine(strings, i);
      }
    }

    method ProcessSpecialLine(strings: seq<string>, i: nat) returns (next: nat)
      requires i < |strings| && IsSpecialCommand(strings[i])
      modifies this
      ensures i < next <= |strings| && current == old(current)
      ensures commands + Process(Classify, strings[next..]) == old(commands) + Process(Classify, strings[i..])
      decreases |strings|, 2
    {
      var processed := ProcessSpecialCommand(strings[i..]);
      AfterSpecial(Classify, old(commands), commands, strings, i, processed);
      next := i + processed;
    }

    method ProcessPlainLine(strings: seq<string>, i: nat) returns (next: nat)
      requires i < |strings| && !IsSpecialCommand(strings[i])
      modifies this
      ensures next == i + 1 && current == old(current)
      ensures commands + Process(Classify, strings[next..]) == old(commands) + Process(Classify, strings[i..])
    {
      PlainStep(Classify, strings, i);
      Reassociate(commands, [Write(strings[i])], Process(Classify, strings[i + 1..]));
      commands := commands + [Write(strings[i])];
      next := i + 1;
    }

    /** processSpecialCommand: match, atoi, then the wait or the loop; anything else is consumed silently. */
    method ProcessSpecialCommand(substrings: seq<string>) returns (processed: nat)
      requires substrings != [] && IsSpecialCommand(substrings[0])
      modifies this
      ensures processed == SpecialCommand(Classify, substrings).1
      ensures commands == old(commands) + SpecialCommand(Classify, substrings).0 && current == old(current)
      decreases |substrings|, 1
    {
      SpecialOfKind(Classify, substrings);
      processed := 1;
      var matches := MatchSpecial(substrings[0]);
      if matches.Some? {
        var argument := Atoi(matches.value.argument);
        if matches.value.name == WAIT {
          if argument > 0 {
            assert Classify(substrings[0]) == WaitFor(argument);
            PrepareWaitCommand(argument);
            processed := 1;
          } else {
            assert Classify(substrings[0]) == Ignored;
          }
        } else if matches.value.name == REPEAT_START {
          if argument > 0 {
            assert Classify(substrings[0]) == LoopOf(argument);
            processed := PrepareRepeatCommand(substrings, argument);
          } else {
            assert Classify(substrings[0]) == Ignored;
          }
        } else {
          assert Classify(substrings[0]) == Ignored;
        }
      } else {
        assert Classify(substrings[0]) == Ignored;
      }
    }

    method PrepareWaitCommand(time: nat)
      modifies this
      ensures commands == old(commands) + WaitCommands(time) && current == old(current)
    {
      var left: nat := time;
      while left > 0
        invariant commands + WaitCommands(left) == old(commands) + WaitCommands(time) && current == old(current)
      {
        var timeout := MAXIMUM_WAIT_TIME;
        if left < MAXIMUM_WAIT_TIME {
          timeout := left % MAXIMUM_WAIT_TIME;
        }
        assert WaitCommands(left) == [Wait(timeout)] + WaitCommands(left - timeout);
        left := left - timeout;
        commands := commands + [Wait(timeout)];
      }
    }

    method PrepareRepeatCommand(substrings: seq<string>, repeatCount: nat) returns (processed: nat)
      requires substrings != []
      modifies this
      ensures var end := RepeatEnd(substrings);
        && (end.None? ==> processed == 1 && commands == old(commands))
        && (end.Some? ==>
              processed == end.value + 1 && commands == old(commands) + Repeat(Process(Classify, substrings[1..end.value]), repeatCount))
      ensures current == old(current)
      decreases |substrings|, 0
    {
      processed := 1;
      var repeatEnd := FindRepeatEnd(substrings);
      if repeatEnd.None? {
        return;
      }
      var loopCommands := substrings[1..repeatEnd.value];
      RepeatLoop(loopCommands, repeatCount);
      processed := |loopCommands| + 2;
    }

    /** The loop of prepareRepeatCommand: the body's lines are processed once per round. */
    method RepeatLoop(loopCommands: seq<string>, repeatCount: nat)
      modifies this
      ensures commands == old(commands) + Repeat(Process(Classify, loopCommands), repeatCount) && current == old(current)
      decreases |loopCommands|, 5
    {
      ghost var body := Process(Classify, loopCommands);
      var i := 0;
      while i < repeatCount
        invariant 0 <= i <= repeatCount && current == old(current)
        invariant commands == old(commands) + Repeat(body, i)
      {
        ProcessStrings(loopCommands);
        assert Repeat(body, i + 1) == Repeat(body, i) + body;
        Reassociate(old(commands), Repeat(body, i), body);
        i := i + 1;
      }
    }
  }

  /** What processSpecialCommand produces and consumes for each kind of special line. */
  lemma SpecialOfKind(classify: string -> LineKind, lines: seq<string>)
    requires lines != []
    ensures classify(lines[0]) == Ignored ==> SpecialCommand(classify, lines) == ([], 1)
    ensures classify(lines[0]).WaitFor? ==> SpecialCommand(classify, lines) == (WaitCommands(classify(lines[0]).ms), 1)
    ensures classify(lines[0]).LoopOf? && RepeatEnd(lines).None? ==> SpecialCommand(classify, lines) == ([], 1)
    ensures classify(lines[0]).LoopOf? && RepeatEnd(lines).Some? ==>
      SpecialCommand(classify, lines)
      == (Repeat(Process(classify, lines[1..RepeatEnd(lines).value]), classify(lines[0]).rounds), RepeatEnd(lines).value + 1)
  {
  }

  lemma Reassociate(a: seq<Command>, b: seq<Command>, c: seq<Command>)
    ensures a + (b + c) == (a + b) + c
  {
  }

  /** findRepeatEnd: the scan for the end of the loop opened by lines[0]. */
  method FindRepeatEnd(lines: seq<string>) returns (result: Option<nat>)
    ensures result == RepeatEnd(lines)
  {
    result := None;
    var i := 1;
    var skip := 0;
    while i < |lines|
      invariant 1 <= i
      invariant RepeatEndFrom(lines, i, skip) == RepeatEnd(lines)
      decreases |lines| - i
    {
      if OpensLoop(lines[i]) {
        skip := skip + 1;
      }
      if ClosesLoop(lines[i]) {
        if skip > 0 {
          skip := skip - 1;
        } else {
          return Some(i);
        }
      }
      i := i + 1;
    }
  }
}
