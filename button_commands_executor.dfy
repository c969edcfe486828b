/**
 * ButtonCommandsExecutor: the older executor of user-button commands. It
 * splits the text on '\n', turns plain lines into writer calls and
 * `__wait(N)` into 500 ms pauses, and runs the commands one after another
 * until one fails. Only `__wait` is understood; the argument goes through
 * std::stoi and then into a uint32_t.
 */
module ButtonCommandsExecutor {
  import opened Common
  import opened Text
  import opened ButtonCommandsParser

  /** What parseCommands does with one line. */
  datatype LineAction =
    | Send                   // a plain line: one writer call
    | Skip                   // a special line other than `__wait(...)`
    | Pause(ms: nat)         // `__wait(N)`: N as a uint32_t
    | StoiThrows             // `__wait(...)` whose argument std::stoi rejects

  /**
   * isSpecialCommand, then addSpecialCommand: the same pattern as the
   * parser, stoi on the argument and the conversion to uint32_t, which wraps
   * a negative value around.
   */
  function Action(line: string): (a: LineAction)
    ensures a.Send? <==> !IsSpecialCommand(line)
    ensures a.Pause? ==> a.ms < TWO_32
    ensures a.Pause? || a.StoiThrows? ==> MatchSpecial(line).Some? && MatchSpecial(line).value.name == WAIT
  {
    if !IsSpecialCommand(line) then Send
    else
      var m := MatchSpecial(line);
      if m.None? || m.value.name != WAIT then Skip
      else
        var n := Stoi(m.value.argument);
        if n.None? then StoiThrows else Pause(ToU32(n.value))
  }

  /** The commands of one line, None when std::stoi throws. */
  function LineCommands(line: string, action: LineAction): (r: Option<seq<Command>>)
    ensures r.None? <==> action.StoiThrows?
  {
    match action
    case Send => Some([Write(line)])
    case Skip => Some([])
    case Pause(ms) => Some(WaitCommands(ms))
    case StoiThrows => None
  }

  /** The outcome of parsing lines: the commands built and whether no exception escaped. */
  datatype Built = Built(commands: seq<Command>, finished: bool)

  /**
   * The commands of the lines in order. An exception from std::stoi leaves
   * parseCommands at that line, with the commands of the earlier lines kept.
   */
  function Build(action: string -> LineAction, lines: seq<string>): (r: Built)
  {
    if lines == [] then Built([], true)
    else
      var here := LineCommands(lines[0], action(lines[0]));
      if here.None? then Built([], false)
      else
        var rest := Build(action, lines[1..]);
        Built(here.value + rest.commands, rest.finished)
  }

  /** One line of the parse loop, in the shape the loop needs. */
  lemma BuildStep(action: string -> LineAction, lines: seq<string>, i: nat)
    requires i < |lines|
    ensures var here := LineCommands(lines[i], action(lines[i]));
      && (here.None? ==> Build(action, lines[i..]) == Built([], false))
      && (here.Some? ==>
            Build(action, lines[i..])
            == Built(here.value + Build(action, lines[i + 1..]).commands, Build(action, lines[i + 1..]).finished))
  {
    assert lines[i..][0] == lines[i] && lines[i..][1..] == lines[i + 1..];
  }

  /** The parse loop goes on after a line that raised no exception. */
  lemma ParseGoesOn(action: string -> LineAction, lines: seq<string>, i: nat, before: seq<Command>, after: seq<Command>)
    requires i < |lines| && LineCommands(lines[i], action(lines[i])).Some?
    requires after == before + LineCommands(lines[i], action(lines[i])).value
    ensures after + Build(action, lines[i + 1..]).commands == before + Build(action, lines[i..]).commands
    ensures Build(action, lines[i + 1..]).finished == Build(action, lines[i..]).finished
  {
    BuildStep(action, lines, i);
    var here := LineCommands(lines[i], action(lines[i])).value;
    assert before + (here + Build(action, lines[i + 1..]).commands) == (before + here) + Build(action, lines[i + 1..]).commands;
  }

  /** The parse loop stops at a line where std::stoi throws. */
  lemma ParseStopped(lines: seq<string>, i: nat)
    requires i < |lines| && LineCommands(lines[i], Action(lines[i])).None?
    ensures Build(Action, lines[i..]) == Built([], false)
  {
    BuildStep(Action, lines, i);
  }

  /** Lines without the "__" prefix become one writer call each, in order, and no exception is raised. */
  lemma {:induction false} PlainLinesBuild(lines: seq<string>)
    requires forall i :: 0 <= i < |lines| ==> !IsSpecialCommand(lines[i])
    ensures Build(Action, lines) == Built(seq(|lines|, i requires 0 <= i < |lines| => Write(lines[i])), true)
  {
    if lines != [] {
      assert Action(lines[0]) == Send;
      PlainLinesBuild(lines[1..]);
    }
  }

  /** Only `__wait` is understood: any other special line is consumed without a command. */
  lemma OtherSpecialLine(line: string)
    requires IsSpecialCommand(line)
    requires MatchSpecial(line).None? || MatchSpecial(line).value.name != WAIT
    ensures LineCommands(line, Action(line)) == Some([])
  {
  }

  /**
   * `__wait(N)` with a negative N does not wait for nothing: the value is
   * converted to uint32_t, so the pause is N + 2^32 ms, more than 2^31 ms.
   */
  lemma NegativeWait(line: string)
    requires IsSpecialCommand(line) && MatchSpecial(line).Some? && MatchSpecial(line).value.name == WAIT
    requires Stoi(MatchSpecial(line).value.argument).Some? && Stoi(MatchSpecial(line).value.argument).value < 0
    ensures Action(line) == Pause(Stoi(MatchSpecial(line).value.argument).value + TWO_32)
    ensures Action(line).ms >= TWO_32 / 2
  {
    var n := Stoi(MatchSpecial(line).value.argument).value;
    assert Action(line) == Pause(ToU32(n));
  }

  /** The index of the first command that fails, or the number of commands when none does. */
  function FirstFailure(commands: seq<Command>, writer: string -> bool): (k: nat)
    ensures k <= |commands|
    ensures forall j :: 0 <= j < k ==> Outcome(commands[j], writer)
    ensures k < |commands| ==> !Outcome(commands[k], writer)
  {
    if commands == [] then 0
    else if !Outcome(commands[0], writer) then 0
    else 1 + FirstFailure(commands[1..], writer)
  }

  function Min(a: nat, b: nat): nat
  {
    if a <= b then a else b
  }

  class Executor {
    var commands: seq<Command>
    var rawText: string
    var isRunning: bool
    var threadRunning: bool

    /** The writer and the callback are parameters of the calls that use them. */
    constructor()
      ensures commands == [] && rawText == "" && !isRunning && !threadRunning
    {
      commands, rawText, isRunning, threadRunning := [], "", false, false;
    }

    /** isExecution. */
    predicate IsExecution()
      reads this
    {
      isRunning
    }

    /**
     * execute: starts only when no execution runs. `started` says that the
     * execution thread, modelled by ThreadLoop, was launched.
     */
    method Execute() returns (started: bool)
      modifies this
      ensures started <==> !old(isRunning)
      ensures isRunning
      ensures commands == old(commands) && rawText == old(rawText) && threadRunning == old(threadRunning)
    {
      started := false;
      if !isRunning {
        isRunning := true;
        started := true;
      }
    }

    /**
     * abort: the running flag is cleared only when the thread is also
     * running; the bounded wait for the thread to finish is not modelled.
     */
    method Abort()
      modifies this
      ensures isRunning <==> old(isRunning) && !old(threadRunning)
      ensures commands == old(commands) && rawText == old(rawText) && threadRunning == old(threadRunning)
    {
      if isRunning && threadRunning {
        isRunning := false;
      }
    }

    /**
     * parseCommands: refused with 0 while an execution runs. Otherwise the
     * text is kept and its lines become commands; `finished` is false when
     * std::stoi threw, which leaves the commands of the lines before.
     */
    method ParseCommands(text: string) returns (count: nat, finished: bool)
      modifies this
      ensures old(isRunning) ==> count == 0 && finished && commands == old(commands) && rawText == old(rawText)
      ensures !old(isRunning) ==>
        && rawText == text
        && commands == Build(Action, GetlineSplit(text, '\n')).commands
        && finished == Build(Action, GetlineSplit(text, '\n')).finished
        && (finished ==> count == |commands|)
      ensures isRunning == old(isRunning) && threadRunning == old(threadRunning)
    {
      count, finished := 0, true;
      if !isRunning {
        commands := [];
        rawText := text;
        var lines := GetlineSplit(text, '\n');
        var i := 0;
        assert lines[0..] == lines;
        while i < |lines|
          invariant 0 <= i <= |lines| && rawText == text
          invariant isRunning == old(isRunning) && threadRunning == old(threadRunning)
          invariant commands + Build(Action, lines[i..]).commands == Build(Action, lines).commands
          invariant Build(Action, lines[i..]).finished == Build(Action, lines).finished
        {
          ghost var before := commands;
          var ok := ParseLine(lines[i]);
          if !ok {
            ParseStopped(lines, i);
            finished := false;
            return;
          }
          ParseGoesOn(Action, lines, i, before, commands);
          i := i + 1;
        }
        assert lines[i..] == [];
        count := |commands|;
      }
    }

    /** One round of the getline loop; false when std::stoi threw on this line. */
    method ParseLine(line: string) returns (ok: bool)
      modifies this
      ensures var here := LineCommands(line, Action(line));
        && (ok <==> here.Some?)
        && (here.Some? ==> commands == old(commands) + here.value)
        && (here.None? ==> commands == old(commands))
      ensures rawText == old(rawText) && isRunning == old(isRunning) && threadRunning == old(threadRunning)
    {
      if IsSpecialCommand(line) {
        ok := AddSpecialCommand(line);
      } else {
        commands := commands + [Write(line)];
        ok := true;
      }
    }

    /** addSpecialCommand: appends the pauses of `__wait(N)`; false stands for the exception of std::stoi. */
    method AddSpecialCommand(line: string) returns (ok: bool)
      requires IsSpecialCommand(line)
      modifies this
      ensures var here := LineCommands(line, Action(line));
        && (ok <==> here.Some?)
        && (here.Some? ==> commands == old(commands) + here.value)
        && (here.None? ==> commands == old(commands))
      ensures rawText == old(rawText) && isRunning == old(isRunning) && threadRunning == old(threadRunning)
    {
      ok := true;
      var matches := MatchSpecial(line);
      if matches.Some? && matches.value.name == WAIT {
        var n := Stoi(matches.value.argument);
        if n.None? {
          ok := false;
        } else {
          PrepareWaitCommand(ToU32(n.value));
        }
      } else {
        assert commands == old(commands) + [];
      }
    }

    /** prepareWaitCommand: 500 ms steps, then what is left. */
    method PrepareWaitCommand(time: U32)
      modifies this
      ensures commands == old(commands) + WaitCommands(time)
      ensures rawText == old(rawText) && isRunning == old(isRunning) && threadRunning == old(threadRunning)
    {
      var left: nat := time;
      while left > 0
        invariant left <= time
        invariant commands + WaitCommands(left) == old(commands) + WaitCommands(time)
        invariant rawText == old(rawText) && isRunning == old(isRunning) && threadRunning == old(threadRunning)
      {
        var timeout := MAXIMUM_WAIT_TIME;
        if left < MAXIMUM_WAIT_TIME {
          timeout := left % MAXIMUM_WAIT_TIME;
        }
        assert WaitCommands(left) == [Wait(timeout)] + WaitCommands(left - timeout);
        left := left - timeout;
        commands := commands + [Wait(timeout)];
      }
    }

    /**
     * threadLoop run to its end. Commands run in order through `writer`
     * until one fails; `abortAt` is the first round at which isExecution()
     * reads false because abort ran on the other thread (at least the number
     * of commands when there is no abort). `executed` is the number of
     * commands run and `completed` the callback's argument: true exactly when
     * every command ran and succeeded. Both flags are cleared at the end.
     */
    method ThreadLoop(writer: string -> bool, abortAt: nat) returns (executed: nat, completed: bool)
      modifies this
      ensures var stop := Min(abortAt, |commands|);
        var failure := FirstFailure(commands, writer);
        executed == if failure < stop then failure + 1 else stop
      ensures completed <==> FirstFailure(commands, writer) == |commands| && |commands| <= abortAt
      ensures !isRunning && !threadRunning
      ensures commands == old(commands) && rawText == old(rawText)
    {
      threadRunning := true;
      var it := 0;
      executed := 0;
      while it < |commands| && it < abortAt
        invariant it <= |commands| && it <= abortAt && executed == it
        invariant forall j :: 0 <= j < it ==> Outcome(commands[j], writer)
        invariant commands == old(commands) && rawText == old(rawText)
      {
        executed := executed + 1;
        if !Outcome(commands[it], writer) {
          break;
        }
        it := it + 1;
      }
      completed := it == |commands|;
      threadRunning := false;
      isRunning := false;
    }
  }
}
