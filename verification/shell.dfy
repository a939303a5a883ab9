/**
 * The shell's own loop steps: splitting off the `| pattern` output filter, the prompt, finding
 * the command a line names in the command tree, and running it (or its help).
 */
module Shell {
  import opened Wrappers
  import opened Strings
  import opened Errors
  import opened Output
  import opened Commands
  import opened CommandTree
  import opened Tokenizer

  // ---------------------------------------------------------------------------------------
  // `process_filter`
  // ---------------------------------------------------------------------------------------

  /** The command text of a line and the `(pattern, invert)` filter it asks for, if any. */
  datatype FilterChoice = FilterChoice(command: string, filter: Option<(string, bool)>)

  /** The pattern and invert flag a filter text stands for: a leading `!` inverts and is dropped. */
  function PatternOf(text: string): (string, bool) {
    if StartsWith(text, "!") then (Trim(text[1..]), true) else (Trim(text), false)
  }

  /**
   * The decision `process_filter` takes: with a `|` the text before it (trimmed) is the command
   * and the text after it (trimmed) the filter; text after a second `|` plays no part.
   */
  function ParseFilter(line: string): FilterChoice {
    var parts := Split(line, '|');
    if |parts| > 1 then FilterChoice(Trim(parts[0]), Some(PatternOf(Trim(parts[1]))))
    else FilterChoice(line, None)
  }

  /** Without a `|` the line is the command, unchanged, and there is no filter. */
  lemma NoBarNoFilter(line: string)
    requires '|' !in line
    ensures ParseFilter(line) == FilterChoice(line, None)
  {
    SplitWithout(line, '|');
  }

  /** `command | filter`: the trimmed command and the filter text's pattern. */
  lemma OneBar(command: string, filter: string)
    requires '|' !in command && '|' !in filter
    ensures ParseFilter(command + "|" + filter) == FilterChoice(Trim(command), Some(PatternOf(Trim(filter))))
  {
    var line := command + "|" + filter;
    assert line == command + ['|'] + filter;
    SplitAt(command, '|', filter);
    SplitWithout(filter, '|');
    var parts := Split(line, '|');
    assert parts == [command, filter];
    assert |parts| > 1 && parts[0] == command && parts[1] == filter;
  }

  /** `command | filter | rest`: whatever follows the second `|` is dropped. */
  lemma SecondBarDropped(command: string, filter: string, rest: string)
    requires '|' !in command && '|' !in filter
    ensures ParseFilter(command + "|" + filter + "|" + rest) == FilterChoice(Trim(command), Some(PatternOf(Trim(filter))))
  {
    assert command + "|" + filter + "|" + rest == command + ['|'] + (filter + ['|'] + rest);
    SplitAt(command, '|', filter + ['|'] + rest);
    SplitAt(filter, '|', rest);
  }

  /** An inverted filter's pattern is the text after the `!`, trimmed again; either way the pattern has no surrounding whitespace. */
  lemma PatternTrimmed(text: string)
    ensures var (pattern, invert) := PatternOf(text);
      (invert <==> StartsWith(text, "!"))
      && (pattern == [] || (!IsSpace(pattern[0]) && !IsSpace(pattern[|pattern| - 1])))
      && (invert ==> pattern == Trim(text[1..]))
  {
  }

  /**
   * `process_filter`: sets the buffer's filter when the line has one (failing when the pattern
   * does not compile), clears it otherwise, and hands back the command text.
   */
  method ProcessFilter(line: string, out: OutputBuffer, engine: RegexEngine) returns (r: Result<string, AppError>)
    modifies out
    ensures var choice := ParseFilter(line);
      && (choice.filter.None? ==> r == Success(line) && out.filter == None)
      && (choice.filter.Some? && engine.compileError(choice.filter.value.0).Some? ==>
            r == Failure(RegexError(engine.compileError(choice.filter.value.0).value)) && out.filter == old(out.filter))
      && (choice.filter.Some? && engine.compileError(choice.filter.value.0).None? ==>
            r == Success(choice.command) && out.filter == choice.filter)
    ensures out.lines == old(out.lines) && out.warnings == old(out.warnings) && out.errors == old(out.errors)
  {
    var parts := Split(line, '|');
    if |parts| > 1 {
      var filter := Trim(parts[1]);
      var invert, pattern;
      if StartsWith(filter, "!") {
        invert, pattern := true, Trim(filter[1..]);
      } else {
        invert, pattern := false, Trim(filter);
      }
      var applied := out.SetFilter(pattern, invert, engine);
      if applied.Fail? {
        return Failure(applied.error);
      }
      return Success(Trim(parts[0]));
    } else {
      out.ClearFilter();
      return Success(line);
    }
  }

  // ---------------------------------------------------------------------------------------
  // `prompt`
  // ---------------------------------------------------------------------------------------

  /** `"{username}@{hostname}:{port} > "`. */
  function Prompt(username: string, hostname: string, port: nat): string {
    username + "@" + hostname + ":" + NatToString(port) + " > "
  }

  /** The parts of a prompt can be read back: the user before the `@`, the host before the `:`, the port in decimal. */
  lemma PromptParts(username: string, hostname: string, port: nat)
    requires '@' !in username && '@' !in hostname && ':' !in hostname
    ensures Split(Prompt(username, hostname, port), '@') == [username, hostname + ":" + NatToString(port) + " > "]
    ensures Split(hostname + ":" + NatToString(port) + " > ", ':') == [hostname, NatToString(port) + " > "]
    ensures EndsWith(Prompt(username, hostname, port), " > ")
  {
    var digits := NatToString(port);
    var tail := hostname + ":" + digits + " > ";
    DigitsHaveNoSeparators(port);
    assert '@' !in tail by {
      assert tail == hostname + ":" + (digits + " > ");
    }
    assert Prompt(username, hostname, port) == username + ['@'] + tail;
    SplitAt(username, '@', tail);
    SplitWithout(tail, '@');
    HostPortSplit(hostname, digits);
  }

  /** A number's digits hold neither separator of the prompt. */
  lemma DigitsHaveNoSeparators(port: nat)
    ensures '@' !in NatToString(port) + " > " && ':' !in NatToString(port) + " > "
  {
    var digits := NatToString(port);
    assert forall i :: 0 <= i < |digits| ==> IsDigit(digits[i]);
    assert forall i :: 0 <= i < |digits + " > "| ==> (digits + " > ")[i] != '@' && (digits + " > ")[i] != ':';
  }

  /** The host and the port part split at the one colon. */
  lemma HostPortSplit(hostname: string, digits: string)
    requires ':' !in hostname && ':' !in digits + " > "
    ensures Split(hostname + ":" + digits + " > ", ':') == [hostname, digits + " > "]
  {
    var after := digits + " > ";
    assert hostname + ":" + digits + " > " == hostname + [':'] + after;
    SplitAt(hostname, ':', after);
    SplitWithout(after, ':');
  }

  // ---------------------------------------------------------------------------------------
  // `find_command`
  // ---------------------------------------------------------------------------------------

  /** What `find_command` returns: the command found and the name it was found under, or neither. */
  datatype Found = Found(command: Option<CommandInfo>, name: Option<string>)

  /** The outcome the walk over `parts` stands for. */
  function FindSpec(t: Tree, parts: seq<string>): (r: Result<Found, AppError>)
    ensures r.Failure? <==> Walk(t, parts, 0).stop.Unknown?
    ensures r.Success? ==> (r.value.command.Some? <==> r.value.name.Some?)
  {
    var w := Walk(t, parts, 0);
    match w.stop
    case Exhausted => Success(Found(None, None))
    case AtCommand(name, command, _) => Success(Found(Some(command), Some(name)))
    case Unknown(part) => Failure(CommandNotFound("Command not found: " + part))
  }

  /**
   * `find_command`: descends through scope names, pushing each onto the context, and stops at
   * the first command; an unknown word is an error (the scopes passed before it stay pushed);
   * a line of scope names only finds nothing, without an error.
   */
  method FindCommand(cli: CommandList, parts: seq<string>, context: seq<string>)
    returns (r: Result<Found, AppError>, newContext: seq<string>)
    ensures r == FindSpec(cli.Model(), parts)
    ensures newContext == context + Walk(cli.Model(), parts, 0).path
  {
    var root := cli.Model();
    ghost var w0 := Walk(root, parts, 0);
    var current := root;
    newContext := context;
    var i := 0;
    while i < |parts|
      invariant 0 <= i <= |parts|
      invariant w0.stop == Walk(current, parts, i).stop
      invariant |w0.path| == i + |Walk(current, parts, i).path|
      invariant newContext == context + parts[..i]
    {
      var part := parts[i];
      var scope := current.GetScope(part);
      if scope.Some? {
        WalkIntoScope(current, parts, i);
        assert parts[..i + 1] == parts[..i] + [part];
        newContext := newContext + [part];
        current := scope.value;
        i := i + 1;
      } else {
        WalkStopsHere(current, parts, i);
        var command := current.GetCommand(part);
        if command.Some? {
          return Success(Found(Some(command.value), Some(part))), newContext;
        }
        return Failure(CommandNotFound("Command not found: " + part)), newContext;
      }
    }
    return Success(Found(None, None)), newContext;
  }

  /** A scope name moves the walk one word on, into that scope. */
  lemma WalkIntoScope(t: Tree, parts: seq<string>, i: nat)
    requires i < |parts| && parts[i] in t.scopes
    ensures Walk(t, parts, i).stop == Walk(t.scopes[parts[i]], parts, i + 1).stop
    ensures |Walk(t, parts, i).path| == 1 + |Walk(t.scopes[parts[i]], parts, i + 1).path|
  {
  }

  /** Any other word ends the walk where it stands. */
  lemma WalkStopsHere(t: Tree, parts: seq<string>, i: nat)
    requires i < |parts| && parts[i] !in t.scopes
    ensures Walk(t, parts, i).path == []
    ensures parts[i] in t.commands ==> Walk(t, parts, i).stop == AtCommand(parts[i], t.commands[parts[i]], i)
    ensures parts[i] !in t.commands ==> Walk(t, parts, i).stop == Unknown(parts[i])
  {
  }

  /** Every word before the one found is a scope name: the context grows by exactly those, in order. */
  lemma FoundAfterScopes(t: Tree, parts: seq<string>)
    ensures Walk(t, parts, 0).path == parts[..|Walk(t, parts, 0).path|]
    ensures Descend(t, Walk(t, parts, 0).path) == Some(Walk(t, parts, 0).scope)
    ensures FindSpec(t, parts).Success? && FindSpec(t, parts).value.name.Some? ==>
      FindSpec(t, parts).value.name.value == parts[|Walk(t, parts, 0).path|]
  {
    WalkDescends(t, parts, 0);
  }

  // ---------------------------------------------------------------------------------------
  // `execute_command` and `handle_command`
  // ---------------------------------------------------------------------------------------

  /**
   * A command's `execute`, which talks to the server: given its tokens it passes or fails.
   * Its effect on the output is not part of this model; `describe` is the `{:?}` rendering of an error.
   */
  datatype Runner = Runner(execute: (CommandInfo, Tokens) -> Outcome<AppError>, describe: AppError -> string)

  /** Either option spelling of `help` on the line asks for help instead of running the command. */
  predicate WantsHelp(tokens: Tokens) {
    "help" in tokens.options || "h" in tokens.options
  }

  /** A failed `execute`, wrapped as the shell reports it. */
  function ExecutionFailure(runner: Runner, error: AppError): AppError {
    CommandExecutionError("Error executing command: " + runner.describe(error))
  }

  /** What running a found command comes to: its outcome and the lines it adds to the output. */
  datatype Execution = Execution(outcome: Outcome<AppError>, shown: seq<string>)

  /**
   * `execute_command` as a value: a tokenizer error is returned with nothing shown; with
   * `help`/`h` among the options the help text is shown and the outcome passes; otherwise the
   * runner's outcome decides, a failure wrapped, and nothing is shown.
   */
  function Executed(command: CommandInfo, name: string, line: string, context: seq<string>,
                    split: Splitter, remote: Remote, runner: Runner): (e: Execution)
    ensures var tokens := TokenizeLine(line, split, remote);
      && (tokens.Failure? ==> e == Execution(Fail(tokens.error), []))
      && (tokens.Success? && WantsHelp(tokens.value) ==>
            e == Execution(Pass, Lines(HelpText(command, name, context))))
      && (tokens.Success? && !WantsHelp(tokens.value) ==>
            && e.shown == []
            && (runner.execute(command, tokens.value).Pass? <==> e.outcome == Pass)
            && (runner.execute(command, tokens.value).Fail? ==>
                  e.outcome == Fail(ExecutionFailure(runner, runner.execute(command, tokens.value).error))))
  {
    var tokens := TokenizeLine(line, split, remote);
    if tokens.Failure? then Execution(Fail(tokens.error), [])
    else if WantsHelp(tokens.value) then Execution(Pass, Lines(HelpText(command, name, context)))
    else
      match runner.execute(command, tokens.value)
      case Pass => Execution(Pass, [])
      case Fail(error) => Execution(Fail(ExecutionFailure(runner, error)), [])
  }

  /**
   * `execute_command`: tokenizes the line; with `help`/`h` among the options the command's help
   * is shown, otherwise the command runs and its failure is wrapped.
   */
  method ExecuteCommand(command: CommandInfo, name: string, line: string, context: seq<string>,
                        split: Splitter, remote: Remote, runner: Runner, out: OutputBuffer)
    returns (r: Outcome<AppError>)
    modifies out
    ensures var e := Executed(command, name, line, context, split, remote, runner);
      r == e.outcome && out.lines == old(out.lines) + e.shown
    ensures out.warnings == old(out.warnings) && out.errors == old(out.errors) && out.filter == old(out.filter)
  {
    var tokens := NewTokenizer(line, split, remote);
    if tokens.Failure? {
      return Fail(tokens.error);
    }
    if "help" in tokens.value.options || "h" in tokens.value.options {
      Help(command, name, context, out);
      return Pass;
    }
    var outcome := runner.execute(command, tokens.value);
    if outcome.Fail? {
      return Fail(ExecutionFailure(runner, outcome.error));
    }
    return Pass;
  }

  /** The warning for a line that names only scopes. */
  function NotFoundWarning(parts: seq<string>): string {
    "Command not found: " + Join(parts, " ")
  }

  /**
   * `handle_command`: a line that cannot be split is a parse error, an empty line does nothing,
   * a line naming only scopes is a warning, and a line naming a command runs it. The context
   * grows by the scopes the walk passed, even when the walk then fails.
   */
  method HandleCommand(cli: CommandList, line: string, context: seq<string>,
                       split: Splitter, remote: Remote, runner: Runner, out: OutputBuffer)
    returns (r: Outcome<AppError>, newContext: seq<string>)
    modifies out
    ensures split(line).None? ==>
      r == Fail(ParseError("Parsing input failed")) && newContext == context && out.lines == old(out.lines)
      && out.warnings == old(out.warnings)
    ensures split(line) == Some([]) ==>
      r == Pass && newContext == context && out.lines == old(out.lines) && out.warnings == old(out.warnings)
    ensures split(line).Some? && split(line).value != [] ==>
      var parts := split(line).value;
      && newContext == context + Walk(cli.Model(), parts, 0).path
      && (FindSpec(cli.Model(), parts).Failure? ==>
            r == Fail(FindSpec(cli.Model(), parts).error) && out.lines == old(out.lines) && out.warnings == old(out.warnings))
      && (FindSpec(cli.Model(), parts) == Success(Found(None, None)) ==>
            r == Pass && out.lines == old(out.lines) && out.warnings == old(out.warnings) + [NotFoundWarning(parts)])
      && (Walk(cli.Model(), parts, 0).stop.AtCommand? ==>
            var found := FindSpec(cli.Model(), parts).value;
            var e := Executed(found.command.value, found.name.value, line, newContext, split, remote, runner);
            r == e.outcome && out.lines == old(out.lines) + e.shown && out.warnings == old(out.warnings))
    ensures out.errors == old(out.errors) && out.filter == old(out.filter)
  {
    var parsed := split(line);
    if parsed.None? {
      return Fail(ParseError("Parsing input failed")), context;
    }
    var parts := parsed.value;
    if parts == [] {
      return Pass, context;
    }
    var found;
    found, newContext := FindCommand(cli, parts, context);
    if found.Failure? {
      return Fail(found.error), newContext;
    }
    if found.value.command.Some? {
      r := ExecuteCommand(found.value.command.value, found.value.name.value, line, newContext, split, remote, runner, out);
    } else {
      out.AddWarning(NotFoundWarning(parts));
      r := Pass;
    }
  }
}
