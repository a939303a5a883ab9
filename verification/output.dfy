/**
 * The output buffer: lines, warnings and errors are collected while a command runs and
 * printed together by `flush`, lines passing through an optional regular-expression filter.
 */
module Output {
  import opened Wrappers
  import opened Errors
  import Strings

  /**
   * The regular-expression engine the buffer relies on: whether a pattern compiles (with the
   * error text when it does not), and whether a compiled pattern matches a line.
   */
  datatype RegexEngine = RegexEngine(
    compileError: string -> Option<string>,
    isMatch: (string, string) -> bool)

  /** Every message of `messages`, in order, behind `prefix`. */
  function Prefixed(prefix: string, messages: seq<string>): (r: seq<string>)
    ensures |r| == |messages|
    ensures forall i :: 0 <= i < |r| ==> r[i] == prefix + messages[i]
  {
    if messages == [] then [] else [prefix + messages[0]] + Prefixed(prefix, messages[1..])
  }

  /** The lines a filter lets through: those whose match result differs from `invert`. */
  function Shown(lines: seq<string>, filter: Option<(string, bool)>, engine: RegexEngine): seq<string>
  {
    if lines == [] then []
    else
      var keep := filter.None? || engine.isMatch(filter.value.0, lines[0]) != filter.value.1;
      (if keep then [lines[0]] else []) + Shown(lines[1..], filter, engine)
  }

  /** Without a filter every line is shown, in order. */
  lemma {:induction false} ShownUnfiltered(lines: seq<string>, engine: RegexEngine)
    ensures Shown(lines, None, engine) == lines
    decreases |lines|
  {
    if lines != [] {
      ShownUnfiltered(lines[1..], engine);
      assert lines == [lines[0]] + lines[1..];
    }
  }

  /** With a filter, a line is shown iff its match result differs from the invert flag. */
  lemma {:induction false} ShownMembers(lines: seq<string>, pattern: string, invert: bool, engine: RegexEngine)
    ensures forall l :: l in Shown(lines, Some((pattern, invert)), engine) <==>
      l in lines && engine.isMatch(pattern, l) != invert
    decreases |lines|
  {
    if lines != [] {
      ShownMembers(lines[1..], pattern, invert, engine);
      assert forall l :: l in lines <==> l == lines[0] || l in lines[1..];
    }
  }

  /** A filter and its inversion split the lines between them. */
  lemma {:induction false} ShownComplement(lines: seq<string>, pattern: string, engine: RegexEngine)
    ensures |Shown(lines, Some((pattern, false)), engine)| + |Shown(lines, Some((pattern, true)), engine)| == |lines|
    decreases |lines|
  {
    if lines != [] {
      ShownComplement(lines[1..], pattern, engine);
    }
  }

  /** What `flush` prints: warnings, then errors, then the lines the filter shows. */
  function Flushed(warnings: seq<string>, errors: seq<string>, lines: seq<string>,
                   filter: Option<(string, bool)>, engine: RegexEngine): seq<string>
  {
    Prefixed("Warning: ", warnings) + Prefixed("Error: ", errors) + Shown(lines, filter, engine)
  }

  class OutputBuffer {
    var lines: seq<string>
    var filter: Option<(string, bool)>
    var warnings: seq<string>
    var errors: seq<string>

    constructor ()
      ensures lines == [] && filter == None && warnings == [] && errors == []
    {
      lines := [];
      filter := None;
      warnings := [];
      errors := [];
    }

    method AddWarning(message: string)
      modifies this
      ensures warnings == old(warnings) + [message]
      ensures lines == old(lines) && errors == old(errors) && filter == old(filter)
    {
      warnings := warnings + [message];
    }

    method AddError(message: string)
      modifies this
      ensures errors == old(errors) + [message]
      ensures lines == old(lines) && warnings == old(warnings) && filter == old(filter)
    {
      errors := errors + [message];
    }

    method AppendLine(line: string)
      modifies this
      ensures lines == old(lines) + [line]
      ensures warnings == old(warnings) && errors == old(errors) && filter == old(filter)
    {
      lines := lines + [line];
    }

    /** A pattern that does not compile is a regular-expression error and leaves the filter as it was. */
    method SetFilter(pattern: string, invert: bool, engine: RegexEngine) returns (r: Outcome<AppError>)
      modifies this
      ensures engine.compileError(pattern).Some? ==>
        r == Fail(RegexError(engine.compileError(pattern).value)) && filter == old(filter)
      ensures engine.compileError(pattern).None? ==> r == Pass && filter == Some((pattern, invert))
      ensures lines == old(lines) && warnings == old(warnings) && errors == old(errors)
    {
      var problem := engine.compileError(pattern);
      if problem.Some? {
        return Fail(RegexError(problem.value));
      }
      filter := Some((pattern, invert));
      return Pass;
    }

    method ClearFilter()
      modifies this
      ensures filter == None
      ensures lines == old(lines) && warnings == old(warnings) && errors == old(errors)
    {
      filter := None;
    }

    /** Prints (returns) warnings, errors, then the shown lines; empties the three lists and keeps the filter. */
    method Flush(engine: RegexEngine) returns (printed: seq<string>)
      modifies this
      ensures printed == Flushed(old(warnings), old(errors), old(lines), old(filter), engine)
      ensures lines == [] && warnings == [] && errors == []
      ensures filter == old(filter)
    {
      var fromWarnings := PrefixEach("Warning: ", warnings);
      warnings := [];
      var fromErrors := PrefixEach("Error: ", errors);
      errors := [];
      var fromLines := FilterLines(lines, filter, engine);
      lines := [];
      printed := fromWarnings + fromErrors + fromLines;
    }
  }

  /** The loop printing one kind of message: each behind its prefix, in order. */
  method PrefixEach(prefix: string, messages: seq<string>) returns (r: seq<string>)
    ensures r == Prefixed(prefix, messages)
  {
    r := [];
    var i := 0;
    while i < |messages|
      invariant 0 <= i <= |messages|
      invariant r == Prefixed(prefix, messages[..i])
    {
      assert Prefixed(prefix, messages[..i + 1]) == Prefixed(prefix, messages[..i]) + [prefix + messages[i]];
      r := r + [prefix + messages[i]];
      i := i + 1;
    }
    assert messages[..i] == messages;
  }

  /** The loop printing the lines: those the filter lets through, in order. */
  method FilterLines(lines: seq<string>, filter: Option<(string, bool)>, engine: RegexEngine) returns (shown: seq<string>)
    ensures shown == Shown(lines, filter, engine)
  {
    shown := [];
    var i := 0;
    while i < |lines|
      invariant 0 <= i <= |lines|
      invariant Shown(lines, filter, engine) == shown + Shown(lines[i..], filter, engine)
    {
      assert lines[i..][1..] == lines[i + 1..];
      var keep := filter.None? || engine.isMatch(filter.value.0, lines[i]) != filter.value.1;
      var here := if keep then [lines[i]] else [];
      ghost var rest := Shown(lines[i + 1..], filter, engine);
      assert Shown(lines[i..], filter, engine) == here + rest;
      Strings.AppendAssoc(shown, here, rest);
      shown := shown + here;
      i := i + 1;
    }
  }

  /** `append_lines`: every line appended in order. */
  method AppendLines(buffer: OutputBuffer, items: seq<string>)
    modifies buffer
    ensures buffer.lines == old(buffer.lines) + items
    ensures buffer.warnings == old(buffer.warnings) && buffer.errors == old(buffer.errors)
    ensures buffer.filter == old(buffer.filter)
  {
    var i := 0;
    while i < |items|
      invariant 0 <= i <= |items|
      invariant buffer.lines == old(buffer.lines) + items[..i]
      invariant buffer.warnings == old(buffer.warnings) && buffer.errors == old(buffer.errors)
      invariant buffer.filter == old(buffer.filter)
    {
      assert items[..i + 1] == items[..i] + [items[i]];
      buffer.AppendLine(items[i]);
      i := i + 1;
    }
    assert items[..i] == items;
  }
}
