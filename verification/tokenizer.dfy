/**
 * The command-line tokenizer: an already shell-split token list becomes a command name,
 * a list of scopes and a map from dash-stripped option keys to values.
 */
module Tokenizer {
  import opened Wrappers
  import opened Strings
  import opened Errors

  /** What the tokenizer produced: the struct's three fields, read through its accessors. */
  datatype Tokens = Tokens(scopes: seq<string>, command: string, options: map<string, string>)

  /**
   * The outside world a value can be fetched from: an HTTP GET of a URL returning the body,
   * and a file read of a path returning its contents, each with its error text.
   */
  datatype Remote = Remote(httpGet: string -> Result<string, string>, readFile: string -> Result<string, string>)

  /** The shell-style splitter the line is handed to; None when the line cannot be split. */
  type Splitter = string -> Option<seq<string>>

  predicate IsRemote(value: string) {
    StartsWith(value, "http://") || StartsWith(value, "https://") || StartsWith(value, "file://")
  }

  /** Values naming a URL or a file are replaced by what they point at, trailing whitespace trimmed. */
  function ConvertValue(value: string, remote: Remote): (r: Result<string, AppError>)
    ensures !IsRemote(value) ==> r == Success(value)
    ensures r.Failure? ==> r.error.HttpError? || r.error.IoError?
    ensures (StartsWith(value, "http://") || StartsWith(value, "https://")) && remote.httpGet(value).Failure?
      ==> r == Failure(HttpError(remote.httpGet(value).error))
    ensures (!StartsWith(value, "http://") && !StartsWith(value, "https://") && StartsWith(value, "file://")
        && remote.readFile(value[7..]).Failure?)
      ==> r == Failure(IoError(remote.readFile(value[7..]).error))
    ensures (StartsWith(value, "http://") || StartsWith(value, "https://")) && remote.httpGet(value).Success?
      ==> r == Success(TrimEnd(remote.httpGet(value).value))
    ensures (!StartsWith(value, "http://") && !StartsWith(value, "https://") && StartsWith(value, "file://")
        && remote.readFile(value[7..]).Success?)
      ==> r == Success(TrimEnd(remote.readFile(value[7..]).value))
    ensures r.Success? && IsRemote(value) ==> r.value == TrimEnd(r.value)
  {
    if StartsWith(value, "http://") || StartsWith(value, "https://") then
      match remote.httpGet(value)
      case Failure(e) => Failure(HttpError(e))
      case Success(body) => Success(TrimEnd(body))
    else if StartsWith(value, "file://") then
      match remote.readFile(value[7..])
      case Failure(e) => Failure(IoError(e))
      case Success(text) => Success(TrimEnd(text))
    else Success(value)
  }

  predicate IsOption(token: string) {
    StartsWith(token, "-")
  }

  /** The map key of an option token: two dashes stripped from "--key", one from "-k". */
  function OptionKey(token: string): (k: string)
    requires IsOption(token)
    ensures StartsWith(token, "--") ==> token == "--" + k
    ensures !StartsWith(token, "--") ==> token == "-" + k
  {
    if StartsWith(token, "--") then token[2..] else token[1..]
  }

  /** Options are read as key/value pairs; the token after a key is always its value. */
  function ParseOptions(ts: seq<string>, options: map<string, string>, remote: Remote): Result<map<string, string>, AppError>
    decreases |ts|
  {
    if ts == [] then Success(options)
    else if !IsOption(ts[0]) then Failure(InvalidInput)
    else if |ts| == 1 then Failure(InvalidOption("Option without value"))
    else
      match ConvertValue(ts[1], remote)
      case Failure(e) => Failure(e)
      case Success(v) => ParseOptions(ts[2..], options[OptionKey(ts[0]) := v], remote)
  }

  /** The command and scopes gathered from the tokens before the first option, in reading order. */
  function Head(ts: seq<string>): (string, seq<string>)
    decreases |ts|
  {
    if ts == [] then ("", [])
    else
      var (command, scopes) := Head(ts[..|ts| - 1]);
      var token := ts[|ts| - 1];
      if command == "" then (token, scopes) else (command, scopes + [token])
  }

  /** The position of the first option-shaped token, or the length when there is none. */
  function FirstOption(ts: seq<string>): (i: nat)
    ensures i <= |ts|
    ensures forall k :: 0 <= k < i ==> !IsOption(ts[k])
    ensures i < |ts| ==> IsOption(ts[i])
  {
    if ts == [] then 0 else if IsOption(ts[0]) then 0 else 1 + FirstOption(ts[1..])
  }

  /** The tokenizer over an already split token list. */
  function Tokenize(ts: seq<string>, remote: Remote): Result<Tokens, AppError> {
    var i := FirstOption(ts);
    var (command, scopes) := Head(ts[..i]);
    if i < |ts| && command == "" then Failure(InvalidInput)
    else
      match ParseOptions(ts[i..], map[], remote)
      case Failure(e) => Failure(e)
      case Success(options) => Success(Tokens(scopes, command, options))
  }

  /** `CommandTokenizer::new`: split the line, then tokenize; an unsplittable line is invalid input. */
  function TokenizeLine(input: string, split: Splitter, remote: Remote): (r: Result<Tokens, AppError>)
    ensures split(input).None? ==> r == Failure(InvalidInput)
    ensures split(input).Some? ==> r == Tokenize(split(input).value, remote)
  {
    match split(input)
    case None => Failure(InvalidInput)
    case Some(ts) => Tokenize(ts, remote)
  }

  /**
   * The first loop of `CommandTokenizer::new`: bare tokens fill the command, then the scopes,
   * until the first option; an option while the command is still empty is invalid input.
   */
  method ScanCommand(tokens: seq<string>) returns (r: Result<(nat, string, seq<string>), AppError>)
    ensures var i := FirstOption(tokens);
      var (command, scopes) := Head(tokens[..i]);
      r == if i < |tokens| && command == "" then Failure(InvalidInput) else Success((i, command, scopes))
  {
    var command: string := "";
    var scopes: seq<string> := [];
    var i := 0;
    while i < |tokens| && !IsOption(tokens[i])
      invariant 0 <= i <= |tokens|
      invariant forall k :: 0 <= k < i ==> !IsOption(tokens[k])
      invariant (command, scopes) == Head(tokens[..i])
    {
      assert tokens[..i + 1][..i] == tokens[..i];
      if command == "" {
        command := tokens[i];
      } else {
        scopes := scopes + [tokens[i]];
      }
      i := i + 1;
    }
    FirstOptionAt(tokens, i);
    if i < |tokens| && command == "" {
      return Failure(InvalidInput);
    }
    return Success((i, command, scopes));
  }

  /** The second loop: the remaining tokens are read as key/value pairs into the map. */
  method ReadOptions(tokens: seq<string>, i: nat, remote: Remote) returns (r: Result<map<string, string>, AppError>)
    requires i <= |tokens|
    ensures r == ParseOptions(tokens[i..], map[], remote)
  {
    var options: map<string, string> := map[];
    var j := i;
    while j < |tokens|
      invariant i <= j <= |tokens|
      invariant ParseOptions(tokens[i..], map[], remote) == ParseOptions(tokens[j..], options, remote)
      decreases |tokens| - j
    {
      var key := tokens[j];
      if !IsOption(key) {
        return Failure(InvalidInput);
      }
      if j + 1 == |tokens| {
        return Failure(InvalidOption("Option without value"));
      }
      var converted := ConvertValue(tokens[j + 1], remote);
      if converted.Failure? {
        return Failure(converted.error);
      }
      assert tokens[j..][2..] == tokens[j + 2..];
      options := options[OptionKey(key) := converted.value];
      j := j + 2;
    }
    return Success(options);
  }

  /** `CommandTokenizer::new`: split the line, scan the command and scopes, then read the options. */
  method NewTokenizer(input: string, split: Splitter, remote: Remote) returns (r: Result<Tokens, AppError>)
    ensures r == TokenizeLine(input, split, remote)
  {
    var parsed := split(input);
    if parsed.None? {
      return Failure(InvalidInput);
    }
    var head := ScanCommand(parsed.value);
    if head.Failure? {
      return Failure(head.error);
    }
    var (i, command, scopes) := head.value;
    var options := ReadOptions(parsed.value, i, remote);
    if options.Failure? {
      return Failure(options.error);
    }
    return Success(Tokens(scopes, command, options.value));
  }

  /** The index where the first loop stops is the first option. */
  lemma FirstOptionAt(ts: seq<string>, i: nat)
    requires i <= |ts|
    requires forall k :: 0 <= k < i ==> !IsOption(ts[k])
    requires i < |ts| ==> IsOption(ts[i])
    ensures FirstOption(ts) == i
  {
  }

  /** The position of the first non-empty token, or the length when every token is empty. */
  function FirstNonEmpty(ts: seq<string>): (j: nat)
    ensures j <= |ts|
    ensures forall k :: 0 <= k < j ==> ts[k] == ""
    ensures j < |ts| ==> ts[j] != ""
  {
    if ts == [] then 0 else if ts[0] != "" then 0 else 1 + FirstNonEmpty(ts[1..])
  }

  /**
   * The first non-empty bare token is the command and every bare token after it, empty or
   * not, is a scope, in order; empty tokens before the command are dropped.
   */
  lemma {:induction false} HeadShape(ts: seq<string>)
    ensures var j := FirstNonEmpty(ts);
      Head(ts) == if j == |ts| then ("", []) else (ts[j], ts[j + 1..])
    decreases |ts|
  {
    if ts != [] {
      var init := ts[..|ts| - 1];
      HeadShape(init);
      var j := FirstNonEmpty(ts);
      var j0 := FirstNonEmpty(init);
      var last := ts[|ts| - 1];
      assert forall k :: 0 <= k < |init| ==> init[k] == ts[k];
      if j0 < |init| {
        assert ts[j0] != "";
        assert j == j0;
        assert Head(init) == (init[j0], init[j0 + 1..]);
        assert ts[j + 1..] == init[j0 + 1..] + [last];
      } else {
        assert Head(init) == ("", []);
        assert j >= j0;
        if last == "" {
          assert j == |ts|;
        } else {
          assert j == |init|;
        }
      }
    }
  }

  /** The first bare token of a split line is the command and the following ones are scopes, up to the first option. */
  lemma CommandThenScopes(ts: seq<string>, remote: Remote)
    requires |ts| > 0 && ts[0] != ""
    requires Tokenize(ts, remote).Success?
    ensures var i := FirstOption(ts);
      Tokenize(ts, remote).value.command == ts[0] && Tokenize(ts, remote).value.scopes == ts[1..i]
  {
    var i := FirstOption(ts);
    var pre := ts[..i];
    HeadShape(pre);
    assert pre == [] ==> Head(pre) == ("", []);
    assert i > 0;
    assert FirstNonEmpty(pre) == 0;
    assert pre[1..] == ts[1..i];
  }

  /** An option before any command token is invalid input. */
  lemma OptionBeforeCommand(ts: seq<string>, remote: Remote)
    requires |ts| > 0 && IsOption(ts[0])
    ensures Tokenize(ts, remote) == Failure(InvalidInput)
  {
    assert ts[..0] == [];
  }

  /** Reading an even-length prefix of pairs first and then the rest is the same as reading both at once. */
  lemma {:induction false} ParseOptionsAppend(a: seq<string>, b: seq<string>, options: map<string, string>, remote: Remote)
    requires |a| % 2 == 0
    ensures ParseOptions(a + b, options, remote) ==
      match ParseOptions(a, options, remote)
      case Failure(e) => Failure(e)
      case Success(m) => ParseOptions(b, m, remote)
    decreases |a|
  {
    if a == [] {
      assert a + b == b;
    } else {
      assert (a + b)[0] == a[0] && (a + b)[1] == a[1];
      assert (a + b)[2..] == a[2..] + b;
      if IsOption(a[0]) && ConvertValue(a[1], remote).Success? {
        ParseOptionsAppend(a[2..], b, options[OptionKey(a[0]) := ConvertValue(a[1], remote).value], remote);
      }
    }
  }

  /** A repeated key keeps the value given last. */
  lemma LastValueWins(a: seq<string>, key: string, value: string, options: map<string, string>, remote: Remote)
    requires |a| % 2 == 0 && IsOption(key) && !IsRemote(value)
    requires ParseOptions(a, options, remote).Success?
    ensures ParseOptions(a + [key, value], options, remote).Success?
    ensures ParseOptions(a + [key, value], options, remote).value ==
      ParseOptions(a, options, remote).value[OptionKey(key) := value]
  {
    ParseOptionsAppend(a, [key, value], options, remote);
    var m := ParseOptions(a, options, remote).value;
    assert [key, value][2..] == [];
  }

  /** A key with nothing after it is an option without value. */
  lemma KeyWithoutValue(a: seq<string>, key: string, options: map<string, string>, remote: Remote)
    requires |a| % 2 == 0 && IsOption(key)
    requires ParseOptions(a, options, remote).Success?
    ensures ParseOptions(a + [key], options, remote) == Failure(InvalidOption("Option without value"))
  {
    ParseOptionsAppend(a, [key], options, remote);
  }

  /** A bare token where a key belongs is invalid input, whatever follows it. */
  lemma BareTokenInKeyPosition(a: seq<string>, token: string, rest: seq<string>, options: map<string, string>, remote: Remote)
    requires |a| % 2 == 0 && !IsOption(token)
    requires ParseOptions(a, options, remote).Success?
    ensures ParseOptions(a + [token] + rest, options, remote) == Failure(InvalidInput)
  {
    assert a + [token] + rest == a + ([token] + rest);
    ParseOptionsAppend(a, [token] + rest, options, remote);
  }

  /** The token after a key is its value even when it starts with a dash. */
  lemma DashedValueIsValue(key: string, value: string, remote: Remote)
    requires IsOption(key) && IsOption(value)
    ensures ParseOptions([key, value], map[], remote) == Success(map[OptionKey(key) := value])
  {
    assert !IsRemote(value) by {
      assert value[0] == '-';
    }
    assert [key, value][2..] == [];
  }

  /** "class info --name acme": the first word is the command, "info" a scope, "name" the key. */
  lemma ExampleLine(remote: Remote)
    ensures Tokenize(["class", "info", "--name", "acme"], remote)
      == Success(Tokens(["info"], "class", map["name" := "acme"]))
  {
    var ts := ["class", "info", "--name", "acme"];
    assert !IsOption(ts[0]) by { assert ts[0][..1] == "c"; }
    assert !IsOption(ts[1]) by { assert ts[1][..1] == "i"; }
    FirstOptionAt(ts, 2);
    assert ts[..2] == ["class", "info"];
    assert ts[..2][..1] == ["class"];
    assert ts[..2][..1][..0] == [];
    assert ts[2..] == ["--name", "acme"];
    assert ts[2..][2..] == [];
    assert !IsRemote("acme");
    assert StartsWith("--name", "--");
    assert OptionKey("--name") == "name";
    var pre := ts[..2];
    assert pre[..1] == ["class"] && pre[1] == "info";
    assert Head(["class"][..0]) == ("", []);
    assert Head(["class"]) == ("class", []);
    assert Head(pre) == ("class", [] + ["info"]);
    assert [] + ["info"] == ["info"];
    assert FirstOption(ts) == 2;
    assert ConvertValue("acme", remote) == Success("acme");
    assert ParseOptions(ts[2..], map[], remote) == Success(map["name" := "acme"]);
  }
}
