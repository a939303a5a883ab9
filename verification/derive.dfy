/**
 * What the `CliCommand` derive macro generates for a command struct, stated over an abstract
 * list of fields: one option descriptor per field and a trailing `help` option, the
 * `command_info` attribute's `key = "value"` list, and `new_from_tokens`, which validates the
 * tokens and then sets each field from the option keys that name it.
 */
module Derive {
  import opened Wrappers
  import opened Strings
  import opened Errors
  import opened Commands
  import opened CommandTree

  // ---------------------------------------------------------------------------------------
  // Fields and their descriptors
  // ---------------------------------------------------------------------------------------

  /** A field's type: a path (`Option<String>`, `i32`, ...) with its segment names, or any other type; `text` is how the type is written. */
  datatype FieldType = PathType(segments: seq<string>, text: string) | OtherType(text: string)

  /** The `#[option(...)]` attribute of a field; each entry may be left out. */
  datatype FieldOpts = FieldOpts(
    short: Option<string>,
    long: Option<string>,
    help: Option<string>,
    required: Option<bool>,
    flag: Option<bool>)

  datatype Field = Field(name: string, ty: FieldType, opts: FieldOpts)

  /** The type is optional when the last segment of its path is `Option`. */
  predicate IsOptional(ty: FieldType) {
    ty.PathType? && |ty.segments| > 0 && ty.segments[|ty.segments| - 1] == "Option"
  }

  /** The field types the command structs use, written as the macro sees them. */
  const StringType := PathType(["String"], "String")
  const OptionString := PathType(["Option"], "Option < String >")
  const OptionBool := PathType(["Option"], "Option < bool >")

  predicate IsFlag(f: Field) {
    f.opts.flag.GetOr(false)
  }

  /** The type as the help shows it: lowercased, with every space removed. */
  function TypeHelp(ty: FieldType): (r: string)
    ensures ' ' !in r
  {
    NoSpaceLeft(Lower(ty.text));
    RemoveAll(Lower(ty.text), " ")
  }

  /** Removing every space leaves none. */
  lemma {:induction false} NoSpaceLeft(s: string)
    ensures ' ' !in RemoveAll(s, " ")
    decreases |s|
  {
    if s != [] {
      if StartsWith(s, " ") {
        NoSpaceLeft(s[1..]);
      } else {
        NoSpaceLeft(s[1..]);
        assert s[0] != ' ';
      }
    }
  }

  /** The option descriptor generated for a field. */
  function Descriptor(f: Field): CliOption {
    CliOption(
      name := f.name,
      short := if f.opts.short.Some? then Some("-" + f.opts.short.value) else None,
      long := if f.opts.long.Some? then Some("--" + f.opts.long.value) else None,
      flag := IsFlag(f),
      help := f.opts.help.GetOr(""),
      fieldTypeHelp := TypeHelp(f.ty),
      required := if IsOptional(f.ty) then false else f.opts.required.GetOr(true))
  }

  /** The option appended after every field's descriptor. */
  const HelpOption := CliOption("help", Some("-h"), Some("--help"), true, "Prints help information", "bool", false)

  function Descriptors(fields: seq<Field>): (r: seq<CliOption>)
    ensures |r| == |fields|
    ensures forall i :: 0 <= i < |fields| ==> r[i] == Descriptor(fields[i])
  {
    seq(|fields|, i requires 0 <= i < |fields| => Descriptor(fields[i]))
  }

  /** `options()`: one descriptor per field, in field order, then `help`. */
  function DerivedOptions(fields: seq<Field>): seq<CliOption> {
    Descriptors(fields) + [HelpOption]
  }

  /** Every list ends with the help option: `-h`/`--help`, a flag, never required, of type `bool`. */
  lemma EndsWithHelp(fields: seq<Field>)
    ensures var opts := DerivedOptions(fields);
      |opts| == |fields| + 1 && opts[|opts| - 1] == HelpOption
      && HelpOption.short == Some("-h") && HelpOption.long == Some("--help")
      && HelpOption.flag && !HelpOption.required && HelpOption.fieldTypeHelp == "bool"
  {
  }

  /**
   * The required rule: an `Option` field is never required, whatever its attribute says; any
   * other field is required unless its attribute says `required = false`. A flag is one only
   * when the attribute says so.
   */
  lemma RequiredRule(fields: seq<Field>, i: nat)
    requires i < |fields|
    ensures var o := DerivedOptions(fields)[i];
      && (IsOptional(fields[i].ty) ==> !o.required)
      && (!IsOptional(fields[i].ty) ==> (o.required <==> fields[i].opts.required != Some(false)))
      && (o.flag <==> fields[i].opts.flag == Some(true))
  {
    assert DerivedOptions(fields)[i] == Descriptor(fields[i]);
  }

  /** The generated aliases carry their dashes, and stripping them gives back the attribute's text. */
  lemma AliasesRoundTrip(f: Field)
    ensures AliasesWellFormed(Descriptor(f))
    ensures ShortWithoutDash(Descriptor(f)) == f.opts.short
    ensures LongWithoutDashes(Descriptor(f)) == f.opts.long
    ensures Descriptor(f).short.Some? ==> StartsWith(Descriptor(f).short.value, "-")
  {
    var o := Descriptor(f);
    if f.opts.short.Some? {
      assert o.short.value[1..] == f.opts.short.value;
    }
    if f.opts.long.Some? {
      assert o.long.value[2..] == f.opts.long.value;
    }
  }

  /** Every derived list can be validated: each alias is long enough to have its dashes cut off. */
  lemma DerivedWellFormed(fields: seq<Field>)
    ensures AllWellFormed(DerivedOptions(fields))
    ensures AliasesDashed(DerivedOptions(fields))
  {
    var opts := DerivedOptions(fields);
    forall i | 0 <= i < |opts|
      ensures AliasesWellFormed(opts[i])
      ensures opts[i].short.Some? ==> StartsWith(opts[i].short.value, "-")
    {
      if i < |fields| {
        AliasesRoundTrip(fields[i]);
      }
    }
  }

  // ---------------------------------------------------------------------------------------
  // The `command_info` attribute
  // ---------------------------------------------------------------------------------------

  /** The tokens of an attribute's argument list, as far as the parser tells them apart. */
  datatype AttrToken = Ident(name: string) | Equals | Literal(value: string) | Comma | Other(text: string)

  /** The three texts a command can describe itself with. */
  datatype InfoAttrs = InfoAttrs(about: Option<string>, longAbout: Option<string>, examples: Option<string>)

  const NoInfo := InfoAttrs(None, None, None)

  /** Why an attribute was rejected: an unexpected token (naming what was expected), or an unknown key. */
  datatype AttrError = Expected(what: string) | UnknownField(message: string)

  const UnknownFieldMessage := "Unknown field in command_info"

  /** Records `value` under `key`, or rejects a key that is not one of the three. */
  function Record(info: InfoAttrs, key: string, value: string): (r: Result<InfoAttrs, AttrError>)
    ensures r.Success? <==> key in {"about", "long_about", "examples"}
  {
    match key
    case "about" => Success(info.(about := Some(value)))
    case "long_about" => Success(info.(longAbout := Some(value)))
    case "examples" => Success(info.(examples := Some(value)))
    case _ => Failure(UnknownField(UnknownFieldMessage))
  }

  /** The parse of `ts` from `info` on: `ident = "literal"` items, each but the last followed by a comma. */
  function ParseInfo(ts: seq<AttrToken>, info: InfoAttrs): Result<InfoAttrs, AttrError>
    decreases |ts|
  {
    if ts == [] then Success(info)
    else if !ts[0].Ident? then Failure(Expected("identifier"))
    else if |ts| < 2 || ts[1] != Equals then Failure(Expected("`=`"))
    else if |ts| < 3 || !ts[2].Literal? then Failure(Expected("string literal"))
    else
      match Record(info, ts[0].name, ts[2].value)
      case Failure(e) => Failure(e)
      case Success(next) =>
        if |ts| == 3 then Success(next)
        else if ts[3] != Comma then Failure(Expected("`,`"))
        else ParseInfo(ts[4..], next)
  }

  /** `CommandInfo::parse`: the loop reading one item per round. */
  method ParseCommandInfo(ts: seq<AttrToken>) returns (r: Result<InfoAttrs, AttrError>)
    ensures r == ParseInfo(ts, NoInfo)
  {
    var info := NoInfo;
    var i := 0;
    while i < |ts|
      invariant i <= |ts|
      invariant ParseInfo(ts[i..], info) == ParseInfo(ts, NoInfo)
      decreases |ts| - i
    {
      var rest := ts[i..];
      if !ts[i].Ident? {
        return Failure(Expected("identifier"));
      }
      if i + 1 >= |ts| || ts[i + 1] != Equals {
        return Failure(Expected("`=`"));
      }
      if i + 2 >= |ts| || !ts[i + 2].Literal? {
        return Failure(Expected("string literal"));
      }
      assert rest[0] == ts[i] && rest[1] == ts[i + 1] && rest[2] == ts[i + 2];
      var recorded := Record(info, ts[i].name, ts[i + 2].value);
      if recorded.Failure? {
        return Failure(recorded.error);
      }
      info := recorded.value;
      i := i + 3;
      if i < |ts| {
        if ts[i] != Comma {
          return Failure(Expected("`,`"));
        }
        assert rest[4..] == ts[i + 1..];
        i := i + 1;
      }
    }
    assert ts[i..] == [];
    return Success(info);
  }

  /** The items `key = "value"` separated by commas. */
  function Render(items: seq<(string, string)>): seq<AttrToken>
    decreases |items|
  {
    if items == [] then []
    else
      var item := [Ident(items[0].0), Equals, Literal(items[0].1)];
      if |items| == 1 then item else item + [Comma] + Render(items[1..])
  }

  /** Recording the items in order, stopping at the first unknown key. */
  function RecordAll(info: InfoAttrs, items: seq<(string, string)>): Result<InfoAttrs, AttrError>
    decreases |items|
  {
    if items == [] then Success(info)
    else
      match Record(info, items[0].0, items[0].1)
      case Failure(e) => Failure(e)
      case Success(next) => RecordAll(next, items[1..])
  }

  /**
   * A comma-separated list of `key = "value"` items (with or without a trailing comma) is
   * accepted exactly when every key is `about`, `long_about` or `examples`, a later item
   * overriding an earlier one; the first other key is rejected.
   */
  lemma {:induction false} ParseRendered(items: seq<(string, string)>, info: InfoAttrs, trailingComma: bool)
    requires items != [] || !trailingComma
    ensures ParseInfo(Render(items) + (if trailingComma then [Comma] else []), info) == RecordAll(info, items)
    decreases |items|
  {
    var tail: seq<AttrToken> := if trailingComma then [Comma] else [];
    if items != [] {
      var ts := Render(items) + tail;
      var item := [Ident(items[0].0), Equals, Literal(items[0].1)];
      if |items| == 1 {
        assert ts == item + tail;
        if trailingComma {
          assert ts[4..] == [];
        }
      } else {
        assert ts == item + [Comma] + (Render(items[1..]) + tail);
        assert ts[4..] == Render(items[1..]) + tail;
        var recorded := Record(info, items[0].0, items[0].1);
        if recorded.Success? {
          ParseRendered(items[1..], recorded.value, trailingComma);
        }
      }
    }
  }

  /** The attribute, when the struct has one; without it the three texts are all absent. */
  function CommandInfoOf(attribute: Option<seq<AttrToken>>): (r: Result<InfoAttrs, AttrError>)
    ensures attribute.None? ==> r == Success(NoInfo)
  {
    match attribute
    case None => Success(NoInfo)
    case Some(ts) => ParseInfo(ts, NoInfo)
  }

  /**
   * The description the derive gives a struct: its name, the derived options and the texts of
   * its `command_info` attribute; an attribute that does not parse stops the derive.
   */
  function DeriveCommand(structName: string, attribute: Option<seq<AttrToken>>, fields: seq<Field>): (r: Result<CommandInfo, AttrError>)
    ensures r.Success? <==> CommandInfoOf(attribute).Success?
    ensures r.Success? ==>
      && r.value.name == structName && r.value.options == DerivedOptions(fields)
      && r.value.about == CommandInfoOf(attribute).value.about
      && r.value.longAbout == CommandInfoOf(attribute).value.longAbout
      && r.value.examples == CommandInfoOf(attribute).value.examples
  {
    match CommandInfoOf(attribute)
    case Failure(e) => Failure(e)
    case Success(info) => Success(CommandInfo(structName, DerivedOptions(fields), info.about, info.longAbout, info.examples))
  }

  // ---------------------------------------------------------------------------------------
  // `new_from_tokens`
  // ---------------------------------------------------------------------------------------

  /**
   * What a field holds: its default, `true` / `Some(true)` for a flag, or the value parsed from
   * the given text (plain or inside `Some`).
   */
  datatype Value = Default | True | SomeTrue | Parsed(text: string) | SomeParsed(text: string)

  /** Whether `value.parse()` succeeds for a field of the given type. */
  type Parser = (FieldType, string) -> bool

  /** The setter of a field reacts to its attribute's short or long text, without dashes. */
  predicate Names(f: Field, key: string) {
    f.opts.short == Some(key) || f.opts.long == Some(key)
  }

  function ParseMessage(key: string, value: string, typeHelp: string): string {
    "Option '" + key + "' has value '" + value + "' (expected type: " + typeHelp + ")"
  }

  /** One field's setter for one option. */
  function SetField(f: Field, current: Value, key: string, value: string, parses: Parser): Result<Value, AppError> {
    if !Names(f, key) then Success(current)
    else if IsFlag(f) then Success(if IsOptional(f.ty) then SomeTrue else True)
    else if parses(f.ty, value) then Success(if IsOptional(f.ty) then SomeParsed(value) else Parsed(value))
    else Failure(ParseError(ParseMessage(key, value, TypeHelp(f.ty))))
  }

  /** Every setter, in field order, for one option from field `i` on; the first failure stops them. */
  function SetFields(fields: seq<Field>, obj: seq<Value>, i: nat, key: string, value: string, parses: Parser): (r: Result<seq<Value>, AppError>)
    requires |obj| == |fields| && i <= |fields|
    ensures r.Success? ==> |r.value| == |fields|
    decreases |fields| - i
  {
    if i == |fields| then Success(obj)
    else
      match SetField(fields[i], obj[i], key, value, parses)
      case Failure(e) => Failure(e)
      case Success(v) => SetFields(fields, obj[i := v], i + 1, key, value, parses)
  }

  /** The setters for each key of `keys` in turn. */
  function SetAll(fields: seq<Field>, obj: seq<Value>, keys: seq<string>, options: map<string, string>, parses: Parser): (r: Result<seq<Value>, AppError>)
    requires |obj| == |fields|
    requires forall k :: k in keys ==> k in options
    ensures r.Success? ==> |r.value| == |fields|
    decreases |keys|
  {
    if keys == [] then Success(obj)
    else
      match SetFields(fields, obj, 0, keys[0], options[keys[0]], parses)
      case Failure(e) => Failure(e)
      case Success(next) => SetAll(fields, next, keys[1..], options, parses)
  }

  function Defaults(n: nat): (r: seq<Value>)
    ensures |r| == n && forall i :: 0 <= i < n ==> r[i] == Default
  {
    seq(n, _ => Default)
  }

  /** `new_from_tokens`: validation first; then the options, in the map's order, through every setter. */
  function NewFromTokensSpec(fields: seq<Field>, options: map<string, string>, order: KeyOrder, parses: Parser): (r: Result<seq<Value>, AppError>)
    requires Enumerates(order)
    ensures ValidateSpec(DerivedOptions(fields), options).Fail? ==> r == Failure(ValidateSpec(DerivedOptions(fields), options).error)
  {
    DerivedWellFormed(fields);
    match ValidateSpec(DerivedOptions(fields), options)
    case Fail(e) => Failure(e)
    case Pass =>
      var keys := order(options.Keys);
      assert Lists(keys, options.Keys);
      SetAll(fields, Defaults(|fields|), keys, options, parses)
  }

  /** One option through the setters, as the generated chain of `if`s runs them. */
  method ApplySetters(fields: seq<Field>, obj: seq<Value>, key: string, value: string, parses: Parser) returns (r: Result<seq<Value>, AppError>)
    requires |obj| == |fields|
    ensures r == SetFields(fields, obj, 0, key, value, parses)
  {
    var current := obj;
    var i := 0;
    while i < |fields|
      invariant i <= |fields| && |current| == |fields|
      invariant SetFields(fields, current, i, key, value, parses) == SetFields(fields, obj, 0, key, value, parses)
    {
      var f := fields[i];
      if Names(f, key) {
        if IsFlag(f) {
          current := current[i := if IsOptional(f.ty) then SomeTrue else True];
        } else if parses(f.ty, value) {
          current := current[i := if IsOptional(f.ty) then SomeParsed(value) else Parsed(value)];
        } else {
          return Failure(ParseError(ParseMessage(key, value, TypeHelp(f.ty))));
        }
      } else {
        assert current[i := current[i]] == current;
      }
      i := i + 1;
    }
    return Success(current);
  }

  /** `new_from_tokens`: `validate` runs before any field is set; then each option in turn. */
  method NewFromTokens(fields: seq<Field>, options: map<string, string>, order: KeyOrder, parses: Parser) returns (r: Result<seq<Value>, AppError>)
    requires Enumerates(order)
    ensures r == NewFromTokensSpec(fields, options, order, parses)
  {
    DerivedWellFormed(fields);
    var valid := Validate(DerivedOptions(fields), options);
    if valid.Fail? {
      return Failure(valid.error);
    }
    var obj := Defaults(|fields|);
    var keys := order(options.Keys);
    assert Lists(keys, options.Keys);
    var i := 0;
    while i < |keys|
      invariant i <= |keys| && |obj| == |fields|
      invariant SetAll(fields, obj, keys[i..], options, parses) == SetAll(fields, Defaults(|fields|), keys, options, parses)
    {
      assert keys[i..][1..] == keys[i + 1..];
      var next := ApplySetters(fields, obj, keys[i], options[keys[i]], parses);
      if next.Failure? {
        return Failure(next.error);
      }
      obj := next.value;
      i := i + 1;
    }
    assert keys[i..] == [];
    return Success(obj);
  }

  // Properties of the setters

  /** A field no option names keeps its value through the setters for one option. */
  lemma {:induction false} SetFieldsKeeps(fields: seq<Field>, obj: seq<Value>, i: nat, key: string, value: string, parses: Parser, j: nat)
    requires |obj| == |fields| && i <= |fields| && j < |fields|
    requires SetFields(fields, obj, i, key, value, parses).Success?
    ensures (j < i || !Names(fields[j], key)) ==> SetFields(fields, obj, i, key, value, parses).value[j] == obj[j]
    ensures i <= j && Names(fields[j], key) && IsFlag(fields[j]) ==>
      SetFields(fields, obj, i, key, value, parses).value[j] == (if IsOptional(fields[j].ty) then SomeTrue else True)
    decreases |fields| - i
  {
    if i < |fields| {
      var v := SetField(fields[i], obj[i], key, value, parses).value;
      SetFieldsKeeps(fields, obj[i := v], i + 1, key, value, parses, j);
    }
  }

  /** A field that no option names keeps its value; a flag that some option names ends up `true`. */
  lemma {:induction false} SetAllFields(fields: seq<Field>, obj: seq<Value>, keys: seq<string>, options: map<string, string>, parses: Parser, j: nat)
    requires |obj| == |fields| && j < |fields|
    requires forall k :: k in keys ==> k in options
    requires SetAll(fields, obj, keys, options, parses).Success?
    ensures (forall k :: k in keys ==> !Names(fields[j], k)) ==> SetAll(fields, obj, keys, options, parses).value[j] == obj[j]
    ensures IsFlag(fields[j]) && (exists k :: k in keys && Names(fields[j], k)) ==>
      SetAll(fields, obj, keys, options, parses).value[j] == (if IsOptional(fields[j].ty) then SomeTrue else True)
    decreases |keys|
  {
    if keys != [] {
      var next := SetFields(fields, obj, 0, keys[0], options[keys[0]], parses).value;
      SetFieldsKeeps(fields, obj, 0, keys[0], options[keys[0]], parses, j);
      SetAllFields(fields, next, keys[1..], options, parses, j);
      assert forall k :: k in keys <==> k == keys[0] || k in keys[1..];
    }
  }

  /**
   * After a successful `new_from_tokens`, a field that no option names keeps its default, and
   * a flag field that some option names is `true` (`Some(true)` when optional), whatever the value given.
   */
  lemma FieldsAfterTokens(fields: seq<Field>, options: map<string, string>, order: KeyOrder, parses: Parser, j: nat)
    requires Enumerates(order) && j < |fields|
    requires NewFromTokensSpec(fields, options, order, parses).Success?
    ensures var obj := NewFromTokensSpec(fields, options, order, parses).value;
      && ((forall k :: k in options ==> !Names(fields[j], k)) ==> obj[j] == Default)
      && (IsFlag(fields[j]) && (exists k :: k in options && Names(fields[j], k)) ==>
            obj[j] == (if IsOptional(fields[j].ty) then SomeTrue else True))
  {
    var keys := order(options.Keys);
    assert Lists(keys, options.Keys);
    SetAllFields(fields, Defaults(|fields|), keys, options, parses, j);
  }

  /** A setter for one option fails only with the parse error naming that option's key, its value and the field's type. */
  lemma {:induction false} SetFieldsFailure(fields: seq<Field>, obj: seq<Value>, i: nat, key: string, value: string, parses: Parser)
    requires |obj| == |fields| && i <= |fields|
    requires SetFields(fields, obj, i, key, value, parses).Failure?
    ensures exists j :: (i <= j < |fields| && Names(fields[j], key) && !IsFlag(fields[j]) && !parses(fields[j].ty, value)
      && SetFields(fields, obj, i, key, value, parses).error == ParseError(ParseMessage(key, value, TypeHelp(fields[j].ty))))
    decreases |fields| - i
  {
    var r := SetField(fields[i], obj[i], key, value, parses);
    if r.Success? {
      SetFieldsFailure(fields, obj[i := r.value], i + 1, key, value, parses);
    }
  }
}
