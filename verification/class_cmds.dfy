/**
 * The class commands' own decisions: which fields of `ClassNew` are required, the `--json`
 * flag of `ClassInfo` and `ClassList`, their case-insensitive name and description filters,
 * and the "option, else positional" class name of `ClassInfo` and `ClassDelete`.
 */
module ClassCommands {
  import opened Wrappers
  import opened Errors
  import opened Shared
  import Derive

  // ---------------------------------------------------------------------------------------
  // `ClassNew`
  // ---------------------------------------------------------------------------------------

  /** How the derive sees `Option<serde_json::Value>`. */
  const OptionJson := Derive.PathType(["Option"], "Option < serde_json :: Value >")

  /** The fields of `ClassNew`: name, namespace, description, then the optional schema and its switch. */
  const ClassNewFields: seq<Derive.Field> := [
    Derive.Field("name", Derive.StringType, Derive.FieldOpts(Some("n"), Some("name"), Some("Name of the class"), None, None)),
    Derive.Field("namespace", Derive.StringType, Derive.FieldOpts(Some("N"), Some("namespace"), Some("Namespace name"), None, None)),
    Derive.Field("description", Derive.StringType, Derive.FieldOpts(Some("d"), Some("description"), Some("Description of the class"), None, None)),
    Derive.Field("json_schema", OptionJson, Derive.FieldOpts(Some("s"), Some("schema"), Some("JSON schema for the class"), None, None)),
    Derive.Field("validate_schema", Derive.OptionBool,
      Derive.FieldOpts(Some("v"), Some("validate"), Some("Validate against schema, requires schema to be set"), None, None))]

  /** Name, namespace and description must be given; the schema and `--validate` may be left out; none is a flag. */
  lemma ClassNewRequired()
    ensures var opts := Derive.DerivedOptions(ClassNewFields);
      |opts| == 6 && opts[5] == Derive.HelpOption
      && (forall i :: 0 <= i < 3 ==> opts[i].required)
      && (forall i :: 3 <= i < 5 ==> !opts[i].required)
      && (forall i :: 0 <= i < 5 ==> !opts[i].flag)
  {
    forall i | 0 <= i < 5
      ensures var o := Derive.DerivedOptions(ClassNewFields)[i];
        (i < 3 ==> o.required) && (3 <= i ==> !o.required) && !o.flag
    {
      Derive.RequiredRule(ClassNewFields, i);
    }
    Derive.EndsWithHelp(ClassNewFields);
  }

  // ---------------------------------------------------------------------------------------
  // `ClassInfo`, `ClassDelete`, `ClassList`
  // ---------------------------------------------------------------------------------------

  /** The `-j`/`--json` field shared by `ClassInfo` and `ClassList`. */
  const RawJsonField := Derive.Field("rawjson", Derive.OptionBool,
    Derive.FieldOpts(Some("j"), Some("json"), Some("Output in JSON format"), None, Some(true)))

  const ClassInfoFields: seq<Derive.Field> := [
    Derive.Field("name", Derive.OptionString, Derive.FieldOpts(Some("n"), Some("name"), Some("Name of the class"), None, None)),
    RawJsonField]

  /** Nothing of `ClassInfo` is required (the name may come as a positional); `--json` is a flag. */
  lemma ClassInfoOptions()
    ensures var opts := Derive.DerivedOptions(ClassInfoFields);
      |opts| == 3 && !opts[0].required && !opts[0].flag && !opts[1].required && opts[1].flag
  {
    Derive.RequiredRule(ClassInfoFields, 0);
    Derive.RequiredRule(ClassInfoFields, 1);
  }

  /** The search of `ClassInfo`: a case-insensitive filter on the name, when one is given. */
  method ClassInfoFilters(name: Option<string>) returns (filters: seq<QueryFilter>)
    ensures filters == OnlyPresent([Wanted("name", name, IContains(false))])
  {
    assert [Wanted("name", name, IContains(false))][1..] == [];
    filters := [];
    if name.Some? {
      filters := filters + [QueryFilter("name", name.value, IContains(false))];
    }
  }

  /** The search of `ClassList`: case-insensitive filters on name, then description, each only when given. */
  method ClassListFilters(name: Option<string>, description: Option<string>) returns (filters: seq<QueryFilter>)
    ensures filters == OnlyPresent([Wanted("name", name, IContains(false)), Wanted("description", description, IContains(false))])
  {
    OnlyPresentTwo(Wanted("name", name, IContains(false)), Wanted("description", description, IContains(false)));
    filters := [];
    if name.Some? {
      filters := filters + [QueryFilter("name", name.value, IContains(false))];
    }
    if description.Some? {
      filters := filters + [QueryFilter("description", description.value, IContains(false))];
    }
  }

  /** `classname_or_pos`: the `--name` option, else the positional at `pos`, else `MissingOptions(["name"])`. */
  function ClassnameOrPos(name: Option<string>, positionals: seq<string>, pos: nat): (r: Result<Option<string>, AppError>)
    ensures name.Some? ==> r == Success(name)
    ensures name.None? && pos < |positionals| ==> r == Success(Some(positionals[pos]))
    ensures name.None? && pos >= |positionals| ==> r == Failure(MissingOptions(["name"]))
  {
    OrPositional(name, positionals, pos, "name")
  }

  /**
   * `ClassInfo` and `ClassDelete` take the first positional: with `--name` missing, a command
   * with at least one positional names that class, and the `unwrap` that follows never fails.
   */
  lemma ClassNameFromFirstPositional(name: Option<string>, positionals: seq<string>)
    ensures ClassnameOrPos(name, positionals, 0).Success? <==> name.Some? || positionals != []
    ensures ClassnameOrPos(name, positionals, 0).Success? ==> ClassnameOrPos(name, positionals, 0).value.Some?
    ensures name.None? && positionals != [] ==> ClassnameOrPos(name, positionals, 0).value == Some(positionals[0])
  {
  }
}
