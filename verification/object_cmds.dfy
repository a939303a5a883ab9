/**
 * The object commands' own decisions: the object name taken from `--name` or a positional
 * (the first for `ObjectInfo`, the second for `ObjectDelete`), the class `ObjectDelete` insists
 * on, the case-insensitive filters of `ObjectInfo` and `ObjectList`, which data view `ObjectInfo`
 * shows, and the width the keys of that view are padded to.
 */
module ObjectCommands {
  import opened Wrappers
  import opened Errors
  import opened Shared
  import Derive

  // ---------------------------------------------------------------------------------------
  // Fields
  // ---------------------------------------------------------------------------------------

  /** The fields of `ObjectInfo`: the name may be a positional, the class must be given. */
  const ObjectInfoFields: seq<Derive.Field> := [
    Derive.Field("name", Derive.OptionString, Derive.FieldOpts(Some("n"), Some("name"), Some("Name of the object"), None, None)),
    Derive.Field("class", Derive.StringType, Derive.FieldOpts(Some("c"), Some("class"), Some("Class of the object"), None, None)),
    Derive.Field("data", Derive.OptionBool, Derive.FieldOpts(Some("d"), Some("data"), Some("Show flattned data (key=value) for the object"), None, Some(true))),
    Derive.Field("jsonpath", Derive.OptionString, Derive.FieldOpts(Some("p"), Some("path"), Some("Path to display within the data, implies -d"), None, None))]

  /** Only the class of `ObjectInfo` is required, and only `--data` is a flag. */
  lemma ObjectInfoOptions()
    ensures var opts := Derive.DerivedOptions(ObjectInfoFields);
      |opts| == 5
      && (forall i :: 0 <= i < 4 ==> (opts[i].required <==> i == 1))
      && (forall i :: 0 <= i < 4 ==> (opts[i].flag <==> i == 2))
  {
    forall i | 0 <= i < 4
      ensures var o := Derive.DerivedOptions(ObjectInfoFields)[i];
        (o.required <==> i == 1) && (o.flag <==> i == 2)
    {
      Derive.RequiredRule(ObjectInfoFields, i);
    }
  }

  // ---------------------------------------------------------------------------------------
  // The object name and the class of `ObjectDelete`
  // ---------------------------------------------------------------------------------------

  /** `objectname_or_pos`: the `--name` option, else the positional at `pos`, else `MissingOptions(["name"])`. */
  function ObjectnameOrPos(name: Option<string>, positionals: seq<string>, pos: nat): (r: Result<Option<string>, AppError>)
    ensures name.Some? ==> r == Success(name)
    ensures name.None? && pos < |positionals| ==> r == Success(Some(positionals[pos]))
    ensures name.None? && pos >= |positionals| ==> r == Failure(MissingOptions(["name"]))
  {
    OrPositional(name, positionals, pos, "name")
  }

  /** `ObjectInfo` reads the object name from the first positional. */
  function InfoObjectName(name: Option<string>, positionals: seq<string>): Result<Option<string>, AppError> {
    ObjectnameOrPos(name, positionals, 0)
  }

  /**
   * What `ObjectDelete` goes on with: the object name (from `--name` or the second
   * positional), then the class, which must be given.
   */
  function DeleteTarget(name: Option<string>, className: Option<string>, positionals: seq<string>): (r: Result<(string, string), AppError>)
    ensures r.Success? <==> (name.Some? || |positionals| > 1) && className.Some?
    ensures r.Success? ==>
      r.value.1 == className.value && r.value.0 == (if name.Some? then name.value else positionals[1])
    ensures name.None? && |positionals| <= 1 ==> r == Failure(MissingOptions(["name"]))
    ensures (name.Some? || |positionals| > 1) && className.None? ==> r == Failure(MissingOptions(["class"]))
  {
    match ObjectnameOrPos(name, positionals, 1)
    case Failure(e) => Failure(e)
    case Success(objectName) =>
      if className.None? then Failure(MissingOptions(["class"]))
      else Success((objectName.value, className.value))
  }

  /** The two commands read different positionals: with no `--name`, info names the first and delete the second. */
  lemma InfoAndDeletePositionals(className: string, positionals: seq<string>)
    requires |positionals| >= 2
    ensures InfoObjectName(None, positionals) == Success(Some(positionals[0]))
    ensures DeleteTarget(None, Some(className), positionals) == Success((positionals[1], className))
  {
  }

  // ---------------------------------------------------------------------------------------
  // Filters
  // ---------------------------------------------------------------------------------------

  /** The search of `ObjectInfo`: a case-insensitive filter on the name, when one is given. */
  method ObjectInfoFilters(name: Option<string>) returns (filters: seq<QueryFilter>)
    ensures filters == OnlyPresent([Wanted("name", name, IContains(false))])
  {
    assert [Wanted("name", name, IContains(false))][1..] == [];
    filters := [];
    if name.Some? {
      filters := filters + [QueryFilter("name", name.value, IContains(false))];
    }
  }

  /** The search of `ObjectList`: case-insensitive filters on name, then description, each only when given. */
  method ObjectListFilters(name: Option<string>, description: Option<string>) returns (filters: seq<QueryFilter>)
    ensures filters == OnlyPresent([Wanted("name", name, IContains(false)), Wanted("description", description, IContains(false))])
  {
    OnlyPresentTwo(Wanted("name", name, IContains(false)), Wanted("description", description, IContains(false)));
    filters := [];
    if name.Some? {
      filters := filters + [QueryFilter("name", name.value, IContains(false))];
    }
    if description.Some? {
      filters := filters + [QueryFilter("description", description.value, IContains(false))];
    }
  }

  // ---------------------------------------------------------------------------------------
  // The data view of `ObjectInfo`
  // ---------------------------------------------------------------------------------------

  /** After the object itself: nothing more, the values the path selects, or the flattened data. */
  datatype DataView = NoData | PathView(path: string) | FlatView

  /** The view `ObjectInfo` goes on to show (outside the JSON output): `--path` wins over `--data`, and an object without data shows none. */
  function ChooseView(jsonpath: Option<string>, data: Option<bool>, hasData: bool): (v: DataView)
    ensures v != NoData <==> (jsonpath.Some? || data.Some?) && hasData
    ensures v.PathView? <==> jsonpath.Some? && hasData
    ensures v.PathView? ==> v.path == jsonpath.value
  {
    if jsonpath.None? && data.None? then NoData
    else if !hasData then NoData
    else if jsonpath.Some? then PathView(jsonpath.value)
    else FlatView
  }

  /** The length of the longest key, if there is one. */
  function Longest(keys: seq<string>): (r: Option<nat>)
    ensures r.None? <==> keys == []
    ensures r.Some? ==> (forall k :: k in keys ==> |k| <= r.value) && exists k :: k in keys && |k| == r.value
    decreases |keys|
  {
    if keys == [] then None
    else
      match Longest(keys[1..])
      case None => Some(|keys[0]|)
      case Some(m) => Some(if |keys[0]| >= m then |keys[0]| else m)
  }

  /**
   * The width the keys of a data view are padded to: the longest key, but never less than the
   * floor (14 for the path view, 15 for the flattened view).
   */
  function KeyPadding(keys: seq<string>, floor: nat): (w: nat)
    ensures w >= floor && forall k :: k in keys ==> |k| <= w
    ensures w == floor || exists k :: k in keys && |k| == w
  {
    match Longest(keys)
    case None => floor
    case Some(m) => if m >= floor then m else floor
  }

  /** The padding is the least width that fits the floor and every key: any width that fits them is at least as wide. */
  lemma KeyPaddingLeast(keys: seq<string>, floor: nat, width: nat)
    requires width >= floor && forall k :: k in keys ==> |k| <= width
    ensures KeyPadding(keys, floor) <= width
  {
  }

  /** Without keys, or with only short keys, the padding is the floor itself. */
  lemma KeyPaddingShortKeys(keys: seq<string>, floor: nat)
    requires forall k :: k in keys ==> |k| <= floor
    ensures KeyPadding(keys, floor) == floor
  {
  }
}
