/**
 * Helpers every command module shares: the query filters the API client accepts, the
 * "option, else positional" fallback, the comma-separated id list, the keying of fetched
 * entities by id, and the prettifying of JSON slice paths.
 */
module Shared {
  import opened Wrappers
  import Strings
  import opened Errors

  // ---------------------------------------------------------------------------------------
  // Query filters
  // ---------------------------------------------------------------------------------------

  /** The client's comparison operators; each may be negated. */
  datatype FilterOperator =
    | Equals(isNegated: bool)
    | Contains(isNegated: bool)
    | IContains(isNegated: bool)
    | StartsWith(isNegated: bool)
    | EndsWith(isNegated: bool)

  /** One `key op value` condition of a search. */
  datatype QueryFilter = QueryFilter(key: string, value: string, operator: FilterOperator)

  /** A filter a command may ask for: its key and operator, and the value when the user gave one. */
  datatype Wanted = Wanted(key: string, value: Option<string>, operator: FilterOperator)

  function FilterOf(w: Wanted): QueryFilter
    requires w.value.Some?
  {
    QueryFilter(w.key, w.value.value, w.operator)
  }

  /** How many of the wanted filters have a value. */
  function Given(wanted: seq<Wanted>): nat {
    if wanted == [] then 0 else (if wanted[0].value.Some? then 1 else 0) + Given(wanted[1..])
  }

  /** The "only if present" rule: one filter per wanted entry that has a value, in the listed order. */
  function OnlyPresent(wanted: seq<Wanted>): seq<QueryFilter> {
    if wanted == [] then []
    else (if wanted[0].value.Some? then [FilterOf(wanted[0])] else []) + OnlyPresent(wanted[1..])
  }

  /** Building over a concatenation concatenates: the order of the wanted list is the order of the filters. */
  lemma {:induction false} OnlyPresentAppend(a: seq<Wanted>, b: seq<Wanted>)
    ensures OnlyPresent(a + b) == OnlyPresent(a) + OnlyPresent(b)
    ensures Given(a + b) == Given(a) + Given(b)
    decreases |a|
  {
    if a != [] {
      assert (a + b)[0] == a[0];
      assert (a + b)[1..] == a[1..] + b;
      OnlyPresentAppend(a[1..], b);
      var head := if a[0].value.Some? then [FilterOf(a[0])] else [];
      assert OnlyPresent(a + b) == head + (OnlyPresent(a[1..]) + OnlyPresent(b));
      assert OnlyPresent(a) == head + OnlyPresent(a[1..]);
    } else {
      assert a + b == b;
    }
  }

  /** The filter one wanted entry contributes: one when it has a value, none otherwise. */
  function Present(w: Wanted): (r: seq<QueryFilter>)
    ensures w.value.Some? ==> r == [FilterOf(w)]
    ensures w.value.None? ==> r == []
  {
    if w.value.Some? then [FilterOf(w)] else []
  }

  lemma OnlyPresentTwo(a: Wanted, b: Wanted)
    ensures OnlyPresent([a, b]) == Present(a) + Present(b)
  {
    assert [b][1..] == [];
    assert OnlyPresent([b]) == Present(b) + OnlyPresent([]);
    assert [a, b][1..] == [b];
    assert OnlyPresent([a, b]) == Present(a) + OnlyPresent([b]);
  }

  lemma OnlyPresentFour(a: Wanted, b: Wanted, c: Wanted, d: Wanted)
    ensures OnlyPresent([a, b, c, d]) == Present(a) + Present(b) + Present(c) + Present(d)
  {
    assert [a, b, c, d] == [a, b] + [c, d];
    OnlyPresentAppend([a, b], [c, d]);
    OnlyPresentTwo(a, b);
    OnlyPresentTwo(c, d);
  }

  /** There is one filter per given value, and a filter is built exactly from an entry that has a value. */
  lemma {:induction false} OnlyPresentExact(wanted: seq<Wanted>)
    ensures |OnlyPresent(wanted)| == Given(wanted)
    ensures forall f :: f in OnlyPresent(wanted) <==>
      exists i :: 0 <= i < |wanted| && wanted[i].value.Some? && f == FilterOf(wanted[i])
    decreases |wanted|
  {
    if wanted != [] {
      OnlyPresentExact(wanted[1..]);
      var r := OnlyPresent(wanted);
      forall f ensures f in r <==> exists i :: 0 <= i < |wanted| && wanted[i].value.Some? && f == FilterOf(wanted[i]) {
        if f in r {
          if f in OnlyPresent(wanted[1..]) {
            var j :| 0 <= j < |wanted[1..]| && wanted[1..][j].value.Some? && f == FilterOf(wanted[1..][j]);
            assert wanted[j + 1] == wanted[1..][j];
          } else {
            assert wanted[0].value.Some? && f == FilterOf(wanted[0]);
          }
        }
        if exists i :: 0 <= i < |wanted| && wanted[i].value.Some? && f == FilterOf(wanted[i]) {
          var i :| 0 <= i < |wanted| && wanted[i].value.Some? && f == FilterOf(wanted[i]);
          if i > 0 {
            assert wanted[1..][i - 1] == wanted[i];
            assert f in OnlyPresent(wanted[1..]);
          }
        }
      }
    }
  }

  /** Without any value there is no filter; with every value there is one filter per entry, in order. */
  lemma {:induction false} OnlyPresentExtremes(wanted: seq<Wanted>)
    ensures (forall i :: 0 <= i < |wanted| ==> wanted[i].value.None?) ==> OnlyPresent(wanted) == []
    ensures (forall i :: 0 <= i < |wanted| ==> wanted[i].value.Some?) ==>
      |OnlyPresent(wanted)| == |wanted| && forall i :: 0 <= i < |wanted| ==> OnlyPresent(wanted)[i] == FilterOf(wanted[i])
    decreases |wanted|
  {
    if wanted != [] {
      OnlyPresentExtremes(wanted[1..]);
      if forall i :: 0 <= i < |wanted| ==> wanted[i].value.None? {
        assert forall i :: 0 <= i < |wanted[1..]| ==> wanted[1..][i].value.None? by {
          forall i | 0 <= i < |wanted[1..]| ensures wanted[1..][i].value.None? {
            assert wanted[1..][i] == wanted[i + 1];
          }
        }
      }
      if forall i :: 0 <= i < |wanted| ==> wanted[i].value.Some? {
        assert forall i :: 0 <= i < |wanted[1..]| ==> wanted[1..][i].value.Some? by {
          forall i | 0 <= i < |wanted[1..]| ensures wanted[1..][i].value.Some? {
            assert wanted[1..][i] == wanted[i + 1];
          }
        }
        forall i | 0 <= i < |wanted| ensures OnlyPresent(wanted)[i] == FilterOf(wanted[i]) {
          if i > 0 {
            assert wanted[1..][i - 1] == wanted[i];
          }
        }
      }
    }
  }

  // ---------------------------------------------------------------------------------------
  // Permissions
  // ---------------------------------------------------------------------------------------

  /** The client's permission kinds, in the order the namespace grant lists them. */
  datatype Permission =
    | ReadCollection | UpdateCollection | DeleteCollection | DelegateCollection
    | CreateClass | ReadClass | UpdateClass | DeleteClass
    | CreateObject | ReadObject | UpdateObject | DeleteObject
    | CreateClassRelation | ReadClassRelation | UpdateClassRelation | DeleteClassRelation
    | CreateObjectRelation | ReadObjectRelation | UpdateObjectRelation | DeleteObjectRelation

  /** `Permissions::iter()`. */
  const AllPermissions: seq<Permission> := [
    ReadCollection, UpdateCollection, DeleteCollection, DelegateCollection,
    CreateClass, ReadClass, UpdateClass, DeleteClass,
    CreateObject, ReadObject, UpdateObject, DeleteObject,
    CreateClassRelation, ReadClassRelation, UpdateClassRelation, DeleteClassRelation,
    CreateObjectRelation, ReadObjectRelation, UpdateObjectRelation, DeleteObjectRelation]

  /** A permission's place in the declared order. */
  function Rank(p: Permission): (n: nat)
    ensures n < |AllPermissions| && AllPermissions[n] == p
  {
    match p
    case ReadCollection => 0
    case UpdateCollection => 1
    case DeleteCollection => 2
    case DelegateCollection => 3
    case CreateClass => 4
    case ReadClass => 5
    case UpdateClass => 6
    case DeleteClass => 7
    case CreateObject => 8
    case ReadObject => 9
    case UpdateObject => 10
    case DeleteObject => 11
    case CreateClassRelation => 12
    case ReadClassRelation => 13
    case UpdateClassRelation => 14
    case DeleteClassRelation => 15
    case CreateObjectRelation => 16
    case ReadObjectRelation => 17
    case UpdateObjectRelation => 18
    case DeleteObjectRelation => 19
  }

  /** Every permission is listed, once, at its rank. */
  lemma AllPermissionsListed()
    ensures forall p :: p in AllPermissions
    ensures forall i :: 0 <= i < |AllPermissions| ==> Rank(AllPermissions[i]) == i
  {
    forall p ensures p in AllPermissions {
      assert AllPermissions[Rank(p)] == p;
    }
  }

  /** The display text of a permission: its variant name. */
  function PermissionName(p: Permission): string {
    match p
    case ReadCollection => "ReadCollection"
    case UpdateCollection => "UpdateCollection"
    case DeleteCollection => "DeleteCollection"
    case DelegateCollection => "DelegateCollection"
    case CreateClass => "CreateClass"
    case ReadClass => "ReadClass"
    case UpdateClass => "UpdateClass"
    case DeleteClass => "DeleteClass"
    case CreateObject => "CreateObject"
    case ReadObject => "ReadObject"
    case UpdateObject => "UpdateObject"
    case DeleteObject => "DeleteObject"
    case CreateClassRelation => "CreateClassRelation"
    case ReadClassRelation => "ReadClassRelation"
    case UpdateClassRelation => "UpdateClassRelation"
    case DeleteClassRelation => "DeleteClassRelation"
    case CreateObjectRelation => "CreateObjectRelation"
    case ReadObjectRelation => "ReadObjectRelation"
    case UpdateObjectRelation => "UpdateObjectRelation"
    case DeleteObjectRelation => "DeleteObjectRelation"
  }

  /** The permissions of `ps` that are in `chosen`, in the order of `ps`. */
  function Keep(ps: seq<Permission>, chosen: set<Permission>): seq<Permission> {
    if ps == [] then []
    else (if ps[0] in chosen then [ps[0]] else []) + Keep(ps[1..], chosen)
  }

  /** Nothing chosen, nothing kept. */
  lemma {:induction false} KeepNone(ps: seq<Permission>)
    ensures Keep(ps, {}) == []
    decreases |ps|
  {
    if ps != [] {
      KeepNone(ps[1..]);
    }
  }

  /** Keeping over a list with one more element at the end. */
  lemma {:induction false} KeepSnoc(ps: seq<Permission>, p: Permission, chosen: set<Permission>)
    ensures Keep(ps + [p], chosen) == Keep(ps, chosen) + (if p in chosen then [p] else [])
    decreases |ps|
  {
    if ps == [] {
      assert [p][1..] == [];
    } else {
      var head := if ps[0] in chosen then [ps[0]] else [];
      var last := if p in chosen then [p] else [];
      assert (ps + [p])[0] == ps[0];
      assert (ps + [p])[1..] == ps[1..] + [p];
      KeepSnoc(ps[1..], p, chosen);
      assert Keep(ps + [p], chosen) == head + (Keep(ps[1..], chosen) + last);
      Strings.AppendAssoc(head, Keep(ps[1..], chosen), last);
    }
  }

  /** What is kept is exactly what was chosen among `ps`. */
  lemma {:induction false} KeepMembers(ps: seq<Permission>, chosen: set<Permission>)
    ensures forall p :: p in Keep(ps, chosen) <==> p in ps && p in chosen
    decreases |ps|
  {
    if ps != [] {
      KeepMembers(ps[1..], chosen);
      assert ps == [ps[0]] + ps[1..];
    }
  }

  /** A list without repetitions keeps none. */
  lemma {:induction false} KeepDistinct(ps: seq<Permission>, chosen: set<Permission>)
    requires forall i, j :: 0 <= i < j < |ps| ==> ps[i] != ps[j]
    ensures forall i, j :: 0 <= i < j < |Keep(ps, chosen)| ==> Keep(ps, chosen)[i] != Keep(ps, chosen)[j]
    decreases |ps|
  {
    if ps != [] {
      var tail := ps[1..];
      forall i, j | 0 <= i < j < |tail| ensures tail[i] != tail[j] {
        assert tail[i] == ps[i + 1] && tail[j] == ps[j + 1];
      }
      KeepDistinct(tail, chosen);
      KeepMembers(tail, chosen);
      var rest := Keep(tail, chosen);
      forall k | 0 <= k < |tail| ensures tail[k] != ps[0] {
        assert tail[k] == ps[k + 1];
      }
      var r := Keep(ps, chosen);
      forall i, j | 0 <= i < j < |r| ensures r[i] != r[j] {
        if ps[0] in chosen {
          assert r == [ps[0]] + rest;
          if i == 0 {
            assert r[j] == rest[j - 1] && rest[j - 1] in tail;
          } else {
            assert r[i] == rest[i - 1] && r[j] == rest[j - 1];
          }
        } else {
          assert r == rest;
        }
      }
    }
  }

  /** The declared list names each permission once. */
  lemma AllPermissionsDistinct()
    ensures forall i, j :: 0 <= i < j < |AllPermissions| ==> AllPermissions[i] != AllPermissions[j]
  {
    AllPermissionsListed();
  }

  // ---------------------------------------------------------------------------------------
  // Option, else positional (`*_or_pos`)
  // ---------------------------------------------------------------------------------------

  /**
   * The fallback every `*_or_pos` helper implements: the option's value when it is set,
   * otherwise the positional argument at `pos`, otherwise `MissingOptions([missing])`.
   */
  function OrPositional(value: Option<string>, positionals: seq<string>, pos: nat, missing: string): (r: Result<Option<string>, AppError>)
    ensures r.Success? ==> r.value.Some?
    ensures value.Some? ==> r == Success(value)
    ensures value.None? && pos < |positionals| ==> r == Success(Some(positionals[pos]))
    ensures r.Failure? <==> value.None? && pos >= |positionals|
    ensures r.Failure? ==> r.error == MissingOptions([missing])
  {
    if value.None? then
      if pos >= |positionals| then Failure(MissingOptions([missing])) else Success(Some(positionals[pos]))
    else Success(value)
  }

  /** The positionals are consulted only when the option is missing. */
  lemma OrPositionalIgnoresPositionals(value: string, p1: seq<string>, p2: seq<string>, pos: nat, missing: string)
    ensures OrPositional(Some(value), p1, pos, missing) == OrPositional(Some(value), p2, pos, missing)
  {
  }

  // ---------------------------------------------------------------------------------------
  // Ids (`ids_to_comma_separated_string`, `find_entities_by_ids`)
  // ---------------------------------------------------------------------------------------

  /** `i32::to_string`: an optional minus sign and the decimal digits. */
  function IntToString(i: int): (r: string)
    ensures r != [] && ',' !in r
  {
    var digits := Strings.NatToString(if i < 0 then -i else i);
    NoCommaInDigits(digits);
    if i < 0 then "-" + digits else digits
  }

  lemma NoCommaInDigits(s: string)
    requires Strings.AllDigits(s)
    ensures ',' !in s
  {
    forall k | 0 <= k < |s| ensures s[k] != ',' {
      assert Strings.IsDigit(s[k]);
    }
  }

  /** The sign is the first character, and the digits after it spell the magnitude. */
  lemma IntToStringParts(i: int)
    ensures (IntToString(i)[0] == '-') == (i < 0)
    ensures var d := if i < 0 then IntToString(i)[1..] else IntToString(i);
      Strings.AllDigits(d) && Strings.DigitsValue(d) == if i < 0 then -i else i
  {
    var d := Strings.NatToString(if i < 0 then -i else i);
    assert Strings.IsDigit(d[0]);
    if i < 0 {
      assert IntToString(i)[1..] == d;
    }
  }

  /** Different ids print differently. */
  lemma IntToStringInjective(a: int, b: int)
    ensures IntToString(a) == IntToString(b) ==> a == b
  {
    IntToStringParts(a);
    IntToStringParts(b);
  }

  /** The iteration order of a `HashSet<i32>`: some listing of the set. */
  type IdOrder = set<int> -> seq<int>

  ghost predicate ListsIds(order: IdOrder) {
    forall ids: set<int> :: (forall x :: x in order(ids) <==> x in ids)
      && (forall i, j :: 0 <= i < j < |order(ids)| ==> order(ids)[i] != order(ids)[j])
  }

  /** The distinct ids `f` maps the objects to. */
  ghost function IdSet<T>(objects: seq<T>, f: T -> int): set<int> {
    set o | o in objects :: f(o)
  }

  function Printed(ids: seq<int>): (r: seq<string>)
    ensures |r| == |ids| && forall i :: 0 <= i < |ids| ==> r[i] == IntToString(ids[i])
  {
    seq(|ids|, i requires 0 <= i < |ids| => IntToString(ids[i]))
  }

  /** `ids_to_comma_separated_string`: the distinct ids, each printed, joined with ",". */
  function IdsToCommaSeparated<T(==)>(objects: seq<T>, f: T -> int, order: IdOrder): string {
    Strings.Join(Printed(order(set o | o in objects :: f(o))), ",")
  }

  /** Each distinct id appears exactly once among the comma-separated pieces, and nothing else does. */
  lemma IdsAppearOnce<T>(objects: seq<T>, f: T -> int, order: IdOrder)
    requires ListsIds(order)
    requires objects != []
    ensures var pieces := Strings.Split(IdsToCommaSeparated(objects, f, order), ',');
      (forall id :: IntToString(id) in pieces <==> id in IdSet(objects, f))
      && (forall i, j :: 0 <= i < j < |pieces| ==> pieces[i] != pieces[j])
      && |pieces| == |IdSet(objects, f)|
  {
    var ids := IdSet(objects, f);
    var listed := order(ids);
    assert (forall x :: x in listed <==> x in ids)
      && (forall i, j :: 0 <= i < j < |listed| ==> listed[i] != listed[j]);
    assert |listed| >= 1 by {
      assert f(objects[0]) in ids;
    }
    SplitPrinted(listed);
    PrintedMembers(listed);
    PrintedDistinct(listed);
    DistinctListing(listed, ids);
  }

  /** The printed ids joined with "," split back into the printed ids. */
  lemma SplitPrinted(listed: seq<int>)
    requires |listed| >= 1
    ensures Strings.Split(Strings.Join(Printed(listed), ","), ',') == Printed(listed)
  {
    Strings.JoinSplit(Printed(listed), ',');
  }

  /** An id's text is among the printed ones exactly when the id is listed. */
  lemma PrintedMembers(listed: seq<int>)
    ensures forall id :: IntToString(id) in Printed(listed) <==> id in listed
  {
    var printed := Printed(listed);
    forall id ensures IntToString(id) in printed <==> id in listed {
      if IntToString(id) in printed {
        var k :| 0 <= k < |printed| && printed[k] == IntToString(id);
        IntToStringInjective(listed[k], id);
      }
      if id in listed {
        var k :| 0 <= k < |listed| && listed[k] == id;
        assert printed[k] == IntToString(id);
      }
    }
  }

  /** Distinct ids print to distinct texts. */
  lemma PrintedDistinct(listed: seq<int>)
    requires forall i, j :: 0 <= i < j < |listed| ==> listed[i] != listed[j]
    ensures forall i, j :: 0 <= i < j < |Printed(listed)| ==> Printed(listed)[i] != Printed(listed)[j]
  {
    forall i, j | 0 <= i < j < |listed| ensures Printed(listed)[i] != Printed(listed)[j] {
      IntToStringInjective(listed[i], listed[j]);
    }
  }

  lemma DistinctListing(listed: seq<int>, ids: set<int>)
    requires forall x :: x in listed <==> x in ids
    requires forall i, j :: 0 <= i < j < |listed| ==> listed[i] != listed[j]
    ensures |listed| == |ids|
  {
    var m := multiset(listed);
    forall x | x in m ensures m[x] == 1 {
      DistinctCount(listed, x);
    }
    assert m == multiset(ids) by {
      forall x ensures m[x] == multiset(ids)[x] {
        if x in listed {
          DistinctCount(listed, x);
        }
      }
    }
  }

  lemma {:induction false} DistinctCount(listed: seq<int>, x: int)
    requires forall i, j :: 0 <= i < j < |listed| ==> listed[i] != listed[j]
    ensures multiset(listed)[x] == if x in listed then 1 else 0
    decreases |listed|
  {
    if listed != [] {
      var last := listed[|listed| - 1];
      var front := listed[..|listed| - 1];
      assert listed == front + [last];
      DistinctCount(front, x);
      forall k | 0 <= k < |front| ensures front[k] != last {
        assert listed[k] == front[k];
      }
    }
  }

  /** The search `find_entities_by_ids` sends: `id` equal to the comma-separated ids. */
  function IdFilter<T(==)>(objects: seq<T>, f: T -> int, order: IdOrder): (r: QueryFilter)
    ensures r.key == "id" && r.operator == Equals(false)
  {
    QueryFilter("id", IdsToCommaSeparated(objects, f, order), Equals(false))
  }

  /** Collecting `(entity.id(), entity)` pairs into a map; a later entity wins over an earlier one with the same id. */
  function KeyById<T>(entities: seq<T>, id: T -> int): (m: map<int, T>)
    decreases |entities|
  {
    if entities == [] then map[]
    else
      var last := entities[|entities| - 1];
      KeyById(entities[..|entities| - 1], id)[id(last) := last]
  }

  /** Every returned entity is in the map, under its own id, and nothing else is. */
  lemma {:induction false} KeyByIdOwnIds<T>(entities: seq<T>, id: T -> int)
    ensures KeyById(entities, id).Keys == set e | e in entities :: id(e)
    ensures forall k :: k in KeyById(entities, id) ==> id(KeyById(entities, id)[k]) == k && KeyById(entities, id)[k] in entities
    decreases |entities|
  {
    if entities != [] {
      var front := entities[..|entities| - 1];
      var last := entities[|entities| - 1];
      KeyByIdOwnIds(front, id);
      assert entities == front + [last];
      assert (set e | e in entities :: id(e)) == (set e | e in front :: id(e)) + {id(last)};
    }
  }

  // ---------------------------------------------------------------------------------------
  // JSON slice paths
  // ---------------------------------------------------------------------------------------

  /** `prettify_slice_path`: leading `$.` repetitions removed, then every `['`, then every `']`. */
  function PrettifySlicePath(path: string): string {
    Strings.RemoveAll(Strings.RemoveAll(Strings.TrimStartMatches(path, "$."), "['"), "']")
  }

  /** A two-segment slice path `$.['x'].['y']` becomes `x.y` when the names hold no bracket or quote. */
  lemma PrettifyTwoSegments(x: string, y: string)
    requires '[' !in x && '[' !in y && '\'' !in x && '\'' !in y
    ensures PrettifySlicePath("$." + "['" + x + "']" + "." + "['" + y + "']") == x + "." + y
  {
    var open, close := "['", "']";
    var path := "$." + open + x + close + "." + open + y + close;
    var a, b := x + close + ".", y + close;
    var t := open + a + open + b;
    assert Strings.TrimStartMatches(path, "$.") == t by {
      assert path == "$." + t;
      assert Strings.StartsWith(path, "$.") && path[2..] == t;
      assert !Strings.StartsWith(t, "$.") by { assert t[0] == '['; }
    }
    assert Strings.RemoveAll(t, open) == a + b by {
      RemoveOpenings(a, b, open);
    }
    ClosingsOfSegments(x, y, close);
  }

  /** The closings left after the openings of `$.['x'].['y']` are removed. */
  lemma ClosingsOfSegments(x: string, y: string, close: string)
    requires close == "']" && '\'' !in x && '\'' !in y
    ensures Strings.RemoveAll((x + close + ".") + (y + close), close) == x + "." + y
  {
    var z := "." + y;
    Strings.AppendAssoc(x + close, ".", y + close);
    Strings.AppendAssoc(".", y, close);
    Strings.AppendAssoc(x + close, z, close);
    assert '\'' !in z;
    RemoveClosings(x, z, close);
    Strings.AppendAssoc(x, ".", y);
  }

  /** The example the source documents: `$.['location'].['country']` becomes `location.country`. */
  lemma PrettifyExample(path: string)
    requires path == "$.['location'].['country']"
    ensures PrettifySlicePath(path) == "location.country"
  {
    var x, y := "location", "country";
    ExampleShape(path, x, y);
    PrettifyTwoSegments(x, y);
  }

  lemma ExampleShape(path: string, x: string, y: string)
    requires path == "$.['location'].['country']" && x == "location" && y == "country"
    ensures path == "$." + "['" + x + "']" + "." + "['" + y + "']"
    ensures x + "." + y == "location.country"
  {
  }

  /** Two bracket openings in front of bracket-free text are removed. */
  lemma RemoveOpenings(a: string, b: string, open: string)
    requires open == "['" && '[' !in a && '[' !in b
    ensures Strings.RemoveAll(open + a + open + b, open) == a + b
  {
    assert open + a + open + b == open + (a + (open + b));
    RemoveLead(open, a + (open + b));
    RemovePlain(a, open + b, open);
    RemoveLead(open, b);
    RemovePlain(b, [], open);
    assert b + [] == b;
  }

  /** Two bracket closings after quote-free text are removed. */
  lemma RemoveClosings(a: string, b: string, close: string)
    requires close == "']" && '\'' !in a && '\'' !in b
    ensures Strings.RemoveAll(a + close + b + close, close) == a + b
  {
    assert a + close + b + close == a + (close + (b + close));
    RemovePlain(a, close + (b + close), close);
    RemoveLead(close, b + close);
    RemovePlain(b, close, close);
    RemoveLead(close, []);
    assert close + [] == close;
    assert a + (b + []) == a + b;
  }

  /** A leading occurrence of the pattern is removed. */
  lemma RemoveLead(p: string, rest: string)
    requires p != []
    ensures Strings.RemoveAll(p + rest, p) == Strings.RemoveAll(rest, p)
  {
    assert Strings.StartsWith(p + rest, p);
    assert (p + rest)[|p|..] == rest;
  }

  /** Text whose characters never start the pattern is kept, ahead of whatever follows. */
  lemma {:induction false} RemovePlain(a: string, b: string, p: string)
    requires p != [] && p[0] !in a
    ensures Strings.RemoveAll(a + b, p) == a + Strings.RemoveAll(b, p)
    decreases |a|
  {
    if a != [] {
      var s := a + b;
      assert s[0] == a[0];
      assert !Strings.StartsWith(s, p) by {
        if |p| <= |s| {
          assert s[..|p|][0] == s[0];
        }
      }
      assert s[1..] == a[1..] + b;
      RemovePlain(a[1..], b, p);
      assert Strings.RemoveAll(s, p) == [a[0]] + Strings.RemoveAll(s[1..], p);
      Strings.AppendAssoc([a[0]], a[1..], Strings.RemoveAll(b, p));
      assert a == [a[0]] + a[1..];
    } else {
      assert a + b == b;
    }
  }

  /** A path without a `$.` prefix and without brackets is already pretty. */
  lemma PrettifyPlain(path: string)
    requires !Strings.StartsWith(path, "$.") && '[' !in path && '\'' !in path
    ensures PrettifySlicePath(path) == path
  {
  }
}
