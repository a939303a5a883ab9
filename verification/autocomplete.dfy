/**
 * The value completers options name in their `autocomplete` attribute: fixed `true`/`false`,
 * the permission names, and names fetched from the server (groups, classes, namespaces, and
 * the objects of a class named earlier on the line). The fetches are parameters here; a fetch
 * that fails gives no candidates.
 */
module Autocomplete {
  import opened Wrappers
  import Strings
  import opened Errors
  import opened Shared

  /** `bool`: the same two candidates whatever was typed. */
  function BoolCompletions(prefix: string, parts: seq<string>): (r: seq<string>)
    ensures r == ["true", "false"]
  {
    ["true", "false"]
  }

  // ---------------------------------------------------------------------------------------
  // Permissions
  // ---------------------------------------------------------------------------------------

  /** The names of `ps` that start with `prefix`, in the order of `ps`. */
  function Matching(ps: seq<Permission>, prefix: string): seq<string> {
    if ps == [] then []
    else
      var name := PermissionName(ps[0]);
      (if Strings.StartsWith(name, prefix) then [name] else []) + Matching(ps[1..], prefix)
  }

  function Names(ps: seq<Permission>): (r: seq<string>)
    ensures |r| == |ps| && forall i :: 0 <= i < |ps| ==> r[i] == PermissionName(ps[i])
  {
    seq(|ps|, i requires 0 <= i < |ps| => PermissionName(ps[i]))
  }

  /** `permissions`: the variants whose display text starts with the prefix, in the enum's order. */
  function PermissionCompletions(prefix: string): seq<string> {
    Matching(AllPermissions, prefix)
  }

  /**
   * Matching is keeping: the names are those of the permissions kept for any choice that picks
   * exactly those whose name starts with the prefix.
   */
  lemma {:induction false} MatchingKeeps(ps: seq<Permission>, prefix: string, chosen: set<Permission>)
    requires forall p :: p in ps ==> (p in chosen <==> Strings.StartsWith(PermissionName(p), prefix))
    ensures Matching(ps, prefix) == Names(Keep(ps, chosen))
    decreases |ps|
  {
    if ps != [] {
      assert ps[0] in ps;
      assert forall p :: p in ps[1..] ==> p in ps;
      MatchingKeeps(ps[1..], prefix, chosen);
      var head := if ps[0] in chosen then [ps[0]] else [];
      var rest := Keep(ps[1..], chosen);
      assert Keep(ps, chosen) == head + rest;
      NamesAppend(head, rest);
    }
  }

  /** The names of two lists one after the other are the names of each. */
  lemma NamesAppend(a: seq<Permission>, b: seq<Permission>)
    ensures Names(a + b) == Names(a) + Names(b)
  {
    assert forall i :: 0 <= i < |a| ==> (a + b)[i] == a[i];
    assert forall i :: |a| <= i < |a| + |b| ==> (a + b)[i] == b[i - |a|];
  }

  /**
   * The permission candidates are the names of the permissions, in declared order, whose name
   * starts with the prefix: each at most once, and every matching one present.
   */
  lemma PermissionCompletionsExact(prefix: string)
    ensures var chosen := set p | p in AllPermissions && Strings.StartsWith(PermissionName(p), prefix);
      PermissionCompletions(prefix) == Names(Keep(AllPermissions, chosen))
      && (forall p :: p in Keep(AllPermissions, chosen) <==> Strings.StartsWith(PermissionName(p), prefix))
      && forall i, j :: 0 <= i < j < |Keep(AllPermissions, chosen)| ==> Keep(AllPermissions, chosen)[i] != Keep(AllPermissions, chosen)[j]
  {
    var chosen := set p | p in AllPermissions && Strings.StartsWith(PermissionName(p), prefix);
    MatchingKeeps(AllPermissions, prefix, chosen);
    KeepMembers(AllPermissions, chosen);
    AllPermissionsListed();
    AllPermissionsDistinct();
    KeepDistinct(AllPermissions, chosen);
  }

  /** With nothing typed every permission is offered, in declared order. */
  lemma {:induction false} MatchingEmptyPrefix(ps: seq<Permission>)
    ensures Matching(ps, "") == Names(ps)
    decreases |ps|
  {
    if ps != [] {
      MatchingEmptyPrefix(ps[1..]);
      assert Strings.StartsWith(PermissionName(ps[0]), "");
      assert Names(ps) == [PermissionName(ps[0])] + Names(ps[1..]);
    }
  }

  // ---------------------------------------------------------------------------------------
  // Names fetched from the server
  // ---------------------------------------------------------------------------------------

  /** A search on the server: the filters given, the names found or an error. */
  type Fetch = seq<QueryFilter> -> Result<seq<string>, AppError>

  /** The search a name completer sends: a prefix filter on `key`, but only when something was typed. */
  function PrefixFilter(key: string, prefix: string): (r: seq<QueryFilter>)
    ensures prefix == [] ==> r == []
    ensures prefix != [] ==> r == [QueryFilter(key, prefix, StartsWith(false))]
  {
    if prefix == [] then [] else [QueryFilter(key, prefix, StartsWith(false))]
  }

  /** The names found, or none when the search fails. */
  function NamesOrEmpty(found: Result<seq<string>, AppError>): (r: seq<string>)
    ensures found.Failure? ==> r == []
    ensures found.Success? ==> r == found.value
  {
    match found
    case Success(names) => names
    case Failure(_) => []
  }

  /** `groups`: group names, filtered on `groupname`. */
  function GroupCompletions(fetch: Fetch, prefix: string): seq<string> {
    NamesOrEmpty(fetch(PrefixFilter("groupname", prefix)))
  }

  /** `classes`: class names, filtered on `name`. */
  function ClassCompletions(fetch: Fetch, prefix: string): seq<string> {
    NamesOrEmpty(fetch(PrefixFilter("name", prefix)))
  }

  /** `namespaces`: namespace names, filtered on `name`. */
  function NamespaceCompletions(fetch: Fetch, prefix: string): seq<string> {
    NamesOrEmpty(fetch(PrefixFilter("name", prefix)))
  }

  /** A failing server never makes a completer fail: it offers nothing. */
  lemma FetchFailureOffersNothing(fetch: Fetch, prefix: string)
    requires forall filters :: fetch(filters).Failure?
    ensures GroupCompletions(fetch, prefix) == [] && ClassCompletions(fetch, prefix) == [] && NamespaceCompletions(fetch, prefix) == []
  {
    assert fetch(PrefixFilter("groupname", prefix)).Failure?;
    assert fetch(PrefixFilter("name", prefix)).Failure?;
  }

  // ---------------------------------------------------------------------------------------
  // Objects of a class named on the line
  // ---------------------------------------------------------------------------------------

  /** `parts.windows(2).find(|w| w[0] == source)`: the token right after the first `source` that has one. */
  function ClassAfterFlag(parts: seq<string>, source: string): Option<string>
    decreases |parts|
  {
    if |parts| < 2 then None
    else if parts[0] == source then Some(parts[1])
    else ClassAfterFlag(parts[1..], source)
  }

  /** The class name is the token right after the first occurrence of the flag that has one. */
  lemma {:induction false} ClassAfterFirstFlag(parts: seq<string>, source: string, i: nat)
    requires i < |parts| - 1 && parts[i] == source
    requires forall j :: 0 <= j < i ==> parts[j] != source
    ensures ClassAfterFlag(parts, source) == Some(parts[i + 1])
    decreases i
  {
    if i > 0 {
      assert parts[0] != source;
      forall j | 0 <= j < i - 1 ensures parts[1..][j] != source {
        assert parts[1..][j] == parts[j + 1];
      }
      ClassAfterFirstFlag(parts[1..], source, i - 1);
    }
  }

  /** With no occurrence of the flag followed by a token there is no class name. */
  lemma {:induction false} NoFlagNoClass(parts: seq<string>, source: string)
    requires forall i :: 0 <= i < |parts| - 1 ==> parts[i] != source
    ensures ClassAfterFlag(parts, source) == None
    decreases |parts|
  {
    if |parts| >= 2 {
      assert parts[0] != source;
      forall i | 0 <= i < |parts[1..]| - 1 ensures parts[1..][i] != source {
        assert parts[1..][i] == parts[i + 1];
      }
      NoFlagNoClass(parts[1..], source);
    }
  }

  /** The class lookup and the object search of the server. */
  datatype ObjectSource = ObjectSource(
    findClass: string -> Result<int, AppError>,
    fetchObjects: (int, seq<QueryFilter>) -> Result<seq<string>, AppError>)

  /**
   * `objects_from_class_source`: no class named after `source`, or a class that cannot be
   * found, gives nothing; otherwise the names of that class's objects, filtered on `name`.
   */
  function ObjectsFromClassSource(server: ObjectSource, prefix: string, parts: seq<string>, source: string): (r: seq<string>)
    ensures ClassAfterFlag(parts, source).None? ==> r == []
    ensures ClassAfterFlag(parts, source).Some? && server.findClass(ClassAfterFlag(parts, source).value).Failure? ==> r == []
    ensures ClassAfterFlag(parts, source).Some? && server.findClass(ClassAfterFlag(parts, source).value).Success? ==>
      r == NamesOrEmpty(server.fetchObjects(server.findClass(ClassAfterFlag(parts, source).value).value, PrefixFilter("name", prefix)))
  {
    match ClassAfterFlag(parts, source)
    case None => []
    case Some(className) =>
      match server.findClass(className)
      case Failure(_) => []
      case Success(classId) => NamesOrEmpty(server.fetchObjects(classId, PrefixFilter("name", prefix)))
  }

  /** `objects_from_class`: the class comes from `--class`. */
  function ObjectsFromClass(server: ObjectSource, prefix: string, parts: seq<string>): seq<string> {
    ObjectsFromClassSource(server, prefix, parts, "--class")
  }

  /** `objects_from_class_from`: the class comes from `--class_from`. */
  function ObjectsFromClassFrom(server: ObjectSource, prefix: string, parts: seq<string>): seq<string> {
    ObjectsFromClassSource(server, prefix, parts, "--class_from")
  }

  /** `objects_from_class_to`: the class comes from `--class_to`. */
  function ObjectsFromClassTo(server: ObjectSource, prefix: string, parts: seq<string>): seq<string> {
    ObjectsFromClassSource(server, prefix, parts, "--class_to")
  }

  /**
   * On a relation line the source and target object completers each read the class given
   * with their own flag (unless the source class is itself spelt like the target flag).
   */
  lemma RelationFlagsRead(fromClass: string, toClass: string, rest: seq<string>)
    requires fromClass != "--class_to"
    ensures var parts := ["--class_from", fromClass, "--class_to", toClass] + rest;
      && ClassAfterFlag(parts, "--class_from") == Some(fromClass)
      && ClassAfterFlag(parts, "--class_to") == Some(toClass)
  {
    var parts := ["--class_from", fromClass, "--class_to", toClass] + rest;
    assert |parts[0]| != |"--class_to"|;
    ClassAfterFirstFlag(parts, "--class_to", 2);
  }
}
