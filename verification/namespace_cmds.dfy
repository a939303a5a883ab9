/**
 * The namespace commands' own decisions: the required fields of `NamespaceNew` and the post it
 * becomes, the optional name and description filters of `NamespaceList`, the "option, else
 * positional" namespace name, and the permission grant (which permissions, when none is chosen,
 * and the message).
 */
module NamespaceCommands {
  import opened Wrappers
  import Strings
  import opened Errors
  import opened Shared
  import Derive

  // ---------------------------------------------------------------------------------------
  // `NamespaceNew`
  // ---------------------------------------------------------------------------------------

  datatype NamespaceNew = NamespaceNew(name: string, description: string, owner: string)

  /** What the API receives: the owner group is sent by id. */
  datatype NamespacePost = NamespacePost(name: string, description: string, groupId: int)

  /** The fields of `NamespaceNew`, as the derive sees them. */
  const NamespaceNewFields: seq<Derive.Field> := [
    Derive.Field("name", Derive.StringType, Derive.FieldOpts(Some("n"), Some("name"), Some("Name of the namespace"), None, None)),
    Derive.Field("description", Derive.StringType, Derive.FieldOpts(Some("d"), Some("description"), Some("Description of the namespace"), None, None)),
    Derive.Field("owner", Derive.StringType, Derive.FieldOpts(Some("o"), Some("owner"), Some("Name of the group owning namespace"), None, None))]

  /** All three fields are required, none is a flag, and `help` follows them. */
  lemma NamespaceNewRequired()
    ensures var opts := Derive.DerivedOptions(NamespaceNewFields);
      |opts| == 4 && opts[3] == Derive.HelpOption
      && forall i :: 0 <= i < 3 ==> opts[i].required && !opts[i].flag
  {
    forall i | 0 <= i < 3
      ensures Derive.DerivedOptions(NamespaceNewFields)[i].required && !Derive.DerivedOptions(NamespaceNewFields)[i].flag
    {
      Derive.RequiredRule(NamespaceNewFields, i);
    }
    Derive.EndsWithHelp(NamespaceNewFields);
  }

  /** `into_post`: name and description are kept, and the owner is replaced by the given group id. */
  function IntoPost(n: NamespaceNew, groupId: int): (r: NamespacePost)
    ensures r.name == n.name && r.description == n.description && r.groupId == groupId
  {
    NamespacePost(n.name, n.description, groupId)
  }

  // ---------------------------------------------------------------------------------------
  // `NamespaceList`
  // ---------------------------------------------------------------------------------------

  /** The search of `NamespaceList`: a contains filter on name, then one on description, each only when given. */
  function NamespaceListFilters(name: Option<string>, description: Option<string>): (r: seq<QueryFilter>)
    ensures r == OnlyPresent([Wanted("name", name, Contains(false)), Wanted("description", description, Contains(false))])
  {
    OnlyPresentTwo(Wanted("name", name, Contains(false)), Wanted("description", description, Contains(false)));
    var byName := match name {
      case Some(n) => [QueryFilter("name", n, Contains(false))]
      case None => []
    };
    match description {
      case Some(d) => byName + [QueryFilter("description", d, Contains(false))]
      case None => byName
    }
  }

  // ---------------------------------------------------------------------------------------
  // The namespace name
  // ---------------------------------------------------------------------------------------

  /** `namespace_or_pos`: the `--name` option, else the positional at `pos`, else `MissingOptions(["namespace"])`. */
  function NamespaceOrPos(name: Option<string>, positionals: seq<string>, pos: nat): (r: Result<Option<string>, AppError>)
    ensures name.Some? ==> r == Success(name)
    ensures name.None? && pos < |positionals| ==> r == Success(Some(positionals[pos]))
    ensures name.None? && pos >= |positionals| ==> r == Failure(MissingOptions(["namespace"]))
  {
    OrPositional(name, positionals, pos, "namespace")
  }

  /** After the fallback succeeds a name is always present, so the grant's second "namespace missing" check never fires. */
  lemma GrantNameAlwaysPresent(name: Option<string>, positionals: seq<string>)
    ensures NamespaceOrPos(name, positionals, 0).Success? ==> NamespaceOrPos(name, positionals, 0).value.Some?
  {
  }

  // ---------------------------------------------------------------------------------------
  // `NamespacePermissionsGrant`
  // ---------------------------------------------------------------------------------------

  /**
   * The permissions a grant asks for: every one with `--all`, otherwise the chosen flags in the
   * declared order; asking for none is an error.
   */
  function Selection(all: bool, chosen: set<Permission>): Result<seq<Permission>, AppError> {
    if all then Success(AllPermissions)
    else
      var v := Keep(AllPermissions, chosen);
      if v == [] then Failure(MissingOptions(["permission"])) else Success(v)
  }

  /** The first `k` steps of the selection. */
  function KeptUpTo(chosen: set<Permission>, k: nat): seq<Permission>
    requires k <= |AllPermissions|
  {
    Keep(AllPermissions[..k], chosen)
  }

  /** One more `if`: the permission at rank `k` is pushed when it was chosen. */
  lemma Step(chosen: set<Permission>, k: nat, p: Permission)
    requires k < |AllPermissions| && AllPermissions[k] == p
    ensures KeptUpTo(chosen, k + 1) == KeptUpTo(chosen, k) + (if p in chosen then [p] else [])
  {
    assert AllPermissions[..k + 1] == AllPermissions[..k] + [p];
    KeepSnoc(AllPermissions[..k], p, chosen);
  }

  /** One `if`: the permission is pushed after those of lower rank when it was chosen. */
  method PushIfChosen(chosen: set<Permission>, p: Permission, v: seq<Permission>) returns (w: seq<Permission>)
    requires v == KeptUpTo(chosen, Rank(p))
    ensures w == KeptUpTo(chosen, Rank(p) + 1)
  {
    Step(chosen, Rank(p), p);
    w := v;
    if p in chosen {
      w := w + [p];
    }
  }

  /** The selection and its empty check, one flag at a time in the declared order. */
  method SelectPermissions(all: bool, chosen: set<Permission>) returns (r: Result<seq<Permission>, AppError>)
    ensures r == Selection(all, chosen)
  {
    var perms: seq<Permission>;
    if all {
      perms := AllPermissions;
    } else {
      var v: seq<Permission> := [];
      assert v == KeptUpTo(chosen, 0);
      v := PushCollectionFlags(chosen, v);
      v := PushClassFlags(chosen, v);
      v := PushObjectFlags(chosen, v);
      v := PushClassRelationFlags(chosen, v);
      v := PushObjectRelationFlags(chosen, v);
      assert AllPermissions[..20] == AllPermissions;
      perms := v;
    }
    if perms == [] {
      return Failure(MissingOptions(["permission"]));
    }
    r := Success(perms);
  }

  /** The four `if`s for the collection permissions. */
  method PushCollectionFlags(chosen: set<Permission>, v: seq<Permission>) returns (w: seq<Permission>)
    requires v == KeptUpTo(chosen, 0)
    ensures w == KeptUpTo(chosen, 4)
  {
    w := v;
    w := PushIfChosen(chosen, ReadCollection, w);
    w := PushIfChosen(chosen, UpdateCollection, w);
    w := PushIfChosen(chosen, DeleteCollection, w);
    w := PushIfChosen(chosen, DelegateCollection, w);
  }

  /** The four `if`s for the class permissions. */
  method PushClassFlags(chosen: set<Permission>, v: seq<Permission>) returns (w: seq<Permission>)
    requires v == KeptUpTo(chosen, 4)
    ensures w == KeptUpTo(chosen, 8)
  {
    w := v;
    w := PushIfChosen(chosen, CreateClass, w);
    w := PushIfChosen(chosen, ReadClass, w);
    w := PushIfChosen(chosen, UpdateClass, w);
    w := PushIfChosen(chosen, DeleteClass, w);
  }

  /** The four `if`s for the object permissions. */
  method PushObjectFlags(chosen: set<Permission>, v: seq<Permission>) returns (w: seq<Permission>)
    requires v == KeptUpTo(chosen, 8)
    ensures w == KeptUpTo(chosen, 12)
  {
    w := v;
    w := PushIfChosen(chosen, CreateObject, w);
    w := PushIfChosen(chosen, ReadObject, w);
    w := PushIfChosen(chosen, UpdateObject, w);
    w := PushIfChosen(chosen, DeleteObject, w);
  }

  /** The four `if`s for the class-relation permissions. */
  method PushClassRelationFlags(chosen: set<Permission>, v: seq<Permission>) returns (w: seq<Permission>)
    requires v == KeptUpTo(chosen, 12)
    ensures w == KeptUpTo(chosen, 16)
  {
    w := v;
    w := PushIfChosen(chosen, CreateClassRelation, w);
    w := PushIfChosen(chosen, ReadClassRelation, w);
    w := PushIfChosen(chosen, UpdateClassRelation, w);
    w := PushIfChosen(chosen, DeleteClassRelation, w);
  }

  /** The four `if`s for the object-relation permissions. */
  method PushObjectRelationFlags(chosen: set<Permission>, v: seq<Permission>) returns (w: seq<Permission>)
    requires v == KeptUpTo(chosen, 16)
    ensures w == KeptUpTo(chosen, 20)
  {
    w := v;
    w := PushIfChosen(chosen, CreateObjectRelation, w);
    w := PushIfChosen(chosen, ReadObjectRelation, w);
    w := PushIfChosen(chosen, UpdateObjectRelation, w);
    w := PushIfChosen(chosen, DeleteObjectRelation, w);
  }

  /**
   * The selection fails exactly when neither `--all` nor any permission flag is given; otherwise
   * it holds each asked-for permission, and only those, in the declared order.
   */
  lemma SelectionExact(all: bool, chosen: set<Permission>)
    ensures Selection(all, chosen).Failure? <==> !all && chosen == {}
    ensures Selection(all, chosen).Failure? ==> Selection(all, chosen).error == MissingOptions(["permission"])
    ensures Selection(all, chosen).Success? ==>
      var v := Selection(all, chosen).value;
      (forall p :: p in v <==> all || p in chosen)
      && (forall i, j :: 0 <= i < j < |v| ==> v[i] != v[j])
  {
    if all {
      AllPermissionsListed();
      AllPermissionsDistinct();
    } else {
      KeptChosen(chosen);
    }
  }

  /** Without `--all`, the kept permissions are the chosen ones, each once, and none are kept when none are chosen. */
  lemma KeptChosen(chosen: set<Permission>)
    ensures forall p :: p in Keep(AllPermissions, chosen) <==> p in chosen
    ensures forall i, j :: 0 <= i < j < |Keep(AllPermissions, chosen)| ==>
      Keep(AllPermissions, chosen)[i] != Keep(AllPermissions, chosen)[j]
    ensures Keep(AllPermissions, chosen) == [] <==> chosen == {}
  {
    AllPermissionsListed();
    AllPermissionsDistinct();
    KeptFrom(AllPermissions, chosen);
  }

  lemma KeptFrom(ps: seq<Permission>, chosen: set<Permission>)
    requires forall p :: p in ps
    requires forall i, j :: 0 <= i < j < |ps| ==> ps[i] != ps[j]
    ensures forall p :: p in Keep(ps, chosen) <==> p in chosen
    ensures forall i, j :: 0 <= i < j < |Keep(ps, chosen)| ==> Keep(ps, chosen)[i] != Keep(ps, chosen)[j]
    ensures Keep(ps, chosen) == [] <==> chosen == {}
  {
    KeepMembers(ps, chosen);
    KeepDistinct(ps, chosen);
    if chosen == {} {
      KeepNone(ps);
    } else {
      var p :| p in chosen;
      assert p in Keep(ps, chosen);
    }
  }

  /** How the grant names what it granted: "all permissions" with `--all`, else the names joined with ", ". */
  function PermString(all: bool, perms: seq<Permission>): (r: string)
    ensures all ==> r == "all permissions"
    ensures !all && |perms| == 1 ==> r == PermissionName(perms[0])
  {
    if all then "all permissions"
    else Strings.Join(seq(|perms|, i requires 0 <= i < |perms| => PermissionName(perms[i])), ", ")
  }

  /** The message of a successful grant. */
  function GrantMessage(permString: string, group: string, namespace: string): (r: string)
    ensures Strings.StartsWith(r, "Granted " + permString + " to group '")
    ensures Strings.EndsWith(r, "' on namespace '" + namespace + "'")
    ensures |r| == |"Granted " + permString + " to group '"| + |group| + |"' on namespace '" + namespace + "'"|
    ensures r[|"Granted " + permString + " to group '"|..|r| - |"' on namespace '" + namespace + "'"|] == group
  {
    var head := "Granted " + permString + " to group '";
    var tail := "' on namespace '" + namespace + "'";
    var r := head + group + tail;
    assert r[..|head|] == head;
    assert r[|r| - |tail|..] == tail;
    assert r[|head|..|r| - |tail|] == group;
    r
  }
}
