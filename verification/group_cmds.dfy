/**
 * The group commands' own decisions: the fully required fields of `GroupNew`,
 * `GroupAddUser` and `GroupRemoveUser`, the post `GroupNew` becomes, the four filters of
 * `GroupList`, and the membership messages.
 */
module GroupCommands {
  import opened Wrappers
  import Strings
  import opened Shared
  import Derive

  // ---------------------------------------------------------------------------------------
  // Fields
  // ---------------------------------------------------------------------------------------

  const GroupNewFields: seq<Derive.Field> := [
    Derive.Field("groupname", Derive.StringType, Derive.FieldOpts(Some("g"), Some("groupname"), Some("Name of the group"), None, None)),
    Derive.Field("description", Derive.StringType, Derive.FieldOpts(Some("d"), Some("description"), Some("Description of the group"), None, None))]

  const GroupAddUserFields: seq<Derive.Field> := [
    Derive.Field("groupname", Derive.StringType, Derive.FieldOpts(Some("g"), Some("groupname"), Some("Name of the group"), None, None)),
    Derive.Field("username", Derive.StringType, Derive.FieldOpts(Some("u"), Some("username"), Some("Username to add to the group"), None, None))]

  const GroupRemoveUserFields: seq<Derive.Field> := [
    Derive.Field("groupname", Derive.StringType, Derive.FieldOpts(Some("g"), Some("groupname"), Some("Name of the group"), None, None)),
    Derive.Field("username", Derive.StringType, Derive.FieldOpts(Some("u"), Some("username"), Some("Username to remove from the group"), None, None))]

  /** A field list of plain (non-`Option`) types whose attributes leave `required` and `flag` unset. */
  predicate PlainFields(fields: seq<Derive.Field>) {
    forall i :: 0 <= i < |fields| ==>
      !Derive.IsOptional(fields[i].ty) && fields[i].opts.required.None? && fields[i].opts.flag.None?
  }

  /** In such a list every derived option but the trailing `help` is required and takes a value. */
  lemma {:induction false} PlainFieldsRequired(fields: seq<Derive.Field>)
    requires PlainFields(fields)
    ensures var opts := Derive.DerivedOptions(fields);
      forall i :: 0 <= i < |fields| ==> opts[i].required && !opts[i].flag
  {
    forall i | 0 <= i < |fields|
      ensures Derive.DerivedOptions(fields)[i].required && !Derive.DerivedOptions(fields)[i].flag
    {
      Derive.RequiredRule(fields, i);
    }
  }

  /** Every field of `GroupNew`, `GroupAddUser` and `GroupRemoveUser` must be given. */
  lemma GroupFieldsRequired()
    ensures forall i :: 0 <= i < 2 ==> Derive.DerivedOptions(GroupNewFields)[i].required
    ensures forall i :: 0 <= i < 2 ==> Derive.DerivedOptions(GroupAddUserFields)[i].required
    ensures forall i :: 0 <= i < 2 ==> Derive.DerivedOptions(GroupRemoveUserFields)[i].required
  {
    PlainFieldsRequired(GroupNewFields);
    PlainFieldsRequired(GroupAddUserFields);
    PlainFieldsRequired(GroupRemoveUserFields);
  }

  // ---------------------------------------------------------------------------------------
  // `GroupNew`
  // ---------------------------------------------------------------------------------------

  datatype GroupNew = GroupNew(groupname: string, description: string)

  datatype GroupPost = GroupPost(groupname: string, description: string)

  /** `into_post`: both fields go to the API unchanged. */
  function IntoPost(g: GroupNew): (r: GroupPost)
    ensures r.groupname == g.groupname && r.description == g.description
  {
    GroupPost(g.groupname, g.description)
  }

  // ---------------------------------------------------------------------------------------
  // `GroupList`
  // ---------------------------------------------------------------------------------------

  /** The filters `GroupList` asks for: the name by containment, by prefix and by suffix, then the description by containment. */
  function GroupListWanted(name: Option<string>, startsWith: Option<string>, endsWith: Option<string>, description: Option<string>): seq<Wanted> {
    [Wanted("groupname", name, IContains(false)), Wanted("groupname", startsWith, StartsWith(false)),
     Wanted("groupname", endsWith, EndsWith(false)), Wanted("description", description, IContains(false))]
  }

  /** The search of `GroupList`: the four filters in that order, each only when its value is given. */
  method GroupListFilters(name: Option<string>, startsWith: Option<string>, endsWith: Option<string>, description: Option<string>)
    returns (filters: seq<QueryFilter>)
    ensures filters == OnlyPresent(GroupListWanted(name, startsWith, endsWith, description))
  {
    var w := GroupListWanted(name, startsWith, endsWith, description);
    OnlyPresentFour(w[0], w[1], w[2], w[3]);
    filters := [];
    if name.Some? {
      filters := filters + [QueryFilter("groupname", name.value, IContains(false))];
    }
    assert filters == Present(w[0]);
    if startsWith.Some? {
      filters := filters + [QueryFilter("groupname", startsWith.value, StartsWith(false))];
    }
    assert filters == Present(w[0]) + Present(w[1]);
    if endsWith.Some? {
      filters := filters + [QueryFilter("groupname", endsWith.value, EndsWith(false))];
    }
    assert filters == Present(w[0]) + Present(w[1]) + Present(w[2]);
    if description.Some? {
      filters := filters + [QueryFilter("description", description.value, IContains(false))];
    }
  }

  /** A prefix and a suffix together narrow the group name both ways, in that order. */
  lemma GroupListBothEnds(prefix: string, suffix: string)
    ensures OnlyPresent(GroupListWanted(None, Some(prefix), Some(suffix), None))
      == [QueryFilter("groupname", prefix, StartsWith(false)), QueryFilter("groupname", suffix, EndsWith(false))]
  {
    var w := GroupListWanted(None, Some(prefix), Some(suffix), None);
    OnlyPresentFour(w[0], w[1], w[2], w[3]);
  }

  // ---------------------------------------------------------------------------------------
  // Membership messages
  // ---------------------------------------------------------------------------------------

  function AddedMessage(username: string, groupname: string): (m: string)
    ensures Strings.StartsWith(m, "User " + username) && Strings.EndsWith(m, " added to group " + groupname)
    ensures |m| == |"User " + username| + |" added to group " + groupname|
  {
    var m := "User " + username + " added to group " + groupname;
    assert m == ("User " + username) + (" added to group " + groupname);
    m
  }

  function RemovedMessage(username: string, groupname: string): (m: string)
    ensures Strings.StartsWith(m, "User " + username) && Strings.EndsWith(m, " removed from group " + groupname)
    ensures |m| == |"User " + username| + |" removed from group " + groupname|
  {
    var m := "User " + username + " removed from group " + groupname;
    assert m == ("User " + username) + (" removed from group " + groupname);
    m
  }

  /** For the same user and group the two messages are never the same text. */
  lemma MessagesDiffer(username: string, groupname: string)
    ensures AddedMessage(username, groupname) != RemovedMessage(username, groupname)
  {
    assert |AddedMessage(username, groupname)| + 4 == |RemovedMessage(username, groupname)|;
  }
}
