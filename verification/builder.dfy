/**
 * The command tree of the shell: four scopes (`class`, `namespace`, `user`, `group`), each
 * holding its commands, and `help` at the top.
 */
module Builder {
  import opened Wrappers
  import opened Commands
  import opened CommandTree

  /** The command types the builder registers. */
  datatype CommandKind =
    | ClassNew | ClassList | ClassDelete | ClassInfo
    | NamespaceNew | NamespaceList | NamespaceDelete | NamespaceInfo
    | UserNew | UserList | UserDelete | UserInfo
    | GroupNew | GroupList
    | Help

  /** The description (`default()` of the command type) each kind stands for. */
  type Catalogue = CommandKind -> CommandInfo

  function ClassEntries(c: Catalogue): seq<(string, CommandInfo)> {
    [("create", c(ClassNew)), ("list", c(ClassList)), ("delete", c(ClassDelete)), ("info", c(ClassInfo))]
  }

  function NamespaceEntries(c: Catalogue): seq<(string, CommandInfo)> {
    [("create", c(NamespaceNew)), ("list", c(NamespaceList)), ("delete", c(NamespaceDelete)), ("info", c(NamespaceInfo))]
  }

  function UserEntries(c: Catalogue): seq<(string, CommandInfo)> {
    [("create", c(UserNew)), ("list", c(UserList)), ("delete", c(UserDelete)), ("info", c(UserInfo))]
  }

  function GroupEntries(c: Catalogue): seq<(string, CommandInfo)> {
    [("create", c(GroupNew)), ("list", c(GroupList))]
  }

  /** The commands of a scope that has no sub-scope. */
  function Leaf(commands: map<string, CommandInfo>): Tree {
    Tree(commands, map[])
  }

  /** Inserting four entries in order. */
  lemma InsertFour(a: (string, CommandInfo), b: (string, CommandInfo), c: (string, CommandInfo), d: (string, CommandInfo))
    ensures InsertAll(map[], [a, b, c, d]) == map[a.0 := a.1][b.0 := b.1][c.0 := c.1][d.0 := d.1]
  {
    var m0: map<string, CommandInfo> := map[];
    var m1 := m0[a.0 := a.1];
    var m2 := m1[b.0 := b.1];
    var m3 := m2[c.0 := c.1];
    assert [a, b, c, d][1..] == [b, c, d];
    assert [b, c, d][1..] == [c, d];
    assert [c, d][1..] == [d];
    assert InsertAll(m3, [d]) == m3[d.0 := d.1] by { InsertSingle(m3, d); }
    assert InsertAll(m2, [c, d]) == InsertAll(m3, [d]);
    assert InsertAll(m1, [b, c, d]) == InsertAll(m2, [c, d]);
  }

  /** Inserting a single entry into any map. */
  lemma InsertSingle(m: map<string, CommandInfo>, a: (string, CommandInfo))
    ensures InsertAll(m, [a]) == m[a.0 := a.1]
  {
    assert [a][1..] == [];
  }

  /** Inserting two entries in order. */
  lemma InsertTwo(a: (string, CommandInfo), b: (string, CommandInfo))
    ensures InsertAll(map[], [a, b]) == map[a.0 := a.1][b.0 := b.1]
  {
    assert [a, b][1..] == [b];
    InsertSingle(map[a.0 := a.1], b);
  }

  function ClassCommands(c: Catalogue): map<string, CommandInfo> {
    map["create" := c(ClassNew), "list" := c(ClassList), "delete" := c(ClassDelete), "info" := c(ClassInfo)]
  }

  function NamespaceCommands(c: Catalogue): map<string, CommandInfo> {
    map["create" := c(NamespaceNew), "list" := c(NamespaceList), "delete" := c(NamespaceDelete), "info" := c(NamespaceInfo)]
  }

  function UserCommands(c: Catalogue): map<string, CommandInfo> {
    map["create" := c(UserNew), "list" := c(UserList), "delete" := c(UserDelete), "info" := c(UserInfo)]
  }

  function GroupCommands(c: Catalogue): map<string, CommandInfo> {
    map["create" := c(GroupNew), "list" := c(GroupList)]
  }

  /** The tree `build_repl_commands` builds. */
  function ReplTree(c: Catalogue): Tree {
    Tree(map["help" := c(Help)],
         map["class" := Leaf(ClassCommands(c)), "namespace" := Leaf(NamespaceCommands(c)),
             "user" := Leaf(UserCommands(c)), "group" := Leaf(GroupCommands(c))])
  }

  /** The command kind registered under `scope` and `name`, if any. */
  function Registered(scope: string, name: string): Option<CommandKind> {
    match (scope, name)
    case ("class", "create") => Some(ClassNew)
    case ("class", "list") => Some(ClassList)
    case ("class", "delete") => Some(ClassDelete)
    case ("class", "info") => Some(ClassInfo)
    case ("namespace", "create") => Some(NamespaceNew)
    case ("namespace", "list") => Some(NamespaceList)
    case ("namespace", "delete") => Some(NamespaceDelete)
    case ("namespace", "info") => Some(NamespaceInfo)
    case ("user", "create") => Some(UserNew)
    case ("user", "list") => Some(UserList)
    case ("user", "delete") => Some(UserDelete)
    case ("user", "info") => Some(UserInfo)
    case ("group", "create") => Some(GroupNew)
    case ("group", "list") => Some(GroupList)
    case _ => None
  }

  /** `add_class_commands` and its three siblings, in the builder's order. */
  method AddScopes(cli: CommandList, c: Catalogue)
    modifies cli
    requires cli.scopes == map[]
    ensures cli.scopes == ReplTree(c).scopes
    ensures cli.commands == old(cli.commands)
  {
    AddClassAndNamespace(cli, c);
    AddUserAndGroup(cli, c);
    ReplScopesInOrder(c);
  }

  /** The first two scopes: `class`, then `namespace`. */
  method AddClassAndNamespace(cli: CommandList, c: Catalogue)
    modifies cli
    requires cli.scopes == map[]
    ensures cli.scopes == map[]["class" := Leaf(ClassCommands(c))]["namespace" := Leaf(NamespaceCommands(c))]
    ensures cli.commands == old(cli.commands)
  {
    assert InsertAll(map[], ClassEntries(c)) == ClassCommands(c) by {
      ScopeCommandsInserted(c);
    }
    AddLeafScope(cli, "class", ClassEntries(c), ClassCommands(c));
    assert cli.scopes.Keys == {"class"};
    assert "namespace" !in cli.scopes by {
      assert |"namespace"| != |"class"|;
    }
    assert InsertAll(map[], NamespaceEntries(c)) == NamespaceCommands(c) by {
      ScopeCommandsInserted(c);
    }
    AddLeafScope(cli, "namespace", NamespaceEntries(c), NamespaceCommands(c));
  }

  /** The last two scopes: `user`, then `group`, after the first two. */
  method AddUserAndGroup(cli: CommandList, c: Catalogue)
    modifies cli
    requires cli.scopes == map[]["class" := Leaf(ClassCommands(c))]["namespace" := Leaf(NamespaceCommands(c))]
    ensures cli.scopes == old(cli.scopes)["user" := Leaf(UserCommands(c))]["group" := Leaf(GroupCommands(c))]
    ensures cli.commands == old(cli.commands)
  {
    assert cli.scopes.Keys == {"class", "namespace"};
    assert "user" !in cli.scopes by {
      assert |"user"| != |"class"| && |"user"| != |"namespace"|;
    }
    assert InsertAll(map[], UserEntries(c)) == UserCommands(c) by {
      ScopeCommandsInserted(c);
    }
    AddLeafScope(cli, "user", UserEntries(c), UserCommands(c));
    assert cli.scopes.Keys == {"class", "namespace", "user"};
    assert "group" !in cli.scopes by {
      assert "group"[0] != "class"[0] && "group"[0] != "namespace"[0] && "group"[0] != "user"[0];
    }
    assert InsertAll(map[], GroupEntries(c)) == GroupCommands(c) by {
      ScopeCommandsInserted(c);
    }
    AddLeafScope(cli, "group", GroupEntries(c), GroupCommands(c));
  }

  /** A new scope whose entries give `commands`: the scope appears holding exactly those. */
  method AddLeafScope(cli: CommandList, scope: string, entries: seq<(string, CommandInfo)>, commands: map<string, CommandInfo>)
    modifies cli
    requires scope !in cli.scopes && InsertAll(map[], entries) == commands
    ensures cli.scopes == old(cli.scopes)[scope := Leaf(commands)]
    ensures cli.commands == old(cli.commands)
  {
    cli.AddScopedCommands(scope, entries);
    assert ScopeOrEmpty(old(cli.scopes), scope) == Empty;
  }

  /** The scopes of the tree, as the four insertions build them. */
  lemma ReplScopesInOrder(c: Catalogue)
    ensures ReplTree(c).scopes == map[]["class" := Leaf(ClassCommands(c))]["namespace" := Leaf(NamespaceCommands(c))]
      ["user" := Leaf(UserCommands(c))]["group" := Leaf(GroupCommands(c))]
  {
  }

  /** Each scope's entries, inserted in order into an empty scope, give that scope's commands. */
  lemma ScopeCommandsInserted(c: Catalogue)
    ensures InsertAll(map[], ClassEntries(c)) == ClassCommands(c)
    ensures InsertAll(map[], NamespaceEntries(c)) == NamespaceCommands(c)
    ensures InsertAll(map[], UserEntries(c)) == UserCommands(c)
    ensures InsertAll(map[], GroupEntries(c)) == GroupCommands(c)
  {
    InsertFour(ClassEntries(c)[0], ClassEntries(c)[1], ClassEntries(c)[2], ClassEntries(c)[3]);
    InsertFour(NamespaceEntries(c)[0], NamespaceEntries(c)[1], NamespaceEntries(c)[2], NamespaceEntries(c)[3]);
    InsertFour(UserEntries(c)[0], UserEntries(c)[1], UserEntries(c)[2], UserEntries(c)[3]);
    InsertTwo(GroupEntries(c)[0], GroupEntries(c)[1]);
  }

  /** `build_repl_commands`: the four scopes, then `help`. */
  method BuildReplCommands(c: Catalogue) returns (cli: CommandList)
    ensures fresh(cli)
    ensures cli.Model() == ReplTree(c)
  {
    cli := new CommandList();
    AddScopes(cli, c);
    cli.AddCommand("help", c(Help));
  }

  /**
   * Typing a scope and then one of its command names reaches exactly the registered command,
   * whatever follows; any other second word is not found.
   */
  lemma ReplCommandsFound(c: Catalogue, scope: string, name: string, rest: seq<string>)
    requires scope in ReplTree(c).scopes
    ensures Registered(scope, name).Some? ==>
      Walk(ReplTree(c), [scope, name] + rest, 0) ==
        WalkResult(ReplTree(c).scopes[scope], [scope], AtCommand(name, c(Registered(scope, name).value), 1))
    ensures Registered(scope, name).None? ==>
      Walk(ReplTree(c), [scope, name] + rest, 0) ==
        WalkResult(ReplTree(c).scopes[scope], [scope], Unknown(name))
  {
    var parts := [scope, name] + rest;
    assert parts[0] == scope && parts[1] == name;
    var child := ReplTree(c).scopes[scope];
    assert child.scopes == map[];
    assert name in child.commands <==> Registered(scope, name).Some?;
    assert Registered(scope, name).Some? ==> child.commands[name] == c(Registered(scope, name).value);
  }

  /** `help` is the only command at the top; every other first word that is not a scope is not found. */
  lemma ReplTopLevel(c: Catalogue, first: string, rest: seq<string>)
    requires first !in ReplTree(c).scopes
    ensures first == "help" ==>
      Walk(ReplTree(c), [first] + rest, 0) == WalkResult(ReplTree(c), [], AtCommand("help", c(Help), 0))
    ensures first != "help" ==>
      Walk(ReplTree(c), [first] + rest, 0) == WalkResult(ReplTree(c), [], Unknown(first))
  {
    assert ([first] + rest)[0] == first;
  }

  /** The smaller tree of `main.rs`: `class create`, `namespace create` and `help`. */
  function MainTree(c: Catalogue): Tree {
    Tree(map["help" := c(Help)],
         map["class" := Leaf(map["create" := c(ClassNew)]), "namespace" := Leaf(map["create" := c(NamespaceNew)])])
  }

  /** The `build_repl_commands` of `main.rs`. */
  method BuildMainCommands(c: Catalogue) returns (cli: CommandList)
    ensures fresh(cli)
    ensures cli.Model() == MainTree(c)
  {
    cli := new CommandList();
    InsertSingle(map[], ("create", c(ClassNew)));
    InsertSingle(map[], ("create", c(NamespaceNew)));
    cli.AddScopedCommands("class", [("create", c(ClassNew))]);
    cli.AddScopedCommands("namespace", [("create", c(NamespaceNew))]);
    cli.AddCommand("help", c(Help));
  }

  /** The smaller tree is part of the full one: each of its commands is registered there too, with the same description. */
  lemma MainTreeWithinRepl(c: Catalogue)
    ensures MainTree(c).commands == ReplTree(c).commands
    ensures forall s :: s in MainTree(c).scopes ==>
      s in ReplTree(c).scopes && MainTree(c).scopes[s].scopes == map[]
      && forall n :: n in MainTree(c).scopes[s].commands ==>
        n in ReplTree(c).scopes[s].commands && MainTree(c).scopes[s].commands[n] == ReplTree(c).scopes[s].commands[n]
  {
    assert MainTree(c).scopes.Keys == {"class", "namespace"};
    assert MainTree(c).scopes["class"].commands == map["create" := c(ClassNew)];
    assert MainTree(c).scopes["namespace"].commands == map["create" := c(NamespaceNew)];
    assert ReplTree(c).scopes["class"].commands["create"] == c(ClassNew);
    assert ReplTree(c).scopes["namespace"].commands["create"] == c(NamespaceNew);
  }
}
