/**
 * The command tree: every node holds commands by name and child scopes by name. The shell
 * registers commands into it, the completer and the dispatcher walk it part by part.
 */
module CommandTree {
  import opened Wrappers
  import opened Strings
  import opened Commands
  import Tokenizer

  /** The value of a node: its commands and, recursively, its child scopes. */
  datatype Tree = Tree(commands: map<string, CommandInfo>, scopes: map<string, Tree>)
  {
    /** `get_command`: the command of that name, absent exactly when the name is not a command here. */
    function GetCommand(name: string): (r: Option<CommandInfo>)
      ensures r.None? <==> name !in commands
      ensures r.Some? ==> r.value == commands[name]
    {
      if name in commands then Some(commands[name]) else None
    }

    /** `get_scope`: the child scope of that name, absent exactly when the name is not a scope here. */
    function GetScope(name: string): (r: Option<Tree>)
      ensures r.None? <==> name !in scopes
      ensures r.Some? ==> r.value == scopes[name]
    {
      if name in scopes then Some(scopes[name]) else None
    }
  }

  const Empty: Tree := Tree(map[], map[])

  /**
   * The order in which a hash map hands out its keys. The order itself is not known; all
   * that is relied on is that it lists every key of the map exactly once.
   */
  type KeyOrder = set<string> -> seq<string>

  ghost predicate Lists(names: seq<string>, keys: set<string>) {
    (forall n :: n in names <==> n in keys)
    && (forall i, j :: 0 <= i < j < |names| ==> names[i] != names[j])
  }

  ghost predicate Enumerates(order: KeyOrder) {
    forall keys: set<string> :: Lists(order(keys), keys)
  }

  // ---------------------------------------------------------------------------------------
  // Prefix completion over one node (`get_completions`)
  // ---------------------------------------------------------------------------------------

  /** The names starting with `prefix`, in the given order, each as a pair shown as it is inserted. */
  function NameCompletions(names: seq<string>, prefix: string): (r: seq<Pair>)
    ensures |r| <= |names|
  {
    if names == [] then []
    else (if StartsWith(names[0], prefix) then [Pair(names[0], names[0])] else []) + NameCompletions(names[1..], prefix)
  }

  /** Only names starting with `prefix` are offered, each shown as it is inserted. */
  lemma {:induction false} NameCompletionsSound(names: seq<string>, prefix: string)
    ensures forall k :: 0 <= k < |NameCompletions(names, prefix)| ==>
      NameCompletions(names, prefix)[k] == Pair(NameCompletions(names, prefix)[k].display, NameCompletions(names, prefix)[k].display)
      && NameCompletions(names, prefix)[k].display in names && StartsWith(NameCompletions(names, prefix)[k].display, prefix)
    decreases |names|
  {
    if names != [] {
      var rest := NameCompletions(names[1..], prefix);
      NameCompletionsSound(names[1..], prefix);
      var head := if StartsWith(names[0], prefix) then [Pair(names[0], names[0])] else [];
      var r := NameCompletions(names, prefix);
      assert r == head + rest;
      forall k | |head| <= k < |r|
        ensures r[k] == Pair(r[k].display, r[k].display) && r[k].display in names && StartsWith(r[k].display, prefix)
      {
        assert r[k] == rest[k - |head|];
        assert rest[k - |head|].display in names[1..];
      }
    }
  }

  /** Every name starting with `prefix` is offered. */
  lemma {:induction false} NameCompletionsComplete(names: seq<string>, prefix: string, n: string)
    requires n in names && StartsWith(n, prefix)
    ensures Pair(n, n) in NameCompletions(names, prefix)
    decreases |names|
  {
    if names[0] != n {
      NameCompletionsComplete(names[1..], prefix, n);
    }
  }

  /** `get_completions`: the matching command names first, then the matching scope names. */
  function Completions(t: Tree, prefix: string, order: KeyOrder): seq<Pair> {
    NameCompletions(order(t.commands.Keys), prefix) + NameCompletions(order(t.scopes.Keys), prefix)
  }

  /** Each candidate is shown as it is inserted and starts with the prefix; the first `n` are command names. */
  lemma CompletionsShape(t: Tree, prefix: string, order: KeyOrder)
    ensures var r := Completions(t, prefix, order);
      var n := |NameCompletions(order(t.commands.Keys), prefix)|;
      (forall k :: 0 <= k < |r| ==> r[k].display == r[k].replacement && StartsWith(r[k].display, prefix))
      && (forall k :: 0 <= k < n ==> r[k].display in order(t.commands.Keys))
      && (forall k :: n <= k < |r| ==> r[k].display in order(t.scopes.Keys))
  {
    var c := NameCompletions(order(t.commands.Keys), prefix);
    var s := NameCompletions(order(t.scopes.Keys), prefix);
    NameCompletionsSound(order(t.commands.Keys), prefix);
    NameCompletionsSound(order(t.scopes.Keys), prefix);
    assert forall k :: 0 <= k < |c| ==> (c + s)[k] == c[k];
    assert forall k :: |c| <= k < |c + s| ==> (c + s)[k] == s[k - |c|];
  }

  /**
   * The candidates are exactly the command and scope names starting with the prefix, each shown
   * as it is inserted; the first `n` come from the commands and the rest from the scopes.
   */
  lemma CompletionsExact(t: Tree, prefix: string, order: KeyOrder)
    requires Enumerates(order)
    ensures var r := Completions(t, prefix, order);
      var n := |NameCompletions(order(t.commands.Keys), prefix)|;
      (forall x :: Pair(x, x) in r <==> (x in t.commands || x in t.scopes) && StartsWith(x, prefix))
      && (forall k :: 0 <= k < n ==> r[k].display in t.commands)
      && (forall k :: n <= k < |r| ==> r[k].display in t.scopes)
  {
    var c := NameCompletions(order(t.commands.Keys), prefix);
    var r := Completions(t, prefix, order);
    assert Lists(order(t.commands.Keys), t.commands.Keys);
    assert Lists(order(t.scopes.Keys), t.scopes.Keys);
    CompletionsShape(t, prefix, order);
    forall x | (x in t.commands || x in t.scopes) && StartsWith(x, prefix)
      ensures Pair(x, x) in r
    {
      if x in t.commands {
        NameCompletionsComplete(order(t.commands.Keys), prefix, x);
      } else {
        NameCompletionsComplete(order(t.scopes.Keys), prefix, x);
      }
    }
  }

  // ---------------------------------------------------------------------------------------
  // The walk shared by the completer and the dispatcher
  // ---------------------------------------------------------------------------------------

  /** Why a walk stopped: the parts ran out, a part named nothing, or a part named a command. */
  datatype Stop = Exhausted | Unknown(part: string) | AtCommand(name: string, command: CommandInfo, at: nat)

  /** Where a walk ended, with the scope names it descended through. */
  datatype WalkResult = WalkResult(scope: Tree, path: seq<string>, stop: Stop)

  /**
   * Walking `parts` from index `i`: a scope name descends (a scope wins over a command of the
   * same name), a command name stops the walk there, anything else stops it silently.
   */
  function Walk(t: Tree, parts: seq<string>, i: nat): (r: WalkResult)
    requires i <= |parts|
    ensures var n := i + |r.path|;
      n <= |parts| && r.path == parts[i..n]
      && (r.stop.Exhausted? <==> n == |parts|)
      && (r.stop.Unknown? ==> r.stop.part == parts[n] && parts[n] !in r.scope.scopes && parts[n] !in r.scope.commands)
      && (r.stop.AtCommand? ==>
            r.stop.at == n && r.stop.name == parts[n] && parts[n] !in r.scope.scopes
            && parts[n] in r.scope.commands && r.stop.command == r.scope.commands[parts[n]])
    decreases |parts| - i
  {
    if i == |parts| then WalkResult(t, [], Exhausted)
    else if parts[i] in t.scopes then
      var w := Walk(t.scopes[parts[i]], parts, i + 1);
      w.(path := [parts[i]] + w.path)
    else if parts[i] in t.commands then WalkResult(t, [], AtCommand(parts[i], t.commands[parts[i]], i))
    else WalkResult(t, [], Unknown(parts[i]))
  }

  /** The node reached by descending through the scope names `path`, when each names a scope. */
  function Descend(t: Tree, path: seq<string>): Option<Tree> {
    if path == [] then Some(t)
    else if path[0] in t.scopes then Descend(t.scopes[path[0]], path[1..])
    else None
  }

  /** Every part the walk passed over named a scope, and the walk ends in the scope they lead to. */
  lemma {:induction false} WalkDescends(t: Tree, parts: seq<string>, i: nat)
    requires i <= |parts|
    ensures Descend(t, Walk(t, parts, i).path) == Some(Walk(t, parts, i).scope)
    decreases |parts| - i
  {
    if i < |parts| && parts[i] in t.scopes {
      WalkDescends(t.scopes[parts[i]], parts, i + 1);
      var w := Walk(t.scopes[parts[i]], parts, i + 1);
      assert ([parts[i]] + w.path)[1..] == w.path;
    }
  }

  // ---------------------------------------------------------------------------------------
  // The completer (`complete`)
  // ---------------------------------------------------------------------------------------

  /** The index of the last whitespace character of `s`, if any. */
  function LastSpace(s: string): (r: Option<nat>)
    ensures r.Some? ==> r.value < |s| && IsSpace(s[r.value]) && forall k :: r.value < k < |s| ==> !IsSpace(s[k])
    ensures r.None? ==> forall k :: 0 <= k < |s| ==> !IsSpace(s[k])
  {
    if s == [] then None
    else if IsSpace(s[|s| - 1]) then Some(|s| - 1)
    else LastSpace(s[..|s| - 1])
  }

  /**
   * The word being completed and where it starts: the text after the last whitespace before
   * the cursor; with no whitespace the start is 0 and the word is the whole line.
   */
  function WordAt(line: string, pos: nat): (nat, string)
    requires pos <= |line|
  {
    match LastSpace(line[..pos])
    case None => (0, line)
    case Some(j) => var w := line[..pos][j + 1..]; (pos - |w|, w)
  }

  /** The parts from the command on that start with a dash: the options already typed. */
  function DashedParts(parts: seq<string>): (r: seq<string>)
    ensures |r| <= |parts|
  {
    if parts == [] then []
    else (if StartsWith(parts[0], "-") then [parts[0]] else []) + DashedParts(parts[1..])
  }

  /** Exactly the dash-prefixed parts are kept. */
  lemma {:induction false} DashedPartsMembers(parts: seq<string>)
    ensures forall p :: p in DashedParts(parts) <==> p in parts && StartsWith(p, "-")
    decreases |parts|
  {
    if parts != [] {
      DashedPartsMembers(parts[1..]);
      assert forall p :: p in parts <==> p == parts[0] || p in parts[1..];
    }
  }

  /** What `complete` answers for the text before the cursor. */
  function CompleteSpec(t: Tree, line: string, pos: nat, split: Tokenizer.Splitter, order: KeyOrder): (nat, seq<Pair>)
    requires pos <= |line|
  {
    var (start, word) := WordAt(line, pos);
    match split(line[..pos])
    case None => (start, [])
    case Some(parts) =>
      var w := Walk(t, parts, 0);
      match w.stop
      case AtCommand(_, command, at) => (start, OptionCompletions(command.options, word, DashedParts(parts[at..])))
      case _ => (start, Completions(w.scope, word, order))
  }

  /** Text before the cursor that cannot be split gives no candidates, and no error. */
  lemma UnsplittableGivesNothing(t: Tree, line: string, pos: nat, split: Tokenizer.Splitter, order: KeyOrder)
    requires pos <= |line| && split(line[..pos]).None?
    ensures CompleteSpec(t, line, pos, split, order) == (WordAt(line, pos).0, [])
  {
  }

  /**
   * With whitespace before the cursor, the word is the text between the last whitespace and the
   * cursor and starts at `pos - |word|`; without, the start is 0 and the word is the whole line.
   */
  lemma WordBounds(line: string, pos: nat)
    requires pos <= |line|
    ensures var (start, word) := WordAt(line, pos);
      if exists k :: 0 <= k < pos && IsSpace(line[k]) then
        start <= pos && word == line[start..pos] && (forall k :: 0 <= k < |word| ==> !IsSpace(word[k]))
        && start > 0 && IsSpace(line[start - 1])
      else start == 0 && word == line
  {
    var before := line[..pos];
    match LastSpace(before)
    case None =>
      assert forall k :: 0 <= k < pos ==> before[k] == line[k];
    case Some(j) =>
      var w := before[j + 1..];
      assert pos - |w| == j + 1;
      assert w == line[j + 1..pos];
      assert IsSpace(line[j]) by { assert before[j] == line[j]; }
  }

  /** Before any command, the candidates are exactly the names of the scope the walk ended in that start with the word. */
  lemma CompleteInScope(t: Tree, line: string, pos: nat, split: Tokenizer.Splitter, order: KeyOrder)
    requires pos <= |line| && Enumerates(order)
    requires split(line[..pos]).Some? && !Walk(t, split(line[..pos]).value, 0).stop.AtCommand?
    ensures var scope := Walk(t, split(line[..pos]).value, 0).scope;
      var word := WordAt(line, pos).1;
      forall n :: Pair(n, n) in CompleteSpec(t, line, pos, split, order).1 <==>
        (n in scope.commands || n in scope.scopes) && StartsWith(n, word)
  {
    CompletionsExact(Walk(t, split(line[..pos]).value, 0).scope, WordAt(line, pos).1, order);
  }

  /** After a command, no candidate repeats a long alias already typed from the command on. */
  lemma CompleteAfterCommand(t: Tree, line: string, pos: nat, split: Tokenizer.Splitter, order: KeyOrder)
    requires pos <= |line|
    requires split(line[..pos]).Some? && Walk(t, split(line[..pos]).value, 0).stop.AtCommand?
    ensures var parts := split(line[..pos]).value;
      var w := Walk(t, parts, 0);
      var r := CompleteSpec(t, line, pos, split, order).1;
      r == OptionCompletions(w.stop.command.options, WordAt(line, pos).1, DashedParts(parts[w.stop.at..]))
      && forall k :: 0 <= k < |r| ==> r[k].replacement == "" || r[k].replacement !in DashedParts(parts[w.stop.at..])
  {
    var parts := split(line[..pos]).value;
    var w := Walk(t, parts, 0);
    NoSeenLongSuggested(w.stop.command.options, WordAt(line, pos).1, DashedParts(parts[w.stop.at..]));
  }

  // ---------------------------------------------------------------------------------------
  // The tree drawing (`generate_tree`, `show_tree`)
  // ---------------------------------------------------------------------------------------

  /** Lines joined into one text, each ended by a line break. */
  function Unlines(lines: seq<string>): string {
    if lines == [] then "" else lines[0] + "\n" + Unlines(lines[1..])
  }

  lemma {:induction false} UnlinesAppend(a: seq<string>, b: seq<string>)
    ensures Unlines(a + b) == Unlines(a) + Unlines(b)
    decreases |a|
  {
    if a == [] {
      assert a + b == b;
    } else {
      UnlinesAppend(a[1..], b);
      assert (a + b)[1..] == a[1..] + b;
      var head := a[0] + "\n";
      assert (a + b)[0] == a[0];
      assert Unlines(a + b) == head + (Unlines(a[1..]) + Unlines(b));
      AppendAssoc(head, Unlines(a[1..]), Unlines(b));
    }
  }

  /** The command entries of one node, each followed by a bar line unless it is the last entry of the node. */
  function CommandEntries(names: seq<string>, lead: string, branch: string, scopesFollow: bool): seq<string> {
    if names == [] then []
    else
      [lead + branch + names[0]] + (if |names| > 1 || scopesFollow then [lead + "│"] else [])
      + CommandEntries(names[1..], lead, branch, scopesFollow)
  }

  /** The lines `generate_tree` draws: a node's commands, then each scope's entry followed by the scope's own drawing. */
  function TreeLines(t: Tree, prefix: string, isLast: bool, order: KeyOrder): seq<string>
    requires Enumerates(order)
    decreases t, 1
  {
    var lead := prefix + (if prefix == "" then "" else "  ");
    var branch := if isLast then "└─ " else "├─ ";
    CommandEntries(order(t.commands.Keys), lead, branch, t.scopes != map[])
    + ScopeEntries(t, order(t.scopes.Keys), lead, branch, order)
  }

  function ScopeEntries(t: Tree, names: seq<string>, lead: string, branch: string, order: KeyOrder): seq<string>
    requires Enumerates(order) && forall n :: n in names ==> n in t.scopes
    decreases t, 0, |names|
  {
    if names == [] then []
    else
      var last := |names| == 1;
      [lead + branch + names[0]]
      + TreeLines(t.scopes[names[0]], lead + (if last then " " else "│"), last, order)
      + ScopeEntries(t, names[1..], lead, branch, order)
  }

  /** Each command of a node has its own entry: the lead, the node's branch mark and the name. */
  lemma {:induction false} CommandEntriesHold(names: seq<string>, lead: string, branch: string, scopesFollow: bool, n: string)
    requires n in names
    ensures lead + branch + n in CommandEntries(names, lead, branch, scopesFollow)
    decreases |names|
  {
    if names[0] != n {
      CommandEntriesHold(names[1..], lead, branch, scopesFollow, n);
    }
  }

  /** Each scope of a node has its own entry, like a command's. */
  lemma {:induction false} ScopeEntriesHold(t: Tree, names: seq<string>, lead: string, branch: string, order: KeyOrder, n: string)
    requires Enumerates(order) && (forall m :: m in names ==> m in t.scopes) && n in names
    ensures lead + branch + n in ScopeEntries(t, names, lead, branch, order)
    decreases |names|
  {
    if names[0] != n {
      ScopeEntriesHold(t, names[1..], lead, branch, order, n);
    }
  }

  /**
   * At the root every command and every scope gets the entry `└─ name`: the branch mark is chosen
   * per node, and the root counts as a last node.
   */
  lemma RootEntries(t: Tree, order: KeyOrder)
    requires Enumerates(order)
    ensures forall n :: n in t.commands || n in t.scopes ==> "└─ " + n in TreeLines(t, "", true, order)
  {
    forall n | n in t.commands || n in t.scopes
      ensures "└─ " + n in TreeLines(t, "", true, order)
    {
      RootEntry(t, order, n);
    }
  }

  /** One name of the root, a command or a scope, and its entry. */
  lemma RootEntry(t: Tree, order: KeyOrder, n: string)
    requires Enumerates(order) && (n in t.commands || n in t.scopes)
    ensures "└─ " + n in TreeLines(t, "", true, order)
  {
    var commandLines := CommandEntries(order(t.commands.Keys), "", "└─ ", t.scopes != map[]);
    var scopeLines := ScopeEntries(t, order(t.scopes.Keys), "", "└─ ", order);
    assert "" + (if "" == "" then "" else "  ") == "";
    assert TreeLines(t, "", true, order) == commandLines + scopeLines;
    assert "" + "└─ " + n == "└─ " + n;
    if n in t.commands {
      assert Lists(order(t.commands.Keys), t.commands.Keys);
      CommandEntriesHold(order(t.commands.Keys), "", "└─ ", t.scopes != map[], n);
    } else {
      assert Lists(order(t.scopes.Keys), t.scopes.Keys);
      ScopeEntriesHold(t, order(t.scopes.Keys), "", "└─ ", order, n);
    }
  }

  /** Every entry of a command block starts with the lead. */
  lemma {:induction false} CommandEntriesLead(names: seq<string>, lead: string, branch: string, scopesFollow: bool)
    ensures forall l :: l in CommandEntries(names, lead, branch, scopesFollow) ==> StartsWith(l, lead)
    decreases |names|
  {
    if names != [] {
      CommandEntriesLead(names[1..], lead, branch, scopesFollow);
      PrefixOfConcat(lead, branch + names[0], lead);
      assert lead + branch + names[0] == lead + (branch + names[0]);
      PrefixOfConcat(lead, "│", lead);
    }
  }

  /** Every line of a node's drawing starts with the node's prefix: a sub-scope's drawing is indented under its entry. */
  lemma {:induction false} TreeLinesPrefix(t: Tree, prefix: string, isLast: bool, order: KeyOrder)
    requires Enumerates(order)
    ensures forall l :: l in TreeLines(t, prefix, isLast, order) ==> StartsWith(l, prefix)
    decreases t, 1
  {
    var lead := prefix + (if prefix == "" then "" else "  ");
    var branch := if isLast then "└─ " else "├─ ";
    assert Lists(order(t.scopes.Keys), t.scopes.Keys);
    CommandEntriesLead(order(t.commands.Keys), lead, branch, t.scopes != map[]);
    ScopeEntriesPrefix(t, order(t.scopes.Keys), lead, branch, order);
    forall l | StartsWith(l, lead) ensures StartsWith(l, prefix) {
      assert l[..|prefix|] == lead[..|prefix|];
    }
  }

  lemma {:induction false} ScopeEntriesPrefix(t: Tree, names: seq<string>, lead: string, branch: string, order: KeyOrder)
    requires Enumerates(order) && forall n :: n in names ==> n in t.scopes
    ensures forall l :: l in ScopeEntries(t, names, lead, branch, order) ==> StartsWith(l, lead)
    decreases t, 0, |names|
  {
    if names != [] {
      var last := |names| == 1;
      var sub := lead + (if last then " " else "│");
      TreeLinesPrefix(t.scopes[names[0]], sub, last, order);
      ScopeEntriesPrefix(t, names[1..], lead, branch, order);
      forall l | StartsWith(l, sub) ensures StartsWith(l, lead) {
        assert l[..|lead|] == sub[..|lead|];
      }
      PrefixOfConcat(lead, branch + names[0], lead);
      assert lead + branch + names[0] == lead + (branch + names[0]);
    }
  }

  // ---------------------------------------------------------------------------------------
  // Drawing the tree, as `generate_tree` pushes onto its string
  // ---------------------------------------------------------------------------------------

  /** One step of the command loop: an entry line and, unless it is the node's last entry, a bar line. */
  lemma CommandEntriesStep(names: seq<string>, i: nat, lead: string, branch: string, scopesFollow: bool)
    requires i < |names|
    ensures Unlines(CommandEntries(names[i..], lead, branch, scopesFollow))
      == (lead + branch + names[i] + "\n") + (if i < |names| - 1 || scopesFollow then lead + "│\n" else "")
         + Unlines(CommandEntries(names[i + 1..], lead, branch, scopesFollow))
  {
    assert names[i..][1..] == names[i + 1..];
    var entry := [lead + branch + names[i]];
    var bar := if i < |names| - 1 || scopesFollow then [lead + "│"] else [];
    var rest := CommandEntries(names[i + 1..], lead, branch, scopesFollow);
    UnlinesAppend(entry, bar + rest);
    UnlinesAppend(bar, rest);
    assert entry + bar + rest == entry + (bar + rest);
  }

  /** One step of the scope loop: the scope's entry line, then the scope's own drawing. */
  lemma ScopeEntriesStep(t: Tree, names: seq<string>, i: nat, lead: string, branch: string, order: KeyOrder)
    requires Enumerates(order) && (forall n :: n in names ==> n in t.scopes) && i < |names|
    ensures Unlines(ScopeEntries(t, names[i..], lead, branch, order))
      == (lead + branch + names[i] + "\n")
         + Unlines(TreeLines(t.scopes[names[i]], lead + (if i == |names| - 1 then " " else "│"), i == |names| - 1, order))
         + Unlines(ScopeEntries(t, names[i + 1..], lead, branch, order))
  {
    assert names[i..][1..] == names[i + 1..];
    var entry := [lead + branch + names[i]];
    var sub := TreeLines(t.scopes[names[i]], lead + (if i == |names| - 1 then " " else "│"), i == |names| - 1, order);
    var rest := ScopeEntries(t, names[i + 1..], lead, branch, order);
    UnlinesAppend(entry + sub, rest);
    UnlinesAppend(entry, sub);
  }

  /** `generate_tree`: the drawing of node `t` under `prefix`, a line at a time. */
  method GenerateTree(t: Tree, prefix: string, isLast: bool, order: KeyOrder) returns (result: string)
    requires Enumerates(order)
    ensures result == Unlines(TreeLines(t, prefix, isLast, order))
    decreases t
  {
    var indent := if prefix == "" then "" else "  ";
    var branch := if isLast then "└─ " else "├─ ";
    var lead := prefix + indent;
    result := PushCommandEntries(order(t.commands.Keys), lead, branch, t.scopes != map[]);
    var names := order(t.scopes.Keys);
    assert Lists(names, t.scopes.Keys);
    ghost var commandPart := result;
    var count := |names|;
    var i := 0;
    while i < count
      invariant 0 <= i <= count
      invariant result + Unlines(ScopeEntries(t, names[i..], lead, branch, order))
        == commandPart + Unlines(ScopeEntries(t, names, lead, branch, order))
    {
      ScopeEntriesStep(t, names, i, lead, branch, order);
      var line := lead + branch + names[i] + "\n";
      var newPrefix := lead + (if i == count - 1 then " " else "│");
      var sub := GenerateTree(t.scopes[names[i]], newPrefix, i == count - 1, order);
      AppendAssoc(result, line, sub + Unlines(ScopeEntries(t, names[i + 1..], lead, branch, order)));
      AppendAssoc(result + line, sub, Unlines(ScopeEntries(t, names[i + 1..], lead, branch, order)));
      AppendAssoc(line, sub, Unlines(ScopeEntries(t, names[i + 1..], lead, branch, order)));
      result := result + line + sub;
      i := i + 1;
    }
    assert names[i..] == [];
    UnlinesAppend(CommandEntries(order(t.commands.Keys), lead, branch, t.scopes != map[]),
      ScopeEntries(t, names, lead, branch, order));
  }

  /** The command loop of `generate_tree`. */
  method PushCommandEntries(names: seq<string>, lead: string, branch: string, scopesFollow: bool) returns (result: string)
    ensures result == Unlines(CommandEntries(names, lead, branch, scopesFollow))
  {
    result := "";
    var count := |names|;
    var i := 0;
    while i < count
      invariant 0 <= i <= count
      invariant result + Unlines(CommandEntries(names[i..], lead, branch, scopesFollow))
        == Unlines(CommandEntries(names, lead, branch, scopesFollow))
    {
      CommandEntriesStep(names, i, lead, branch, scopesFollow);
      var line := lead + branch + names[i] + "\n";
      var bar := if i < count - 1 || scopesFollow then lead + "│\n" else "";
      AppendAssoc(result, line, bar + Unlines(CommandEntries(names[i + 1..], lead, branch, scopesFollow)));
      AppendAssoc(result + line, bar, Unlines(CommandEntries(names[i + 1..], lead, branch, scopesFollow)));
      AppendAssoc(line, bar, Unlines(CommandEntries(names[i + 1..], lead, branch, scopesFollow)));
      result := result + line;
      if i < count - 1 || scopesFollow {
        result := result + (lead + "│\n");
      }
      i := i + 1;
    }
    assert names[i..] == [];
  }

  // ---------------------------------------------------------------------------------------
  // The registry object
  // ---------------------------------------------------------------------------------------

  /**
   * The command list the shell builds: its commands and its scopes by name. A scope is held by
   * value, as the map of the source holds its child lists.
   */
  class CommandList {
    var commands: map<string, CommandInfo>
    var scopes: map<string, Tree>

    /** The value this list stands for. */
    function Model(): Tree
      reads this
    {
      Tree(commands, scopes)
    }

    constructor ()
      ensures commands == map[] && scopes == map[]
    {
      commands := map[];
      scopes := map[];
    }

    /** `add_command`: inserts the command under its name, overwriting one already there; the scopes stay as they were. */
    method AddCommand(name: string, command: CommandInfo)
      modifies this
      ensures commands == old(commands)[name := command] && scopes == old(scopes)
    {
      commands := commands[name := command];
    }

    /** `add_scope`: the scope of that name, created empty when there is none yet; an existing one is left as it is. */
    method AddScope(name: string) returns (child: Tree)
      modifies this
      ensures name in old(scopes) ==> child == old(scopes)[name] && scopes == old(scopes)
      ensures name !in old(scopes) ==> child == Empty && scopes == old(scopes)[name := Empty]
      ensures commands == old(commands)
    {
      if name in scopes {
        child := scopes[name];
      } else {
        child := Empty;
        scopes := scopes[name := child];
      }
    }

    /**
     * `add_scope(scope)` followed by a chain of `add_command` calls on the scope it hands out: the
     * commands are inserted into that scope in order, the scope created first if need be.
     */
    method AddScopedCommands(scope: string, entries: seq<(string, CommandInfo)>)
      modifies this
      ensures scopes == old(scopes)[scope := ScopeOrEmpty(old(scopes), scope).(
        commands := InsertAll(ScopeOrEmpty(old(scopes), scope).commands, entries))]
      ensures commands == old(commands)
    {
      ghost var before := scopes;
      ghost var base := ScopeOrEmpty(before, scope);
      var child := AddScope(scope);
      ghost var created := scopes;
      assert created == before[scope := base];
      child := InsertEntries(child, entries);
      scopes := scopes[scope := child];
    }

    /** `show_tree`: the drawing of the whole list, from the root, counted as a last node. */
    method ShowTree(order: KeyOrder) returns (text: string)
      requires Enumerates(order)
      ensures text == Unlines(TreeLines(Model(), "", true, order))
    {
      text := GenerateTree(Model(), "", true, order);
    }

    /** `complete`: splits the text before the cursor, walks the tree and offers options or names. */
    method Complete(line: string, pos: nat, split: Tokenizer.Splitter, order: KeyOrder) returns (start: nat, candidates: seq<Pair>)
      requires pos <= |line|
      ensures (start, candidates) == CompleteSpec(Model(), line, pos, split, order)
    {
      var word;
      start, word := WordAt(line, pos).0, WordAt(line, pos).1;
      candidates := [];
      var parts := split(line[..pos]);
      if parts.None? {
        return;
      }
      var current, command, optionsStartAt := WalkParts(Model(), parts.value);
      if command.Some? {
        var seen := SeenOptions(parts.value, optionsStartAt);
        candidates := GetOptionCompletions(command.value.options, word, seen);
      } else {
        candidates := Completions(current, word, order);
      }
    }
  }

  /** The loop of `complete` over the parts: descend into scopes, stop at a command or at an unknown part. */
  method WalkParts(root: Tree, parts: seq<string>) returns (current: Tree, command: Option<CommandInfo>, optionsStartAt: nat)
    ensures var w := Walk(root, parts, 0);
      current == w.scope && (command.Some? <==> w.stop.AtCommand?)
      && (command.Some? ==> command.value == w.stop.command && optionsStartAt == w.stop.at && optionsStartAt <= |parts|)
  {
    current := root;
    command := None;
    optionsStartAt := 0;
    var i := 0;
    while i < |parts|
      invariant 0 <= i <= |parts|
      invariant Walk(root, parts, 0).scope == Walk(current, parts, i).scope
      invariant Walk(root, parts, 0).stop == Walk(current, parts, i).stop
    {
      var part := parts[i];
      var scope := current.GetScope(part);
      if scope.Some? {
        current := scope.value;
      } else {
        var cmd := current.GetCommand(part);
        if cmd.Some? {
          command := cmd;
          optionsStartAt := i;
        }
        return;
      }
      i := i + 1;
    }
  }

  /** The scope of that name, or the empty list `or_default` would create. */
  function ScopeOrEmpty(scopes: map<string, Tree>, name: string): Tree {
    if name in scopes then scopes[name] else Empty
  }

  /** The commands after inserting each entry in order: a later entry of the same name overwrites an earlier one. */
  function InsertAll(commands: map<string, CommandInfo>, entries: seq<(string, CommandInfo)>): (r: map<string, CommandInfo>)
    ensures r.Keys == commands.Keys + set e | e in entries :: e.0
    decreases |entries|
  {
    if entries == [] then commands else InsertAll(commands[entries[0].0 := entries[0].1], entries[1..])
  }

  /** Inserting one more entry at the end. */
  lemma {:induction false} InsertAllSnoc(commands: map<string, CommandInfo>, entries: seq<(string, CommandInfo)>, e: (string, CommandInfo))
    ensures InsertAll(commands, entries + [e]) == InsertAll(commands, entries)[e.0 := e.1]
    decreases |entries|
  {
    if entries == [] {
      assert [] + [e] == [e];
    } else {
      assert (entries + [e])[1..] == entries[1..] + [e];
      InsertAllSnoc(commands[entries[0].0 := entries[0].1], entries[1..], e);
    }
  }

  /** The chain of `add_command` calls on one scope: each entry inserted in turn. */
  method InsertEntries(scope: Tree, entries: seq<(string, CommandInfo)>) returns (child: Tree)
    ensures child == scope.(commands := InsertAll(scope.commands, entries))
  {
    child := scope;
    var i := 0;
    while i < |entries|
      invariant 0 <= i <= |entries|
      invariant child == scope.(commands := InsertAll(scope.commands, entries[..i]))
    {
      assert entries[..i + 1] == entries[..i] + [entries[i]];
      InsertAllSnoc(scope.commands, entries[..i], entries[i]);
      child := child.(commands := child.commands[entries[i].0 := entries[i].1]);
      i := i + 1;
    }
    assert entries[..i] == entries;
  }

  /** The loop gathering the dash-prefixed parts from the command on. */
  method SeenOptions(parts: seq<string>, from: nat) returns (seen: seq<string>)
    requires from <= |parts|
    ensures seen == DashedParts(parts[from..])
  {
    seen := [];
    var i := from;
    while i < |parts|
      invariant from <= i <= |parts|
      invariant seen + DashedParts(parts[i..]) == DashedParts(parts[from..])
    {
      assert parts[i..][1..] == parts[i + 1..];
      var here := if StartsWith(parts[i], "-") then [parts[i]] else [];
      assert DashedParts(parts[i..]) == here + DashedParts(parts[i + 1..]);
      AppendAssoc(seen, here, DashedParts(parts[i + 1..]));
      seen := seen + here;
      i := i + 1;
    }
    assert parts[i..] == [];
  }
}
