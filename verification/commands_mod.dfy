/**
 * Command descriptors and the rules every command shares: alias stripping, the three
 * validation passes over the tokenizer's option map, option completion and help layout.
 */
module Commands {
  import opened Wrappers
  import opened Strings
  import opened Errors
  import Output

  /** One option of a command, as the command describes it (the field's runtime type id is not kept). */
  datatype CliOption = CliOption(
    name: string,
    short: Option<string>,
    long: Option<string>,
    flag: bool,
    help: string,
    fieldTypeHelp: string,
    required: bool)

  /** What a command tells about itself. */
  datatype CommandInfo = CommandInfo(
    name: string,
    options: seq<CliOption>,
    about: Option<string>,
    longAbout: Option<string>,
    examples: Option<string>)

  /** Slicing off the dashes needs that many characters: a short alias has one, a long alias two. */
  predicate AliasesWellFormed(o: CliOption) {
    (o.short.Some? ==> |o.short.value| >= 1) && (o.long.Some? ==> |o.long.value| >= 2)
  }

  predicate AllWellFormed(opts: seq<CliOption>) {
    forall i :: 0 <= i < |opts| ==> AliasesWellFormed(opts[i])
  }

  /** `short_without_dash`: the short alias with exactly its first character dropped. */
  function ShortWithoutDash(o: CliOption): (r: Option<string>)
    requires AliasesWellFormed(o)
    ensures r.None? <==> o.short.None?
    ensures r.Some? ==> o.short.value == [o.short.value[0]] + r.value
  {
    match o.short
    case None => None
    case Some(s) => Some(s[1..])
  }

  /** `long_without_dashes`: the long alias with exactly its first two characters dropped. */
  function LongWithoutDashes(o: CliOption): (r: Option<string>)
    requires AliasesWellFormed(o)
    ensures r.None? <==> o.long.None?
    ensures r.Some? ==> o.long.value == o.long.value[..2] + r.value
  {
    match o.long
    case None => None
    case Some(l) => Some(l[2..])
  }

  /** The options after the first are well-formed too, and so is the first. */
  lemma WellFormedTail(opts: seq<CliOption>)
    requires opts != [] && AllWellFormed(opts)
    ensures AliasesWellFormed(opts[0]) && AllWellFormed(opts[1..])
  {
    assert forall i :: 0 <= i < |opts| - 1 ==> opts[1..][i] == opts[i + 1];
  }

  /** A required option none of whose stripped aliases is a key. */
  predicate IsMissing(o: CliOption, keys: set<string>)
    requires AliasesWellFormed(o)
  {
    o.required
    && (o.short.None? || o.short.value[1..] !in keys)
    && (o.long.None? || o.long.value[2..] !in keys)
  }

  /** The names of the missing options, in descriptor order. */
  function MissingNames(opts: seq<CliOption>, keys: set<string>): (r: seq<string>)
    requires AllWellFormed(opts)
    ensures |r| <= |opts|
  {
    if opts == [] then []
    else (if IsMissing(opts[0], keys) then [opts[0].name] else []) + MissingNames(opts[1..], keys)
  }

  /** A name is reported missing iff some required option of that name has neither stripped alias among the keys. */
  lemma {:induction false} MissingNamesMembers(opts: seq<CliOption>, keys: set<string>)
    requires AllWellFormed(opts)
    ensures forall n :: n in MissingNames(opts, keys) <==>
      exists i :: 0 <= i < |opts| && opts[i].name == n && IsMissing(opts[i], keys)
    decreases |opts|
  {
    if opts != [] {
      MissingNamesMembers(opts[1..], keys);
      assert forall i :: 1 <= i < |opts| ==> opts[i] == opts[1..][i - 1];
    }
  }

  /** An option whose dashed short and dashed long alias are both keys. */
  predicate IsDuplicate(o: CliOption, keys: set<string>) {
    o.short.Some? && o.long.Some? && o.short.value in keys && o.long.value in keys
  }

  /** The names of the options given under both aliases, in descriptor order; the aliases are looked up with their dashes. */
  function DuplicateNames(opts: seq<CliOption>, keys: set<string>): (r: seq<string>)
    ensures |r| <= |opts|
  {
    if opts == [] then []
    else (if IsDuplicate(opts[0], keys) then [opts[0].name] else []) + DuplicateNames(opts[1..], keys)
  }

  /** A name is reported duplicate iff some option of that name has both dashed aliases among the keys. */
  lemma {:induction false} DuplicateNamesMembers(opts: seq<CliOption>, keys: set<string>)
    ensures forall n :: n in DuplicateNames(opts, keys) <==>
      exists i :: 0 <= i < |opts| && opts[i].name == n && IsDuplicate(opts[i], keys)
    decreases |opts|
  {
    if opts != [] {
      DuplicateNamesMembers(opts[1..], keys);
      assert forall i :: 1 <= i < |opts| ==> opts[i] == opts[1..][i - 1];
    }
  }

  /** The stripped alias, when it is a key holding a non-empty value. */
  function PopulatedAlias(alias: Option<string>, options: map<string, string>): (r: seq<string>)
    ensures r == [] || (alias.Some? && r == [alias.value] && alias.value in options && options[alias.value] != "")
  {
    if alias.Some? && alias.value in options && options[alias.value] != "" then [alias.value] else []
  }

  /** The aliases of flag options that were given a value: short before long, options in order. */
  function PopulatedFlags(opts: seq<CliOption>, options: map<string, string>): (r: seq<string>)
    requires AllWellFormed(opts)
  {
    if opts == [] then [] else FlagAliases(opts[0], options) + PopulatedFlags(opts[1..], options)
  }

  /** The populated aliases of one option: short before long, and none unless it is a flag. */
  function FlagAliases(o: CliOption, options: map<string, string>): seq<string>
    requires AliasesWellFormed(o)
  {
    if o.flag then PopulatedAlias(ShortWithoutDash(o), options) + PopulatedAlias(LongWithoutDashes(o), options) else []
  }

  /** Every reported alias is a key given a non-empty value. */
  lemma {:induction false} PopulatedFlagsGiven(opts: seq<CliOption>, options: map<string, string>)
    requires AllWellFormed(opts)
    ensures forall a :: a in PopulatedFlags(opts, options) ==> a in options && options[a] != ""
    decreases |opts|
  {
    if opts != [] {
      WellFormedTail(opts);
      PopulatedFlagsGiven(opts[1..], options);
    }
  }

  /** Every reported alias is a stripped alias of a flag option. */
  lemma {:induction false} PopulatedFlagsFromFlags(opts: seq<CliOption>, options: map<string, string>)
    requires AllWellFormed(opts)
    ensures forall a :: a in PopulatedFlags(opts, options) ==> exists i :: (0 <= i < |opts| && opts[i].flag &&
      (ShortWithoutDash(opts[i]) == Some(a) || LongWithoutDashes(opts[i]) == Some(a)))
    decreases |opts|
  {
    if opts != [] {
      PopulatedFlagsFromFlags(opts[1..], options);
      assert forall i :: 1 <= i < |opts| ==> opts[i] == opts[1..][i - 1];
    }
  }

  /** Every stripped alias of a flag option that is a key holding a non-empty value is reported. */
  lemma {:induction false} PopulatedFlagsComplete(opts: seq<CliOption>, options: map<string, string>, i: nat, a: string)
    requires AllWellFormed(opts) && i < |opts| && opts[i].flag
    requires ShortWithoutDash(opts[i]) == Some(a) || LongWithoutDashes(opts[i]) == Some(a)
    requires a in options && options[a] != ""
    ensures a in PopulatedFlags(opts, options)
    decreases |opts|
  {
    WellFormedTail(opts);
    if i == 0 {
      assert a in FlagAliases(opts[0], options);
    } else {
      assert opts[1..][i - 1] == opts[i];
      PopulatedFlagsComplete(opts[1..], options, i - 1, a);
    }
  }

  /** `validate`: duplicates first, then missing options, then populated flags; the first failing pass decides. */
  function ValidateSpec(opts: seq<CliOption>, options: map<string, string>): (r: Outcome<AppError>)
    requires AllWellFormed(opts)
    ensures r.Pass? <==> (DuplicateNames(opts, options.Keys) == [] && MissingNames(opts, options.Keys) == []
      && PopulatedFlags(opts, options) == [])
    ensures DuplicateNames(opts, options.Keys) != [] ==> r == Fail(DuplicateOptions(DuplicateNames(opts, options.Keys)))
    ensures DuplicateNames(opts, options.Keys) == [] && MissingNames(opts, options.Keys) != [] ==>
      r == Fail(MissingOptions(MissingNames(opts, options.Keys)))
    ensures DuplicateNames(opts, options.Keys) == [] && MissingNames(opts, options.Keys) == [] && PopulatedFlags(opts, options) != [] ==>
      r == Fail(PopulatedFlagOptions(PopulatedFlags(opts, options)))
  {
    var duplicates := DuplicateNames(opts, options.Keys);
    var missing := MissingNames(opts, options.Keys);
    var populated := PopulatedFlags(opts, options);
    if duplicates != [] then Fail(DuplicateOptions(duplicates))
    else if missing != [] then Fail(MissingOptions(missing))
    else if populated != [] then Fail(PopulatedFlagOptions(populated))
    else Pass
  }

  /** `validate_missing_options`: the names of the required options given under neither alias. */
  method ValidateMissingOptions(opts: seq<CliOption>, options: map<string, string>) returns (r: Outcome<AppError>)
    requires AllWellFormed(opts)
    ensures r == if MissingNames(opts, options.Keys) == [] then Pass else Fail(MissingOptions(MissingNames(opts, options.Keys)))
  {
    var missing := CollectMissing(opts, options.Keys);
    if missing != [] {
      return Fail(MissingOptions(missing));
    }
    return Pass;
  }

  /** The loop of `validate_missing_options`, option by option. */
  method CollectMissing(opts: seq<CliOption>, keys: set<string>) returns (missing: seq<string>)
    requires AllWellFormed(opts)
    ensures missing == MissingNames(opts, keys)
  {
    missing := [];
    var i := 0;
    while i < |opts|
      invariant 0 <= i <= |opts|
      invariant AllWellFormed(opts[i..])
      invariant missing + MissingNames(opts[i..], keys) == MissingNames(opts, keys)
    {
      assert opts[i..][1..] == opts[i + 1..];
      WellFormedTail(opts[i..]);
      var here := MissingOf(opts[i], keys);
      ghost var rest := MissingNames(opts[i + 1..], keys);
      assert MissingNames(opts[i..], keys) == here + rest;
      AppendAssoc(missing, here, rest);
      missing := missing + here;
      i := i + 1;
    }
    assert opts[i..] == [];
  }

  /** One option of the loop: its name when it is required and neither stripped alias is a key. */
  method MissingOf(opt: CliOption, keys: set<string>) returns (here: seq<string>)
    requires AliasesWellFormed(opt)
    ensures here == if IsMissing(opt, keys) then [opt.name] else []
  {
    if !opt.required {
      return [];
    }
    var short := ShortWithoutDash(opt);
    if short.Some? && short.value in keys {
      return [];
    }
    var long := LongWithoutDashes(opt);
    if long.Some? && long.value in keys {
      return [];
    }
    return [opt.name];
  }

  /** `validate_not_both_short_and_long_set`. */
  method ValidateNotBothShortAndLongSet(opts: seq<CliOption>, options: map<string, string>) returns (r: Outcome<AppError>)
    ensures r == if DuplicateNames(opts, options.Keys) == [] then Pass else Fail(DuplicateOptions(DuplicateNames(opts, options.Keys)))
  {
    var duplicates := CollectDuplicates(opts, options.Keys);
    if duplicates != [] {
      return Fail(DuplicateOptions(duplicates));
    }
    return Pass;
  }

  /** The loop of `validate_not_both_short_and_long_set`, option by option. */
  method CollectDuplicates(opts: seq<CliOption>, keys: set<string>) returns (duplicates: seq<string>)
    ensures duplicates == DuplicateNames(opts, keys)
  {
    duplicates := [];
    var i := 0;
    while i < |opts|
      invariant 0 <= i <= |opts|
      invariant duplicates + DuplicateNames(opts[i..], keys) == DuplicateNames(opts, keys)
    {
      var opt := opts[i];
      assert opts[i..][1..] == opts[i + 1..];
      var here := DuplicateOf(opt, keys);
      ghost var rest := DuplicateNames(opts[i + 1..], keys);
      assert DuplicateNames(opts[i..], keys) == here + rest;
      AppendAssoc(duplicates, here, rest);
      duplicates := duplicates + here;
      i := i + 1;
    }
    assert opts[i..] == [];
  }

  /** One option of the loop: its name when both its aliases, dashes kept, are keys. */
  method DuplicateOf(opt: CliOption, keys: set<string>) returns (here: seq<string>)
    ensures here == if IsDuplicate(opt, keys) then [opt.name] else []
  {
    here := [];
    if opt.short.Some? && opt.long.Some? {
      if opt.short.value in keys && opt.long.value in keys {
        here := [opt.name];
      }
    }
  }

  /** `validate_flag_options`. */
  method ValidateFlagOptions(opts: seq<CliOption>, options: map<string, string>) returns (r: Outcome<AppError>)
    requires AllWellFormed(opts)
    ensures r == if PopulatedFlags(opts, options) == [] then Pass else Fail(PopulatedFlagOptions(PopulatedFlags(opts, options)))
  {
    var populated := CollectPopulated(opts, options);
    if populated != [] {
      return Fail(PopulatedFlagOptions(populated));
    }
    return Pass;
  }

  /** The loop of `validate_flag_options`: the populated aliases, option by option. */
  method CollectPopulated(opts: seq<CliOption>, options: map<string, string>) returns (populated: seq<string>)
    requires AllWellFormed(opts)
    ensures populated == PopulatedFlags(opts, options)
  {
    populated := [];
    var i := 0;
    while i < |opts|
      invariant 0 <= i <= |opts|
      invariant AllWellFormed(opts[i..])
      invariant populated + PopulatedFlags(opts[i..], options) == PopulatedFlags(opts, options)
    {
      assert opts[i..][1..] == opts[i + 1..];
      WellFormedTail(opts[i..]);
      var here := PopulatedAliasesOf(opts[i], options);
      ghost var rest := PopulatedFlags(opts[i + 1..], options);
      assert PopulatedFlags(opts[i..], options) == here + rest;
      AppendAssoc(populated, here, rest);
      populated := populated + here;
      i := i + 1;
    }
    assert opts[i..] == [];
  }

  /** The populated aliases of one option: short, then long, and none unless it is a flag. */
  method PopulatedAliasesOf(opt: CliOption, options: map<string, string>) returns (here: seq<string>)
    requires AliasesWellFormed(opt)
    ensures here == FlagAliases(opt, options)
  {
    here := [];
    if opt.flag {
      var short := ShortWithoutDash(opt);
      if short.Some? && short.value in options && options[short.value] != "" {
        here := here + [short.value];
      }
      var long := LongWithoutDashes(opt);
      if long.Some? && long.value in options && options[long.value] != "" {
        here := here + [long.value];
      }
    }
  }

  /** `validate`: the three passes in their fixed order, stopping at the first failure. */
  method Validate(opts: seq<CliOption>, options: map<string, string>) returns (r: Outcome<AppError>)
    requires AllWellFormed(opts)
    ensures r == ValidateSpec(opts, options)
  {
    r := ValidateNotBothShortAndLongSet(opts, options);
    if r.Fail? {
      return;
    }
    r := ValidateMissingOptions(opts, options);
    if r.Fail? {
      return;
    }
    r := ValidateFlagOptions(opts, options);
  }

  /** Aliases as the derive macro writes them: each begins with a dash. */
  predicate AliasesDashed(opts: seq<CliOption>) {
    forall i :: 0 <= i < |opts| ==> opts[i].short.Some? ==> StartsWith(opts[i].short.value, "-")
  }

  /**
   * The duplicate pass looks the aliases up with their dashes, but the tokenizer stores keys
   * with the dashes stripped: when no key begins with a dash the pass reports nothing.
   */
  lemma {:induction false} DuplicatesNeverFireOnStrippedKeys(opts: seq<CliOption>, keys: set<string>)
    requires AliasesDashed(opts)
    requires forall k :: k in keys ==> !StartsWith(k, "-")
    ensures DuplicateNames(opts, keys) == []
    decreases |opts|
  {
    if opts != [] {
      assert AliasesDashed(opts[1..]) by {
        assert forall i :: 1 <= i < |opts| ==> opts[i] == opts[1..][i - 1];
      }
      DuplicatesNeverFireOnStrippedKeys(opts[1..], keys);
    }
  }

  /** `-n a --name b` on an option with both aliases: both keys are set, yet no duplicate is reported. */
  lemma ShortAndLongBothGiven()
    ensures var o := CliOption("name", Some("-n"), Some("--name"), false, "Name", "string", true);
      DuplicateNames([o], {"n", "name"}) == [] && ValidateSpec([o], map["n" := "a", "name" := "b"]) == Pass
  {
    var o := CliOption("name", Some("-n"), Some("--name"), false, "Name", "string", true);
    assert "-n" !in {"n", "name"} by {
      assert |"-n"| == 2 && |"n"| == 1;
      assert "-n" != "name" by { assert "-n"[0] != "name"[0]; }
    }
    assert DuplicateNames([o], {"n", "name"}) == [] by {
      assert [o][1..] == [];
    }
    assert MissingNames([o], {"n", "name"}) == [] by {
      assert [o][1..] == [];
      assert "-n"[1..] == "n";
    }
    assert PopulatedFlags([o], map["n" := "a", "name" := "b"]) == [] by {
      assert [o][1..] == [];
    }
  }

  /** A suggestion shown by the line editor: the text listed and the text inserted. */
  datatype Pair = Pair(display: string, replacement: string)

  /** The listed text of a suggestion: the aliases shown, the type help in angle brackets, the help. */
  function Described(aliases: string, o: CliOption): string {
    aliases + " <" + o.fieldTypeHelp + "> " + o.help
  }

  /**
   * The suggestion for one option, as the completion loop builds it. With no prefix typed an
   * option is offered when none of its aliases was seen, listing the short alias, then the long
   * one; with a prefix only a long alias that starts with it is listed. The long alias is what
   * is inserted.
   */
  function OptionCompletion(o: CliOption, prefix: string, seen: seq<string>): (r: Option<Pair>)
    ensures o.long.Some? && o.long.value in seen ==> r.None?
    ensures prefix == "" && o.short.Some? && o.short.value in seen ==> r.None?
    ensures prefix != "" && r.Some? ==> o.long.Some? && StartsWith(o.long.value, prefix)
    ensures prefix != "" && o.long.Some? && o.long.value !in seen && StartsWith(o.long.value, prefix) && o.long.value != "" ==> r.Some?
    ensures (prefix == "" && (o.short.None? || o.short.value !in seen) && (o.long.None? || o.long.value !in seen)
      && ((o.short.Some? && o.short.value != "") || (o.long.Some? && o.long.value != ""))) ==> r.Some?
    ensures r.Some? ==> r.value.replacement == o.long.GetOr("")
    ensures r.Some? && prefix != "" ==> r.value.display == Described(o.long.value, o)
    ensures r.Some? && prefix == "" && o.short.Some? && o.short.value != "" && o.long.Some? ==>
      r.value.display == Described(o.short.value + ", " + o.long.value, o)
    ensures r.Some? && prefix == "" && o.short.Some? && o.long.None? ==> r.value.display == Described(o.short.value, o)
    ensures r.Some? && prefix == "" && (o.short.None? || o.short.value == "") ==>
      o.long.Some? && r.value.display == Described(o.long.value, o)
  {
    if prefix == "" && o.short.Some? && o.short.value in seen then None
    else
      var display := if prefix == "" && o.short.Some? then o.short.value else "";
      if o.long.Some? && o.long.value in seen then None
      else
        var display' :=
          if o.long.Some? && (prefix == "" || StartsWith(o.long.value, prefix)) then
            (if display != "" then display + ", " else display) + o.long.value
          else display;
        if display' != "" then
          Some(Pair(Described(display', o), o.long.GetOr("")))
        else None
  }

  /** The suggestions of all options, in descriptor order. */
  function OptionCompletions(opts: seq<CliOption>, prefix: string, seen: seq<string>): (r: seq<Pair>)
    ensures |r| <= |opts|
  {
    if opts == [] then [] else Offered(opts[0], prefix, seen) + OptionCompletions(opts[1..], prefix, seen)
  }

  /** The suggestions one option contributes: its completion, if it has one. */
  function Offered(o: CliOption, prefix: string, seen: seq<string>): seq<Pair> {
    match OptionCompletion(o, prefix, seen)
    case Some(p) => [p]
    case None => []
  }

  /** The suggestion of each option is listed: nothing an option offers is dropped. */
  lemma {:induction false} CompletionListed(opts: seq<CliOption>, prefix: string, seen: seq<string>, i: nat)
    requires i < |opts| && OptionCompletion(opts[i], prefix, seen).Some?
    ensures OptionCompletion(opts[i], prefix, seen).value in OptionCompletions(opts, prefix, seen)
    decreases |opts|
  {
    if i > 0 {
      assert opts[1..][i - 1] == opts[i];
      CompletionListed(opts[1..], prefix, seen, i - 1);
    }
  }

  /** Every suggestion is the suggestion of one of the options. */
  lemma {:induction false} CompletionFromOption(opts: seq<CliOption>, prefix: string, seen: seq<string>, k: nat)
    requires k < |OptionCompletions(opts, prefix, seen)|
    ensures exists i :: 0 <= i < |opts| && OptionCompletion(opts[i], prefix, seen) == Some(OptionCompletions(opts, prefix, seen)[k])
    decreases |opts|
  {
    var r := OptionCompletions(opts, prefix, seen);
    var rest := OptionCompletions(opts[1..], prefix, seen);
    if OptionCompletion(opts[0], prefix, seen).Some? && k == 0 {
      assert OptionCompletion(opts[0], prefix, seen) == Some(r[k]);
    } else {
      var k' := if OptionCompletion(opts[0], prefix, seen).Some? then k - 1 else k;
      assert r[k] == rest[k'];
      CompletionFromOption(opts[1..], prefix, seen, k');
      var i :| 0 <= i < |opts[1..]| && OptionCompletion(opts[1..][i], prefix, seen) == Some(rest[k']);
      assert opts[1..][i] == opts[i + 1];
      assert OptionCompletion(opts[i + 1], prefix, seen) == Some(r[k]);
    }
  }

  /** No suggestion replaces with a long alias that was already seen. */
  lemma NoSeenLongSuggested(opts: seq<CliOption>, prefix: string, seen: seq<string>)
    ensures forall k :: 0 <= k < |OptionCompletions(opts, prefix, seen)| ==>
      OptionCompletions(opts, prefix, seen)[k].replacement == "" || OptionCompletions(opts, prefix, seen)[k].replacement !in seen
  {
    var r := OptionCompletions(opts, prefix, seen);
    forall k | 0 <= k < |r| ensures r[k].replacement == "" || r[k].replacement !in seen {
      CompletionFromOption(opts, prefix, seen, k);
      var i :| 0 <= i < |opts| && OptionCompletion(opts[i], prefix, seen) == Some(r[k]);
    }
  }

  /** With a non-empty prefix every suggestion inserts a long alias starting with the prefix. */
  lemma PrefixedSuggestionsMatch(opts: seq<CliOption>, prefix: string, seen: seq<string>)
    requires prefix != ""
    ensures forall k :: 0 <= k < |OptionCompletions(opts, prefix, seen)| ==>
      StartsWith(OptionCompletions(opts, prefix, seen)[k].replacement, prefix)
  {
    var r := OptionCompletions(opts, prefix, seen);
    forall k | 0 <= k < |r| ensures StartsWith(r[k].replacement, prefix) {
      CompletionFromOption(opts, prefix, seen, k);
      var i :| 0 <= i < |opts| && OptionCompletion(opts[i], prefix, seen) == Some(r[k]);
    }
  }

  /** The body of the completion loop for one option: `None` where the loop continues or pushes nothing. */
  method SuggestOption(opt: CliOption, prefix: string, seen: seq<string>) returns (r: Option<Pair>)
    ensures r == OptionCompletion(opt, prefix, seen)
  {
    var display := "";
    if prefix == "" && opt.short.Some? {
      if opt.short.value in seen {
        return None;
      }
      display := opt.short.value;
    }
    if opt.long.Some? {
      if opt.long.value in seen {
        return None;
      }
      if prefix == "" || StartsWith(opt.long.value, prefix) {
        if display != "" {
          display := display + ", ";
        }
        display := display + opt.long.value;
      }
    }
    if display != "" {
      return Some(Pair(display + " <" + opt.fieldTypeHelp + "> " + opt.help, opt.long.GetOr("")));
    }
    return None;
  }

  /** `get_option_completions`: a loop over the descriptors collecting one suggestion per offered option. */
  method GetOptionCompletions(opts: seq<CliOption>, prefix: string, seen: seq<string>) returns (completions: seq<Pair>)
    ensures completions == OptionCompletions(opts, prefix, seen)
  {
    completions := [];
    var i := 0;
    while i < |opts|
      invariant 0 <= i <= |opts|
      invariant completions + OptionCompletions(opts[i..], prefix, seen) == OptionCompletions(opts, prefix, seen)
    {
      assert opts[i..][1..] == opts[i + 1..];
      var suggestion := SuggestOption(opts[i], prefix, seen);
      var here := if suggestion.Some? then [suggestion.value] else [];
      assert here == Offered(opts[i], prefix, seen);
      ghost var rest := OptionCompletions(opts[i + 1..], prefix, seen);
      assert OptionCompletions(opts[i..], prefix, seen) == here + rest;
      AppendAssoc(completions, here, rest);
      completions := completions + here;
      i := i + 1;
    }
    assert opts[i..] == [];
  }

  /** The widest value of a column over all options, 0 for none. */
  function MaxShortWidth(opts: seq<CliOption>): (w: nat)
    ensures forall i :: 0 <= i < |opts| ==> |opts[i].short.GetOr("")| <= w
  {
    if opts == [] then 0
    else
      var rest := MaxShortWidth(opts[1..]);
      assert forall i :: 1 <= i < |opts| ==> opts[i] == opts[1..][i - 1];
      var here := |opts[0].short.GetOr("")|;
      if here >= rest then here else rest
  }

  function MaxLongWidth(opts: seq<CliOption>): (w: nat)
    ensures forall i :: 0 <= i < |opts| ==> |opts[i].long.GetOr("")| <= w
  {
    if opts == [] then 0
    else
      var rest := MaxLongWidth(opts[1..]);
      assert forall i :: 1 <= i < |opts| ==> opts[i] == opts[1..][i - 1];
      var here := |opts[0].long.GetOr("")|;
      if here >= rest then here else rest
  }

  function MaxTypeWidth(opts: seq<CliOption>): (w: nat)
    ensures forall i :: 0 <= i < |opts| ==> |opts[i].fieldTypeHelp| <= w
  {
    if opts == [] then 0
    else
      var rest := MaxTypeWidth(opts[1..]);
      assert forall i :: 1 <= i < |opts| ==> opts[i] == opts[1..][i - 1];
      var here := |opts[0].fieldTypeHelp|;
      if here >= rest then here else rest
  }

  /** Each width is attained: some option's cell is exactly that wide, unless the width is 0. */
  lemma {:induction false} WidthsAttained(opts: seq<CliOption>)
    ensures MaxShortWidth(opts) == 0 || exists i :: 0 <= i < |opts| && |opts[i].short.GetOr("")| == MaxShortWidth(opts)
    ensures MaxLongWidth(opts) == 0 || exists i :: 0 <= i < |opts| && |opts[i].long.GetOr("")| == MaxLongWidth(opts)
    ensures MaxTypeWidth(opts) == 0 || exists i :: 0 <= i < |opts| && |opts[i].fieldTypeHelp| == MaxTypeWidth(opts)
  {
    if opts != [] {
      WidthsAttained(opts[1..]);
      assert forall i :: 1 <= i < |opts| ==> opts[i] == opts[1..][i - 1];
    }
  }

  /** The alias cells: the alias followed by a comma, or empty when there is no alias. */
  function AliasCell(alias: Option<string>): string {
    match alias
    case None => ""
    case Some(a) => a + ","
  }

  /** One line of the options table, with the three column widths. */
  function OptionRow(o: CliOption, ws: nat, wl: nat, wt: nat): string {
    "  " + (PadRight(AliasCell(o.short), ws) + (" " + (PadRight(AliasCell(o.long), wl) + (" "
      + (PadRight("<" + o.fieldTypeHelp + ">", wt) + RowTail(o))))))
  }

  /** The description and the flag marker ending a row. */
  function RowTail(o: CliOption): string {
    " " + o.help + (if o.flag then " (flag)" else "") + "\n"
  }

  function OptionRows(opts: seq<CliOption>, ws: nat, wl: nat, wt: nat): string {
    if opts == [] then "" else OptionRow(opts[0], ws, wl, wt) + OptionRows(opts[1..], ws, wl, wt)
  }

  /** Every alias cell fits the width `help` gives its column. */
  lemma CellsFit(opts: seq<CliOption>, i: nat)
    requires i < |opts|
    ensures |AliasCell(opts[i].short)| <= MaxShortWidth(opts) + 3
    ensures |AliasCell(opts[i].long)| <= MaxLongWidth(opts) + 4
    ensures |"<" + opts[i].fieldTypeHelp + ">"| <= MaxTypeWidth(opts) + 2
  {
  }

  /** The columns line up: when the cells fit, the long alias and the type start at the same offsets in every row. */
  lemma RowColumns(o: CliOption, ws: nat, wl: nat, wt: nat)
    requires |AliasCell(o.short)| <= ws && |AliasCell(o.long)| <= wl
    ensures var row := OptionRow(o, ws, wl, wt);
      StartsWith(row, "  ")
      && StartsWith(row[2..], AliasCell(o.short))
      && StartsWith(row[3 + ws..], AliasCell(o.long))
      && StartsWith(row[4 + ws + wl..], "<" + o.fieldTypeHelp + ">")
  {
    var sc, lc, tc := AliasCell(o.short), AliasCell(o.long), "<" + o.fieldTypeHelp + ">";
    var ps, pl, pt := PadRight(sc, ws), PadRight(lc, wl), PadRight(tc, wt);
    var part2 := pl + (" " + (pt + RowTail(o)));
    var part1 := ps + (" " + part2);
    var row := OptionRow(o, ws, wl, wt);
    assert row == "  " + part1;
    DropPrefix("  ", part1);
    PrefixOfConcat(ps, " " + part2, sc);
    var a := "  " + ps + " ";
    assert row == a + part2;
    DropPrefix(a, part2);
    PrefixOfConcat(pl, " " + (pt + RowTail(o)), lc);
    var b := a + pl + " ";
    assert row == b + (pt + RowTail(o));
    DropPrefix(b, pt + RowTail(o));
    PrefixOfConcat(pt, RowTail(o), tc);
  }

  lemma Regroup(a: string, b: string, c: string, d: string)
    ensures a + b + c + d == a + (b + c + d)
  {
  }

  lemma DropPrefix(a: string, b: string)
    ensures (a + b)[|a|..] == b
  {
  }

  lemma PrefixOfConcat(a: string, b: string, p: string)
    requires StartsWith(a, p)
    ensures StartsWith(a + b, p)
  {
    assert (a + b)[..|p|] == a[..|p|];
  }

  /** The example lines, each behind two spaces and the fully qualified name. */
  function ExampleRows(fq: string, lines: seq<string>): string {
    if lines == [] then "" else ExampleRow(fq, lines[0]) + "\n" + ExampleRows(fq, lines[1..])
  }

  /** One example row: two spaces, the full command name, a space and the example line. */
  function ExampleRow(fq: string, line: string): string {
    "  " + fq + " " + line
  }

  /** `format!("{} {}", context.join(" "), command_name)`. */
  function FullName(context: seq<string>, commandName: string): string {
    Join(context, " ") + " " + commandName
  }

  /** The title: the full name, with the description and a blank line when there is one. */
  function TitleText(info: CommandInfo, fq: string): string {
    match info.about
    case Some(a) => fq + " - " + a + " \n\n"
    case None => fq
  }

  function LongAboutText(info: CommandInfo): string {
    match info.longAbout
    case Some(l) => l + "\n\n"
    case None => ""
  }

  /** The option table, each column as wide as its widest cell. */
  function OptionsBlock(opts: seq<CliOption>): string {
    if opts == [] then ""
    else OptionsHeading + OptionTable(opts) + "\n"
  }

  const OptionsHeading := "Options:\n"

  /** A non-empty table: its heading, its rows and a blank line. */
  lemma OptionsBlockShape(opts: seq<CliOption>)
    requires opts != []
    ensures OptionsBlock(opts) == OptionsHeading + OptionTable(opts) + "\n"
  {
  }

  /** The rows of the option table, each column as wide as its widest cell plus the padding `help` adds. */
  function OptionTable(opts: seq<CliOption>): string {
    OptionRows(opts, MaxShortWidth(opts) + 3, MaxLongWidth(opts) + 4, MaxTypeWidth(opts) + 2)
  }

  function ExamplesBlock(info: CommandInfo, fq: string): string {
    match info.examples
    case Some(e) => "Examples:\n" + ExampleRows(fq, Lines(e))
    case None => ""
  }

  /** The help text `help` builds before splitting it into output lines. */
  function HelpText(info: CommandInfo, commandName: string, context: seq<string>): string {
    var fq := FullName(context, commandName);
    TitleText(info, fq) + LongAboutText(info) + OptionsBlock(info.options) + ExamplesBlock(info, fq)
  }

  /** A line of `lines()` never holds a line break. */
  lemma {:induction false} LinesHaveNoBreak(s: string)
    ensures forall k :: 0 <= k < |Lines(s)| ==> '\n' !in Lines(s)[k]
    decreases |s|
  {
    if s != [] && '\n' in s {
      var i := IndexOf(s, '\n');
      LinesHaveNoBreak(s[i + 1..]);
      assert '\n' !in s[..i];
      assert forall x :: x in StripCr(s[..i]) ==> x in s[..i];
    }
  }

  /** The output lines the example rows are meant to give: each row, its "\r" dropped. */
  function StrippedRows(fq: string, lines: seq<string>): (r: seq<string>)
    ensures |r| == |lines|
    ensures forall k :: 0 <= k < |lines| ==> r[k] == StripCr(ExampleRow(fq, lines[k]))
  {
    if lines == [] then []
    else
      var rest := StrippedRows(fq, lines[1..]);
      assert forall k :: 1 <= k < |lines| ==> lines[k] == lines[1..][k - 1];
      [StripCr(ExampleRow(fq, lines[0]))] + rest
  }

  /** The lines of the example block are the example rows, one per example line. */
  lemma {:induction false} ExampleRowLines(fq: string, lines: seq<string>)
    requires '\n' !in fq
    requires forall k :: 0 <= k < |lines| ==> '\n' !in lines[k]
    ensures Lines(ExampleRows(fq, lines)) == StrippedRows(fq, lines)
    decreases |lines|
  {
    if lines != [] {
      var row := ExampleRow(fq, lines[0]);
      var rest := ExampleRows(fq, lines[1..]);
      RowHasNoBreak(fq, lines[0]);
      LinesCons(row, rest);
      assert forall k :: 0 <= k < |lines[1..]| ==> lines[1..][k] == lines[k + 1];
      ExampleRowLines(fq, lines[1..]);
      assert ExampleRows(fq, lines) == row + "\n" + rest;
    }
  }

  /** An example row has no line break of its own. */
  lemma RowHasNoBreak(fq: string, line: string)
    requires '\n' !in fq && '\n' !in line
    ensures '\n' !in ExampleRow(fq, line)
  {
    var row := ExampleRow(fq, line);
    assert forall x :: x in row ==> x in "  " || x in fq || x in " " || x in line;
  }

  /**
   * Each example line comes out of `help` as its own output line, two spaces, the context
   * joined by spaces, the command name, a space and the example line.
   */
  lemma HelpExampleLines(info: CommandInfo, commandName: string, context: seq<string>)
    requires info.examples.Some?
    requires '\n' !in FullName(context, commandName)
    ensures var ex := Lines(info.examples.value);
      var out := Lines(HelpText(info, commandName, context));
      |out| >= |ex| && forall k :: 0 <= k < |ex| ==>
        out[|out| - |ex| + k] == StripCr("  " + FullName(context, commandName) + " " + ex[k])
  {
    var fq := FullName(context, commandName);
    var ex := Lines(info.examples.value);
    var head := TitleText(info, fq) + LongAboutText(info) + OptionsBlock(info.options) + "Examples:\n";
    assert HelpText(info, commandName, context) == head + ExampleRows(fq, ex);
    LinesHaveNoBreak(info.examples.value);
    RowsEndTheLines(head, fq, ex);
    var out := Lines(HelpText(info, commandName, context));
    var stripped := StrippedRows(fq, ex);
    assert out == Lines(head) + stripped;
    forall k | 0 <= k < |ex| ensures out[|out| - |ex| + k] == StripCr("  " + fq + " " + ex[k]) {
      SuffixIndex(out, Lines(head), stripped, k);
    }
  }

  /** An element of the second part of a concatenation, counted from where that part starts. */
  lemma SuffixIndex<T>(whole: seq<T>, front: seq<T>, back: seq<T>, k: nat)
    requires whole == front + back && k < |back|
    ensures whole[|whole| - |back| + k] == back[k]
  {
  }

  /** After a text ending in a line break, the example rows are the last lines, one per example line. */
  lemma RowsEndTheLines(head: string, fq: string, ex: seq<string>)
    requires head == [] || head[|head| - 1] == '\n'
    requires '\n' !in fq
    requires forall k :: 0 <= k < |ex| ==> '\n' !in ex[k]
    ensures Lines(head + ExampleRows(fq, ex)) == Lines(head) + StrippedRows(fq, ex)
  {
    LinesAppend(head, ExampleRows(fq, ex));
    ExampleRowLines(fq, ex);
  }

  /** The option loop of `help`: one row pushed per option. */
  method PushOptionRows(help: string, opts: seq<CliOption>, ws: nat, wl: nat, wt: nat) returns (r: string)
    ensures r == help + OptionRows(opts, ws, wl, wt)
  {
    r := help;
    var i := 0;
    while i < |opts|
      invariant 0 <= i <= |opts|
      invariant r + OptionRows(opts[i..], ws, wl, wt) == help + OptionRows(opts, ws, wl, wt)
    {
      assert opts[i..][1..] == opts[i + 1..];
      var row := OptionRow(opts[i], ws, wl, wt);
      AppendAssoc(r, row, OptionRows(opts[i + 1..], ws, wl, wt));
      r := r + row;
      i := i + 1;
    }
    assert opts[i..] == [];
  }

  /** The example loop of `help`: one row pushed per example line. */
  method PushExampleRows(help: string, fq: string, lines: seq<string>) returns (r: string)
    ensures r == help + ExampleRows(fq, lines)
  {
    r := help;
    var i := 0;
    while i < |lines|
      invariant 0 <= i <= |lines|
      invariant r + ExampleRows(fq, lines[i..]) == help + ExampleRows(fq, lines)
    {
      assert lines[i..][1..] == lines[i + 1..];
      r := r + (ExampleRow(fq, lines[i]) + "\n");
      i := i + 1;
    }
    assert lines[i..] == [];
  }

  /** The option table of `help`: a heading, one row per option and a blank line, when there are options. */
  method PushOptionsTable(help: string, opts: seq<CliOption>) returns (r: string)
    ensures r == help + OptionsBlock(opts)
  {
    r := help;
    if opts != [] {
      r := PushOptionTable(r + OptionsHeading, opts);
      r := r + "\n";
      OptionsBlockShape(opts);
      Regroup(help, OptionsHeading, OptionTable(opts), "\n");
    }
  }

  /** The rows of the option table, at the widths of its widest cells. */
  method PushOptionTable(help: string, opts: seq<CliOption>) returns (r: string)
    ensures r == help + OptionTable(opts)
  {
    r := PushOptionRows(help, opts, MaxShortWidth(opts) + 3, MaxLongWidth(opts) + 4, MaxTypeWidth(opts) + 2);
  }

  /** The title of `help`: the full name, then the description and a blank line when there is one. */
  method PushTitle(help: string, info: CommandInfo, fq: string) returns (r: string)
    ensures r == help + TitleText(info, fq)
  {
    if info.about.Some? {
      r := help + (fq + " - " + info.about.value + " \n\n");
    } else {
      r := help + fq;
    }
  }

  /** The long description of `help`, followed by a blank line, when there is one. */
  method PushLongAbout(help: string, info: CommandInfo) returns (r: string)
    ensures r == help + LongAboutText(info)
  {
    r := help;
    if info.longAbout.Some? {
      r := r + (info.longAbout.value + "\n\n");
    }
  }

  /** The example block of `help`: a heading and one row per example line, when there are examples. */
  method PushExamples(help: string, info: CommandInfo, fq: string) returns (r: string)
    ensures r == help + ExamplesBlock(info, fq)
  {
    r := help;
    if info.examples.Some? {
      r := r + "Examples:\n";
      r := PushExampleRows(r, fq, Lines(info.examples.value));
      AppendAssoc(help, "Examples:\n", ExampleRows(fq, Lines(info.examples.value)));
    }
  }

  /** `help`, building the text piece by piece as the source pushes onto its string. */
  method BuildHelp(info: CommandInfo, commandName: string, context: seq<string>) returns (help: string)
    ensures help == HelpText(info, commandName, context)
  {
    var fq := FullName(context, commandName);
    help := PushTitle("", info, fq);
    help := PushLongAbout(help, info);
    help := PushOptionsTable(help, info.options);
    help := PushExamples(help, info, fq);
    assert "" + TitleText(info, fq) == TitleText(info, fq);
  }

  /** `help`: the text is cut into lines and each is appended to the output buffer. */
  method Help(info: CommandInfo, commandName: string, context: seq<string>, out: Output.OutputBuffer)
    modifies out
    ensures out.lines == old(out.lines) + Lines(HelpText(info, commandName, context))
    ensures out.warnings == old(out.warnings) && out.errors == old(out.errors) && out.filter == old(out.filter)
  {
    var text := BuildHelp(info, commandName, context);
    Output.AppendLines(out, Lines(text));
  }
}
