# hubuum-cli front end, modelled in Dafny

This project models the interactive shell of `hubuum-cli`, the command-line client of the
Hubuum inventory server, up to the point where it would talk to the server:

- **Tokenizer** (`tokenizer.dfy`). An already shell-split line becomes a command, its scopes
  and a map of dash-stripped option keys to values. A value naming a URL or a file is replaced
  by what it points at.
- **Command descriptors** (`commands_mod.dfy`). Alias stripping; the three validation passes
  (duplicates, missing, populated flags), in their fixed order; option completion; and the help
  layout.
- **Command tree** (`commandlist.dfy`, `builder.dfy`, `shell.dfy`). The registry of scopes and
  commands (the class `CommandTree.CommandList`), prefix completion, the walk the completer and
  the dispatcher share, the tree text, and the shell's filter split, prompt, command search and
  help dispatch.
- **The derive macro's rules** (`derive.dfy`), over an abstract list of field descriptions: the
  generated descriptors with their trailing `help` option, the `command_info` attribute
  parser, and `new_from_tokens` (validate, then set each field).
- **Output buffer** (`output.dfy`). The class `Output.OutputBuffer` holds lines, warnings,
  errors and an optional regex filter; `flush` prints them in order and empties them.
- **Domain helpers**:
  - the "option, else positional" fallbacks;
  - the ordered "only if present" query filters of each command;
  - the namespace permission selection;
  - the relation commands' branch and swap decisions;
  - the comma-separated id list and JSON-path prettifying (`shared.dfy`);
  - key/value padding and the relation formatters (`formatting*.dfy`);
  - the token file (`files.dfy`), the protocol (`models.dfy`) and single-item extraction
    (`traits.dfy`);
  - the command-line overrides of the configuration (`cli.dfy`, the class `Cli.AppConfig`).

Code that updates state step by step is modelled as methods with loops and is proved against
specification functions: the tokenizer's loops, the validation passes, tree registration and
completion, `find_command`, the output buffer, permission selection, the token search and the
configuration update. The pure parts are functions with lemmas. The outside world is passed in
as parameters:

- the shell splitter: `Tokenizer.Splitter`;
- HTTP and file reads: `Tokenizer.Remote`;
- the regular-expression engine: `Output.RegexEngine`;
- server fetches: `Autocomplete.Fetch`, `Autocomplete.ObjectSource` and `RelationCommands.Lookup`;
- command execution: `Shell.Runner`;
- the order in which a hash map or hash set is iterated: `CommandTree.KeyOrder` and `Shared.IdOrder`;
- the random draws of the password generator: `UserCommands.Draws`.

## Model

| member | source | states |
|---|---|---|
| Tokenizer.ConvertValue | src/tokenizer.rs:73-90 | a value that is not an `http://`, `https://` or `file://` reference comes back unchanged; an `http://` or `https://` value becomes the fetched body and a `file://` value the contents of the path after the scheme, each with trailing whitespace removed; a failed fetch is an `HttpError` and a failed file read an `IoError`, each carrying the error text |
| Tokenizer.OptionKey | src/tokenizer.rs:51-66 | the key is the token without its two leading dashes (`--key`) or its one leading dash (`-k`) |
| Tokenizer.FirstOption | src/tokenizer.rs:23-24 | the position of the first dash-prefixed token: no token before it starts with a dash |
| Tokenizer.TokenizeLine | src/tokenizer.rs:12-13 | a line the shell splitter rejects is `InvalidInput`; otherwise the result is that of tokenizing the split tokens |
| Tokenizer.ScanCommand | src/tokenizer.rs:20-36 | the first loop stops at the first option; the command and scopes it collects are those of `Head` on the bare tokens before it; an option before any command is `InvalidInput` |
| Tokenizer.ReadOptions | src/tokenizer.rs:38-71 | the second loop's map, or its first error, is exactly what reading the remaining tokens as key/value pairs gives |
| Tokenizer.NewTokenizer | src/tokenizer.rs:12-44 | the whole constructor agrees with the functional tokenizer `TokenizeLine` on every line |
| Tokenizer.FirstOptionAt | src/tokenizer.rs:23-30 | the index where the first loop stops is the first option-shaped token |
| Tokenizer.FirstNonEmpty | src/tokenizer.rs:31-32 | the position of the first non-empty token: every earlier token is empty |
| Tokenizer.HeadShape | src/tokenizer.rs:31-35 | the command is the first non-empty bare token and every bare token after it, empty or not, is a scope, in order |
| Tokenizer.CommandThenScopes | src/tokenizer.rs:20-36 | for a line whose first token is a bare word, that word is the command and the words up to the first option are the scopes |
| Tokenizer.OptionBeforeCommand | src/tokenizer.rs:24-28 | an option before any command token is `InvalidInput` |
| Tokenizer.ParseOptionsAppend | src/tokenizer.rs:38-41 | reading whole key/value pairs first and then the rest gives the same as reading everything at once |
| Tokenizer.LastValueWins | src/tokenizer.rs:55-58 | a key given again overwrites the earlier value with the later one |
| Tokenizer.KeyWithoutValue | src/tokenizer.rs:52-54 | a key at the end of the line fails with `InvalidOption("Option without value")` |
| Tokenizer.BareTokenInKeyPosition | src/tokenizer.rs:67-69 | a bare token where a key is expected is `InvalidInput`, whatever follows it |
| Tokenizer.DashedValueIsValue | src/tokenizer.rs:52-58 | the token after a key is taken as its value even when it starts with a dash |
| Tokenizer.ExampleLine | src/tokenizer.rs:12-44 | `class info --name acme` gives the command `class`, the scope `info` and the option `name = acme` |
| Commands.ShortWithoutDash | src/commands/mod.rs:39-41 | present exactly when the short alias is; the alias is its first character followed by the result |
| Commands.LongWithoutDashes | src/commands/mod.rs:43-45 | present exactly when the long alias is; the alias is its first two characters followed by the result |
| Commands.MissingNamesMembers | src/commands/mod.rs:70-94 | a name is reported missing exactly when some required option has it and neither stripped alias is a key of the option map |
| Commands.DuplicateNamesMembers | src/commands/mod.rs:103-118 | a name is reported duplicate exactly when some option has it and both its aliases, as written, are keys of the option map |
| Commands.PopulatedAlias | src/commands/mod.rs:136-146 | an alias is reported only when it is a key of the map with a non-empty value |
| Commands.PopulatedFlagsGiven | src/commands/mod.rs:130-148 | every alias the flag pass reports is a key of the option map with a non-empty value |
| Commands.PopulatedFlagsFromFlags | src/commands/mod.rs:134-147 | every alias the flag pass reports is the stripped short or long alias of an option marked as a flag |
| Commands.PopulatedFlagsComplete | src/commands/mod.rs:134-147 | every stripped short or long alias of a flag option that is a key with a non-empty value is reported |
| Commands.ValidateSpec | src/commands/mod.rs:63-68 | validation passes exactly when all three passes find nothing; the duplicate error comes first, then the missing options, then the populated flags |
| Commands.ValidateMissingOptions | src/commands/mod.rs:70-101 | passes when no required option is missing, else fails with `MissingOptions` listing the missing names in descriptor order |
| Commands.CollectMissing | src/commands/mod.rs:72-94 | the loop collects exactly the missing names, in descriptor order |
| Commands.MissingOf | src/commands/mod.rs:76-93 | one option contributes its name when it is required and given under neither alias, and nothing otherwise |
| Commands.ValidateNotBothShortAndLongSet | src/commands/mod.rs:103-125 | passes when no option is given under both aliases, else fails with `DuplicateOptions` listing those names |
| Commands.CollectDuplicates | src/commands/mod.rs:108-118 | the loop collects exactly the duplicate names, in descriptor order |
| Commands.DuplicateOf | src/commands/mod.rs:111-117 | one option contributes its name when both its aliases are keys, and nothing otherwise |
| Commands.ValidateFlagOptions | src/commands/mod.rs:130-155 | passes when no flag carries a value, else fails with `PopulatedFlagOptions` listing the offending aliases |
| Commands.CollectPopulated | src/commands/mod.rs:132-148 | the loop collects exactly the populated flag aliases, short before long, in descriptor order |
| Commands.PopulatedAliasesOf | src/commands/mod.rs:135-147 | one option contributes its populated short alias, then its populated long alias, and only when it is a flag |
| Commands.Validate | src/commands/mod.rs:63-68 | the three passes run in the source's order and the first failure is returned, as `ValidateSpec` says |
| Commands.DuplicatesNeverFireOnStrippedKeys | src/commands/mod.rs:111-115 | the duplicate pass looks the aliases up with their dashes; since the tokenizer strips them from the keys, it never reports anything on tokenizer output |
| Commands.ShortAndLongBothGiven | src/commands/mod.rs:103-125 | `-n a --name b` sets both keys of one option, yet validation passes |
| Commands.OptionCompletion | src/commands/mod.rs:160-187 | an option whose long alias was seen is not offered, nor one whose short alias was seen when nothing is typed; with nothing typed, an option with an alias, none of them seen, is offered; with a prefix, an option is offered exactly when its unseen long alias starts with it; the listed text is the short alias, `, ` and the long alias (those present; only the long alias with a prefix) followed by ` <type> help`; the inserted text is the long alias or empty |
| Commands.CompletionListed | src/commands/mod.rs:157-191 | the suggestion of every option that has one is among the suggestions returned |
| Commands.CompletionFromOption | src/commands/mod.rs:157-191 | every suggestion is the suggestion of one of the options |
| Commands.NoSeenLongSuggested | src/commands/mod.rs:170-173 | no suggestion inserts a long alias that is already on the line |
| Commands.PrefixedSuggestionsMatch | src/commands/mod.rs:174-179 | with a prefix typed, every suggestion inserts a long alias starting with that prefix |
| Commands.SuggestOption | src/commands/mod.rs:160-187 | the body of the completion loop computes the suggestion `OptionCompletion` describes |
| Commands.GetOptionCompletions | src/commands/mod.rs:157-191 | the loop returns the suggestions of all options, in descriptor order |
| Commands.MaxShortWidth | src/commands/mod.rs:209-213 | no short alias is wider; 0 when there is none |
| Commands.MaxLongWidth | src/commands/mod.rs:214-218 | no long alias is wider; 0 when there is none |
| Commands.MaxTypeWidth | src/commands/mod.rs:219-223 | no type help text is wider |
| Commands.WidthsAttained | src/commands/mod.rs:209-223 | each maximum width is 0 or is the width of some option's cell |
| Commands.CellsFit | src/commands/mod.rs:226-245 | every cell of the table fits its column: the short column is 3 wider, the long column 4 wider and the type column 2 wider than the widest entry |
| Commands.RowColumns | src/commands/mod.rs:236-246 | a row starts with two spaces, and the short cell, the long cell and the `<type>` cell each start at a fixed column |
| Commands.OptionsBlockShape | src/commands/mod.rs:205-249 | a non-empty option list gives the heading `Options:`, one row per option and a blank line |
| Commands.LinesHaveNoBreak | src/commands/mod.rs:257 | no line that `lines()` yields holds a line break |
| Commands.StrippedRows | src/commands/mod.rs:253-255 | one row per example line: two spaces, the full command name, a space and the line, with any carriage return stripped |
| Commands.ExampleRowLines | src/commands/mod.rs:253-258 | cutting the example rows into lines gives back exactly the rows, one per example line |
| Commands.RowHasNoBreak | src/commands/mod.rs:254 | an example row holds no line break when its parts hold none |
| Commands.RowsEndTheLines | src/commands/mod.rs:250-258 | text that ends in a line break, followed by the example rows, gives its own lines followed by the rows |
| Commands.HelpExampleLines | src/commands/mod.rs:193-261 | the last lines of the help output are the example lines, each prefixed by two spaces, the full command name and a space |
| Commands.PushOptionRows | src/commands/mod.rs:225-247 | the row loop appends exactly the rows of all options, in order |
| Commands.PushExampleRows | src/commands/mod.rs:253-255 | the example loop appends exactly one row per example line |
| Commands.PushOptionsTable | src/commands/mod.rs:204-249 | nothing is appended for a command without options, else the heading, the table and a blank line |
| Commands.PushOptionTable | src/commands/mod.rs:209-247 | the widths are computed from all options and the table's rows appended |
| Commands.PushTitle | src/commands/mod.rs:195-200 | `name - about` and a blank line when there is a description, else the full name alone |
| Commands.PushLongAbout | src/commands/mod.rs:201-203 | the long description and a blank line, when there is one |
| Commands.PushExamples | src/commands/mod.rs:250-256 | the heading `Examples:` and the rows, when there are examples |
| Commands.BuildHelp | src/commands/mod.rs:193-256 | the text is the title, the long description, the option table and the examples, in that order |
| Commands.Help | src/commands/mod.rs:193-261 | the output buffer gains exactly the lines of the help text and nothing else changes |
| CommandTree.Tree.GetCommand | src/commandlist.rs:58-61 | absent exactly when the name is not a command of the node, else that command |
| CommandTree.Tree.GetScope | src/commandlist.rs:63-66 | absent exactly when the name is not a scope of the node, else that scope |
| CommandTree.NameCompletionsSound | src/commandlist.rs:68-91 | every candidate is a listed name that starts with the prefix, shown as it is inserted |
| CommandTree.NameCompletionsComplete | src/commandlist.rs:68-91 | every listed name that starts with the prefix is a candidate |
| CommandTree.CompletionsShape | src/commandlist.rs:68-91 | the command names come first and the scope names after them, each starting with the prefix |
| CommandTree.CompletionsExact | src/commandlist.rs:68-91 | a name is offered exactly when it is a command or a scope of the node and starts with the prefix; commands are listed before scopes |
| CommandTree.Walk | src/commandlist.rs:173-185 | the walk passes over a run of scope names and stops at the end of the parts, at a part that names nothing, or at a part that names a command, which it returns with its position; a scope wins over a command of the same name |
| CommandTree.WalkDescends | src/commandlist.rs:173-185 | the parts passed over lead from the root down to the scope where the walk stopped |
| CommandTree.LastSpace | src/commandlist.rs:149-151 | the position of the last whitespace character, or none when there is none |
| CommandTree.DashedPartsMembers | src/commandlist.rs:187-194 | the options seen are exactly the parts that start with a dash |
| CommandTree.UnsplittableGivesNothing | src/commandlist.rs:160-165 | a line the shell splitter rejects gets no candidates, at the start of the current word |
| CommandTree.WordBounds | src/commandlist.rs:149-151 | the word being completed is the text after the last whitespace before the cursor, or the whole line when there is none |
| CommandTree.CompleteInScope | src/commandlist.rs:196-203 | when the walk does not reach a command, the candidates are exactly the commands and scopes of the scope it reached that start with the word |
| CommandTree.CompleteAfterCommand | src/commandlist.rs:187-199 | when the walk reaches a command, the candidates are that command's option suggestions, given the dashed parts from the command on; none of them inserts an option already on the line |
| CommandTree.UnlinesAppend | src/commandlist.rs:93-123 | the text of two runs of lines is the text of each, one after the other |
| CommandTree.CommandEntriesHold | src/commandlist.rs:100-106 | every command gets its own entry line |
| CommandTree.ScopeEntriesHold | src/commandlist.rs:110-120 | every scope gets its own entry line |
| CommandTree.RootEntries | src/commandlist.rs:125-127 | at the root every command and every scope is drawn as `└─ name` |
| CommandTree.RootEntry | src/commandlist.rs:95-111 | one root name, command or scope, is drawn as `└─ name` |
| CommandTree.CommandEntriesLead | src/commandlist.rs:100-106 | every command entry and connector line starts with the prefix and indent |
| CommandTree.TreeLinesPrefix | src/commandlist.rs:93-123 | every line of a subtree's drawing starts with the prefix it was given |
| CommandTree.ScopeEntriesPrefix | src/commandlist.rs:108-120 | every line drawn for the scopes, their subtrees included, starts with the prefix and indent |
| CommandTree.CommandEntriesStep | src/commandlist.rs:100-106 | one command contributes its entry and, unless it is the last entry of the node, a `│` connector |
| CommandTree.ScopeEntriesStep | src/commandlist.rs:110-120 | one scope contributes its entry and then its own drawing, with a blank continuation under the last scope and `│` under the others |
| CommandTree.GenerateTree | src/commandlist.rs:93-123 | the drawing is the lines `TreeLines` describes, each ended by a line break |
| CommandTree.PushCommandEntries | src/commandlist.rs:98-106 | the command loop appends exactly the command entries and connectors |
| CommandTree.CommandList.AddCommand | src/commandlist.rs:46-50 | the command is stored under its name, replacing any earlier one; the scopes are unchanged |
| CommandTree.CommandList.AddScope | src/commandlist.rs:52-55 | an existing scope is handed back as it is; a new name gets an empty scope |
| CommandTree.CommandList.AddScopedCommands | src/commandlist.rs:46-55 | the scope, created if need be, gains the entries in order; the top-level commands are unchanged |
| CommandTree.CommandList.ShowTree | src/commandlist.rs:125-127 | the drawing starts at the root with an empty prefix, as a last node |
| CommandTree.CommandList.Complete | src/commandlist.rs:143-206 | the start position and the candidates are those `CompleteSpec` describes |
| CommandTree.WalkParts | src/commandlist.rs:169-185 | the scope loop ends where the walk ends; a command is found exactly when the walk stops at one, with that command's position |
| CommandTree.InsertAll | src/commandlist.rs:46-50 | after inserting entries in order, the names are the earlier names together with all names inserted |
| CommandTree.InsertAllSnoc | src/commandlist.rs:46-50 | inserting one more entry at the end overwrites that name with the new command |
| CommandTree.InsertEntries | src/commandlist.rs:46-50 | a chain of `add_command` calls on a scope inserts the entries in order |
| CommandTree.SeenOptions | src/commandlist.rs:187-194 | the loop collects the dashed parts from the command on, in order |
| Builder.InsertFour | src/commands/builder.rs:17-39 | a chain of four `add_command` calls on a new scope gives the map of those four names, later names overwriting earlier ones |
| Builder.InsertTwo | src/commands/builder.rs:41-45 | a chain of two `add_command` calls on a new scope gives the map of those two names |
| Builder.AddScopes | src/commands/builder.rs:7-10 | the four scope builders together leave exactly the scopes `class`, `namespace`, `user` and `group` of the REPL tree; top-level commands are untouched |
| Builder.AddClassAndNamespace | src/commands/builder.rs:17-31 | `class` holds create, list, delete and info, and so does `namespace` |
| Builder.AddUserAndGroup | src/commands/builder.rs:33-45 | `user` holds create, list, delete and info; `group` holds create and list |
| Builder.AddLeafScope | src/commands/builder.rs:17-45 | a new scope built from its entries holds exactly the commands they name |
| Builder.ScopeCommandsInserted | src/commands/builder.rs:17-45 | each scope's chain of `add_command` calls gives that scope's command map |
| Builder.BuildReplCommands | src/commands/builder.rs:4-15 | the list built is the REPL tree: the four scopes with their commands, and `help` at the top |
| Builder.ReplCommandsFound | src/commands/builder.rs:4-45 | typing a scope and one of its command names reaches exactly the command registered under that pair, whatever follows; any other second word is unknown |
| Builder.ReplTopLevel | src/commands/builder.rs:12 | at the top level `help` is the only command; any other word that is not a scope is unknown |
| Builder.BuildMainCommands | src/main.rs:22-30 | the list that `main` actually builds holds `class create`, `namespace create` and `help` |
| Builder.MainTreeWithinRepl | src/main.rs:22-30 | every command of the list in `main` is registered, under the same scope and name, in the builder's list |
| Shell.NoBarNoFilter | src/main.rs:32-46 | a line without `\|` is run as it is and the filter is cleared |
| Shell.OneBar | src/main.rs:32-42 | with one `\|`, the trimmed text before it is the command and the trimmed text after it the filter |
| Shell.SecondBarDropped | src/main.rs:33-35 | text after a second `\|` plays no part |
| Shell.PatternTrimmed | src/main.rs:35-40 | a filter starting with `!` is inverted and its pattern is the rest, trimmed; a pattern has no surrounding whitespace |
| Shell.ProcessFilter | src/main.rs:32-47 | without a `\|` the line comes back as it is and the filter is cleared; otherwise an invalid pattern is a `RegexError` and leaves the filter as it was, and a valid one is set and the trimmed command comes back |
| Shell.PromptParts | src/main.rs:49-54 | the prompt reads back as the user before the `@`, the host before the `:` and the port in decimal, and ends in ` > ` |
| Shell.DigitsHaveNoSeparators | src/main.rs:51-52 | the port's decimal text holds no `@` and no `:` |
| Shell.HostPortSplit | src/main.rs:51-52 | splitting `host:port > ` at `:` gives the host and the rest |
| Shell.FindSpec | src/main.rs:76-102 | the search fails exactly when the walk stops at an unknown word; on success a command is found exactly when its name is |
| Shell.FindCommand | src/main.rs:76-102 | the loop gives the outcome `FindSpec` describes, and the context grows by exactly the scope names passed, also when the search then fails |
| Shell.FoundAfterScopes | src/main.rs:85-99 | the words passed are the first words of the line, they lead down to the scope reached, and a command found is the word right after them |
| Shell.Executed | src/main.rs:104-122 | a tokenizer error is the outcome and nothing is shown; with `help` or `h` among the options the outcome passes and the command's help is shown; otherwise nothing is shown and the outcome passes exactly when the command's `execute` does, a failure wrapped as `CommandExecutionError` |
| Shell.ExecuteCommand | src/main.rs:104-122 | the outcome is `Executed`'s and the output gains exactly the lines `Executed` shows; warnings, errors and the filter are unchanged |
| Shell.HandleCommand | src/main.rs:56-74 | an unsplittable line is a `ParseError`; an empty line does nothing; an unknown word is the search's error; a line of scope names only adds the warning `Command not found: ...`; a line naming a command gives `Executed`'s outcome and shown lines for that command under the context grown by the scopes passed, with no warning |
| Builder.ReplScopesInOrder | src/commands/builder.rs:4-10 | the REPL tree's scopes are `class`, `namespace`, `user` and `group`, each holding its own commands |
| Derive.TypeHelp | cli_command_derive/src/lib.rs:112 | the type text as the help shows it holds no space |
| Derive.NoSpaceLeft | cli_command_derive/src/lib.rs:112 | removing every space leaves none |
| Derive.Descriptors | cli_command_derive/src/lib.rs:74-119 | one descriptor per field, in field order |
| Derive.EndsWithHelp | cli_command_derive/src/lib.rs:121-133 | every option list ends with the help option: `-h`/`--help`, a flag, never required, of type `bool` |
| Derive.RequiredRule | cli_command_derive/src/lib.rs:85-100 | an `Option` field is never required; any other field is required unless its attribute says `required = false`; an option is a flag exactly when its attribute says `flag = true` |
| Derive.AliasesRoundTrip | cli_command_derive/src/lib.rs:79-82 | the descriptor's aliases are the attribute's names with `-` and `--` put in front, so stripping them gives the names back |
| Derive.DerivedWellFormed | cli_command_derive/src/lib.rs:74-133 | every derived option list, help option included, has aliases long enough to strip and short aliases that start with a dash |
| Derive.Record | cli_command_derive/src/lib.rs:38-43 | a key is accepted exactly when it is `about`, `long_about` or `examples` |
| Derive.ParseCommandInfo | cli_command_derive/src/lib.rs:25-52 | the attribute loop gives the outcome `ParseInfo` describes |
| Derive.ParseRendered | cli_command_derive/src/lib.rs:33-48 | a comma-separated list of `key = "value"` items, with or without a trailing comma, records each item in turn |
| Derive.CommandInfoOf | cli_command_derive/src/lib.rs:59-62 | without a `command_info` attribute there is no description, long description or examples |
| Derive.DeriveCommand | cli_command_derive/src/lib.rs:54-229 | the derived command is named after the struct, carries the field descriptors and the help option, and the three texts of its attribute; a malformed attribute fails the derivation |
| Derive.SetFields | cli_command_derive/src/lib.rs:135-182 | the setters keep one value per field |
| Derive.SetAll | cli_command_derive/src/lib.rs:218-220 | the setters for every option keep one value per field |
| Derive.Defaults | cli_command_derive/src/lib.rs:215 | every field starts at its default |
| Derive.NewFromTokensSpec | cli_command_derive/src/lib.rs:214-223 | a failed validation is returned as it is, before any field is set |
| Derive.ApplySetters | cli_command_derive/src/lib.rs:219 | the setter chain for one option is the one `SetFields` describes |
| Derive.NewFromTokens | cli_command_derive/src/lib.rs:214-223 | `new_from_tokens` validates, then sets the fields from every option, as `NewFromTokensSpec` describes |
| Derive.SetFieldsKeeps | cli_command_derive/src/lib.rs:153-166 | a field the option does not name is left alone; a flag field it names becomes `true` (`Some(true)` when optional) |
| Derive.SetAllFields | cli_command_derive/src/lib.rs:218-220 | after all options, a field none of them names is left alone, and a flag field one of them names is `true` |
| Derive.FieldsAfterTokens | cli_command_derive/src/lib.rs:214-223 | after `new_from_tokens`, a field no option names keeps its default and a named flag field is `true` |
| Derive.SetFieldsFailure | cli_command_derive/src/lib.rs:167-180 | a failed setter is a non-flag field named by the option whose type does not parse the value, reported as `Option 'k' has value 'v' (expected type: t)` |
| Autocomplete.BoolCompletions | src/autocomplete.rs:7-9 | the boolean completer offers `true` and `false` whatever was typed |
| Autocomplete.Names | src/autocomplete.rs:80 | one displayed name per permission, in order |
| Autocomplete.MatchingKeeps | src/autocomplete.rs:72-82 | the permission completer keeps, in order, exactly the permissions whose displayed name starts with the prefix |
| Autocomplete.PermissionCompletionsExact | src/autocomplete.rs:72-82 | the completions are the names of the kept permissions, a permission is kept exactly when its name starts with the prefix, and none is offered twice |
| Autocomplete.MatchingEmptyPrefix | src/autocomplete.rs:72-82 | with nothing typed every permission is offered |
| Autocomplete.PrefixFilter | src/autocomplete.rs:15-21 | an empty prefix adds no filter; any other adds one `starts with` filter, not negated, on the given field |
| Autocomplete.NamesOrEmpty | src/autocomplete.rs:22-28 | a failed request offers nothing; a successful one offers the names it returned |
| Autocomplete.FetchFailureOffersNothing | src/autocomplete.rs:11-69 | when the server fails, the group, class and namespace completers offer nothing |
| Autocomplete.ClassAfterFirstFlag | src/autocomplete.rs:93-96 | the class read is the word after the first occurrence of the flag |
| Autocomplete.NoFlagNoClass | src/autocomplete.rs:93-96 | without the flag followed by a word, no class is read |
| Autocomplete.ObjectsFromClassSource | src/autocomplete.rs:84-129 | no class word, or a class lookup that fails, offers nothing; otherwise the completions are the object names the server returns for that class, filtered on the prefix |
| Autocomplete.RelationFlagsRead | src/autocomplete.rs:131-145 | on a relation line the source and target completers read the classes given after `--class_from` and `--class_to` |
| Output.Prefixed | src/output.rs:58-66 | each message behind its prefix, in order, one for one |
| Output.ShownUnfiltered | src/output.rs:79-83 | without a filter every line is printed |
| Output.ShownMembers | src/output.rs:68-78 | with a filter, a line is printed exactly when it is a buffered line and whether it matches differs from the invert flag |
| Output.ShownComplement | src/output.rs:73-78 | a pattern and its inversion split the lines between them: the two printed counts add up to the number of lines |
| Output.OutputBuffer.AddWarning | src/output.rs:32-34 | the warning is appended; nothing else changes |
| Output.OutputBuffer.AddError | src/output.rs:36-38 | the error is appended; nothing else changes |
| Output.OutputBuffer.AppendLine | src/output.rs:40-42 | the line is appended; nothing else changes |
| Output.OutputBuffer.SetFilter | src/output.rs:44-49 | a pattern that does not compile is a regex error and leaves the filter as it was; otherwise the filter becomes the pattern with its invert flag |
| Output.OutputBuffer.ClearFilter | src/output.rs:51-53 | the filter is removed; nothing else changes |
| Output.OutputBuffer.Flush | src/output.rs:55-85 | prints the warnings, then the errors, then the lines the filter shows, and empties all three while keeping the filter |
| Output.PrefixEach | src/output.rs:58-66 | the loops print exactly `Prefixed` |
| Output.FilterLines | src/output.rs:68-83 | the loop prints exactly the lines `Shown` describes |
| Output.AppendLines | src/output.rs:173-179 | the items are appended in order; nothing else changes |
| Shared.OnlyPresentAppend | src/commands/class.rs:213-231 | the filters of a concatenated wanted list are those of each part, in order, and the given values add up |
| Shared.Present | src/commands/class.rs:215-221 | a value given yields exactly its one filter; an absent value yields none |
| Shared.OnlyPresentTwo | src/commands/class.rs:213-231 | a two-option list query yields the first option's filter, when given, before the second's |
| Shared.OnlyPresentFour | src/commands/group.rs:170-206 | a four-option list query yields the filters of the given options in their declared order |
| Shared.OnlyPresentExact | src/commands/class.rs:213-231 | one filter per given value, and a filter appears exactly when some given value produces it |
| Shared.OnlyPresentExtremes | src/commands/class.rs:213-231 | no values given yields no filters; all given yields every filter in order |
| Shared.Rank | src/autocomplete.rs:78 | every permission has a place in the declared order of `Permissions::iter()` |
| Shared.AllPermissionsListed | src/commands/namespace.rs:466-468 | `Permissions::iter()` lists every permission, each at its own place |
| Shared.KeepNone | src/commands/namespace.rs:469-530 | choosing no permission keeps none |
| Shared.KeepSnoc | src/commands/namespace.rs:469-530 | each flag checked in turn appends its permission when chosen |
| Shared.KeepMembers | src/commands/namespace.rs:469-530 | a permission is kept exactly when it is listed and chosen |
| Shared.KeepDistinct | src/commands/namespace.rs:469-530 | keeping from a list without repeats gives a list without repeats |
| Shared.AllPermissionsDistinct | src/autocomplete.rs:78 | the permission order lists no permission twice |
| Shared.OrPositional | src/commands/class.rs:174-190 | the option's value when set, else the positional at the index, else `MissingOptions` naming the option |
| Shared.OrPositionalIgnoresPositionals | src/commands/class.rs:174-190 | a set option makes the positionals irrelevant |
| Shared.IntToString | src/commands/shared/mod.rs:21 | a printed id is never empty and holds no comma |
| Shared.IntToStringParts | src/commands/shared/mod.rs:21 | a printed id is a minus sign exactly for negative ids, then the digits of its magnitude |
| Shared.IntToStringInjective | src/commands/shared/mod.rs:21 | two ids print alike only when they are equal |
| Shared.Printed | src/commands/shared/mod.rs:20-22 | one printed id per id, in order |
| Shared.IdsAppearOnce | src/commands/shared/mod.rs:10-24 | splitting the joined list at commas gives every distinct id exactly once and nothing else, whatever order the set is iterated in |
| Shared.SplitPrinted | src/commands/shared/mod.rs:20-23 | splitting the comma-joined printed ids gives them back |
| Shared.PrintedMembers | src/commands/shared/mod.rs:20-22 | an id's text is printed exactly when the id is listed |
| Shared.PrintedDistinct | src/commands/shared/mod.rs:20-22 | distinct ids print as distinct texts |
| Shared.DistinctListing | src/commands/shared/mod.rs:19-20 | a listing of a set without repeats has as many entries as the set |
| Shared.DistinctCount | src/commands/shared/mod.rs:19-20 | in a list without repeats each id occurs once or not at all |
| Shared.IdFilter | src/commands/shared/mod.rs:43-45 | the lookup of entities by id is one `id` equality filter, not negated |
| Shared.KeyByIdOwnIds | src/commands/shared/mod.rs:48-51 | the map's keys are exactly the fetched entities' ids, and each key maps to a fetched entity with that id |
| Shared.PrettifyTwoSegments | src/commands/shared/mod.rs:128-133 | `$.['x'].['y']` becomes `x.y` |
| Shared.ClosingsOfSegments | src/commands/shared/mod.rs:132 | removing the closing brackets of two segments leaves the dotted names |
| Shared.PrettifyExample | src/commands/shared/mod.rs:128 | `$.['location'].['country']` becomes `location.country` |
| Shared.RemoveOpenings | src/commands/shared/mod.rs:131 | removing the opening brackets of two segments leaves the names |
| Shared.RemoveClosings | src/commands/shared/mod.rs:132 | removing two closing brackets leaves what they followed |
| Shared.RemoveLead | src/commands/shared/mod.rs:131-132 | a removed pattern at the front disappears |
| Shared.RemovePlain | src/commands/shared/mod.rs:131-132 | text that cannot start the pattern survives the removal untouched |
| Shared.PrettifyPlain | src/commands/shared/mod.rs:129-133 | a path without `$.`, brackets or quotes is left as it is |
| NamespaceCommands.NamespaceNewRequired | src/commands/namespace.rs:20-36 | `namespace create` takes name, description and owner, all required values, then the help option |
| NamespaceCommands.IntoPost | src/commands/namespace.rs:39-47 | the post carries the name and description as given and the owner group's id |
| NamespaceCommands.NamespaceListFilters | src/commands/namespace.rs:96-112 | the list query filters on name and on description, `contains`, each only when given, in that order |
| NamespaceCommands.NamespaceOrPos | src/commands/namespace.rs:577-591 | the `--name` option, else the positional at the index, else `MissingOptions(["namespace"])` |
| NamespaceCommands.GrantNameAlwaysPresent | src/commands/namespace.rs:454-458 | a grant that got past the namespace lookup always has a name |
| NamespaceCommands.Step | src/commands/namespace.rs:469-530 | each permission flag extends the selection by its permission when set |
| NamespaceCommands.PushIfChosen | src/commands/namespace.rs:470-472 | one `if` of the grant adds its permission to the selection so far exactly when chosen |
| NamespaceCommands.SelectPermissions | src/commands/namespace.rs:466-535 | the grant's selection is `Selection`: every permission with `--all`, else the chosen ones in declared order, and an empty selection is `MissingOptions(["permission"])` |
| NamespaceCommands.PushCollectionFlags | src/commands/namespace.rs:470-481 | the four collection flags, in order |
| NamespaceCommands.PushClassFlags | src/commands/namespace.rs:482-493 | the four class flags, in order |
| NamespaceCommands.PushObjectFlags | src/commands/namespace.rs:494-505 | the four object flags, in order |
| NamespaceCommands.PushClassRelationFlags | src/commands/namespace.rs:506-517 | the four class-relation flags, in order |
| NamespaceCommands.PushObjectRelationFlags | src/commands/namespace.rs:518-529 | the four object-relation flags, in order |
| NamespaceCommands.SelectionExact | src/commands/namespace.rs:466-535 | the grant fails exactly when neither `--all` nor any permission flag is given; otherwise it grants exactly the chosen permissions (all of them with `--all`), none twice |
| NamespaceCommands.KeptChosen | src/commands/namespace.rs:469-530 | the flags select exactly the chosen permissions, without repeats, and nothing only when nothing was chosen |
| NamespaceCommands.KeptFrom | src/commands/namespace.rs:469-530 | keeping from a repeat-free list of every permission selects exactly the chosen ones |
| NamespaceCommands.PermString | src/commands/namespace.rs:551-559 | `--all` reads `all permissions`; a single permission reads its name |
| NamespaceCommands.GrantMessage | src/commands/namespace.rs:561-566 | the message reads `Granted <permissions> to group '<group>' on namespace '<namespace>'`: that prefix, the group name exactly between, that suffix |
| ClassCommands.ClassNewRequired | src/commands/class.rs:20-47 | `class create` requires name, namespace and description, leaves schema and validation optional, has no flag, and ends with help |
| ClassCommands.ClassInfoOptions | src/commands/class.rs:94-110 | `class info` takes an optional name and the optional `--json` flag |
| ClassCommands.ClassInfoFilters | src/commands/class.rs:73-86 | the info query filters on the name, case-insensitively, only when it is given |
| ClassCommands.ClassListFilters | src/commands/class.rs:212-231 | the list query filters on name then description, case-insensitively, each only when given |
| ClassCommands.ClassnameOrPos | src/commands/class.rs:174-190 | the `--name` option, else the positional at the index, else `MissingOptions(["name"])` |
| ClassCommands.ClassNameFromFirstPositional | src/commands/class.rs:174-190 | the class name is found exactly when the option or a first positional is given, and the positional is used when the option is absent |
| ObjectCommands.ObjectInfoOptions | src/commands/object.rs:117-147 | `object info` requires only the class, takes `--data` as its only flag, and takes name and path as optional values |
| ObjectCommands.ObjectnameOrPos | src/commands/object.rs:302-318 | the `--name` option, else the positional at the index, else `MissingOptions(["name"])` |
| ObjectCommands.DeleteTarget | src/commands/object.rs:262-276 | `object delete` needs a name (from `--name` or the second positional) and then a class; the name is checked first, and each missing one is its own `MissingOptions` |
| ObjectCommands.InfoAndDeletePositionals | src/commands/object.rs:155-156 | `object info` reads the name from the first positional, `object delete` from the second |
| ObjectCommands.ObjectInfoFilters | src/commands/object.rs:98-111 | the info query filters on the name, case-insensitively, only when it is given |
| ObjectCommands.ObjectListFilters | src/commands/object.rs:340-359 | the list query filters on name then description, case-insensitively, each only when given |
| ObjectCommands.ChooseView | src/commands/object.rs:182-240 | data is shown only when `--path` or `--data` is given and the object has data; `--path` wins and selects by its own expression |
| ObjectCommands.Longest | src/commands/object.rs:208-211 | the maximum key length is that of some key and no key is longer; there is none without keys |
| ObjectCommands.KeyPadding | src/commands/object.rs:208-212 | the padding is at least the floor and fits every key, and it is the floor or the length of some key |
| ObjectCommands.KeyPaddingLeast | src/commands/object.rs:208-212 | the padding is the least width that fits the keys and the floor |
| ObjectCommands.KeyPaddingShortKeys | src/commands/object.rs:212 | keys no longer than the floor are padded to the floor (14 for path results, 15 for flattened data) |
| UserCommands.AlphabetChar | src/commands/user.rs:235 | every draw gives an ASCII letter or digit |
| UserCommands.AlphabetIndex | src/commands/user.rs:235 | every ASCII letter or digit is the draw of some index |
| UserCommands.GeneratePassword | src/commands/user.rs:232-239 | the password has the requested length and only letters and digits |
| UserCommands.SmallDrawKept | src/commands/user.rs:235 | an index inside the alphabet is drawn as it is |
| UserCommands.EveryPasswordPossible | src/commands/user.rs:232-239 | every alphanumeric text of the length can be generated |
| UserCommands.UserNewRequired | src/commands/user.rs:22-28 | `user create` requires the username, leaves the email optional, and has no flag |
| UserCommands.IntoPost | src/commands/user.rs:31-38 | the post carries the username and email as given and a 20-character alphanumeric password |
| UserCommands.UsernameOrPos | src/commands/user.rs:241-256 | the `--username` option, else the positional at the index, else `MissingOptions(["username"])` |
| UserCommands.UserDeleteFilters | src/commands/user.rs:65-79 | the delete query filters on the username, case-insensitively, only when it is given |
| UserCommands.UserInfoFilters | src/commands/user.rs:125-163 | the info query filters on username and email (case-insensitive) and on the two timestamps (equality), in that order, each only when given |
| UserCommands.UserInfoTimestampsOnly | src/commands/user.rs:145-160 | with only the timestamps given, the query is the two equality filters |
| GroupCommands.PlainFieldsRequired | cli_command_derive/src/lib.rs:85-100 | fields that are not `Option` and carry no `required` or `flag` setting all derive required value options |
| GroupCommands.GroupFieldsRequired | src/commands/group.rs:14-91 | `group create`, `group add_user` and `group remove_user` require both their options |
| GroupCommands.IntoPost | src/commands/group.rs:23-30 | the post carries the group name and description as given |
| GroupCommands.GroupListFilters | src/commands/group.rs:170-206 | the list query filters on the group name (contains, starts with, ends with) and on the description, in that order, each only when given |
| GroupCommands.GroupListBothEnds | src/commands/group.rs:182-197 | a prefix and a suffix give a `starts with` filter then an `ends with` filter, both on the group name |
| GroupCommands.AddedMessage | src/commands/group.rs:74-77 | the message reads `User <user> added to group <group>`: the prefix and the suffix with nothing between |
| GroupCommands.RemovedMessage | src/commands/group.rs:113-116 | the message reads `User <user> removed from group <group>`: the prefix and the suffix with nothing between |
| GroupCommands.MessagesDiffer | src/commands/group.rs:74-116 | adding and removing a user never print the same message |
| RelationCommands.ValidateObjectNames | src/commands/relations.rs:584-590 | both names when both are given; otherwise `MissingOptions(["object_from"])` when the first is missing, else `MissingOptions(["object_to"])` |
| RelationCommands.RelationPath | src/commands/relations.rs:189-193 | `relation create` and `relation delete` work on the class relation exactly when no object name is given, on the object relation of the two names when both are, and otherwise fail naming the missing one |
| RelationCommands.InfoPanicsOnOneName | src/commands/relations.rs:449-464 | `relation info` with only one object name reaches an `unwrap` of the missing name |
| RelationCommands.InfoPathChecked | src/commands/relations.rs:449-464 | the checked branch choice fails exactly when one name is given without the other |
| RelationCommands.InfoPathCorrects | src/commands/relations.rs:449-464 | the checked choice agrees with the code wherever the code does not panic, and reports `MissingOptions` exactly where it panics |
| RelationCommands.PlanList | src/commands/relations.rs:229-260 | the class lookups of `relation list` give the plan `PlanOf` describes |
| RelationCommands.PlanSwapRule | src/commands/relations.rs:229-260 | the classes are swapped exactly when both are given and the source's id is higher; the searched source then has the lower id, the pair is the same two classes, unswapped classes stay on their sides, and there is one filter per class given, on that class's side and id |
| RelationCommands.PastTableBothClassesKnown | src/commands/relations.rs:289-297 | past the table both classes were given and looked up, and at most one class relation was found |
| RelationCommands.ObjectTarget | src/commands/relations.rs:344-373 | an object name is searched on `from_objects` or `to_objects` |
| RelationCommands.ObjectTargetsExchanged | src/commands/relations.rs:350-371 | the source and target names go to different sides, and swapping exchanges the sides |
| RelationCommands.ObjectFilters | src/commands/relations.rs:340-373 | the object-relation search is the class relation's id, then the source object's side when named, then the target object's side when named |
| RelationCommands.ObjectFiltersDistinctSides | src/commands/relations.rs:344-373 | with both objects named, one is searched as source and the other as target |
| RelationCommands.Corrected | src/commands/relations.rs:417-422 | a swapped class relation has its two class ids exchanged and nothing else changed; an unswapped one is kept |
| RelationCommands.CorrectedInvolution | src/commands/relations.rs:417-422 | correcting twice gives the relation back |
| RelationCommands.CorrectedFollowsUser | src/commands/relations.rs:229-247 | the corrected relation runs from the class the user gave as source to the one given as target |
| Formatting.AsUsize | src/formatting/mod.rs:76 | a non-negative `i8` width is kept, a negative one sign-extends to a 64-bit width |
| Formatting.PadKeyValue | src/formatting/mod.rs:71-78 | the key, then spaces up to the width (never cutting the key), then `: ` and the value |
| Formatting.KeyNeverTruncated | src/formatting/mod.rs:77 | a key at least as long as the width is printed whole, directly followed by `: ` |
| Formatting.SeparatorsAligned | src/formatting/mod.rs:77 | keys that fit the width put their `: ` at the same column |
| Formatting.AppendKeyValue | src/formatting/mod.rs:80-86 | appends the padded line and nothing else |
| Formatting.SomeOrNone | src/formatting/mod.rs:93-97 | a value prints as itself, a missing one as `<none>` |
| Formatting.AppendSomeKeyValue | src/formatting/mod.rs:88-98 | appends the padded line of the value or of `<none>`, and nothing else |
| Formatting.Format | src/formatting/mod.rs:41-53 | appends the table's lines and hands the value back |
| Formatting.FormatNoreturn | src/formatting/mod.rs:55-58 | appends the table's lines |
| Formatting.FormatJson | src/formatting/mod.rs:60-63 | appends the value's pretty JSON and hands the value back |
| Formatting.FormatJsonNoreturn | src/formatting/mod.rs:65-68 | appends the value's pretty JSON |
| RelationFormatting.NameOf | src/formatting/relations.rs:44-52 | the name the map holds for the id, or the empty text when it holds none |
| RelationFormatting.NewClassRelation | src/formatting/relations.rs:42-72 | both class ids are replaced by their names from the map; id and timestamps are kept |
| RelationFormatting.NewObjectRelation | src/formatting/relations.rs:84-149 | both object ids are replaced by their names from the map; id and timestamps are kept |
| RelationFormatting.ObjectRelationIgnoresClasses | src/formatting/relations.rs:85-90 | the class relation and class map passed in do not change an object relation's display |
| RelationFormatting.NamesFromListedClasses | src/formatting/relations.rs:42-72 | with the map keyed from a list of classes, each end shows the name of a listed class with its id, or nothing when none is listed |
| RelationFormatting.SwappedEndsSwapNames | src/formatting/relations.rs:42-72 | exchanging a relation's class ids exchanges the displayed names |
| RelationFormatting.ClassRelationLines | src/formatting/relations.rs:74-82 | a class relation shows four lines |
| RelationFormatting.ObjectRelationLines | src/formatting/relations.rs:151-161 | an object relation shows four lines |
| RelationFormatting.FormatClassRelation | src/formatting/relations.rs:74-82 | appends the four lines and nothing else |
| RelationFormatting.FormatObjectRelation | src/formatting/relations.rs:151-161 | appends the four lines and nothing else |
| RelationFormatting.ClassRelationLinesKeys | src/formatting/relations.rs:76-79 | the lines are `ClassFrom`, `ClassTo`, `Created` and `Updated`, each with its value after `: ` at the width |
| RelationFormatting.ObjectRelationLinesKeys | src/formatting/relations.rs:155-158 | the lines are `ObjectFrom`, `ObjectTo`, `Created` and `Updated`, each with its value after `: ` at the width |
| Files.CreatedContent | src/files.rs:27-39 | a present file is left alone; a missing token file is created as `[]`, any other missing file as empty |
| Files.OnlyTokenFileIsAList | src/files.rs:32-36 | only the token file starts as an empty JSON list; history and log files start empty |
| Files.FirstTokenExact | src/files.rs:61-66 | the lookup finds nothing exactly when no entry is for the pair, and otherwise the token of the first entry for it |
| Files.FindToken | src/files.rs:61-66 | the search loop returns the first matching entry's token, or none |
| Files.GetTokenFromTokenfile | src/files.rs:53-67 | a read or parse failure is returned as the error; otherwise the first token for the pair, if any |
| Files.Others | src/files.rs:76-78 | `retain` keeps exactly the entries of other pairs |
| Files.Upsert | src/files.rs:76-79 | the written list ends with the new entry, and before it are exactly the old entries of other pairs |
| Files.WriteTokenToTokenfile | src/files.rs:69-85 | an unreadable file is rewritten with the one entry, a parse failure is returned, otherwise the others then the entry are written |
| Files.OthersAppend | src/files.rs:76-78 | `retain` over a concatenation keeps each part's entries, in order |
| Files.OthersKeepsForeign | src/files.rs:76-78 | entries that are all of other pairs are kept whole |
| Files.WriteThenFind | src/files.rs:53-85 | after writing a token, the lookup of its pair finds it |
| Files.WriteKeepsOtherLookups | src/files.rs:53-85 | writing one pair's token does not change the lookup of any other pair |
| Files.OthersLookup | src/files.rs:61-78 | dropping one pair's entries does not change another pair's lookup |
| Files.FirstTokenAppend | src/files.rs:61-79 | an entry of another pair appended at the end is never found first |
| Models.ProtocolName | src/models/internal.rs:31-38 | the displayed names are lower case, `http` and `https` |
| Models.ParseProtocol | src/models/internal.rs:13-23 | a text parses as `Http` or `Https` exactly when its lower-cased form is that name, and fails with the invalid-protocol message otherwise |
| Models.LowerIdempotent | src/models/internal.rs:17 | lower-casing twice is lower-casing once |
| Models.ParseIgnoresCase | src/models/internal.rs:16-22 | a text parses exactly as its lower-cased form does |
| Models.ParseDisplayed | src/models/internal.rs:13-38 | the displayed name parses back to the same protocol |
| Traits.TypeNameShape | src/traits.rs:25-28 | the type name is the suffix after the last `::` (the whole name when there is none) |
| Traits.PlainTypeName | src/traits.rs:27 | a name without `::` is its own type name |
| Traits.QualifiedTypeName | src/traits.rs:25-28 | the type name of `path::Last` is `Last` |
| Traits.SingleItemOrWarning | src/traits.rs:8-23 | exactly one item is returned; none is `EntityNotFound("<type> not found")`, several are `MultipleEntitiesFound("More than one <type> found")` |
| Cli.ParseU16 | src/cli.rs:80-84 | a parsed port is below 65536 |
| Cli.ParseU64 | src/cli.rs:99-103 | a parsed cache time is below 2^64 |
| Cli.ParseI32 | src/cli.rs:104-108 | a parsed cache size is within the 32-bit signed range |
| Cli.ParseI32Printed | src/cli.rs:104-108 | every 32-bit signed number written in decimal, with `-` when negative, parses as that number |
| Cli.Override | src/cli.rs:80-84 | a field takes the argument's value when the argument is given and parses, and keeps its value otherwise |
| Cli.ParseProtocolOption | src/cli.rs:85-90 | a protocol argument parses exactly when `Protocol::from_str` accepts it, to the same protocol |
| Cli.AppliedServer | src/cli.rs:77-98 | hostname and username are copied as given; port, protocol and certificate check are set when they parse; the API version and password are untouched |
| Cli.AppliedCache | src/cli.rs:99-113 | each cache field is set when its argument parses |
| Cli.Applied | src/cli.rs:76-119 | server, cache and completion settings follow their arguments; the output settings are untouched |
| Cli.NoArgumentsNoChange | src/cli.rs:76-119 | with no arguments the configuration stays as loaded |
| Cli.AppliedIdempotent | src/cli.rs:76-119 | applying the same arguments twice is applying them once |
| Cli.OnlyOwnField | src/cli.rs:77-79 | a lone hostname argument changes only the hostname |
| Cli.BadPortIgnored | src/cli.rs:80-84 | a port that does not parse leaves the configuration unchanged |
| Cli.ProtocolAnyCase | src/cli.rs:85-90 | a protocol is accepted in any case and does not make the program exit |
| Cli.AppConfig.UpdateFromCli | src/cli.rs:76-119 | exit code 1 exactly when the protocol does not parse, with only hostname and port updated before it; otherwise the configuration becomes `Applied` |
| Cli.AppConfig.UpdateServer | src/cli.rs:77-98 | the server arguments in the order the function reads them |
| Cli.AppConfig.UpdateAddress | src/cli.rs:77-84 | hostname copied, port set when it parses |
| Cli.AppConfig.UpdateLogin | src/cli.rs:91-98 | certificate check set when it parses, username copied |
| Cli.AppConfig.UpdateProtocol | src/cli.rs:85-90 | the protocol is set when it parses; otherwise exit code 1 with the server unchanged |
| Cli.AppConfig.UpdateCache | src/cli.rs:99-113 | the cache becomes `AppliedCache`; nothing else changes |
| Cli.ConfigPath | src/cli.rs:72-74 | the `config` argument exactly when it is given |
| Strings.SplitJoin | src/main.rs:33 | joining the pieces of `split` with the separator gives the line back |
| Strings.SplitPiecesLackSeparator | src/main.rs:33 | no piece of `split` holds the separator |
| Strings.SplitWithout | src/main.rs:33 | a line without the separator is one piece |
| Strings.SplitAt | src/main.rs:33-42 | the first piece is the text before the first separator |
| Strings.JoinSplit | src/commands/shared/mod.rs:23 | joining pieces free of the separator and splitting again gives the pieces back |
| Strings.Trim | src/main.rs:35-42 | `trim` leaves no whitespace at either end and returns text without surrounding whitespace as it is |
| Strings.TrimIdempotent | src/main.rs:36-39 | trimming an already trimmed text changes nothing |
| Strings.Lower | src/models/internal.rs:17 | `to_lowercase` keeps the length and lower-cases each character |
| Strings.ParseUnsigned | src/cli.rs:80-84 | a parsed unsigned number is below the type's bound and its text starts with `+` or a digit |
| Strings.ParseUnsignedOfNat | src/cli.rs:80-84 | a number's decimal text parses back to it when it fits |
| Strings.ParseSigned | src/cli.rs:104-108 | a parsed signed number is within the type's range |
| Strings.ParseSignedOfNat | src/cli.rs:104-108 | a non-negative number in range, written in decimal, parses as itself |
| Strings.ParseSignedOfNegated | src/cli.rs:104-108 | `-` followed by a decimal number parses as that number's negation when it is in range |
| Strings.ParseBool | src/cli.rs:91-95 | a boolean parses from exactly `true` or `false` |

## Left out

- `shlex::split` is a parameter (`Tokenizer.Splitter`). It is not modelled, only its outcome on a line.
- The HTTP GET and the file read behind `http://`, `https://` and `file://` values are parameters (`Tokenizer.Remote`).
- Regex compilation and matching are a parameter (`Output.RegexEngine`). Regex syntax is not modelled.
- Every `hubuum_client` call is either a parameter or absent. This covers the searches, `select_by_name`, creation, deletion and grants, and with them the network-driven `execute` bodies outside the decisions modelled here.
- Output.OutputBuffer.Flush: the printed lines are the texts only; the yellow colour of warnings and the red of errors (`src/output.rs:59` and `:64`, through `colored`) are terminal styling and not modelled.
- The `Mutex`/`Lazy` wrapper of the global output buffer is not modelled. The buffer is a plain object, so lock errors do not arise.
- The `OnceLock` configuration singleton, `load_config` and the logger are not modelled. They deal with synchronisation, layered configuration sources and wall-clock timing.
- The random number generator of `generate_random_password` is a sequence of draws. The model keeps only the password's length and alphabet.
- rustyline (editor, history, hinter, highlighter, validator) and the REPL loop of `main` are not modelled. They are terminal I/O. Their steps (`process_filter`, `prompt`, `handle_command`, `find_command`, `execute_command`) are modelled.
- The table rendering of `tabled` is a parameter of `Formatting.Formatter`, and so is the JSON text of `serde_json`.
- `jqesque`, `jsonpath_rust` and `smooth_json` are not modelled. So `ObjectModify` is not modelled, and `ObjectInfo`'s data views are modelled only down to which view is chosen and how wide the keys are padded.
- `src/formatting/class.rs`, `object.rs`, `user.rs`, `group.rs` and `namespace.rs` are not part of this model. They are fixed sequences of `append_key_value` over the client's types.
- `src/commands/help.rs` is not part of this model. It prints the tree with `println!`.
- The displayed names of the client's `Permissions` are taken to be the variant names. The order of `Permissions::iter()` is taken to be the order in which the grant tests the flags. The client crate's source is not part of this model.
- Whitespace in `trim`, and case in `to_lowercase`, are ASCII only. Lengths are counted in characters, which equal bytes for ASCII text.
- The iteration order of a `HashMap` or `HashSet` is a parameter (`CommandTree.KeyOrder`, `Shared.IdOrder`). The properties hold for every order that lists each key once.
- `CommandTokenizer::new` takes one argument in the tokenizer, but `src/main.rs:111` passes it two. The model follows the tokenizer: `Shell.ExecuteCommand` tokenizes the line alone.
- `get_positionals` is called by the `*_or_pos` helpers but does not exist in the tokenizer. The positionals are an explicit sequence parameter.
- The derive macro sets an `autocomplete` field that `CliOption` in `src/commands/mod.rs` does not have. The model keeps `CliOption`'s own fields, so the completer an option names is not carried.
- The object and relation formatters pass `usize` paddings to helpers that take an `i8`. `Formatting.PadKeyValue` takes the `i8` and models its cast to `usize` (negative paddings sign-extend).
- `RelationCommands.PlanOf` assumes that the class lookups succeed. A failed `find_class_by_name` returns its error before the plan is used, and that error path is not modelled.
- The timestamps of relations are kept as text. Formatting `chrono` dates is not modelled.
- `Cli.Settings` leaves out the output format field. `update_config_from_cli` never touches it. Of clap only the resulting map from argument ids to text is kept. The message printed before `exit(1)` is not modelled, and the exit is a returned code.
- Commands.DuplicatesNeverFireOnStrippedKeys: the duplicate pass looks up the dashed aliases, as written. On the tokenizer's dash-stripped keys it therefore never fires. The model keeps that behaviour.
- NamespaceCommands.PermString: the contract states the `--all` text and the one-permission text only. For several permissions (their names joined with `, `) it states nothing.

## Findings

| source | as written | input that shows it | evidently intended | confidence | as-written member | corrected member |
|---|---|---|---|---|---|---|
| src/commands/relations.rs:449-464 | outside the class-relation branch, `RelationInfo` unwraps both object names without checking them | `relation info --class_from A --class_to B --object_from x` (no `--object_to`): `new.object_to.as_ref().unwrap()` panics | report the missing name as `MissingOptions`, as `validate_object_names` does for create and delete | not executed | RelationCommands.InfoPanicsOnOneName | RelationCommands.InfoPathChecked |
