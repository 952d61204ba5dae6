# Parsers, option scanning and object sets of C-Mix

This project models four parts of the C-Mix specializer and of its annotation browser, and proves what
they keep over whole runs.

**The LR engine.** `yyparse` comes three times, in `direc-tab.cc`, `y-tab.c` and `gram-tab.cc`, over
different packed tables. `LrTables` states the tables and a local check on them (`LrTables.Valid`): a
certificate gives each state its dotted rules, and each clause looks at one state and the states that it
moves to. `LrEngine` is yyparse as a step machine over unbounded stacks whose values are parse trees, with
default reductions, the three-token recovery protocol and the limit of 10000 states. A `Crashed` status
stands for a table access or a pop out of range. `LrSoundness` and `LrTermination` hold for all tables that
pass the check, over all inputs. `LrCompleteness` is the converse of soundness, for tables that pass a
second local check against FIRST and FOLLOW sets: what has a parse tree is accepted without an error, and
has no other tree. `LrParser` is yyparse in place, with its doubling arrays, proved equal to the step machine
step by step. `AnnoTables` and `DirecTables` carry the real tables of two of the parsers and prove that they
pass, and `AnnoLookahead` and `DirecLookahead` that they pass the second check.

**What runs on the engine.** `AnnoSpelling` defines the annotation language on token sequences, without
tables or rules: where each number and each keyword of a tree stands, and which type a tree is added to.
`AnnoSentences` proves that the parser accepts exactly what that language writes, and builds exactly what is
written. `AnnoTrees`, `AnnoParser`, `AnnoRecords`, `TypeLists` and `AnnoFiles` are the actions themselves: text
conservation, the shape of blocks, the records that hold them, and the intrusive lists of types.
`DirecRecovery` and `DirecParser` say exactly what the directive parser's `error` rule recovers from, and that
files without an error, and no others, are accepted without one; `DirecDepth` bounds its stacks. `GramGrammar` carries the rules of the C parser; `LrScopes` and `GramScopes`
follow the scopes that its mid-rule actions open and close.

**GNU getopt.** `GetoptSpec` reads an argument list once, left to right, and is the reference.
`GetoptMachine` is one call as a function of the static variables; `Getopt` is the class that performs it
on `argv` in place; `GetoptRuns` and `GetoptTheorems` connect whole runs of calls with the reference, in
all three orderings; `GetoptSpelling` compares different spellings of the same options; `GetoptRoundTrip`
spells out command lines from the text of optstring and the table of long options, and proves that they are
reported as they were spelled.
`GetoptExchange` is the in-place rotation.

**InvPset.** `Psets` holds sorted rows with the three merge loops; `InvPsets` the finite and co-finite sets
built on them, whose change flags drive the must-write analysis.

## Findings

- Taking a finite non-empty `InvPset` from itself empties it and reports "unchanged"
  (`src/analyzer/ygtree.cc:967-970`). `InvPset.Minus` states when the flag is right, both ways, and
  `InvPsets.TakeFromItself` is an instance. In all other cases the flags of `Union`, `Intersect` and `Minus`
  are exact over an unbounded universe, and `InvPsets.SameOverFinite` says what they cannot see over a
  bounded one.
- The `error` rule of the directive grammar recovers from an error inside a file exactly if the token that
  the error is met at is a semicolon, or if the input ends there: the directive is then skipped up to it.
  At any other token the parser gives up, because the skipped directive is at once taken for the end of the
  file. It also gives up at any token that follows a whole file (`DirecRecovery.ErrorSurvived`,
  `DirecRecovery.GivesUpIff`; instances `DirecParser.WrongWord`, `DirecParser.MissingSemicolon` and, on the
  other side, `DirecParser.BrokenOff`).
- The annotation grammar is ambiguous: a block of one group fits rules 18 and 19. Its tables always take rule
  19. With rule 22 barred at that one place they accept all of the language, and each file in one way
  (`AnnoLookahead.TablesComplete`, `AnnoSentences.AcceptsWritten`).
- The directive grammar recurs on the left only: its parser never holds more than 14 states, on any input, so
  it returns 0 or 1 (`DirecDepth.StackIsShallow`).
- A type with number 0 breaks the lists of types, because 0 ends them; they are right if and only if no type
  has that number (`TypeLists.ListedIffNoZero`, instance `TypeLists.ZeroHidesRoots`).
- The comment of getopt says that arguments come out permuted. Reading them again in that order gives the
  same options if and only if no option at the very end lacked its argument while operands were skipped
  (`GetoptSpelling.RereadIff`, instance `GetoptSpelling.RereadTakesOperand`).
- An option cluster may not be split at every place: splitting off its first option goes unnoticed everywhere
  if and only if that option is not `-` and what is left is neither `--` nor a long option
  (`GetoptSpelling.SplitUnseenIff`); the whole cluster falls apart unnoticed if and only if `-` is not one of
  its options (`GetoptSpelling.FallsApartIff`).

## Model

| member | source | states |
|---|---|---|
| LrEngine.Handler | src/analyzer/direc-tab.cc:1308-1350 | recovery pops to the topmost state that takes the `error` token, and -1 means that no state on the stack does |
| LrEngine.OverflowsAtDepth | src/analyzer/direc-tab.cc:663-667 | at every moment of every run, the return 2 has been taken if and only if the state stack holds 10000 entries, and it never holds more |
| LrSoundness.TopSpells | src/analyzer/direc-tab.cc:814-817 | the symbols on top of the stack are the prefix of any rule that the top state's certificate names, so a reduction pops exactly its right-hand side |
| LrSoundness.ReadKeepsInv | src/analyzer/direc-tab.cc:719-756 | reading a lookahead keeps stack contents, lookahead and unread tokens together equal to the input |
| LrSoundness.ShiftKeepsInv | src/analyzer/direc-tab.cc:784-804 | a shift keeps the run invariant, including the accounts of errors against shifted tokens |
| LrSoundness.ReduceKeepsInv | src/analyzer/direc-tab.cc:1171-1220 | a reduction keeps the run invariant: the new tree is one that the automaton can build there |
| LrSoundness.RecoverKeepsInv | src/analyzer/direc-tab.cc:1274-1363 | recovery keeps the run invariant: the `error` leaf stands for the popped symbols and the discarded lookahead, one contiguous segment of input |
| LrSoundness.StepKeepsInv | src/analyzer/direc-tab.cc:710-804 | every step, whatever it does, keeps the run invariant |
| LrSoundness.RunSound | src/analyzer/direc-tab.cc:603-811 | over every run on checked tables: no access out of range, every stack entry built as the automaton allows, token leaves and skipped segments in stack order are exactly the input consumed |
| LrSoundness.NeverCrashes | src/analyzer/direc-tab.cc:758-762 | no run on checked tables uses a table index or pops a stack out of range |
| LrSoundness.StepChooses | src/analyzer/direc-tab.cc:710-782 | in every reachable configuration the action is chosen from a state and looks at a lookahead unless it reduces by default |
| LrSoundness.AcceptShape | src/analyzer/direc-tab.cc:781-782 | acceptance happens only with exactly the start symbol and the end of input on the stack |
| LrSoundness.AcceptSound | src/analyzer/direc-tab.cc:781-782 | an accepted input is the yield of a derivation of the start symbol, error-free if no error was reported, and then the rules reduced by are its postorder |
| LrSoundness.ErrorAccounting | src/analyzer/direc-tab.cc:1224-1295 | 3*(yynerrs-1) is at most the tokens shifted, and every entry to the handler but the first is paid for by a shifted or discarded token unless it ends the run |
| LrSoundness.NoRecovery | src/analyzer/direc-tab.cc:1328-1336 | where no state takes the `error` token, a run with an error cannot go on or be accepted |
| LrSoundness.BuiltIsDerivation | src/analyzer/direc-tab.cc:814-817 | everything on the stack is a derivation in the grammar of yyr1 and yyrhs |
| LrTermination.SizeBound | src/analyzer/direc-tab.cc:813-817 | a tree has no more reductions than its symbols' weights pay for |
| LrTermination.StepFuel | src/analyzer/direc-tab.cc:1276-1290 | every step, recovery included, uses up some of a bounded supply |
| LrTermination.Terminates | src/analyzer/direc-tab.cc:701-1363 | yyparse returns on every input within a stated number of steps, for all checked tables whose grammar has no idle reductions |
| LrTermination.RunStays | src/analyzer/direc-tab.cc:781-782 | a run that has returned stays as it is, so its last configuration is well defined |
| LrTermination.RunCountsTokens | src/analyzer/direc-tab.cc:1289-1289 | over every run, the tokens shifted, discarded and still ahead are the tokens of the input, and one more once the end of input is shifted |
| LrTermination.ErrorsBounded | src/analyzer/direc-tab.cc:1224-1295 | an input of n tokens is blamed for at most 1 + (n + 1) / 3 syntax errors, and enters the error handler at most n + 3 times |
| LrCompleteness.StartsWith | src/analyzer/direc-tab.cc:176-203 | the first token of a tree is in FIRST of its root, and a tree of no tokens has a root that may stand for nothing |
| LrCompleteness.Following | src/analyzer/direc-tab.cc:176-203 | the token ahead of a symbol inside a rule is in FOLLOW of the symbol |
| LrCompleteness.ReadyChooses | src/analyzer/direc-tab.cc:710-771 | the action depends on the top state and the token ahead alone, whether that token has been read or not |
| LrCompleteness.StepShifts | src/analyzer/direc-tab.cc:784-804 | a shift leads past one token, or to a full stack |
| LrCompleteness.StepReduces | src/analyzer/direc-tab.cc:1171-1220 | a reduction puts one node over the trees on top and reads nothing, or leads to a full stack |
| LrCompleteness.ParseTree | src/analyzer/direc-tab.cc:710-804 | wherever its root is wanted, the parser reads exactly the tokens of a parse tree and leaves exactly that tree on the stack, or runs out of stack exactly if the tree is too high |
| LrCompleteness.SentenceAccepted | src/analyzer/direc-tab.cc:619-811 | for any tables that pass both checks: every sentence of the grammar of yyr1 and yyrhs is accepted without an error, with its parse tree as the result and its rules in postorder, if the stacks have room for that tree, and otherwise 2 is returned |
| LrCompleteness.OneTree | src/analyzer/direc-tab.cc:176-203 | the grammars are unambiguous: sentences spelled alike have one parse tree |
| LrCompleteness.BuiltIsPermitted | src/analyzer/direc-tab.cc:256-338 | the automaton builds no tree in which a rule stands where it is barred |
| LrCompleteness.AcceptsExactly | src/analyzer/direc-tab.cc:619-811 | an input is accepted without an error if and only if it has a parse tree that the stacks have room for; that is the tree built, and there is no other |
| LrParser.CopyElements | src/analyzer/direc-tab.cc:517-533 | copying preserves the first elements of a stack |
| LrParser.Parser.constructor | src/analyzer/direc-tab.cc:581-624 | the state stack starts one below the value stack, state 0 is pushed, and the arrays stand for the initial configuration |
| LrParser.Parser.NewState | src/analyzer/direc-tab.cc:622-694 | entered with the value stack one ahead, left with both stacks level, contents kept and room for the next push; 2 is returned exactly with 10000 states, and the check after growth never aborts |
| LrParser.Parser.Grow | src/analyzer/direc-tab.cc:668-685 | both stacks double, up to the limit and no further, and keep their contents, and both pointers set anew are where they were |
| LrParser.Parser.PushBoth | src/analyzer/direc-tab.cc:795-804 | the value pointer moves first and the state pointer follows: together a push on the unbounded stack |
| LrParser.Parser.Shift | src/analyzer/direc-tab.cc:784-804 | the in-place shift is the shift of the step machine |
| LrParser.Parser.Pop | src/analyzer/direc-tab.cc:1171-1172 | the two pointers are lowered one after the other and the stacks are level again |
| LrParser.Parser.Reduce | src/analyzer/direc-tab.cc:1171-1220 | the in-place reduction is that of the step machine |
| LrParser.Parser.PopToHandler | src/analyzer/direc-tab.cc:1308-1347 | the popping loop ends at the state that Handler names, or at the bottom |
| LrParser.Parser.ReportError | src/analyzer/direc-tab.cc:1222-1297 | counts, and discards a lookahead that could not be reused; at end of input gives up |
| LrParser.Parser.ShiftError | src/analyzer/direc-tab.cc:1308-1363 | pops to the handler and shifts the `error` token there, or gives up at the bottom |
| LrParser.Parser.RecoverFromError | src/analyzer/direc-tab.cc:1274-1363 | the in-place recovery is that of the step machine |
| LrParser.Parser.Execute | src/analyzer/direc-tab.cc:771-804 | each action in place is that of the step machine |
| LrParser.Parser.ChooseAction | src/analyzer/direc-tab.cc:710-782 | the table lookups in place choose what the step machine chooses, which LrCompleteness.ReadyChooses, LrCompleteness.SentenceAccepted and LrSoundness.RunSound pin from both sides |
| LrParser.Parser.Advance | src/analyzer/direc-tab.cc:622-811 | one turn of the loop is one step of the machine, with all indices in range |
| LrParser.Parser.Parse | src/analyzer/direc-tab.cc:619-1364 | yyparse always returns, leaves the last configuration of the run, returns 0, 1 or 2 for its status, 2 exactly with 10000 states, and 0 only with a sound parse |
| AnnoTables.TablesValid | src/cmixshow/y-tab.c:159-228 | the annotation parser's tables pass the local check |
| AnnoTables.TablesWeighted | src/cmixshow/y-tab.c:159-171 | its grammar has no idle reductions |
| AnnoLookahead.TablesComplete | src/cmixshow/y-tab.c:159-228 | they pass the check for completeness, with rule 22 barred where a lone group fits rule 19 |
| DirecTables.TablesValid | src/analyzer/direc-tab.cc:234-338 | the directive parser's tables, with their `error` rule, pass the local check |
| DirecTables.TablesWeighted | src/analyzer/direc-tab.cc:234-254 | its grammar has no idle reductions |
| DirecLookahead.TablesComplete | src/analyzer/direc-tab.cc:234-338 | they pass the check for completeness, with nothing barred |
| DirecDepth.StackIsShallow | src/analyzer/direc-tab.cc:603-667 | on any input, with or without errors, the state stack never holds more than 14 states: it never overflows |
| DirecRecovery.StackLinked | src/analyzer/direc-tab.cc:256-338 | on every stack, each state can be entered from the one below it on the symbol between them |
| DirecRecovery.NotOuterBelow | src/analyzer/direc-tab.cc:256-338 | with an error on top, no state on the stack stands between directives |
| DirecRecovery.HandlerIs | src/analyzer/direc-tab.cc:1308-1347 | inside a file, recovery always finds a handler: the start of the file or the last semicolon |
| DirecRecovery.InnerTree | src/analyzer/direc-tab.cc:176-203 | no part of a directive has a semicolon or skipped input in it |
| DirecRecovery.PoppedInner | src/analyzer/direc-tab.cc:1308-1312 | what recovery throws away inside a file has no semicolon |
| DirecRecovery.RunSkipsWell | src/analyzer/direc-tab.cc:1274-1363 | over every run, no skipped segment has a semicolon, and recovery ends before another error can be met inside a file |
| DirecRecovery.ErrorSurvived | src/analyzer/direc-tab.cc:1222-1363 | from any error inside a file: at a semicolon the parser stands ready for the next directive after five steps, at the end of input it accepts after seven, at any other token it gives up after six |
| DirecRecovery.AbortsWhen | src/analyzer/direc-tab.cc:1276-1312 | a step gives up if and only if a token follows a whole file |
| DirecRecovery.GivesUpIff | src/analyzer/direc-tab.cc:1276-1312 | a run gives up if and only if it meets an error at a token other than a semicolon inside a file, or at any token after a whole file |
| DirecParser.PiecesApart | src/analyzer/direc-tab.cc:176-203 | a semicolon separates the pieces before it from those after it |
| DirecParser.SpecificationPieces | src/analyzer/direc-tab.cc:176-203 | the directives of a specification are, one for one, the pieces of its tokens between semicolons; each piece is empty, an error-free directive, or skipped as a whole |
| DirecParser.AcceptedFile | src/analyzer/direc-tab.cc:781-782 | an accepted input is a file in that sense: every skipped segment ends at a semicolon or at the end, and none is skipped if no error was reported |
| DirecParser.AbortedRun | src/analyzer/direc-tab.cc:1276-1312 | when a run has given up, a whole file is a proper prefix of the input |
| DirecParser.SpecificationOf | src/analyzer/direc-tab.cc:176-203 | tokens whose pieces between semicolons are all empty or directives have a parse tree as a specification |
| DirecParser.DerivedIsGood | src/analyzer/direc-tab.cc:176-203 | conversely, what has a parse tree as a file consists of such pieces, or is one annotation |
| DirecParser.GoodFileAccepted | src/analyzer/direc-tab.cc:771-782 | every file whose pieces are all empty or error-free directives, the empty file included, and every single annotation, is accepted and no error reported |
| DirecParser.AcceptsGoodFiles | src/analyzer/direc-tab.cc:771-782 | and nothing else is accepted without an error |
| DirecParser.WrongWord | src/analyzer/direc-tab.cc:256-338 | `lift long` followed by neither `double` nor a semicolon makes the parser give up |
| DirecParser.MissingSemicolon | src/analyzer/direc-tab.cc:256-338 | so does `lift long double` followed by a token other than a semicolon |
| DirecParser.BrokenOff | src/analyzer/direc-tab.cc:256-338 | but after `lift long ;` the parser goes on with the next directive |
| DirecParser.ParseDirectives | src/analyzer/direc-tab.cc:556-1364 | the directive parser in place: it returns 0 or 1; 0 with no error counted if and only if the input is a file without an error; 0 with a file; 1 if and only if an error was met that is not survived, and then with a whole file as a proper prefix; a bound on the error count in the number of tokens |
| AnnoTrees.ActionKeepsText | src/cmixshow/y-tab.c:798-954 | each action's tree shows exactly what its children show, in order: nothing lost, doubled or moved |
| AnnoTrees.TextConserved | src/cmixshow/y-tab.c:782-954 | flattening the tree of any tree, block, group, text, label, link or separator symbol gives exactly the non-empty STRING tokens that it was parsed from, in input order |
| AnnoSpelling.ActionWrites | src/cmixshow/y-tab.c:798-954 | each action builds what the tokens of its rule write: label and link numbers, text types, block type and indentation, separator tag, spaces and offset, each from the token where it stands |
| AnnoSpelling.TreeWritten | src/cmixshow/y-tab.c:782-954 | the tokens of every parse tree write its value, in a language defined on tokens alone |
| AnnoSpelling.OutputWritten | src/cmixshow/y-tab.c:773-780 | the trees of an output are added to the type whose number follows its `#` |
| AnnoSpelling.OutputsWritten | src/cmixshow/y-tab.c:759-780 | the calls of an output section are those that its tokens write: each tree once, in order, and in the type last turned to |
| AnnoParser.AfterBrace | src/cmixshow/y-tab.c:173-228 | with the actual tables, a lone group after an opening brace is never taken for a list of groups |
| AnnoParser.BlocklistLong | src/cmixshow/y-tab.c:798-807 | the list of a braced block that becomes a TREE_LIST starts with a group and a separator |
| AnnoParser.ActionKeepsShape | src/cmixshow/y-tab.c:798-843 | each action builds well-shaped trees from well-shaped ones |
| AnnoParser.TreesShaped | src/cmixshow/y-tab.c:798-901 | every TREE_LIST ever built has at least two elements, its chain ends, and exactly its last element has SEP_NEVER |
| AnnoParser.CallsKeepText | src/cmixshow/y-tab.c:759-780 | the trees handed to AddAnnoTree for an output section hold all its text, in order |
| AnnoParser.AcceptedFile | src/cmixshow/y-tab.c:447-1152 | every accepted input is a file: its output section writes the calls that are made, their text is all its text in order, and their blocks have proper shape |
| AnnoRecords.MakeSeparator | src/cmixshow/y-tab.c:873-901 | a fresh element with the separator's kind and sizes |
| AnnoRecords.MakeText | src/cmixshow/y-tab.c:903-911 | a fresh record that holds a text |
| AnnoRecords.MakeConcat | src/cmixshow/y-tab.c:863-871 | a fresh record over two trees, which stay as they are |
| AnnoRecords.MakeLabel | src/cmixshow/y-tab.c:917-925 | a fresh label record over a tree |
| AnnoRecords.MakeLink | src/cmixshow/y-tab.c:931-940 | a fresh link record over a tree |
| AnnoRecords.MakeBlock | src/cmixshow/y-tab.c:798-807 | a fresh list record over a chain of elements |
| AnnoRecords.MakeLast | src/cmixshow/y-tab.c:824-834 | a fresh last element, with SEP_NEVER and NULL after it |
| AnnoRecords.CompleteElement | src/cmixshow/y-tab.c:836-843 | filling the separator's own element in place puts it at the head of the chain and disturbs no other record |
| AnnoRecords.TreeStays | src/cmixshow/y-tab.c:863-871 | records that are not assigned to go on holding their trees when more are allocated |
| AnnoRecords.BuildTree | src/cmixshow/y-tab.c:782-954 | the actions below a symbol, performed on records, hold the tree that the value model gives, which is the one that the tokens write (AnnoSpelling.TreeWritten), and change nothing built before |
| AnnoRecords.BuildList | src/cmixshow/y-tab.c:824-843 | the same for chains of elements |
| AnnoSentences.DefinitionsSpelled | src/cmixshow/y-tab.c:732-754 | the types defined are those that the introduction's tokens spell, six tokens for each, once and in order |
| AnnoSentences.FileWritten | src/cmixshow/y-tab.c:447-954 | the tokens of a file's parse tree write its definitions and its calls, with the attributes between them |
| AnnoSentences.TreeMade | src/cmixshow/y-tab.c:782-954 | whatever tokens write a tree have a parse tree with that value |
| AnnoSentences.FileMade | src/cmixshow/y-tab.c:732-954 | whatever tokens write a file have a parse tree with those definitions and calls |
| AnnoSentences.AcceptsWritten | src/cmixshow/y-tab.c:447-1152 | an input that writes a file is accepted unless the stacks overflow; an accepted input writes the definitions and calls that are made, and no others |
| AnnoFiles.BuildOutputs | src/cmixshow/y-tab.c:759-780 | the records handed to AddAnnoTree hold the types and trees of the calls, in order, which are those that the tokens write (AnnoSpelling.OutputsWritten) |
| AnnoFiles.BuildFile | src/cmixshow/y-tab.c:736-780 | all actions of a file: it survives exactly if no type is defined twice, and then types and outputs are as described |
| AnnoFiles.ReadAnnotations | src/cmixshow/y-tab.c:447-1152 | the annotation parser in place: if the input writes definitions and calls, and the stacks do not overflow, the program survives if and only if no type is defined twice, and those definitions and calls are made, types and trees being as written; any other input ends it |
| TypeLists.OnOneList | src/cmixshow/y-tab.c:744-751 | every defined type is on exactly one list, its parent's or the root list, exactly once |
| TypeLists.LaterFirst | src/cmixshow/y-tab.c:745-751 | of two children of a parent, the later definition stands further to the front |
| TypeLists.JoinedRepresents | src/cmixshow/y-tab.c:744-752 | a definition keeps all lists right, also when its parent is defined later |
| TypeLists.SurvivesIfDistinct | src/cmixshow/y-tab.c:738-742 | the program survives a sequence of definitions if and only if no number is defined twice |
| TypeLists.ListedIffNoZero | src/cmixshow/y-tab.c:736-753 | after any definitions with distinct numbers, the root list and every child list, followed through the records, are finite and list exactly their definitions, last first, if and only if 0 is not defined |
| TypeLists.ZeroHidesRoots | src/cmixshow/y-tab.c:744-747 | an instance: once type 0 is a root, the root list looks empty |
| TypeLists.TypeTable.Record | src/cmixshow/annohash.c:16-43 | asking for a record makes it if needed, in a table that grows to the length of the source if it is too short, keeps all other records, and changes no link |
| TypeLists.TypeTable.Grow | src/cmixshow/annohash.c:17-29 | the longer table holds the same records |
| TypeLists.TypeTable.Make | src/cmixshow/annohash.c:30-41 | a new record is as good as none |
| TypeLists.TypeTable.Link | src/cmixshow/y-tab.c:742-750 | sets the links of one type only |
| TypeLists.TypeTable.Adopt | src/cmixshow/y-tab.c:751-751 | sets the first child of one type only |
| TypeLists.TypeTable.LinkChild | src/cmixshow/y-tab.c:748-752 | puts a type at the front of its parent's children |
| TypeLists.TypeTable.Define | src/cmixshow/y-tab.c:736-753 | a definition in place: refuses a second one, else joins the type to its list |
| TypeLists.TypeTable.DefineAll | src/cmixshow/y-tab.c:736-753 | any sequence of definitions in place: survives if and only if distinct, and lists them right if and only if 0 is not among them |
| TypeLists.TypeTable.Visit | src/cmixshow/annocut.c:100-106 | a loop over a list ends and sees its members in order |
| LrScopes.TreePlays | src/analyzer/gram-tab.cc:2117-2147 | all scope actions below a symbol together do what the symbol stands for |
| LrScopes.StackOpens | src/analyzer/gram-tab.cc:2390-2402 | the symbols on a stack never close a scope that is not the innermost open one |
| LrScopes.ScopesFollowStack | src/analyzer/gram-tab.cc:2390-2402 | at every step without a syntax error, no action has closed a scope that was not open and innermost, and the open scopes are, in order, those of the markers on the stack |
| LrScopes.AcceptedScopesClosed | src/analyzer/gram-tab.cc:2642-2649 | an accepted input leaves no scope open |
| GramScopes.GrammarHasRules | src/analyzer/gram-tab.cc:215-496 | the rules of yyr1 and yyrhs: where the scope markers stand, and that they stand nowhere else |
| GramScopes.RuleIsBalanced | src/analyzer/gram-tab.cc:2546-2577 | every rule of the C grammar opens and closes scopes in pairs, function bodies included |
| GramScopes.BodiesCloseInPlace | src/analyzer/gram-tab.cc:2554-2577 | a function body closes the scope that the marker just before it opened |
| GramScopes.Scope.constructor | src/analyzer/symboltable.h:137-144 | one scope is open, the global one |
| GramScopes.Scope.EnterScope | src/analyzer/symboltable.h:165-185 | one more table, in an array that doubles if it is full and keeps the tables of the open scopes |
| GramScopes.Scope.LeaveScope | src/analyzer/symboltable.h:187-194 | drops the innermost table, which is there whenever the scope is not the outermost |
| GramScopes.ScopeTables.Enter | src/analyzer/gram.cc:414-422 | enters a scope in all tables of a kind |
| GramScopes.ScopeTables.Leave | src/analyzer/gram.cc:424-434 | leaves the innermost scope in all tables of its kind; the assertion on the depth then holds |
| GramScopes.ScopeTables.Act | src/analyzer/gram-tab.cc:2117-2147 | the scope part of a rule's action |
| GramScopes.ActionsSafe | src/analyzer/gram-tab.cc:2117-2147 | no action of any parse, with or without a syntax error at its end, leaves a scope that is not open and innermost |
| GramScopes.DepthFollowsStack | src/analyzer/gram-tab.cc:2117-2147 | at every step before an error, as many scopes of each kind are open as the symbol numbers on the stack say |
| GramScopes.BodyAboveMarker | src/analyzer/gram-tab.cc:2554-2577 | on a stack, a function body stands right above its own marker, one of 189-193 |
| GramScopes.ScopeOfItsOwn | src/analyzer/gram-tab.cc:2390-2402 | as long as a marker of a compound statement, a function or a parameter list is on the stack, more name scopes are open than below it |
| GramScopes.CompoundHasScope | src/analyzer/gram-tab.cc:2390-2402 | in every parse, an unfinished compound statement has an open name scope of its own |
| GramScopes.AcceptedInGlobalScope | src/analyzer/gram-tab.cc:2704-2711 | every accepted C file ends in the global scope |
| GramScopes.ScopeTables.Replay | src/analyzer/gram-tab.cc:2704-2711 | the actions of a parse on the symbol tables: no assertion fails; until the parser gives up, the depth of names is the number of markers 171, 187, 189-193, 206 and 211 on the parse stack less the function bodies 194, and that of members the number of 145 and 146; an accepted file ends at depth zero |
| GetoptExchange.GcdIsGreatest | src/analyzer/getopt.c:309-312 | the number in the swap count is the greatest common divisor |
| GetoptExchange.BottomRound | src/analyzer/getopt.c:316-331 | moving the short bottom segment leaves a smaller instance of the same rotation |
| GetoptExchange.TopRound | src/analyzer/getopt.c:332-347 | moving the short top segment leaves a smaller instance of the same rotation |
| GetoptExchange.SwapBlocks | src/analyzer/getopt.c:322-328 | the inner loop exchanges two blocks and touches nothing else |
| GetoptExchange.Round | src/analyzer/getopt.c:314-348 | one round keeps the goal and the greatest common divisor, and its swaps are what it settles |
| GetoptExchange.Exchange | src/analyzer/getopt.c:300-348 | the segments end up swapped and all else untouched, after exactly total length minus greatest common divisor element swaps |
| GetoptSpec.ResolveMeans | src/analyzer/getopt.c:607-648 | for any table: the first exact match if there is one, else the only entry that the name abbreviates; ambiguous if and only if no exact match and two abbreviated; not found if and only if none |
| GetoptSpec.FirstExact | src/analyzer/getopt.c:612-622 | the first entry with exactly that name |
| GetoptSpec.FirstPrefixed | src/analyzer/getopt.c:612-629 | the first entry that the name abbreviates |
| GetoptSpec.NameLength | src/analyzer/getopt.c:607-608 | the name ends at the first `=` or at the end |
| GetoptRuns.GatherLayout | src/analyzer/getopt.c:516-522 | gathering puts all options found before all operands skipped and moves nothing at or beyond optind |
| GetoptRuns.PermuteLayout | src/analyzer/getopt.c:514-530 | the PERMUTE step keeps that order, skips exactly the operands in front, and moves nothing at or beyond optind |
| GetoptRuns.DashesLayout | src/analyzer/getopt.c:537-548 | `--` goes between the options and the operands |
| GetoptRuns.CallOk | src/analyzer/getopt.c:503-578 | every call keeps 1 <= first <= last <= optind <= argc, and unless it returns -1 it strictly decreases the unread input |
| GetoptRuns.RunEnds | src/analyzer/getopt.c:553-560 | at most one result per unread character or element end |
| GetoptRuns.ClusterRun | src/analyzer/getopt.c:729-735 | successive calls decode exactly the characters left in a cluster |
| GetoptRuns.ElementRun | src/analyzer/getopt.c:576-577 | the calls that an option element takes report what the reference reads from it, with the arguments it takes |
| GetoptRuns.PermuteRun | src/analyzer/getopt.c:514-560 | from any state between elements, a PERMUTE run reports the options of the rest and ends with the stable partition |
| GetoptRuns.InOrderRun | src/analyzer/getopt.c:565-571 | a RETURN_IN_ORDER run reports everything in order and leaves argv alone |
| GetoptRuns.RequireOrderRun | src/analyzer/getopt.c:565-568 | a REQUIRE_ORDER run stops at the first operand and leaves argv alone |
| GetoptTheorems.PermuteSorts | src/analyzer/getopt.c:430-433 | when -1 is first returned in PERMUTE order, argv[0] is fixed, then come options with their arguments, `--` if any, operands, what followed `--`, each in original order, and optind is the first of those left to the caller; nothing is lost or invented |
| GetoptTheorems.OrderingsAgree | src/analyzer/getopt.c:514-571 | PERMUTE reports the options of RETURN_IN_ORDER, REQUIRE_ORDER a prefix of both, and the latter two never change argv |
| GetoptTheorems.OrderingsStop | src/analyzer/getopt.c:553-568 | where optind points when the other two orderings end |
| GetoptTheorems.CallsBounded | src/analyzer/getopt.c:503-578 | at most the sum of (element length + 1) results before the first -1, in every ordering |
| GetoptTheorems.EventsDecideResults | src/analyzer/getopt.c:565-571 | equal readings give equal results in every ordering |
| GetoptTheorems.NeverMinusOne | src/analyzer/getopt.c:559-568 | -1 means the end and nothing else, if no long option uses -1 as its value |
| GetoptTheorems.CollectAll | src/analyzer/getopt.c:430-433 | a caller that loops until -1 collects exactly the results of the run |
| GetoptSpelling.ScanJoins | src/analyzer/getopt.c:503-578 | reading a list is reading its front and then its rest, if the front does not end in an option that still needs an argument |
| GetoptSpelling.ClusterSplits | src/analyzer/getopt.c:729-735 | splitting an option without argument off a cluster leaves the reading of the whole list unchanged |
| GetoptSpelling.ClusterSplitsRunAlike | src/analyzer/getopt.c:729-735 | and the results of whole runs, in every ordering |
| GetoptSpelling.OtherSplitsDiffer | src/analyzer/getopt.c:729-735 | every other split of an option without argument changes what is reported, at a '-' too |
| GetoptSpelling.SplitUnseenIff | src/analyzer/getopt.c:729-735 | a split goes unnoticed wherever the cluster stands, if and only if the option split off is not `-` and what is left is neither `--` nor a long option |
| GetoptSpelling.OtherSplitsRunUnlike | src/analyzer/getopt.c:729-735 | the other splits change the results of whole runs, in every ordering |
| GetoptSpelling.ClusterFallsApart | src/analyzer/getopt.c:729-735 | a cluster of options without argument reads like one element for each, if '-' is not among them |
| GetoptSpelling.FallsApartIff | src/analyzer/getopt.c:729-735 | wherever it stands, if and only if '-' is not among them |
| GetoptSpelling.ClusterApartRunsAlike | src/analyzer/getopt.c:729-735 | and the results of whole runs are the same, in every ordering |
| GetoptSpelling.ShortArgumentDetaches | src/analyzer/getopt.c:890-920 | detaching a non-empty argument of a short option that requires one leaves the reading unchanged |
| GetoptSpelling.DetachingRunsAlike | src/analyzer/getopt.c:890-920 | and the results of whole runs, in every ordering |
| GetoptSpelling.LongArgumentDetaches | src/analyzer/getopt.c:650-690 | the same for `--name=arg`, empty arguments included |
| GetoptSpelling.LongDetachingRunsAlike | src/analyzer/getopt.c:650-690 | and the results of whole runs, in every ordering |
| GetoptSpelling.PermutedReread | src/analyzer/getopt.c:108-120 | the permuted list reads as the same options followed by the same operands |
| GetoptSpelling.RereadIff | src/analyzer/getopt.c:108-120 | exactly when it does |
| GetoptSpelling.RereadTakesOperand | src/analyzer/getopt.c:900-914 | an instance in which it does not: `f -o` |
| GetoptRoundTrip.ShortScans | src/analyzer/getopt.c:729-923 | a cluster of options as optstring declares them, the last one with an argument in the same element or in the next where one or two colons allow it, is reported as those characters and that argument; a character not in optstring as '?' with itself in optopt |
| GetoptRoundTrip.LongScans | src/analyzer/getopt.c:595-725 | a long option, by its name or an abbreviation of it alone, is reported with its index as its value, or as 0 with the value stored through its flag, with its argument after `=` or in the next element; one that does not exist or is ambiguous as '?' with optopt 0; an argument not taken as '?' with the value in optopt |
| GetoptRoundTrip.LackingEnd | src/analyzer/getopt.c:671-690 | an option at the end that lacks its argument is reported as ':' if optstring starts with one, else as '?', with the option in optopt |
| GetoptRoundTrip.ReadsAsSpelled | src/analyzer/getopt.c:503-924 | a command line spelled out of any options and operands, with any end, reads as those options, arguments and operands, each once and in order |
| GetoptRoundTrip.RoundTrip | src/analyzer/getopt.c:503-924 | so the calls of getopt report just those, in each of the three orderings, and in PERMUTE argv ends with the options in front |
| GetoptRoundTrip.RoundTripHeard | src/analyzer/getopt.c:430-433 | and a caller hears their characters or values with their arguments, and 1 with each operand |
| Getopt.MyIndex | src/analyzer/getopt.c:225-237 | the first place of a character, or the end |
| Getopt.NameEnd | src/analyzer/getopt.c:607-608 | the loop finds the end of the name |
| Getopt.FindLong | src/analyzer/getopt.c:610-644 | the matching loop resolves a name as the table as a whole says |
| Getopt.Getopt.constructor | src/analyzer/getopt.c:361-392 | the static variables before the first call |
| Getopt.Getopt.ExchangeSegments | src/analyzer/getopt.c:300-354 | rotates in place and relocates first_nonopt and last_nonopt |
| Getopt.Getopt.PermuteOperands | src/analyzer/getopt.c:514-530 | the PERMUTE step in place |
| Getopt.Getopt.TakeDashes | src/analyzer/getopt.c:537-548 | `--` in place |
| Getopt.Getopt.ArrangeArguments | src/analyzer/getopt.c:505-548 | the whole advance step in place, also after the caller moved optind back |
| Getopt.Getopt.Deliver | src/analyzer/getopt.c:691-699 | optarg, optopt, *longind and *flag get exactly the reported values |
| Getopt.Getopt.DecodeLongOption | src/analyzer/getopt.c:595-725 | decodes a long element: result, argument, indices |
| Getopt.Getopt.DecodeShortOption | src/analyzer/getopt.c:729-923 | decodes one short option: result, argument, rest of the cluster, as GetoptRoundTrip.ShortScans says of the text of optstring |
| Getopt.Getopt.DecodeOption | src/analyzer/getopt.c:580-923 | decodes the current element in place |
| Getopt.Getopt.LookAtElement | src/analyzer/getopt.c:553-578 | the end, an operand, or the next option element |
| Getopt.Getopt.Next | src/analyzer/getopt.c:473-924 | one call in place: state, argv, return value and all values passed on are those of the model |
| Psets.Pset.LowerBound | src/analyzer/ygtree.cc:848-862 | the place where an object is or would be |
| Psets.Pset.Insert | src/analyzer/ygtree.cc:857-869 | adds an object and tells whether it was there |
| Psets.Pset.Contains | src/analyzer/ygtree.cc:871-879 | finds an object |
| Psets.Pset.Erase | src/analyzer/ygtree.cc:881-889 | removes an object that must be there |
| Psets.SecondBrings | src/analyzer/ygtree.cc:907-912 | inserting the front of the other row keeps the merge invariant |
| Psets.Drops | src/analyzer/ygtree.cc:940-943 | erasing keeps the invariant of the two filtering merges |
| Psets.FilterEnds | src/analyzer/ygtree.cc:947-954 | where a filtering merge is through, the row is the intersection or the difference, and the flag is right |
| Psets.Pset.Union | src/analyzer/ygtree.cc:891-923 | the merge loop computes the union; true if and only if nothing new came |
| Psets.Pset.Intersect | src/analyzer/ygtree.cc:925-955 | the merge loop computes the intersection; true if and only if nothing went |
| Psets.Pset.Minus | src/analyzer/ygtree.cc:957-990 | the merge loop computes the difference; true if nothing went, and always for a set and itself |
| InvPsets.InvPset.Insert | src/analyzer/InvPset.h:21-33 | adds an object to a finite or co-finite set and tells whether it was a member |
| InvPsets.InvPset.Erase | src/analyzer/InvPset.h:34-41 | removes an object, which a finite set must have |
| InvPsets.InvPset.Clear | src/analyzer/InvPset.h:42-45 | the empty set |
| InvPsets.InvPset.Fill | src/analyzer/InvPset.h:46-49 | the set of all objects |
| InvPsets.InvPset.Union | src/analyzer/InvPset.h:51-78 | denotes the union in all four cases, also with itself; true if and only if the denotation is unchanged |
| InvPsets.InvPset.Intersect | src/analyzer/InvPset.h:79-105 | denotes the intersection in all four cases; true if and only if unchanged |
| InvPsets.InvPset.Minus | src/analyzer/InvPset.h:106-131 | denotes the difference in all four cases, also with itself; the flag is right if and only if it is not a non-empty finite set taken from itself |
| InvPsets.InvPset.Rebuild | src/analyzer/InvPset.h:60-71 | rebuilding through a saved copy is right even when both sets are one object |
| InvPsets.InvPset.Empty | src/analyzer/InvPset.h:134-134 | true if and only if nothing is a member |
| InvPsets.InvPset.Full | src/analyzer/InvPset.h:135-135 | true if and only if everything is a member |
| InvPsets.SameMeaning | src/analyzer/InvPset.h:11-16 | equal sets have equal fields: the representation is canonical |
| InvPsets.TakeFromItself | src/analyzer/ygtree.cc:967-970 | an instance of the flag being wrong |
| InvPsets.IntersectionNarrows | src/analyzer/InvPset.h:79-105 | an intersection that changes a set uses up room |
| InvPsets.DescentEnds | src/analyzer/InvPset.h:46-49 | from the full set, intersections with sets that speak of the objects of D only change it at most \|D\|+1 times |
| InvPsets.BoundIsReached | src/analyzer/InvPset.h:79-105 | and for every D some do so exactly that often |
| InvPsets.SameOverFinite | src/analyzer/InvPset.h:66-69 | over a bounded universe, different fields have the same members if and only if one is the other's complement written out |

## Left out

- Token renumbering: YYTRANSLATE is applied before the model starts, so an input is a sequence of internal symbol numbers; a code outside its table is one past the last symbol, as in the source.
- The message text of syntax errors, with its list of expected tokens, and all tracing: yyerror is a counter; where it is `die`, the run ends at the first error.
- The converse of LR soundness for the C parser, whose states are a hypothesis.
- GramScopes.BodiesCloseInPlace: that a function body is wanted only behind a marker is a hypothesis on the states of `gram-tab.cc`; so is that its 506 states pass the local check and that none takes the `error` token (`GramScopes.GramTables`). Its rules are not hypotheses.
- The other actions of the C parser and of the directive parser: declarations, types, directives.
- AddAnnoTree's list of trees per type, and the labels and links that it counts.
- Freeing memory, and failing to allocate it: action 37 frees a separator's element, which here is just not used.
- AnnoRecords.BuildTree: like AnnoRecords.BuildList and AnnoFiles.BuildFile, the actions below a symbol run on a finished parse tree, in the order in which the parser reduces; they are not interleaved with parsing. Whether the program survives does not depend on that.
- AnnoTrees.TextConserved: an empty STRING token and an omitted group make the same record, so empty texts are not told apart.
- The names of types and the layout fields of AnnoTree; also `Attribute`, which action 37 clears.
- Integer widths: type numbers, indentations and sizes are unbounded, so neither their conversion to `int` nor overflow in the growth of the table of types is modelled.
- Reading and re-reading files, and the clock that triggers it.
- The ordering prefix of optstring and POSIXLY_CORRECT: the ordering is given.
- `W;` in optstring, `long_only`, and the Bash argument flags under `_LIBC`; error messages of getopt.
- NUL characters: C strings are sequences without them.
- Psets.Pset.Union: the balanced tree behind a Pset is a sorted row here, so its rotations and iterators are not modelled, nor two objects with equal numbers.
- GetoptTheorems.CollectAll: a long option with value -1 and no flag makes the loop end early, as in the source, and is excluded.
