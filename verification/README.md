# Caster in Dafny

A model of the Caster compiler and of the C runtime it emits, with proofs about it. Caster is a
small typed language; its compiler lexes, parses, checks and emits C. Each module below follows
one part of the compiler. Functions say what a part computes. Where the program works by changing
state, classes and methods with the same loops are proved to compute those functions. Lemmas then
state what the functions promise.

`dafny verify dfyconfig.toml` checks everything.

## Map

- Lowering: `CasterAst` (the STR fragment), `Scopes` (its nested scopes), `ByValue` (what a program
  means), `Emit` (the emitter with its cleanup list), `Machine` (C over a heap of owned blocks), `LoweringSource`,
  `LoweringHeap`, `LoweringGuard`, `LoweringSteps`, `Lowering` (the simulation), `FragmentTypes`,
  `LoweringTheorems`, `LoweringSharing`, and `EmitterState` (the emitter's mutable list).
- Ownership of blocks: `Ownership` (analyzer marks against the list), `BlockTally` (blocks
  counted along the by-value run), `BlockTallyProof` (the count is right), `BlockLosses` (what
  each statement loses), `BalancedCalls` (a class that loses nothing), `BalancedPrograms`, `Leaks`.
- Collections: `Collections` (what methods mean), `CollectionMeaning` (the same without walking
  the array), `CollectionLoops` (emitted loops and their machine), `CollectionProof`,
  `CollectionSort`, `CollectionLaws`, `ShapeFill`, `TextOrder`.
- Front end: `Lexing`, `LexingMeaning` (which texts lex, and to what), `LexerMachine`, `ExprSyntax`,
  `ParserSpec`, `ParserProof`, `ParserGroups` (the groups of operators, listed), `EmittedText` (from
  emitted text to a tree), `ParserMachine`, `TypeStrings`, `TypeTables`, `TypeTableMachine`,
  `ValueTyping`, `ValueRules` (what is accepted, as rules), `ValueTypingProof`, `ValueMeaning` (what
  the source computes).
- Module loader: `Imports`, `ImportTexts`, `Rewriter`, `RewriterMeaning` (what the rewriting means on
  the text as written), `RewriterMachine`.
- Runtime: `Strings`, `StringMachine`, `Paths`, `PathLaws`, `PathMachine`, `Json`, `JsonProof`, `JsonDirect`,
  `JsonMachine`, `BufferTable`, `Buffers`.

The two lowering interpreters are given fuel, and the theorems hold for every amount of it:
running out is an outcome like any other and happens on both sides together. The loop machine
bounds the rounds of each loop, and its theorems ask for as many as the longest array has elements.
Heap addresses are never reused, so a stale pointer can never look live. Lemmas switch automatic
induction off, so every inductive step is written out.

## What the proofs found

- A conditional value that picks a bare name is passed on without a copy, so two locals can own
  one block (`LoweringTheorems.SharedBlockIsReturnedDead`). That matters where the value is stored
  or returned and nowhere else: `LoweringSharing` says for each of those positions exactly when it
  fails, in every state. The faithfulness theorem asks of the text only that no such value is
  declared with a bare STR name among its leaves, assigned with another one than the assigned
  local, or returned with a listed local or a parameter.
- The analyzer only asks that some `ret` was seen (src/caster/analyze/program.c:25-50), so a STR
  function may pass its end, which C leaves undefined. Both runs then end in `FellOff`
  (`LoweringTheorems.OneRetIsNotEnough`); when every path meets a `ret` neither does
  (`LoweringTheorems.MustReturnNeverFallsOff`).
- Blocks leak. `Leaks.LeaksExactly` counts how many each call leaves behind, and `BlockLosses`
  which statement loses them. Six ways of losing one pass the analyzer: an overwritten local
  (`x += e` on a text is one), a temporary inside a larger expression, an indexed read that is
  stored, the copy made for a parameter, a local freed and then written below the function's own
  block, and a FREE in an arm that does not run (`Leaks.OverwrittenIsLost`, `TemporaryIsLost`,
  `IndexedReadIsLost`, `ArgumentCopyIsLost`, `ReassignedBelowIsLost`, `UntakenFreeIsLost`). Programs
  that avoid them, as `BalancedCalls.BalancedProgram` reads off the text, lose nothing
  (`Leaks.BalancedCallsLoseNothing`).
- A plain array index and an INT division are not checked in the generated C: `ValueTyping.Out`
  has an outcome for them, apart from the checked text index.
- `./c:x` normalises to `c:x`, which is a drive path when read again, and a drive's root is not
  recovered from its parent and name (`Paths.IdempotentExactly`, `Paths.JoinsBackExactly`).
- `DYN` resolves to `OBJ`, a name a program may declare as an alias
  (`TypeTables.ResolvesExactly`).
- JSON strings escape four characters; other control characters are written raw, which RFC 8259
  section 7 forbids (`JsonProof.ReadInvertsPrint` says exactly when a text can be read back).
- A carriage return cannot be written in an escaped text literal (`Lexing.EscapedTextIsOneToken`).
- Inside `IS`, `&&` does not bind tighter than `||` (`ParserProof.IsReads`), and `|` stands in one
  group with `+` and `-` (`ParserGroups.ThreeOperands`).
- `..` at the root stays: `/..` is normal (`PathLaws.LeadingUpStays`).
- A word right after a comment that ends in a dot is taken for a qualified one and gets no prefix
  (`RewriterMeaning.RewriteMeans` counts the dot of any text in front).
- A module's prefix is its file name and an underscore, and nothing asks that this be an
  identifier; the rewriting theorems ask it.

## Model

| member | source | states |
|---|---|---|
| LoweringTheorems.EmittedCallIsFaithful | src/caster/emit/stmt.c:329-378 | for every checked STR program that meets the guard on conditional values, every call, heap, way of sharing blocks among the arguments, and fuel: the emitted code returns, aborts, runs on or passes its end exactly when the by-value program does, returns the same value, never reads or frees a dead block, changes no block that was there before, and returns text or a live block of its own |
| LoweringTheorems.MustReturnNeverFallsOff | src/caster/analyze/program.c:25-50 | when every path of every function with a result meets a ret, neither run passes an end |
| LoweringTheorems.OneRetIsNotEnough | src/caster/analyze/program.c:25-50 | one ret on one path is accepted: for all names and texts, called with false both runs pass the end |
| LoweringTheorems.SharedBlockIsReturnedDead | src/caster/emit/stmt.c:329-345 | where the guard fails: for all names and texts, `t = if(true)(s)else("")` makes s and t share a block, which is dropped as t and returned as s |
| LoweringSharing.DeclareSharesExactly | src/caster/emit/stmt.c:329-345 | in every state, a declared conditional value is a block some variable already holds exactly when its tests pick a bare name that holds one |
| LoweringSharing.AssignSharesExactly | src/caster/emit/stmt.c:347-352 | an assigned one ends with two owners exactly when the tests pick another variable that holds a block |
| LoweringSharing.AssignListsLoanExactly | src/caster/emit/stmt.c:999-1008 | the assigned name goes on the cleanup list, holding the caller's own block exactly when the tests pick a name that holds one |
| LoweringSharing.ReturnFailsExactly | src/caster/emit/stmt.c:1024-1037 | a returned one is a dead block exactly when the tests pick a listed local that holds one, and the caller's own exactly when they pick a name that holds that |
| Lowering.SimRun | src/caster/emit/program.c:237-249 | a call of the emitted function simulates the by-value call: same outcome and value, no fault, every block that was there unchanged, the result new |
| Lowering.SimBody | src/caster/emit/program.c:237-249 | a whole emitted body, its fall-through drops included, simulates the body |
| Lowering.SimBlock | src/caster/emit/stmt.c:927-933 | a block run under any cleanup list whose names are the call's own texts keeps states related and the call's blocks apart, and lends nothing new |
| Lowering.SimStmt | src/caster/emit/stmt.c:935-1147 | each statement does |
| Lowering.SimEval | src/caster/emit/expr.c:783-796 | an emitted expression gives the same value in a heap that only grew; the value is new unless e may pick a bare name, and then it is that name's |
| Lowering.SimArgs | src/caster/emit/expr.c:63-76 | emitted arguments have the argument values, live, whatever blocks they share |
| Lowering.SimReturn | src/caster/emit/stmt.c:1024-1037 | a returned listed local is moved past the drops, anything else borrowed is copied before them |
| Lowering.SimFree | src/caster/emit/stmt.c:1010-1016 | FREE drops exactly the named local's block and leaves the empty text |
| Lowering.SimAddAssign | src/caster/emit/stmt.c:985-991 | `+=` gives the target a new block and shares none |
| Lowering.SimIterate | src/caster/emit/stmt.c:1072-1135 | loop rounds of every kind, with bound, test, text and step evaluated again around each |
| Lowering.SimTextRound | src/caster/emit/stmt.c:1124-1135 | a text loop's copied character lives through its round and is dropped after it |
| LoweringHeap.DropNamesExact | src/caster/emit/stmt.c:415-420 | dropping distinct listed locals frees exactly their blocks, each once |
| LoweringSource.StmtListed | src/caster/emit/stmt.c:295-314 | every name in the cleanup list stays a declared text local of the function's own block through any statement |
| FragmentTypes.RunSound | src/caster/analyze/program.c:25-50 | a program the analyzer's checks accept, called with fitting arguments, never goes wrong and returns a value of its declared type, or passes its end where not every path meets a ret |
| FragmentTypes.ExprSound | src/caster/analyze/expressions.c:424-605 | a checked fragment expression evaluates to a value of its type |
| FragmentTypes.BlockSound | src/caster/analyze/statements.c:152-538 | a checked block keeps the environment typed and returns only the declared type |
| LoweringGuard.PlainProgramIsGuarded | src/caster/emit/stmt.c:329-352 | every program that declares, assigns and returns no conditional value and frees no parameter meets the guard |
| Scopes.AssignmentOutlives | src/caster/emit/stmt.c:927-933 | an assignment inside a block to an outer variable changes that one and outlives the block; one to the block's own variable leaves the outer of that name alone |
| Scopes.ParametersHoldArguments | src/caster/emit/program.c:237-249 | in a call the parameters hold the arguments in order and nothing else is in scope |
| Leaks.LeaksExactly | src/caster/emit/stmt.c:415-420 | after every call of guarded programs the live blocks are those there were, the returned one, and as many lost ones as the by-value run's tally leaves spare |
| Leaks.BalancedCallsLoseNothing | src/caster/emit/stmt.c:295-314 | calls of balanced programs, with loops, branches, calls, assignments and FREE, leave nothing but what was there and the returned block |
| Leaks.OverwrittenIsLost | src/caster/emit/stmt.c:994-1009 | for all names, texts and heaps: an accepted function that assigns a local holding a block leaves exactly one block behind |
| Leaks.TemporaryIsLost | src/caster/emit/expr.c:783-796 | likewise one whose value has a concatenation inside it |
| Leaks.IndexedReadIsLost | src/caster/emit/stmt.c:329-345 | likewise one that declares a text from an indexed read, which already made a block of its own and is copied all the same |
| Leaks.ArgumentCopyIsLost | src/caster/emit/expr.c:63-76 | likewise a call with a text name as argument |
| Leaks.ReassignedBelowIsLost | src/caster/emit/stmt.c:1001-1016 | likewise FREE followed by an assignment in a nested block |
| Leaks.UntakenFreeIsLost | src/caster/emit/stmt.c:1010-1016 | likewise a FREE in an arm that does not run |
| BlockTallyProof.CountRun | src/caster/emit/program.c:237-249 | for every call of guarded programs the heap gains exactly the blocks the by-value run's tally says, and the result is a block exactly when it says so |
| BlockTallyProof.CountBlock | src/caster/emit/stmt.c:927-933 | so does every block of statements, and afterwards each variable holds a block exactly when the tally says |
| BlockTallyProof.CountIterate | src/caster/emit/stmt.c:1072-1135 | and every loop |
| BlockLosses.AssignLoses | src/caster/emit/stmt.c:994-1009 | in every state an assignment loses its value's spare blocks, the block of a listed target, and its own when the target is not listed afterwards, and no more |
| BlockLosses.AddAssignLoses | src/caster/emit/stmt.c:985-991 | the same for `+=`, which on a text always makes a block |
| BlockLosses.FreeLoses | src/caster/emit/stmt.c:1010-1016 | FREE of a listed name loses nothing |
| BlockLosses.UntakenLoses | src/caster/emit/stmt.c:295-304 | an arm not taken loses the blocks of the names its text takes off the list |
| BlockLosses.ReturnLoses | src/caster/emit/stmt.c:1024-1037 | a ret loses only the spare blocks of its value |
| BlockLosses.CallLoses | src/caster/emit/expr.c:63-76 | a call of names and literals loses one block for each text name passed, and what the function loses |
| BalancedCalls.BalancedRun | src/caster/emit/program.c:237-249 | a call in the balanced class gains its returned block and no other |
| BalancedPrograms.FamilyIsBalanced | src/caster/emit/stmt.c:935-1147 | for all names and texts: a program that makes a text, frees it, calls in a loop, makes it again and returns it on two paths is accepted, guarded and balanced |
| Ownership.PassesAgree | src/caster/analyze/statements.c:60-82 | after any prefix of a function's own block the analyzer's OWNED locals are in the emitter's list and its FREED ones are not |
| Ownership.PrefixAgrees | src/caster/analyze/type_rules.c:135-155 | from function entry: among locals, listed exactly when not FREED and assigned an owning value |
| Ownership.ReassignListedAtTopOnly | src/caster/emit/stmt.c:1001-1004 | the two passes part below the function's own block: a freed local assigned there is OWNED to the analyzer and not on the list |
| Ownership.FreeAcceptedExactly | src/caster/analyze/statements.c:60-82 | a declared local may be freed exactly when it is a text whose value is neither a literal nor conditional, and not twice |
| Ownership.FreedIsNotRead | src/caster/analyze/collections.c:68-80 | after FREE no accepted statement's value mentions the name, at any depth, until it is assigned |
| EmitterState.OwnedLocals.Reset | src/caster/emit/stmt.c:282-286 | the list becomes empty |
| EmitterState.OwnedLocals.Contains | src/caster/emit/stmt.c:288-293 | true exactly for the listed names |
| EmitterState.OwnedLocals.Add | src/caster/emit/stmt.c:306-314 | a name of a droppable type is added at the end, once, whatever the capacity |
| EmitterState.OwnedLocals.Remove | src/caster/emit/stmt.c:295-304 | the name is removed and the later ones move down |
| EmitterState.DropsNewestFirst | src/caster/emit/stmt.c:415-420 | the drops are the listed names but the skipped one, from the newest to the oldest, for every list |
| EmitterState.Emitter.Drops | src/caster/emit/stmt.c:415-420 | the drops, newest local first, without the skipped one |
| EmitterState.Emitter.EmitStmt | src/caster/emit/stmt.c:935-1147 | emission with the mutable list produces the specified statement and leaves the specified list |
| EmitterState.Emitter.EmitBlock | src/caster/emit/stmt.c:927-933 | likewise for a block |
| EmitterState.Emitter.EmitFn | src/caster/emit/program.c:237-249 | likewise for a function, with drops only on fall-through |
| CollectionSort.QueryRuns | src/caster/emit/stmt.c:637-806 | for every chain of filt, upd, group and sort, ended as an array, any or agg, the emitted nested loops compute the chain's meaning and get stuck exactly when it is undefined |
| CollectionSort.ChainRuns | src/caster/emit/stmt.c:637-806 | the same for the array-valued part, at any loop number |
| CollectionProof.MethodRuns | src/caster/emit/stmt.c:748-805 | one emitted method is the fold of its body over the source array |
| CollectionProof.GroupsRound | src/caster/emit/stmt.c:653-684 | one round of group puts the element in the first row with its key or in a new last row |
| CollectionProof.FindLoop | src/caster/emit/stmt.c:668-675 | the inner search stops at the first row with the key |
| CollectionSort.SortRuns | src/caster/emit/stmt.c:686-711 | the emitted exchange loops compute the exchange sort on a copy |
| CollectionLaws.AnyLaw | src/caster/emit/stmt.c:786-801 | any(p) is filt(p).len() > 0 |
| CollectionLaws.AggLaw | src/caster/emit/stmt.c:170-195 | agg(+= v if(c)) is filt(c).agg(+= v) when v does not name the index |
| CollectionLaws.SortLaw | src/caster/emit/stmt.c:446-452 | sort gives a permutation of the source whose keys ascend, or descend when asked: INT as numbers, text as in a dictionary with a proper prefix first |
| CollectionLaws.GroupLaw | src/caster/emit/stmt.c:653-684 | group lists the distinct keys as first seen, each with exactly its elements in source order |
| CollectionLaws.FiltInPlaceIsFilt | src/caster/emit/stmt.c:856-919 | `*filt` leaves the array copying filt makes, and no other variable changed |
| CollectionLaws.UpdInPlaceIsUpd | src/caster/emit/stmt.c:856-919 | `*upd` leaves the array copying upd makes, and no other variable changed |
| CollectionLaws.KeepRuns | src/caster/emit/stmt.c:127-139 | keeping an element moves it to the write slot and leaves every unread slot alone |
| CollectionMeaning.UpdLaw | src/caster/emit/stmt.c:774-776 | upd has a value exactly when the body has one for every element, and then it has the length of the source and the body's value at each index |
| CollectionMeaning.FiltLaw | src/caster/emit/stmt.c:777-779 | filt is the elements whose test is true, in source order, each once |
| CollectionMeaning.AnyIs | src/caster/emit/stmt.c:786-801 | any is true exactly when the test is true of an element and false of all before it, and false exactly when it is false of all |
| CollectionMeaning.AggSums | src/caster/emit/stmt.c:780-785 | agg(+= v) over INT is its zero plus the sum of the values, agg(- v) its zero less that sum |
| CollectionMeaning.Connectives | src/caster/emit/expr.c:783-796 | `&&` and `||` give each of their values exactly as the two sides say, the right one only where the left does not settle it, and are each other's dual |
| CollectionMeaning.Arithmetic | src/caster/emit/expr.c:783-796 | `-` undoes `+`, `*` is repeated `+`, a quotient is rounded towards zero and has no value at divisor zero |
| CollectionMeaning.Comparisons | src/caster/emit/program.c:400-409 | less is the order of INT and of the dictionary, greater its converse, and equal holds exactly where neither does |
| TextOrder.CompareIsAntisymmetric | src/caster/emit/program.c:400-409 | the text comparison is antisymmetric and zero only on equal texts |
| TextOrder.CompareIsTransitive | src/caster/emit/program.c:400-409 | and transitive |
| TextOrder.CompareIsEarlier | src/caster/emit/program.c:400-409 | it is negative exactly when the first text is a proper prefix of the second or smaller where they first differ, and positive exactly the other way round |
| ShapeFill.Fill | src/caster/emit/expr.c:251-270 | fails exactly on a negative dimension; otherwise the array has the shape asked for, each place holds its own evaluation in row order, and there are exactly the product of the dimensions of them |
| ShapeFill.FillLevel | src/caster/emit/expr.c:216-249 | one nesting of loops fills its part and uses exactly its share of evaluations |
| ParserProof.ParseInvertsShow | src/caster/parse/parser.c:498-589 | parsing the minimally parenthesised tokens of any tree over atoms, calls, fields, indexes, unary and binary operators and `else` gives the tree back, whatever follows and whether or not operators may start lines |
| ParserProof.ShowIsInjective | src/caster/parse/parser.c:498-589 | different trees never print alike |
| ParserGroups.ThreeOperands | src/caster/parse/parser.c:260-271 | with the six groups of operators listed outright: a p b q c reads as (a p b) q c when p's group binds at least as tightly as q's and as a p (b q c) otherwise, for all operands and operators |
| ParserGroups.EveryChainReads | src/caster/parse/parser.c:551-589 | every chain of operands and operators is read to its end, as the one tree over its tokens whose left operands bind at least as tightly as their operator and whose right ones bind tighter |
| ParserGroups.GroupedReads | src/caster/parse/parser.c:498-589 | likewise with signs and `!`, which bind tighter than all of them, and `else`, which binds looser and joins from the left |
| ParserGroups.BreakBeforeOperator | src/caster/parse/parser.c:551-560 | a line break before an operator or `else` changes nothing where operators may stand on later lines, and ends the expression elsewhere |
| ParserGroups.BreakBeforePostfix | src/caster/parse/parser.c:324-328 | one before a dot changes nothing, and before any other postfix operator ends the operand |
| ParserGroups.BreakBeforeOperand | src/caster/parse/parser.c:539-547 | one right after an opening parenthesis changes nothing, and in front of any other operand is an error |
| EmittedText.ReadInvertsFullText | src/caster/emit/expr.c:782-796 | lexing and parsing the fully parenthesised text that numeric and boolean expressions are emitted in gives the tree back, for every tree over numbers, true, false, identifiers, unary and binary operators |
| EmittedText.LexInvertsFullText | src/caster/lex/lexer.c:122-269 | that text lexes to exactly the tokens of the parenthesised form and the end |
| EmittedText.FullTextIsInjective | src/caster/emit/expr.c:782-796 | different trees are never emitted as the same text |
| ParserProof.ParseInvertsFull | src/caster/parse/parser.c:498-589 | parsing those tokens gives the tree back, whatever follows |
| ParserProof.IsReads | src/caster/parse/parser.c:283-322 | an IS check reads as comparisons of the one subject joined from the left, whichever connective stands between |
| ParserProof.Reads | src/caster/parse/parser.c:551-589 | an operand printed for level m leaves the parser at the operand's end, still able to extend it |
| ParserProof.ReadsChain | src/caster/parse/parser.c:324-389 | postfix chains of calls, fields and computed reads |
| ParserMachine.Parser.ParseExpression | src/caster/parse/parser.c:551-589 | the precedence loop over the cursor computes what the specification reads |
| ParserMachine.Parser.ParsePrefix | src/caster/parse/parser.c:498-549 | likewise the prefix forms |
| ParserMachine.Parser.ParsePostfix | src/caster/parse/parser.c:324-389 | likewise the postfix loop, restoring the cursor after newlines no dot follows |
| ParserMachine.Parser.ParseArgs | src/caster/parse/parser.c:330-336 | likewise the argument loop |
| ParserMachine.Parser.ParseIsCheck | src/caster/parse/parser.c:300-322 | likewise IS, which needs two clauses |
| Lexing.EscapedTextIsOneToken | src/caster/emit/names.c:154-169 | an escaped text lexes as one string token with that text exactly when it has no carriage return; otherwise it does not lex |
| LexingMeaning.LexesExactly | src/caster/lex/lexer.c:122-269 | a text lexes exactly when it is made of spaces, comments, breaks, literals, numbers, words and the ten two-character and nineteen one-character signs, each as long as it can be, and then to exactly their tokens, each at its offset, with escapes resolved and raw line breaks made line feeds |
| LexerMachine.Lexer.LexAll | src/caster/lex/lexer.c:122-269 | the lexing loop gives the specified tokens, each with the line and column of its first character counted over the source, and fails exactly when the specification does |
| LexerMachine.Lexer.Break | src/caster/lex/lexer.c:128-133 | a line break, one or two characters, moves to the start of the next line |
| LexerMachine.Lexer.SkipComment | src/caster/lex/lexer.c:139-153 | a block comment keeps the position across its line breaks |
| LexerMachine.Lexer.ReadRaw | src/caster/lex/lexer.c:181-204 | so does a raw string |
| LexerMachine.Lexer.ReadString | src/caster/lex/lexer.c:154-180 | a string literal's text and end |
| TypeStrings.ShowIsInjective | src/caster/ast/ast.c:76-107 | equal type text means equal types, for every nesting |
| TypeStrings.Recognisers | src/caster/ast/ast.c:77-81 | each recogniser accepts exactly the types of its own constructor |
| TypeStrings.MapSplits | src/caster/analyze/types.c:39-68 | splitting a MAP type gives back its key and value |
| TypeStrings.FnSplits | src/caster/ast/ast.c:83-107 | splitting an FN type gives back its input and output |
| TypeStrings.PassesType | src/caster/analyze/types.c:52-59 | a type's brackets balance and all its commas and arrows are inside them |
| TypeStrings.SplitMapType | src/caster/analyze/types.c:39-68 | the depth-counting loop finds the outermost comma |
| TypeStrings.SplitFnType | src/caster/ast/ast.c:90-105 | and the outermost arrow |
| TypeTables.ResolvesExactly | src/caster/analyze/types.c:161-221 | memoised resolution succeeds exactly when unfolding the aliases ends, returns the full unfolding, and that mentions no alias, except that DYN becomes OBJ |
| TypeTables.FailsExactlyWhenStuck | src/caster/analyze/types.c:161-170 | it fails exactly when some chain of mentions reaches an undeclared name or closes on itself, and the error names such a place |
| TypeTables.MeaningIsUnique | src/caster/analyze/types.c:174-221 | a type has one unfolding |
| TypeTables.ResolveExpands | src/caster/analyze/types.c:161-170 | the memo holds full unfoldings throughout |
| TypeTables.GroundStands | src/caster/analyze/types.c:174-221 | a type over the five scalars and declared structs resolves to itself whatever else is declared, and DYN to OBJ |
| TypeTables.UndeclaredFails | src/caster/analyze/types.c:216-220 | a type that mentions any other name nobody declared does not resolve |
| TypeTableMachine.TypeTable.ResolveAlias | src/caster/analyze/types.c:161-170 | the marked, memoised step on the table does what the specification says |
| TypeTableMachine.TypeTable.ResolveType | src/caster/analyze/types.c:174-221 | resolution on type text refines resolution on types |
| TypeTableMachine.TypeTable.BuildTypeTable | src/caster/analyze/types.c:322-350 | the table is built exactly when every declared type has an unfolding, and then every alias and field holds it |
| ValueTypingProof.CheckedIsSound | src/caster/analyze/expressions.c:17-607 | an accepted expression over scalars, text, arrays and fixed records computes a value of its type (an INT where FLT is stated being converted), or fails on a text index, or meets what C leaves undefined; it never applies an operation to values it has no meaning for |
| ValueMeaning.CheckedMeans | src/caster/analyze/expressions.c:17-607 | every accepted expression, as emitted, computes what its source means: operands in order, `&&` and `||` stopping early, the picked arm alone, entries by field name with defaults, and INT made FLT exactly where an element, a field, an arm or the other operand is one |
| ValueRules.AcceptsExactly | src/caster/analyze/expressions.c:17-607 | an expression is accepted exactly when the typing rules, stated as rules, give it a type, and at that type |
| ValueTypingProof.OperateSound | src/caster/analyze/expressions.c:519-566 | every accepted binary operator, with numeric promotion |
| ValueTypingProof.ArraySound | src/caster/analyze/expressions.c:79-109 | array literals, with the expected element type handed down |
| ValueTypingProof.RecordSound | src/caster/analyze/expressions.c:178-222 | record literals, with defaults for missing fields |
| ValueTypingProof.JoinSound | src/caster/analyze/collections.c:698-722 | array `+`, the untyped empty array included |
| Imports.FailsExactlyWhenStuck | src/caster/driver/compiler.c:874-931 | expansion fails exactly when a chain of imports from the root reaches a missing or refused module or comes back to itself, and names where |
| Imports.EmitsEachOnce | src/caster/driver/compiler.c:874-931 | otherwise each reachable module's body appears exactly once, after everything it imports, and nothing else appears; the root comes last |
| Imports.ExpandLoads | src/caster/driver/compiler.c:926-927 | the loaded list grows in emission order and stays complete |
| Imports.Loader.ExpandFrom | src/caster/driver/compiler.c:874-931 | the recursive loader with its two lists returns the specified text and leaves the specified lists |
| Imports.Loader.ReadLines | src/caster/driver/compiler.c:888-906 | the line loop gathers imports and body |
| ImportTexts.EmitsOwnBodies | src/caster/driver/compiler.c:908-931 | each emitted body is its module's own lines, rewritten as an imported module exactly when it is not the root |
| ImportTexts.BodyIsItsLines | src/caster/driver/compiler.c:888-906 | a body is the module's lines that are not imports, each with a line feed, in order |
| ImportTexts.LoadsInLineOrder | src/caster/driver/compiler.c:888-906 | imports load in the order of their lines: what a module's first k lines reach comes, with what was loaded before, in front of everything else |
| Rewriter.RewriteIsIdempotent | src/caster/driver/compiler.c:557-646 | rewriting twice is rewriting once, for every source and identifier prefix |
| Rewriter.QuotedUnchanged | src/caster/driver/compiler.c:557-646 | scanned afresh, the rewritten text has exactly the source's comments and literals |
| Rewriter.StripInverts | src/caster/driver/compiler.c:544-646 | deleting the prefixes gives the source back exactly when the source used no prefixed name itself |
| Rewriter.CollectAlike | src/caster/driver/compiler.c:451-538 | collecting names from the rewritten text finds nothing new but prefixed names |
| Rewriter.Alike | src/caster/driver/compiler.c:557-646 | the rewritten text scans piece by piece like the source |
| RewriterMeaning.RewriteMeans | src/caster/driver/compiler.c:544-646 | the rewritten text is the source with the prefix in front of exactly the words that are exported, do not start with it, and have no dot before or after them but for spaces; comments, literals and everything else stand as they were |
| RewriterMeaning.CollectsExactly | src/caster/driver/compiler.c:451-538 | a name is exported exactly when it follows TYPE, a scalar or DYN, or FN, MAP, ARR, REF or TSK with or without balanced brackets, outside all parentheses, braces and brackets and outside comments and literals |
| RewriterMeaning.EveryTextIsSpelled | src/caster/driver/compiler.c:557-646 | every text is made of such comments, literals, words and marks, so these cover all sources |
| RewriterMachine.RewriteLocalModule | src/caster/driver/compiler.c:557-646 | the rewriting pass computes the specified text |
| RewriterMachine.CollectNames | src/caster/driver/compiler.c:451-538 | the collecting pass computes the specified names |
| Strings.ReplaceIsJoinOfSplit | src/caster/emit/program.c:442-459 | replace(t, old, next) is join(split(t, old), next) |
| Strings.JoinInvertsSplit | src/caster/emit/expr.c:508-523 | join(split(t, s), s) is t for every t and s |
| Strings.SplitLeavesNone | src/caster/emit/expr.c:508-523 | no piece contains the separator |
| Strings.SplitsAtFirst | src/caster/emit/expr.c:508-523 | the first piece ends where the separator first occurs and the rest is split alike; without an occurrence the text is the one piece |
| Strings.SplitInvertsJoinExactly | src/caster/emit/program.c:777-791 | with a one-character separator, split inverts join exactly on the nonempty lists whose parts do not contain it |
| Strings.ReplaceLength | src/caster/emit/program.c:444-450 | the counted length is the length of the result |
| StringMachine.ReplaceAll | src/caster/emit/program.c:442-459 | the counting and writing passes find the same matches and fill the buffer exactly |
| StringMachine.SplitAll | src/caster/emit/expr.c:508-523 | the split loop computes the specified pieces |
| StringMachine.JoinAll | src/caster/emit/program.c:777-791 | the join loops fill a buffer of exactly the computed length |
| Paths.IdempotentExactly | src/caster/adapters/sys.c:394-464 | normalising twice is normalising once, except exactly for relative paths that come to look like a drive |
| Paths.ComposesExactly | src/caster/adapters/sys.c:394-464 | normalising the front of a path first never matters, whatever is appended, exactly when the front does not come to look like a drive |
| Paths.JoinsBackExactly | src/caster/adapters/sys.c:468-507 | joining a path's parent and name gives its normal form, except exactly at a drive's root and for longer paths that only look like a drive |
| Paths.NormalKeeps | src/caster/adapters/sys.c:394-464 | normal text has the parts and the root of the path |
| PathLaws.UpUndoes | src/caster/adapters/sys.c:428-432 | going into any name and up again is the path itself, normalised |
| PathLaws.NameAppends | src/caster/adapters/sys.c:412-438 | a name added to a path is its last part and changes no other |
| PathLaws.UpCancels | src/caster/adapters/sys.c:428-432 | among the parts, a name and the `..` right after it can be deleted anywhere |
| PathLaws.NothingElseDrops | src/caster/adapters/sys.c:424-438 | parts with no `.` and no name before a `..` all stay, in order |
| PathLaws.LeadingUpStays | src/caster/adapters/sys.c:428-432 | after nothing but `..`, one more stays |
| PathLaws.DotStays | src/caster/adapters/sys.c:424-427 | `.` and empty parts mean nothing |
| PathLaws.BackslashIsSlash | src/caster/adapters/sys.c:412-416 | a backslash anywhere is read as a slash |
| PathLaws.DriveIsKept | src/caster/adapters/sys.c:398-410 | a letter and a colon are kept in front of the rest read as an absolute path |
| PathLaws.NameAndParentOf | src/caster/adapters/sys.c:483-507 | the name of a/x is x, and its parent is a in normal form except exactly at a drive's root |
| PathLaws.JoinIsText | src/caster/adapters/sys.c:468-479 | joining is normalising the nonempty texts with a slash between each two |
| Paths.DriveFreeIsStable | src/caster/adapters/sys.c:394-507 | a path no part of whose text starts like a drive normalises once and for all, in front of anything, and joins back from parent and name |
| PathMachine.NormalizePath | src/caster/adapters/sys.c:394-464 | the part stack and the exactly sized buffer give the specified text |
| PathMachine.JoinPaths | src/caster/adapters/sys.c:468-479 | joining skips empty parts and normalises |
| PathMachine.ParentPath | src/caster/adapters/sys.c:483-494 | the parent loops compute the specified parent |
| PathMachine.NamePath | src/caster/adapters/sys.c:497-507 | and the name loops the specified name |
| JsonProof.ReadInvertsPrint | src/caster/emit/runtime.c:286-374 | reading a printed value by RFC 8259 gives the value, and fails exactly when some text has a control character other than line feed and tab |
| JsonProof.PrintIsCanonical | src/caster/emit/runtime.c:322-355 | equal values print alike whatever order their hash maps give |
| JsonProof.TextIsIdentity | src/caster/emit/runtime.c:286-374 | for readable values, equal text and equal value are the same |
| JsonProof.AscendingIsUnique | src/caster/emit/runtime.c:347 | whatever sort is used, the sorted entries are the same |
| JsonProof.PrintedKeysAscend | src/caster/emit/runtime.c:326-355 | an object is printed with its entries, each once, in dictionary order of their keys |
| JsonDirect.DirectIsGeneral | src/caster/emit/expr.c:562-622 | the text put together at compile time for a literal of scalars, arrays and nested records with identifier names is the general printer's text of the entries as written |
| JsonDirect.DirectIsAnyOrder | src/caster/emit/expr.c:562-622 | with distinct names it is the general printer's text of the value, whatever order a hash map holds the entries in |
| JsonMachine.Printer.PrintValue | src/caster/emit/runtime.c:357-369 | the appending printer writes the specified text |
| JsonMachine.Printer.PrintMap | src/caster/emit/runtime.c:335-355 | likewise for an object, sorted by key |
| JsonMachine.Printer.PrintString | src/caster/emit/runtime.c:301-312 | likewise for a string |
| BufferTable.Table.NewBuffer | src/caster/adapters/buf.c:54-80 | the lowest handle that is not live starts with the empty text, and no other buffer changes |
| BufferTable.Table.Write | src/caster/adapters/buf.c:44-50 | only the handle's own text grows, by exactly the bytes written; other handles are refused |
| BufferTable.Table.Clear | src/caster/adapters/buf.c:158-162 | only the handle's own text becomes empty |
| BufferTable.Table.Free | src/caster/adapters/buf.c:166-171 | only the handle goes |
| BufferTable.Table.ToStr | src/caster/adapters/buf.c:143-148 | the text is what was written since the last clear |
| BufferTable.Slot.Reserve | src/caster/adapters/buf.c:31-40 | growth keeps the text; bytes moved by growth stay below the capacity, which stays within 64 or twice the largest length |
| BufferTable.NextCapacity | src/caster/adapters/buf.c:33-34 | the doubling loop at least doubles and never passes both 64 and twice what is needed |

## Left out

- LoweringTheorems.EmittedCallIsFaithful: INT is unbounded where the C has 64 bits, and DYN, MAP, ARR, REF and record values, map loops, `else` values, throw and destructuring are not in the fragment.
- LoweringTheorems.EmittedCallIsFaithful: a declaration that hides a name of another type does not compile as C; the by-value program refuses it, so such programs are not `Checked`.
- LoweringTheorems.EmittedCallIsFaithful: the guard is on the text, so it also refuses a conditional value whose failing leaf is never picked, and one over a parameter that has been given a value of its own.
- BalancedCalls.BalancedRun: one direction only; a program outside the class may still lose nothing on some runs, which `Leaks.LeaksExactly` decides run by run.
- Ownership.PassesAgree: for the statements of a function's own block; flow through branches is not merged.
- ParserMachine.Parser.ParseExpression: method calls, type names called as functions, array, record, map and conditional values, the `*`, REF and hold prefixes, and the parser's error positions are not modelled; where one of these forms occurs the model reports an error.
- ParserGroups.EveryChainReads: chains are printed on one line; line breaks are covered one place at a time.
- EmittedText.ReadInvertsFullText: numbers are unsigned literals, a negative one being a unary minus, and floats are left out of the emitted trees.
- CollectionSort.QueryRuns: bodies are expressions over the element, its index, a group's key and val, and other variables, with unbounded INT and no floats, calls or nested methods; method bodies with statements, map sources, string sources and tap are not modelled, and evaluation has no effects.
- CollectionLaws.AnyLaw: stated where the predicate is defined on every element, since any stops at the first hit.
- ValueTypingProof.CheckedIsSound: calls, methods, DYN and OPEN data, MAP, REF, FN and TSK values, decode and loop contexts are left out; names whose type is still being inferred are not in scope; defaults are given as values; floating-point results are left open. INT is unbounded, so signed overflow, which C leaves undefined, is not among the outcomes.
- Imports.EmitsEachOnce: telling an import line from a code line, resolving the name after `use` to a canonical path, the qualified-name validation and the file reads are parameters of the model.
- Rewriter.RewriteIsIdempotent: for local modules; the rewriting of native modules, which prefixes by other rules, is not modelled.
- LexerMachine.Lexer.LexAll: keywords and names are one kind of token told apart by their text; a NUL ends the C text and is taken not to occur.
- TypeTableMachine.TypeTable.BuildTypeTable: nested and built-in declarations are entered before this model starts, and duplicate names are refused there.
- ShapeFill.Fill: all dimensions are evaluated before any is refused, where the C tests each as it goes.
- JsonProof.ReadInvertsPrint: FLT values are left out, and so is the C parser that reads JSON back: the reader here is the grammar itself, without fractions and exponents.
- JsonDirect.DirectIsGeneral: scalars are values known when printed; the order in which their expressions run is not modelled.
- BufferTable.Table.NewBuffer: the table's own array of slots is a sequence, and its growth, allocation failure and the numeric writes are not modelled; a freed handle number is reused, so a stale copy of it is not told apart.
- Paths.IdempotentExactly: paths are texts without NUL.
- The WEB router, URL decoding, trimming and letter case would add easier members of the same kinds.
- Sockets, threads, SQL, files, processes, tasks, the hash map and the JSON library are foreign code with no meaning given here.
- C text layout, includes, generated names and the AST printer are not modelled.
