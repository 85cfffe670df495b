# ShellLite, verified

A Dafny model of the ShellLite language implementation, and proofs about it. Each core of the
repository has its own modules:

- **Compiler and virtual machine** (`Values`, `Language`, `Machine`, `CodeGen`, `Programs`, `SimExpr`,
  `SimStmt`, `SimControl`, `Leftovers`, `Correctness`): the bytecode of a script does what the script
  says. `Compiler` is the emitter with its backpatching, `Limits` its exact compile errors, `Bytecode`
  the byte format, `Vm` and `Interpreter` the dispatch loop, `Locations` the table of source places.
  `Emission`, `ExprEmission`, `StmtEmission`, `ScopeEmission`, `LoopEmission` and `Slots` hold the
  lemmas in between; `Unclean` the scripts that are compiled wrongly. `ScriptResults` says what scripts
  print in the terms of the language alone, operator by operator and loop by loop.
- **Functions** (`FunctionCode`, `FunctionBalance`, `FunctionRuns`, `FunctionExact`): where the value
  stack and the try stack of a compiled function have the heights the compiler counts on.
- **Bytecode verifier** (`ChunkVerify`, `VerifiedOperands`, `Sealing`, `VerifiedOutput`; for functions
  with closures `ClosureCode`, `ClosureSeals`, `ClosureKept`, `AcceptedFunctions`): what it accepts, and
  that it accepts what the compiler emits. `ClosureNames` and `NamesFound`: every variable instruction,
  in functions at any depth, names the variable that the source means.
- **Line scanner and chunk cache** (`Topography`, `Chunking`, `Shifting`, `Scanner`, `CacheSpec`,
  `ChunkCache`, `Linking`): parallel against sequential scanning, incremental against fresh scanning,
  and the forest of indented lines. `LogicalLines`, `LineResults` and `AnchorResults` say without the
  automaton what is found: logical lines, places to cut, and definitions.
- **Memory** (`Gc`, `DeepCopy`, `SharedCells`, `Upvalues`, `IteratorSlot`): the mark-and-sweep collector,
  cloning of object graphs, and captured variables.
- **Formatter and parser** (`StringLiteral`, `Expressions`, `ExpressionParser`, `ExpressionRoundTrip`,
  `Grouping`, `Glob`): printed expressions and strings are read back, and operators group by a listed order.
- **Diff** (`EditScript`, `Diff`), **language server** (`SymbolIndex`, `Definitions`, `Redefinitions`,
  `LspDocument`), **formats** (`Bytes`, `Wire`, `ValueCodec`, `ShbcCodec`, `ShbcFile`, `Json`,
  `JsonRoundTrip`, `JsonText`, and `FileFormats`, their bytes) and **channels** (`Channel`).

`dafny verify dfyconfig.toml` verifies everything.

## Model

| member | source | states |
|---|---|---|
| `Correctness.CompiledCodeMeansSource` | shell_lite/compiler.cpp:60-117 | the machine halts on a compiled script with an outcome (uncaught error, globals, output) exactly when the script means that outcome; so it runs for ever exactly when the script does. Operators, conditions and loops are shared with the meaning, and `ScriptResults` says what each of them is |
| `Correctness.HaltedMeansSource` | shell_lite/vm.cpp:703-2060 | a machine found halted on compiled code is never stuck: it has ended with a behaviour of the source |
| `Correctness.ScriptRuns` | shell_lite/compiler.cpp:107-117 | a script that needs more than a given number of rounds keeps the machine busy for at least as many steps, and one that ends within them halts the machine with the same outcome |
| `ScriptResults.CompiledLoopOverList` | shell_lite/vm.cpp:1120-1163 | a compiled for-in that prints its variable, over any expression whose value is a list, prints the elements in order, each once, and nothing else |
| `ScriptResults.CompiledLoopOverString` | shell_lite/vm.cpp:1120-1163 | over a string it prints its one-character strings in order |
| `ScriptResults.NothingIsVisited` | shell_lite/vm.cpp:1120-1163 | over any other value it runs no round and raises no error |
| `ScriptResults.CompiledBranch` | shell_lite/value.hpp:70-76 | a compiled `if` takes its second branch exactly for null, false, 0 and the empty string |
| `ScriptResults.BranchTaken` | shell_lite/value.hpp:70-76 | `if`, `unless` and `not` for any bodies, by the same four values |
| `ScriptResults.CompiledRepeat` | shell_lite/compiler.cpp:1396-1466 | a compiled counted loop runs as often as the least natural number that is not below its count |
| `ScriptResults.CompiledPrint` | shell_lite/vm.cpp:703-2060 | a compiled print prints the value of its expression |
| `ScriptResults.NumberOperators` | shell_lite/vm.cpp:889-1010 | sums, differences, products, negation and comparisons of numbers |
| `ScriptResults.NumberDivision` | shell_lite/vm.cpp:889-1010 | the quotient times the divisor is the dividend, floor division gives the integer below it, and the remainder is between zero and the divisor |
| `ScriptResults.DivisionByZero` | shell_lite/vm.cpp:889-1010 | the three errors of a zero divisor |
| `ScriptResults.TextComparison` | shell_lite/value.cpp:96-156 | texts compare at the first place where they differ |
| `ScriptResults.TextOperators` | shell_lite/vm.cpp:889-1010 | a text times a number is that many copies, one behind the other, and a sum with a text is the texts joined |
| `ScriptResults.MembershipOperators` | shell_lite/vm.cpp:1070-1105 | `in` and `not in` for lists |
| `ScriptResults.PieceOperators` | shell_lite/vm.cpp:1070-1105 | `in` and `not in` for texts: a piece with something before and behind it |
| `SimControl.SimS` | shell_lite/compiler.cpp:437-1624 | every statement, started with exactly the locals on the stack and the open try blocks on the try stack, leaves the machine where its meaning says: after it, at the loop's stop or skip target with the loop's heights, or unwinding its error |
| `SimControl.SimB` | shell_lite/compiler.cpp:59-66 | the same for blocks |
| `SimControl.SimIf` | shell_lite/compiler.cpp:524-558 | the same for `if`, both branches |
| `SimControl.SimUnless` | shell_lite/compiler.cpp:1469-1481 | the same for `unless` |
| `SimControl.SimLoop` | shell_lite/compiler.cpp:561-599 | the same for `while` and `until`, any number of rounds, through stop and skip |
| `SimControl.SimForever` | shell_lite/compiler.cpp:1484-1507 | the same for `forever` |
| `SimControl.SimRepeat` | shell_lite/compiler.cpp:1396-1466 | the same for counted loops, whose count is evaluated once and whose counter the body cannot reach |
| `SimControl.SimForIn` | shell_lite/compiler.cpp:1127-1165 | the same for loops over the items of a value, which for lists and strings are those of `ScriptResults.CompiledLoopOverList` and `CompiledLoopOverString` |
| `SimControl.SimTry` | shell_lite/compiler.cpp:986-1002 | the same for `try`: a caught error restores the recorded stack height and binds the error variable |
| `SimControl.SimLeave` | shell_lite/compiler.cpp:314-325 | the cleanup of a stop or skip closes the try blocks and drops the locals opened since the loop began, and nothing else |
| `SimExpr.SimE` | shell_lite/compiler.cpp:404-495 | compiled expressions push the value, or raise the error, that the meaning gives, with short circuits, and touch nothing below |
| `Leftovers.SimTop` | shell_lite/compiler.cpp:60-66 | the values that bare literals leave on the stack of a script, at the top, in branches or in every round of a loop, do no harm as long as their top-level statement and those after it make no slots |
| `Unclean.BareTrueIsMiscompiled` | shell_lite/compiler.cpp:1396-1466 | the script `true`, then a loop that prints once: it means one line of output and its code prints nothing, because the value left behind stands in the slot of the count |
| `Unclean.HiddenNameIsMiscompiled` | shell_lite/compiler.cpp:1127-1165 | a for-in body that assigns to a variable named `_iter` overwrites the iterator: the source ends normally, the code fails |
| `Compiler.ProperCompiler.Compile` | shell_lite/compiler.cpp:107-117 | compilation succeeds exactly when no jump, constant or loop limit is exceeded and stop and skip stand in loops; then the bytes, decoded, are the specified code of the script with every jump patched |
| `Compiler.ProperCompiler.EmitJump` | shell_lite/compiler.cpp:137-142 | a placeholder is appended and remembered as open |
| `Compiler.ProperCompiler.PatchJump` | shell_lite/compiler.cpp:145-153 | closes one open jump onto the current end of the code, or fails exactly when the distance exceeds 65535 |
| `Compiler.ProperCompiler.EmitLoop` | shell_lite/compiler.cpp:156-164 | a jump back lands on the start of the loop, or fails exactly when the distance exceeds 65535 |
| `Vm.VM.RunFor` | shell_lite/vm.cpp:703-2060 | the dispatch loop, on its fields, makes the steps of the machine specification |
| `Interpreter.Interpret` | shell_lite/compiler.cpp:107-117 | compiling and then running yields an outcome only if the script means it |
| `Locations.Chunk.Write` | shell_lite/chunk.hpp:107-115 | the run-length coded places, expanded, gain exactly one place for the byte written |
| `Locations.Chunk.GetLocation` | shell_lite/chunk.hpp:117-125 | looks up the expanded places, and gives the source's answers outside of the code |
| `FunctionRuns.BoundariesAreBalanced` | shell_lite/compiler.cpp:298-344 | on every path through the code of a balanced function, through stop, skip, returns and caught errors, each statement boundary is met with exactly as many values as there are locals and as many handlers as there are open try blocks; balanced is a function in which no literal, index or nameless function stands as a statement and no try body and no `unless` body makes a local |
| `FunctionExact.RightExactlyWhenBalanced` | shell_lite/compiler.cpp:986-1002 | where every statement can be reached, that holds exactly when the function is balanced: no value is left on the stack by a bare literal, list, dictionary, index or nameless function, and no try body and no `unless` body makes a local |
| `FunctionBalance.HoistingSettles` | shell_lite/compiler.cpp:380-402 | both branches of a balanced `if` end with exactly the locals made beforehand |
| `FunctionBalance.BranchesMeet` | shell_lite/compiler.cpp:524-558 | the branches of any `if` come together with the locals made beforehand exactly when nothing standing in them is an `unless` or a `try` that still makes one |
| `FunctionExact.TryLosesLocal` | shell_lite/compiler.cpp:986-1002 | a function that first assigns a variable in a try body: its handler counts a local that the error has taken away |
| `FunctionExact.UnlessLosesLocal` | shell_lite/compiler.cpp:1469-1481 | a function that first assigns a variable in an `unless`: it counts the local also where the body was left out |
| `FunctionExact.LiteralTakesSlot` | shell_lite/compiler.cpp:60-66 | a function of a bare literal and then a first assignment: the literal stays, and the slot counted for the variable holds it |
| `ChunkVerify.Chunk.Verify` | shell_lite/chunk.cpp:154-312 | the two passes accept exactly the chunks that decode from start to end with operands in range and whose jumps all land on instruction starts; `VerifiedOperands.AcceptedExactly` says which these are |
| `ChunkVerify.Chunk.ScanInstruction` | shell_lite/chunk.cpp:161-248 | the first pass, one instruction: whole, with operands in the ranges of `VerifiedOperands.AcceptedExactly`, or refused |
| `ChunkVerify.Chunk.CheckJump` | shell_lite/chunk.cpp:251-310 | the second pass, one instruction: where it lands |
| `ChunkVerify.ReadsWhatIsChecked` | shell_lite/vm.cpp:703-2060 | the dispatch loop reads exactly the operand bytes that the verifier skips |
| `ChunkVerify.AcceptedCodeStaysOnInstructions` | shell_lite/chunk.cpp:154-312 | in an accepted chunk that does not fall off its end, control never leaves the code and never lands inside an instruction |
| `ChunkVerify.StaysExactlyWithoutOpenEnds` | shell_lite/chunk.cpp:154-312 | on every path through an accepted chunk control stays on its instructions exactly when no path reaches a last instruction that goes on |
| `ChunkVerify.OpenEndFallsOff` | shell_lite/chunk.cpp:154-312 | acceptance alone is not enough for that: the chunk of a lone OP_NULL is accepted and control leaves it |
| `VerifiedOperands.AcceptedExactly` | shell_lite/chunk.cpp:154-312 | a chunk is accepted exactly when some list of addresses divides it into instructions that are whole, name constants that are there, slots below 1024 and functions whose upvalue pairs are there, and jump to addresses of the list |
| `VerifiedOperands.OperandsAreLegal` | shell_lite/chunk.cpp:161-248 | on every path through an accepted chunk each instruction reached has such operands |
| `VerifiedOperands.NeverWithoutInstruction` | shell_lite/vm.cpp:703-2060 | on an accepted chunk of scripts with a closed end the machine always has an instruction to run |
| `VerifiedOutput.CompiledCodeIsAccepted` | shell_lite/chunk.cpp:154-312 | the verifier accepts every compiled script with at most 1024 slots, and control cannot fall off its end |
| `VerifiedOutput.AcceptedChunkRunsOnBoundaries` | shell_lite/vm.cpp:703-2060 | on an accepted chunk of scripts the machine, and every open handler, only ever stand at instruction starts |
| `AcceptedFunctions.EveryFunctionIsAccepted` | shell_lite/compiler.cpp:605-676 | of every compiled program the verifier accepts each function, at any depth, with at most 1024 locals at once: with its closures and their upvalue pairs, captured variables and calls |
| `AcceptedFunctions.VariablesExist` | shell_lite/compiler.cpp:347-378 | every slot, upvalue and captured variable that compiled code names exists in its function or the one around it, which the verifier does not check; whose they are is `NamesFound.EveryNameIsItsVariable` |
| `NamesFound.EveryNameIsItsVariable` | shell_lite/compiler.cpp:347-378 | in the code of a script and of all functions in it, at any depth, the instructions that name variables are the uses of the source in order: a local instruction names the latest local of that name, an upvalue followed through the captured pairs of the functions around ends at the latest local of the name in the nearest function that has one, and a global of the name stands exactly where no function around has such a local |
| `NamesFound.ReadDone` | shell_lite/compiler.cpp:418-435 | the same for one variable read |
| `NamesFound.StoreDone` | shell_lite/compiler.cpp:207-227 | the same for one assignment, which in a function makes a local exactly of a name that is nowhere |
| `ClosureNames.CaptureMeans` | shell_lite/compiler.cpp:365-378 | looking a name up around changes no names, and what it returns leads to the latest local of the name in the nearest function around that has one, or to none exactly if there is none |
| `ClosureKept.ScriptIsWellMade` | shell_lite/compiler.cpp:605-676 | every function of a program ends in a return, has its jumps on instructions and its operands in range |
| `ClosureSeals.CaptureGood` | shell_lite/compiler.cpp:365-378 | looking a name up through the functions around keeps every recorded capture valid and returns an upvalue that exists |
| `Scanner.Phase1Scan` | shell_lite/gbp_core_logic.cpp:87-276 | the whole-text scanner, which starts over behind an unterminated comment, finds the lines of the definition that `LineResults.LinesAreThePieces` gives without an automaton |
| `LogicalLines.LinesAreFound` | shell_lite/gbp_core_logic.cpp:87-276 | for every text written from characters, strings, long strings, comments and continued lines: a newline of its own ends a logical line exactly when, for each kind of bracket, from no place since the line began there are more openings than closings, and one inside a string, a block comment or behind a backslash does not |
| `LineResults.LinesAreThePieces` | shell_lite/gbp_core_logic.cpp:87-276 | the pieces between these newlines, joined by them, are the text, and the scanner finds those that are closed and hold code, in order, each with its line number and the width of its spaces and tabs |
| `LineResults.EveryTextHasPieces` | shell_lite/gbp_core_logic.cpp:87-276 | every such text has these pieces |
| `LineResults.CodeFromHere` | shell_lite/gbp_core_logic.cpp:62-85 | a line counts exactly if something in it is neither blank nor a comment |
| `LineResults.PlainNewlineEnds` | shell_lite/gbp_core_logic.cpp:87-276 | in a text without quotes, comments and backslashes a newline ends the line exactly when all three kinds of brackets are closed, counted on the text itself, or a definition follows |
| `LineResults.PlainItems` | shell_lite/gbp_core_logic.cpp:87-276 | every such text is written from its characters |
| `LineResults.DefinitionsAre` | shell_lite/gbp_core_logic.cpp:10-31 | a definition line begins with one of twelve keywords, as a word |
| `Scanner.ScanChunk` | shell_lite/gbp_core_logic.cpp:296-492 | the scanner of a piece finds the same definition's lines of that piece |
| `Scanner.FindCleanSplitPoints` | shell_lite/gbp_core_logic.cpp:494-582 | finds exactly the places of the definition that `LineResults.PointsAreTheBegins` gives without an automaton |
| `LineResults.PointsAreTheBegins` | shell_lite/gbp_core_logic.cpp:494-582 | under the condition of `Phase1ScanParallel` these are the places where the pieces of the text begin, all of them, in order, and no others |
| `Scanner.Phase1ScanParallel` | shell_lite/gbp_core_logic.cpp:584-660 | for any number of threads the result is that of the sequential scan, if an anchor line starts inside a block comment that was opened under an open bracket only where the comment is never closed |
| `Chunking.PiecesMakeWhole` | shell_lite/gbp_core_logic.cpp:584-660 | the lines of all pieces, put together, are the lines of the whole, for any cuts where the scan, with its restarts behind comments that are never closed, starts a line |
| `Chunking.PointsAreGood` | shell_lite/gbp_core_logic.cpp:494-582 | under that condition the scan of the whole, with its restarts, starts a line at every split point |
| `Chunking.LineOfCut` | shell_lite/gbp_core_logic.cpp:605-640 | the line number given to a piece is that of its first character |
| `Chunking.CrookedPieces` | shell_lite/gbp_core_logic.cpp:584-660 | a text with an anchor line in a closed block comment under an open bracket: its pieces do not make the whole |
| `CacheSpec.CacheAgreesWithScan` | shell_lite/gbp_chunk_cache.cpp:33-159 | chunks that tile a text, and that a scan of it would start at, hold exactly the scan's lines |
| `CacheSpec.EditedTiles` | shell_lite/gbp_chunk_cache.cpp:173-290 | after an edit inside one chunk the recut and moved chunks tile the new text |
| `CacheSpec.LostStart` | shell_lite/gbp_chunk_cache.cpp:190-222 | chunks of which a later one starts at byte 0 tile nothing |
| `ChunkCache.TopologicalChunkCache.BuildFromSource` | shell_lite/gbp_chunk_cache.cpp:33-159 | a fresh build tiles the text, one chunk for each anchor line outside of strings and comments |
| `AnchorResults.AnchorsAreFound` | shell_lite/gbp_chunk_cache.cpp:33-159 | it cuts behind every newline outside of strings and comments that a definition follows, also under open brackets and behind a backslash, and nowhere else |
| `ChunkCache.TopologicalChunkCache.FindChunkIndex` | shell_lite/gbp_chunk_cache.cpp:161-171 | the binary search finds the chunk that holds the line, or none |
| `ChunkCache.TopologicalChunkCache.ApplyEdit` | shell_lite/gbp_chunk_cache.cpp:173-290 | an incremental update leaves a cache of the new text exactly when the edited chunk is the first or still starts before the end of the text; every other update builds afresh |
| `ChunkCache.Verdict` | shell_lite/gbp_chunk_cache.cpp:203-290 | that condition, for any spliced cache |
| `ChunkCache.LostEditBreaksCache` | shell_lite/gbp_chunk_cache.cpp:190-222 | an edit that deletes the last chunk's only line: the chunk is rescanned from byte 0, and the cache no longer tiles the text |
| `CacheSpec.LostExample` | shell_lite/gbp_chunk_cache.cpp:190-222 | such a text and edit |
| `Linking.TopologyLinking` | shell_lite/gbp_core_logic.cpp:724-732 | each line's parent is the nearest line above it with less indentation, and the children lists hold exactly the inverse |
| `Linking.GPDAStackManager.ProcessNode` | shell_lite/gbp_core_logic.cpp:701-722 | one line is linked, and the stack keeps the chain of open parents |
| `Linking.ParentIsUnique` | shell_lite/gbp_core_logic.cpp:701-722 | a line has at most one parent |
| `Linking.ChildrenInvertParents` | shell_lite/gbp_core_logic.cpp:701-722 | a line is in the children of another, once and in order, exactly if that is its parent |
| `Linking.LinesFormForest` | shell_lite/gbp_core_logic.cpp:724-732 | going up from any line ends at a root, with less indentation at every step |
| `Gc.GCArena.CollectInternal` | shell_lite/gc.cpp:192-262 | a collection keeps exactly the objects reachable from the roots, that is those to which a chain of objects leads of which each is held by the one before, kind by kind; relinks exactly those in their order, and drops exactly the dead strings from the intern table |
| `Gc.ReachableIsClosed` | shell_lite/gc.cpp:264-337 | the reachable objects hold the roots and all their children |
| `Gc.ReachableIsLeast` | shell_lite/gc.cpp:264-337 | and are the least such set |
| `Gc.ReachableByTrails` | shell_lite/gc.cpp:192-337 | what is marked is what such chains lead to: values of lists and dictionaries, the result of a completed task, and so on for each kind |
| `Gc.KeptFacts` | shell_lite/gc.cpp:192-262 | sweeping keeps the marked objects of the list and no others, each once |
| `Gc.GCArena.TransferTo` | shell_lite/gc.cpp:102-125 | an arena handed over: the other's list is its objects followed by the other's own, and it is empty; handed to itself, nothing changes |
| `Gc.GCArena.PushTempRoot` | shell_lite/gc.cpp:127-131 | a temporary root is pushed |
| `Gc.GCArena.RemoveTempRoot` | shell_lite/gc.cpp:133-142 | the last entry of that root goes, and nothing else |
| `DeepCopy.DeepCopy` | shell_lite/value.cpp:12-21 | a clone is the image of its original under one injective map from originals to fresh objects, with cycles and sharing |
| `DeepCopy.CopyHasSamePaths` | shell_lite/objects.cpp:236-257 | every path in the original leads, in the copy, to the image of where it led |
| `DeepCopy.CopyHasOnlySamePaths` | shell_lite/objects.cpp:236-257 | and the copy has no other paths |
| `DeepCopy.ImagesDiffer` | shell_lite/objects.cpp:236-257 | different objects have different copies |
| `DeepCopy.OnlyFrozenShared` | shell_lite/value.cpp:12-21 | a copy shares only frozen objects with the original |
| `SharedCells.StepIsGood` | shell_lite/vm.cpp:632-658 | slots name different cells, through every step |
| `Upvalues.VM.RunAll` | shell_lite/vm.cpp:632-658 | over whole runs, with stack growth, calls, returns and unwinding, the machine with its linked list of open upvalues does what named cells say |
| `Upvalues.Observed` | shell_lite/vm.cpp:632-658 | a slot and every closure that captured it read the same cell |
| `IteratorSlot.ScopeClosesCaptured` | shell_lite/compiler.cpp:298-325 | at the end of a scope, and on the way out of a loop, each slot is closed if its variable was captured and popped if not |
| `IteratorSlot.IteratorStaysFree` | shell_lite/compiler.cpp:1127-1165 | the iterator of a for-in is not captured when the loop drops it, if no function in the loop's body, at any depth, names it |
| `IteratorSlot.IteratorIsPopped` | shell_lite/compiler.cpp:1127-1165 | the loop ends in a plain pop, whatever was captured |
| `IteratorSlot.IteratorIsCaptured` | shell_lite/compiler.cpp:1127-1165 | a for-in with a function that returns `_iter`: the iterator is captured, and popped all the same |
| `IteratorSlot.PlainPopIsSafe` | shell_lite/vm.cpp:632-658 | a plain pop leaves to every closure what it reads, whatever is pushed next, exactly when no open upvalue points to the slot |
| `Upvalues.VM.CaptureUpvalue` | shell_lite/vm.cpp:632-648 | a slot is captured at most once; a second capture returns the first upvalue |
| `Upvalues.VM.CloseUpvalues` | shell_lite/vm.cpp:651-658 | exactly the upvalues at or above a slot take their values along |
| `Upvalues.VM.GrowStack` | shell_lite/vm.cpp:453-471 | after growing, stack, frames and open upvalues refer to the same values |
| `StringLiteral.UnescapeInvertsEscape` | shell_lite/formatter.cpp:134-180 | unescaping an escaped string gives it back, for all byte strings |
| `StringLiteral.LiteralIsDelimited` | shell_lite/lexer.cpp:230-268 | the lexer ends a printed literal at its closing quote, exactly unless it is empty and a quote follows |
| `StringLiteral.LiteralRoundTrip` | shell_lite/parser/parser_expressions.cpp:24-89 | a printed literal is read back as its string |
| `FileFormats.LiteralBytes` | shell_lite/formatter.cpp:134-180 | how each byte is escaped: nine with a letter, the other controls as two hexadecimal digits, the rest as they are |
| `Expressions.Formatter.EmitExprPrec` | shell_lite/formatter.cpp:773-800 | parentheses go around an operand exactly where precedence and side ask for them |
| `Expressions.NestingIsPrinted` | shell_lite/formatter.cpp:733-832 | the printed tokens are balanced, and their deepest nesting is that of the tree |
| `ExpressionParser.SubParser.ParseExpression` | shell_lite/parser/parser_expressions.cpp:978-982 | the recursive descent returns what the grammar gives, which groups as `Grouping.ChainIsGrouped` says, with its nesting limit, and restores its depth counter on every way out |
| `ExpressionParser.SubParser.ParseLeft` | shell_lite/parser/parser_expressions.cpp:226-475 | the same for the left-associative levels |
| `ExpressionRoundTrip.PrecedencesAgree` | shell_lite/formatter.cpp:733-772 | the printer's precedences and the parser's levels agree on where parentheses are needed |
| `Grouping.ChainIsGrouped` | shell_lite/parser/parser_expressions.cpp:226-475 | any number of operands, with operators between them in any order, are parsed to the tree whose root is the last of the weakest operators, or the first if that is the power, and so on in both parts; weak and strong by the list or, and, bitwise or, exclusive or and and, equality, comparison and `in`, shifts, sums, products, power |
| `Grouping.ChainHasTree` | shell_lite/parser/parser_expressions.cpp:226-475 | there is always such a tree |
| `Grouping.ThreeOperands` | shell_lite/parser/parser_expressions.cpp:226-475 | three operands group to the right exactly when the second operator is the tighter one or both are powers |
| `Grouping.StrengthsAre` | shell_lite/formatter.cpp:733-772 | the levels of the parser are the places in that list |
| `Grouping.SymbolsAre` | shell_lite/formatter.cpp:733-832 | the tokens of each operator |
| `Grouping.OperandTokens` | shell_lite/parser/parser_expressions.cpp:458-475 | a prefix operator stands before its operand and takes it before any operator between |
| `ExpressionRoundTrip.PrintThenParse` | shell_lite/parser/parser_expressions.cpp:12-22 | parsing the printed tokens gives the tree back exactly up to the nesting limit, and the nesting error beyond it |
| `ExpressionRoundTrip.PrintsApart` | shell_lite/formatter.cpp:733-832 | different trees print differently |
| `ExpressionRoundTrip.FormatThenParse` | shell_lite/formatter.cpp:733-832 | printer and parser, run one after the other |
| `Glob.GlobMatch` | shell_lite/formatter.cpp:1370-1389 | the loop with its one point of return computes the backtracking definition of `Loop` |
| `Glob.LoopDecides` | shell_lite/formatter.cpp:1370-1389 | from any state the loop finds a match exactly if there is one, on texts without stars |
| `Glob.RightExactlyWithoutStars` | shell_lite/formatter.cpp:1370-1389 | the matcher is right for every pattern exactly when the text holds no star |
| `EditScript.NoScriptKeepsMore` | shell_lite/main.cpp:490-518 | no edit script between two texts keeps more lines than their longest common subsequence has |
| `Diff.FillTable` | shell_lite/main.cpp:490-494 | the flat table holds the lengths of the longest common subsequences of all suffixes |
| `Diff.Walk` | shell_lite/main.cpp:500-518 | walking the table yields the greedy script |
| `Diff.ScriptIsFaithful` | shell_lite/main.cpp:500-518 | its two sides are the two texts, and it keeps as many lines as possible |
| `Diff.ScriptIsBest` | shell_lite/main.cpp:500-518 | no other script keeps more |
| `Diff.HunkWriter.Write` | shell_lite/main.cpp:519-611 | the hunks are slices of the script in order, with their line numbers and counts, every line outside of them is kept, and only the last can be without a change, exactly when the script ends in a long run of kept lines or only keeps |
| `Diff.UnifiedDiff` | shell_lite/main.cpp:475-611 | applying the diff to the old text gives the new one, and backwards; with too large a table it lists both texts whole |
| `EditScript.PatchMakesNew` | shell_lite/main.cpp:519-611 | any hunks cut from a script patch its old side to its new side |
| `EditScript.PatchMakesOld` | shell_lite/main.cpp:519-611 | and, flipped, back |
| `Diff.BodiesAreBest` | shell_lite/main.cpp:482-489 | the whole listing is a best diff exactly when the texts have no line in common |
| `Diff.LinesHoldText` | shell_lite/main.cpp:459-473 | splitting into lines loses nothing but a missing last newline |
| `Diff.LastHunk` | shell_lite/main.cpp:519-611 | the last hunk has a change exactly unless the script only keeps lines or ends in more than six kept ones |
| `SymbolIndex.TilesAreAnalysis` | shell_lite/lsp_server.py:257-350 | chunks that tile a document hold exactly the lines and symbols of a whole analysis |
| `Definitions.NodesAre` | shell_lite/lsp_server.py:287-350 | an analysis lists, for each line that defines something, in order, its kind and name, the number of the line and the columns of the name |
| `Definitions.WarningsAre` | shell_lite/lsp_server.py:287-350 | it warns once at each line that defines a function again, with the line of the latest definition before it |
| `Definitions.FirstIsNamed` | shell_lite/lsp_server.py:287-350 | that line is the first definition's, as the warning's text has it, exactly if there is only one before |
| `Definitions.ThirdNamesSecond` | shell_lite/lsp_server.py:287-350 | three definitions of one function: the last warning names the second |
| `SymbolIndex.EditKeepsTiles` | shell_lite/lsp_server.py:121-206 | replacing the edited chunk and moving the later ones keeps the tiling |
| `SymbolIndex.MovedDiagnostics` | shell_lite/lsp_server.py:121-206 | one chunk's diagnostics, moved by renumbering their lines, are those of reading the chunk again exactly if nothing moves or there are none, because their texts name the old line |
| `Redefinitions.WarningsAreFresh` | shell_lite/lsp_server.py:121-206 | the redefinition warnings of an updated document are those of a new analysis exactly when, for every line that defines a function again, the definition before it stands in the line's own chunk either in both or in neither, and where it does the chunk has not moved since it was read |
| `Redefinitions.SplitIsMissed` | shell_lite/lsp_server.py:121-206 | two lines of one chunk, replaced by two definitions of one function: the update warns and a new analysis does not |
| `LspDocument.ShellLiteDocument.Update` | shell_lite/lsp_server.py:121-206 | after any update the document's symbols and nodes are those of a fresh analysis of the new lines, and its warnings exactly under the condition of `WarningsAreFresh` |
| `LspDocument.ShellLiteDocument.ParseAndAnalyze` | shell_lite/lsp_server.py:257-286 | a fresh analysis makes exactly the chunks that start at line one and at the anchors outside block comments |
| `LspDocument.ShellLiteDocument.AnalyzeLines` | shell_lite/lsp_server.py:287-350 | the lines, symbols and diagnostics of a stretch |
| `ValueCodec.ValueRoundTrip` | shell_lite/value.cpp:158-295 | reading a written value gives it back, and consumes just its bytes, exactly if it is data within the limits |
| `ValueCodec.SerializeValue` | shell_lite/value.cpp:158-221 | the bytes appended |
| `ValueCodec.DeserializeValue` | shell_lite/value.cpp:222-295 | the value read, for all byte streams, also malformed ones |
| `FileFormats.TableOfTwo` | shell_lite/value.cpp:158-221 | the bytes of a table and of an instance: tags, counts and lengths in four bytes, the lowest first |
| `FileFormats.ListOfTwo` | shell_lite/value.cpp:158-221 | the bytes of a list |
| `ShbcCodec.FunctionRoundTrip` | shell_lite/objects.cpp:73-159 | reading a written function gives it back exactly if its counts fit, its constants can be stored, and its chunks pass the verifier |
| `ShbcCodec.ChunkRoundTrip` | shell_lite/chunk.cpp:35-152 | the same for chunks |
| `ShbcFile.SerializeFunction` | shell_lite/objects.cpp:73-106 | the bytes appended for a function |
| `ShbcFile.DeserializeFunction` | shell_lite/objects.cpp:108-159 | the function read or the error thrown, for all byte streams |
| `FileFormats.ChunkFile` | shell_lite/chunk.cpp:35-77 | the bytes of a chunk: its mark `SHBC`, its version, constants, code and places |
| `FileFormats.FunctionFile` | shell_lite/objects.cpp:73-106 | the bytes of a function, version 1.2, with its chunk |
| `JsonRoundTrip.PrintThenParse` | shell_lite/modules/module_core.cpp:881-1125 | printing succeeds exactly up to a thousand levels, and parsing then gives the value back, for every indentation, exactly when each integer in it is below 10^15 or is the number nearest to its first six digits |
| `JsonRoundTrip.LargeIsExact` | shell_lite/modules/module_core.cpp:908-916 | from 10^15 up to nine times that, these are exactly the multiples of 10^10 |
| `JsonRoundTrip.LargeIsRounded` | shell_lite/modules/module_core.cpp:908-916 | 1234567890123456 is not read back |
| `JsonRoundTrip.QuotedControls` | shell_lite/modules/module_core.cpp:887-903 | a printed string holds no control byte, as section 7 of RFC 8259 demands, exactly when its control bytes are among the five with a short escape |
| `JsonRoundTrip.TextControls` | shell_lite/modules/module_core.cpp:904-980 | a printed value holds no control byte but the newlines of its indentation exactly when that is so of every string and key in it |
| `JsonRoundTrip.ControlIsPrintedRaw` | shell_lite/modules/module_core.cpp:887-903 | the string of one byte 1 is printed as it is |
| `JsonText.JsonStringify` | shell_lite/modules/module_core.cpp:881-990 | the printer, with its depth limit |
| `FileFormats.JsonOfParts` | shell_lite/modules/module_core.cpp:904-980 | the text of a list is its elements, and of a dictionary its keys and values, between brackets with commas and colons as in RFC 8259, on one line or indented by a level for each line |
| `FileFormats.JsonOfWords` | shell_lite/modules/module_core.cpp:887-903 | the words, and the escapes of strings |
| `JsonText.JsonParser.ParseAll` | shell_lite/modules/module_core.cpp:992-1125 | the parser, for all texts, also malformed ones |
| `Channel.EveryRun` | shell_lite/objects.cpp:171-223 | in every interleaving values are delivered in the order of acceptance, each at most once and as it was when its send began, and null only from a closed channel, which accepts nothing more |
| `Channel.StepKeepsInvariant` | shell_lite/objects.cpp:171-223 | what every step of every thread keeps |
| `Channel.RunKeepsInvariant` | shell_lite/objects.cpp:171-223 | and so every run |
| `Channel.ObjChannel.Enqueue` | shell_lite/objects.cpp:171-181 | the half of a send under the lock is that step |
| `Channel.ObjChannel.Dequeue` | shell_lite/objects.cpp:199-213 | the half of a receive under the lock is that step |

## Findings

Properties that the code does not have: what it does, an input, and what was intended with the
condition under which it holds. Every row is proved by the members named in it.

| source | as written | input | intended, and when it holds | confidence |
|---|---|---|---|---|
| shell_lite/compiler.cpp:60-66 | the value of a bare `true`, `false` or list literal that stands as a statement stays on the stack and shifts the slots made after it (`Unclean.BareTrueIsMiscompiled`) | `true`, then `repeat 1` with a body that prints | a script does what it says; shown when there is no counted loop, for-in or try from the first top-level statement on that has a bare literal in it (`Correctness.CompiledCodeMeansSource`) | proved |
| shell_lite/compiler.cpp:1127-1165 | the hidden slot of the iterator has the name `_iter`, and assignments find it (`Unclean.HiddenNameIsMiscompiled`) | a for-in body that assigns to `_iter` | a script does what it says; shown when `_iter` is not used inside a for-in (`Correctness.CompiledCodeMeansSource`) | proved |
| shell_lite/compiler.cpp:1155-1156 | the iterator's slot is popped plainly even if a function has captured it (`IteratorSlot.IteratorIsCaptured`) | a for-in whose body defines a function that returns `_iter` | a captured slot is closed; shown when no function in the body names `_iter` (`IteratorSlot.IteratorStaysFree`), and a plain pop is safe exactly when no upvalue points to the slot (`IteratorSlot.PlainPopIsSafe`) | proved |
| shell_lite/compiler.cpp:986-1002 | the handler counts a local that its try body made, and an error has taken away (`FunctionExact.TryLosesLocal`) | a function whose try body assigns a variable for the first time from a call | the stack has the height the compiler counts on; in functions of which every statement can be reached, exactly when no bare literal, list, dictionary, index or nameless function stands as a statement and no try body and no `unless` body makes a local (`FunctionExact.RightExactlyWhenBalanced`) | proved |
| shell_lite/compiler.cpp:1469-1481 | a local made in the body is counted also where the body is left out (`FunctionExact.UnlessLosesLocal`) | a function whose `unless` body assigns a variable for the first time | as above | proved |
| shell_lite/ast_nodes.hpp:100 | a bare literal, list, dictionary, index or nameless function in a function leaves its value on the stack (`FunctionExact.LiteralTakesSlot`) | a function of `true` and then `x = 1` | as above | proved |
| shell_lite/chunk.cpp:154-312 | the verifier does not ask how the code ends (`ChunkVerify.OpenEndFallsOff`) | the chunk of one OP_NULL | control stays in an accepted chunk; exactly when no path reaches a last instruction that goes on (`ChunkVerify.StaysExactlyWithoutOpenEnds`), which its last opcode alone can rule out (`ChunkVerify.AcceptedCodeStaysOnInstructions`) | proved |
| shell_lite/gbp_core_logic.cpp:584-660 | the finder of split points leaves a block comment, opened under an open bracket, at an anchor line, and the scanner stays in it (`Chunking.CrookedPieces`) | such a comment, closed later | the pieces make the whole; shown when no anchor line starts inside such a comment that is closed (`Scanner.Phase1ScanParallel`) | proved |
| shell_lite/gbp_chunk_cache.cpp:190-222 | a start line that is not found counts as byte 0 (`ChunkCache.LostEditBreaksCache`) | `to a`, `to b`, and the second line is deleted | the cache tiles the new text; exactly when the edited chunk is the first or still starts before the end of the text (`ChunkCache.TopologicalChunkCache.ApplyEdit`) | proved |
| shell_lite/lsp_server.py:121-206 | moved diagnostics keep the line number in their text (`SymbolIndex.MovedDiagnostics`), and a chunk is read again as one even where new definitions would start chunks of their own (`Redefinitions.SplitIsMissed`) | a line added above a chunk with a warning; two plain lines replaced by two definitions of one function | the warnings are those of a new analysis; exactly when each repeated definition has the one before it in its own chunk either in both or in neither, and where it has, that chunk has not moved since it was read (`Redefinitions.WarningsAreFresh`) | proved |
| shell_lite/lsp_server.py:287-350 | a redefinition warning says where the function was first defined, and gives the line of the latest definition before it (`Definitions.ThirdNamesSecond`) | three definitions of one function | the warning names the first definition; exactly when only one definition comes before it (`Definitions.FirstIsNamed`) | proved |
| shell_lite/formatter.cpp:1370-1389 | a star in the pattern is first compared as a character | a text with a star | the pattern matches as globs do; for all patterns exactly when the text has no star (`Glob.RightExactlyWithoutStars`) | proved |
| shell_lite/lexer.cpp:230-268 | two quotes and a third begin a long string | an empty string literal before another quote | a printed literal ends at its closing quote; exactly when it is not empty or no quote follows (`StringLiteral.LiteralIsDelimited`) | proved |
| shell_lite/main.cpp:519-611 | after a long run of kept lines a hunk is begun, whether or not a change follows | equal texts, or texts that end in more than six kept lines | every hunk holds a change; exactly when the script does not end so (`Diff.LastHunk`) | proved |
| shell_lite/modules/module_core.cpp:908-916 | integers from 10^15 on are printed with six digits (`JsonRoundTrip.LargeIsRounded`) | 1234567890123456 | printed values are read back; exactly when each integer is below 10^15 or the number nearest to its first six digits (`JsonRoundTrip.PrintThenParse`) | proved |
| shell_lite/modules/module_core.cpp:887-903 | control bytes without a short escape are printed as they are (`JsonRoundTrip.ControlIsPrintedRaw`) | the string of one byte 1 | strings keep to section 7 of RFC 8259; exactly when their control bytes are among 8, 9, 10, 12 and 13 (`JsonRoundTrip.TextControls`) | proved |

## Left out

- CompiledCodeMeansSource: functions, classes, `match`, `try` with `always`, comprehensions, dictionaries as literals, imports and tasks are not part of the meaning; numbers are real numbers, and a bare literal in or before a top-level statement that holds a counted loop, a for-in or a try is not covered.
- HaltedMeansSource: the turn limit of the event loop and the memory of the machine are unbounded.
- SimForIn: the iterator is a value on the stack, not a heap object, and dictionaries are not values of the model.
- SimS: bare literals as statements, which `Leftovers.SimTop` takes where no slots are made.
- BoundariesAreBalanced: code is kept by its effect on heights; whether an operation raises and how a condition comes out is left open, and `try` with `always`, `match` and comprehensions are not modelled.
- RightExactlyWhenBalanced: for functions with unreachable statements only one direction is shown, that balanced functions are right.
- EveryFunctionIsAccepted: chained assignments, classes, comprehensions, `match`, `try` with `always`, tasks and keyword arguments are not generated.
- AcceptedChunkRunsOnBoundaries: the machine of scripts, which has no calls.
- StepIsGood: that a captured slot is closed instead of popped is a condition of the runs; that scopes and loop exits emit it, and where a for-in does not, is shown of the code alone.
- RunAll: frames hold a base and no code; values are opaque.
- CollectInternal: byte accounting, thresholds and the generational counters are not modelled; the children of an object are a sequence of references.
- DeepCopy: lists and dictionaries of values; functions, classes and channels are cloned the same way and are left out.
- ApplyEdit: diagnostics, which are kept like nodes, and two texts with equal hashes.
- LinesAreFound: texts with a string or a comment that is not closed, with a newline in a one-line string before a definition line, or with a backslash in code that no newline follows.
- EveryNameIsItsVariable: the names of properties and methods.
- Phase1ScanParallel: the threads of one call share nothing, so their order is not modelled.
- Write: how many kept lines a hunk shows around its changes.
- Update: the line rules, which are regular expressions, are a parameter; how Python splits lines is not modelled.
- FunctionRoundTrip: the verifier is a parameter.
- PrintThenParse: in JSON the text of a number with a fraction is a parameter, and dictionaries are in one order; in expressions a character-level lexer of operators, calls, and the forms `is` and assignment are not modelled.
- UnifiedDiff: the overflow of the table size in machine words.
- EveryRun: blocking and liveness of threads.
- DeserializeValue: allocation failures.
- The event loop, networking, databases, web and desktop modules, classes, the bridge and the package tools: they would add input and output and easy members.
