# Anode: a verified model of the compiler's core

Anode is a small compiler: a lexer and a Pratt parser build a tree, passes over the tree expand templates, resolve
names, make classes from generic classes and insert implicit casts, and an emitter turns each function into LLVM
basic blocks. This project models those parts and proves what they are for. `dafny verify dfyconfig.toml` checks it.

The main results, in the order of the pipeline:

- **Reading.** The buffered reader is a cursor over its input with exact locations; a nested comment is its shortest
  balanced prefix; a decimal integer reads back as itself exactly when it fits 32 bits (`Lexer`). What is dropped
  before a token is exactly its white space and comments, properly nested text in comment marks is one comment, and a
  comment can stand for any space (`Blanks`, `NestedComments`, `Characters`).
- **Parsing.** A tree is *well bound* when every operator in it stands where its precedence allows, seen from the
  tokens around it (`Grammar`). The parser returns a tree if and only if it is the well bound tree of the tokens it
  consumed, and there is only one (`ParseCorrect`). Of two operators in a row the right one comes first exactly when it
  is on a higher level of the list of levels, or both assign (`Levels`). The class in `ParserClass` is the parser with its loops and its two
  stacks; it yields the nodes of these trees, with exact write marks and storage kinds (`Build`), and `Marks` follows
  the marks to the emitter.
- **Printing.** Every node the parser can build has a written form (`Forms`, `FormNodes`, `Reprinting`). Parentheses
  are put into it where they are needed (`Parens`), which makes it well bound exactly when no statement of a block but
  the first begins with `(` or `!` (`Lookahead`, `Guarding`); otherwise no parentheses help, and an expression gets
  them only if every source text has them (`Stripping`, `Needed`). So printing is undone by parsing, for expressions
  in any place and for modules, and where it is not there is no text of the written form at all (`Printing`). Forms
  with a second spelling stand for the same nodes (`Spellings`).
- **Templates.** Text is copied into tables of scopes with parents, names are defined pass by pass, copy by copy
  (`Programs`), and what a module goes through up to its first error is its course (`Expansion`). The class in
  `Templates` follows it: expansion ends, its first error is the first thing that goes wrong, and a circle is reported
  exactly when it is that or a site still to come hits an active template. With clear names that means: when some site
  reaches a circle, unless a name is found taken first (`Circles`, `ClearNames`, `TakenNames`). A module without an
  error leaves the symbols and uses of names that its text with the copies pasted in has; with clear names, a module
  that unfolds is without an error exactly when that text has no name defined twice (`Landings`, `Pasting`,
  `Spreading`). Every copy reads as the body of the template its site found, under a scope that holds exactly its
  parameters (`Copies`).
- **Scopes, names, generics.** Chains of parents are the lexical ones (`Scopes`); qualified names find what namespaces
  hold, namespaces in namespaces included (`QualifiedNames`); references to generics share a class exactly when they agree (`Generics`).
- **Casts.** The cast pass preserves meaning, is idempotent and adds nothing but casts; when it gets through, how many
  errors it reports, which bodies the checks accept and which of these the emitter can handle is read off the source
  exactly (`CastTypes`, `CastMeaning`, `CastNodes`, `CastErrors`, `Acceptance`, `Pipeline`).
- **Emission.** Running the emitted blocks is evaluating the tree, in both directions, divergence and undefined
  division included (`Simulation`, `Functions`), and a function passes module verification, dominance of definitions
  over uses included, exactly when no operand of `&&` or `||` opens a block (`Dominance`, `ModuleCheck`).
  `Pipeline.CompiledCodeMeansSource` and `Pipeline.CompiledCodeDiverges` join passes and emitter. What integer
  operators compute, and which operators and conversions there are, is said without the functions that evaluation and
  code share (`Arithmetic`).
- **Types.** Class types that refer to each other in cycles are translated once each, and every field is accessed
  through the slot of its type (`TypeMaps`).

Code that the source writes by changing things in place (the builder, the node rewriting, the parser, the reader,
the maps, the stacks) is a class here, and each method is proved against a function or states its whole effect; the
theorems are about those functions. An evaluation or a run is indexed by fuel or by steps; only loops use fuel. A
failed debug assertion of the source is an outcome (`Crash`, `None`, `false`), in the emitter too: its methods fail
exactly on the trees that are not `Emittable`, and `Pipeline` proves exactly which programs that the passes accept
get there.

Floats are 32-bit patterns, and their arithmetic, comparisons and conversions are a parameter (`FloatOps`), the same
one for the evaluator and the machine: the theorems hold for every choice of it. Doubles are only loaded and stored.

## Where the code differs from what one would expect

The model follows the code. These are consequences of it that the proofs made exact:

- `a && b && c`, or any `&&` or `||` with an operand that opens a block, is emitted with a phi that names the wrong
  blocks, because its sources are fixed before the operands are emitted
  (`src/back/ExprStmtAstVisitor.cpp:375-414`). The module is then refused. The exact condition is in
  `ModuleCheck.VerifiedExactlyWhenLogicalOk`, and `Functions.EmissionPreservesMeaning` has it as its precondition.
- A loop condition is examined before its own parts are rewritten (`src/front/passes/AddImplicitCastsPass.h:102-117`):
  `while (i && j)` on ints is cast to bool although it becomes one, and `while (1 + 2.0)` is asked for a type it does
  not have yet. Both fail debug assertions. `CastTypes.LoopConditionExactly` says exactly which loops get through.
- Void can be cast implicitly to every scalar type (`src/include/anode/front/type.h:219-232`), so operands without a
  value are accepted by the checks and reach an assertion in the emitter; relational operators on bools reach an
  unhandled case there. `Pipeline.EmittableExactlyWhenClean` names exactly the accepted trees that are safe.
- `!` parses its operand at precedence 0, so `!a && b` is `!(a && b)`; it also has an infix precedence but no infix
  parselet (an error is reported and then a missing function is called), so a statement cannot be followed by one
  that begins with `!`, nor by one that begins with `(`, which reads as a call
  (`ParseCorrect.OperandsBindTighter`, `ParseCorrect.StatementsBeginPlainly`). A block whose second statement is a
  negation therefore cannot be written (`Printing.SecondNegationHasNoSource`).
- A circular reference is not always reported: a copy that finds a name taken reports that, and from then on the
  bodies of later copies are not visited (`src/front/passes/ast_passes.cpp:69-80`). In
  `template T { x:int } template C { expand C } expand T expand T expand C` the second copy of `T` finds `x` taken, and
  the circle of `C` goes unnoticed (`TakenNames.CircleAfterTakenName`). `ClearNames.CircleReportedExactly` has the exact
  condition.
- Copies are populated after the module around them, so in `expand T x:int`, where `T` defines `x`, the module's `x` is
  kept and the copy's is refused; with the copy pasted in it is the other way round (`TakenNames.WhoseX`). With clear
  names there is an error in both or in neither (`Spreading.ErrorFreeExactlyWhenPasted`).
- `double` variables can be read, assigned and chosen between by `if`, but no operator and no cast has an emission for
  them (`src/back/ExprStmtAstVisitor.cpp:88-142`, `:283-372`, `Pipeline.EmittableExactlyWhenClean`).
- After a circular reference the site that reported it takes the template out of the set of active expansions,
  although an outer expansion of it is still going on. Expansion still ends, because the list of passes on a copy
  stops after the first pass that ends with errors (`Templates.Expander.ExpandSite`, `Templates.Expander.RunPasses`).
- `SourceReader::eof` is true only once a read past the end has been made (`Lexer.SourceReader.Eof`).
- A second field of one name takes a slot that no access by name reaches (`TypeMaps.ClassType.AddField`).

## Model

| member | source | states |
|---|---|---|
| `Types.ImplicitCastIsStrictOrder` | src/include/anode/front/type.h:219-232 | The branches of `canImplicitCastTo` are one strict total order on the five scalar types, Void < Int32 < Float < Double < Bool: a type can be cast to exactly the higher ones, and of two types exactly one direction is allowed |
| `Typing.OpcodeMeaning` | src/back/ExprStmtAstVisitor.cpp:283-372 | The instruction selected for an operator and a type computes what the evaluation of the operator does, undefined results included |
| `Typing.ConvMeaning` | src/back/ExprStmtAstVisitor.cpp:88-142 | The conversion selected for a pair of types computes the source conversion, and is undefined exactly where that is |
| `Arithmetic.IntegersWrap` | src/back/ExprStmtAstVisitor.cpp:283-372 | The sum, difference or product of two ints is, in the evaluation and in the emitted code, the one 32-bit integer that differs from the exact result by a multiple of 2^32 |
| `Arithmetic.DivisionTruncates` | src/back/ExprStmtAstVisitor.cpp:283-372 | The quotient of two ints is the one integer that leaves less than the divisor in size, with the sign of the dividend; it is undefined exactly when the divisor is zero or the quotient does not fit 32 bits |
| `Arithmetic.ComparisonsOfInts` | src/back/ExprStmtAstVisitor.cpp:283-372 | Comparisons of ints are those of the integers, each told from less and equal |
| `Arithmetic.IntsAsBools` | src/back/ExprStmtAstVisitor.cpp:88-142 | An int becomes true exactly when it differs from zero |
| `Arithmetic.LogicalTable` | src/back/ExprStmtAstVisitor.cpp:375-414 | The logical operators are conjunction and disjunction, and leave the memory of the right operand exactly when the left one does not decide |
| `Arithmetic.OpcodesExactly` | src/back/ExprStmtAstVisitor.cpp:283-372 | There is an instruction for an operator on a type exactly when the operator means something on values of the type: equality on bools, everything but assignment and logic on ints and floats |
| `Arithmetic.ConversionsExactly` | src/back/ExprStmtAstVisitor.cpp:88-142 | There is a conversion exactly from ints and floats to bools, ints and floats, which is where values have a meaning in the other type |
| `Arithmetic.VariablesExactly` | src/back/ExprStmtAstVisitor.cpp:203-206 | Variables of every type that has values can be read and stored |
| `Arithmetic.CastsGoUpAndDown` | src/include/anode/front/type.h:219-246 | Implicit casts go up the list Void, Int32, Float, Double, Bool; written casts go down the list Void, Bool, Int32, Float, Double, but never from bool; the join of two types is the later in the first list |
| `Arithmetic.AllInOrder` | src/include/anode/front/type.h:219-246 | Every scalar type is in both lists |
| `Typing.EvalTyped` | src/back/ExprStmtAstVisitor.cpp:268-560 | Evaluating a tree the emitter accepts keeps every variable at its type, and a tree with a value yields one of its own type |
| `EmitterFrame.EmitKeeps` | src/back/ExprStmtAstVisitor.cpp:268-560 | Emitting any expression into a usable insertion point leaves one: code already there is only appended to, no other block is touched, no register is reused, and there is a value whenever the tree has one |
| `WellFormed.LeavesBlock` | src/back/ExprStmtAstVisitor.cpp:375-497 | The insertion point is still in the block where it began exactly when the expression contains no logical operator, `if`, `while` or `assert` |
| `Simulation.Sim` | src/back/ExprStmtAstVisitor.cpp:268-560 | Forward simulation for every expression: started where its emission began, the machine reaches the place where it ended with the value, memory and outcome of the evaluation, stays undefined or failed where it does, and is still running after at least as many steps as an evaluation that ran out of fuel |
| `Simulation.SimArithmetic` | src/back/ExprStmtAstVisitor.cpp:268-373 | The same for arithmetic and comparisons, whose right operand runs before the left |
| `Simulation.SimAssign` | src/back/ExprStmtAstVisitor.cpp:275-280 | The same for an assignment: the value is stored and is the value of the whole |
| `Simulation.SimCast` | src/back/ExprStmtAstVisitor.cpp:88-142 | The same for conversions |
| `Simulation.SimLogical` | src/back/ExprStmtAstVisitor.cpp:375-414 | The same for logical operators whose operands open no block: the left operand decides alone or the right is run, and the phi yields the deciding value |
| `Simulation.SimIf` | src/back/ExprStmtAstVisitor.cpp:417-465 | The same for conditionals, nested in any way, with and without a value |
| `Simulation.SimWhile` | src/back/ExprStmtAstVisitor.cpp:467-497 | The same for loops |
| `Simulation.SimLoop` | src/back/ExprStmtAstVisitor.cpp:467-497 | From the head of a loop: every round takes at least one step, so a loop that never ends runs for ever |
| `Simulation.SimAssert` | src/back/ExprStmtAstVisitor.cpp:521-560 | The same for assertions: one that holds is counted, one that fails ends the run with its line |
| `Simulation.SimSeq` | src/back/ExprStmtAstVisitor.cpp:501-511 | The same for a sequence, whose value is the last one that is not absent |
| `Functions.CallFollows` | src/back/FuncDefStmtVistors.cpp:83-132 | One evaluation of a body fixes the call of its emitted function: it ends in the same way, or has run at least as long as there was fuel |
| `Functions.CallEndsOnce` | src/back/FuncDefStmtVistors.cpp:83-132 | A call has one ending, and keeps it |
| `Functions.EmissionPreservesMeaning` | src/back/FuncDefStmtVistors.cpp:83-132 | Emission preserves meaning in both directions: for every typed body whose logical operators have plain operands, a call of the emitted function ends with a result, a failure or undefined behaviour if and only if evaluating the body does, with the same memory |
| `Functions.EmissionPreservesDivergence` | src/back/FuncDefStmtVistors.cpp:83-132 | A call runs for ever if and only if the evaluation of the body does |
| `ModuleCheck.EmitGrows` | src/back/ExprStmtAstVisitor.cpp:268-560 | Every emission keeps a function under construction in order: all blocks but the current and the pending ones end in exactly one terminator, targets exist, no register is defined twice, predecessors of older blocks do not change; and the phis it adds have one entry per predecessor exactly when no operand of a logical operator opens a block |
| `ModuleCheck.LogicalGrows` | src/back/ExprStmtAstVisitor.cpp:375-414 | The same for logical operators: the phi, whose sources are fixed before the operands are emitted, is right exactly when both operands stay in their blocks |
| `ModuleCheck.LogicalLayout` | src/back/ExprStmtAstVisitor.cpp:375-411 | The predecessors of the end block of a logical operator are the blocks where the two operands ended |
| `ModuleCheck.IfGrows` | src/back/ExprStmtAstVisitor.cpp:417-465 | The same for conditionals, whose phi is right whatever the branches contain |
| `ModuleCheck.WhileGrows` | src/back/ExprStmtAstVisitor.cpp:467-497 | The same for loops |
| `Dominance.FunctionDominated` | src/back/ModuleEmitter.cpp:80-89 | Where logical operators have plain operands, every register is defined before its uses on every path to them, phis reading theirs at the ends of the blocks they name |
| `Dominance.EmitDominated` | src/back/ExprStmtAstVisitor.cpp:268-560 | Emission of any expression extends a proof of this: what could be read before can be read afterwards, and the value can be read where the insertion point is |
| `ModuleCheck.VerifiedExactlyWhenLogicalOk` | src/back/ModuleEmitter.cpp:80-89 | An emitted function passes module verification (terminators, targets, single definitions, one phi entry for each predecessor, definitions dominating uses) if and only if no operand of a logical operator anywhere in its body contains a logical operator, `if`, `while` or `assert` |
| `ModuleCheck.ChainedAndIsRefused` | src/back/ExprStmtAstVisitor.cpp:375-414 | `a && b && c` on three bools is a body the emitter takes and the module verifier refuses |
| `EmitterBuilder.ExprEmitter.EmitExpr` | src/back/ExprStmtAstVisitor.cpp:563-568 | The visitor that drives the builder fails an assertion exactly on the trees that are not emittable, and on the others leaves the state and value that the emission function gives, for every form of expression |
| `EmitterBuilder.ExprEmitter.VisitCast` | src/back/ExprStmtAstVisitor.cpp:88-142 | A cast between types without an emission fails; any other leaves the specified instruction |
| `EmitterBuilder.ExprEmitter.EmitBinaryArithmetic` | src/back/ExprStmtAstVisitor.cpp:268-373 | Arithmetic, comparison and assignment fail exactly where an operand does, the types differ, or there is no case for the type and the operator; otherwise they leave exactly the specified builder state and value |
| `EmitterBuilder.ExprEmitter.EmitBinaryLogical` | src/back/ExprStmtAstVisitor.cpp:375-414 | Logical operators fail exactly where an operand does or is not a bool; otherwise they leave exactly the specified builder state and phi |
| `EmitterBuilder.ExprEmitter.VisitIf` | src/back/ExprStmtAstVisitor.cpp:417-465 | A conditional fails exactly where a part does, the condition is not a bool, or the branches have different types; otherwise it leaves exactly the specified blocks, insertion point and phi, reading the insertion block again after each branch |
| `EmitterBuilder.ExprEmitter.VisitWhile` | src/back/ExprStmtAstVisitor.cpp:467-497 | The same for a loop and its condition, with exactly the specified blocks and insertion point |
| `EmitterBuilder.ExprEmitter.VisitAssert` | src/back/ExprStmtAstVisitor.cpp:521-560 | The same for an assertion, with exactly the specified blocks and calls |
| `EmitterBuilder.ExprEmitter.VisitExpressions` | src/back/ExprStmtAstVisitor.cpp:501-511 | A compound fails exactly where a member does, and otherwise leaves the specified state and the last value that is not null |
| `EmitterBuilder.ExprEmitter.DefineFunction` | src/back/FuncDefStmtVistors.cpp:83-132 | A fresh function gets the specified body and its return, or fails exactly where its body is not emittable |
| `CastTypes.PassAgrees` | src/front/passes/AddImplicitCastsPass.h:15-151 | With no error reported, operands, branches and conditions have the types they must have, and the rewritten tree has the type that promoting the source operands gives |
| `CastTypes.CastPassIsIdempotent` | src/front/passes/AddImplicitCastsPass.h:15-151 | Running the pass on its own error-free result changes nothing and reports nothing |
| `CastTypes.OnlyCastsAdded` | src/front/passes/AddImplicitCastsPass.h:15-151 | Taking the implicit casts out of the result gives back the source, whether or not errors were reported |
| `CastTypes.AgreesIsFixed` | src/front/passes/AddImplicitCastsPass.h:15-151 | A tree in which all types agree is returned as it is |
| `CastTypes.ArithmeticTypeIsHighestLeaf` | src/front/passes/AddImplicitCastsPass.h:15-59 | The type of an arithmetic tree is the highest type among its leaves, whatever its shape |
| `CastTypes.BoolStays` | src/front/passes/AddImplicitCastsPass.h:15-59 | A condition that is a bool before its parts are visited is one afterwards |
| `CastTypes.LoopConditionExactly` | src/front/passes/AddImplicitCastsPass.h:102-117 | Given that its parts get through, a loop gets through the casts and their check if and only if its condition has a type as written, and was written as a bool or does not become one by itself |
| `CastTypes.IntLoopConditionFails` | src/front/passes/CastExprSemanticPass.h:15-37 | `while (i && j)` on two ints gets a cast of a bool to bool, which the cast check does not let through |
| `CastErrors.ErrorsExactly` | src/front/passes/AddImplicitCastsPass.h:15-151 | The pass gets through exactly the trees that have a type wherever it asks for one, and reports exactly one error for each assignment whose right side has a higher promoted type than its left, and none for anything else; the rewritten tree has the promoted type |
| `CastErrors.NoErrorsExactly` | src/front/passes/AddImplicitCastsPass.h:34-58 | When the pass gets through, there is no error if and only if in every assignment the promoted type of the right side is not higher than that of the left |
| `CastErrors.FunctionErrorsExactly` | src/front/passes/AddImplicitCastsPass.h:119-134 | The same for a function, with the promoted type of its body against its result type |
| `CastErrors.OnePlusTwo` | src/front/passes/AddImplicitCastsPass.h:34-38 | In `1 + 2.0` the left operand is cast to float and nothing is reported |
| `Acceptance.CheckedExactly` | src/front/passes/CastExprSemanticPass.h:15-37 | Without errors of the cast pass, the checks of operators and of casts on the rewritten tree find exactly what can be read off the source by promoted types |
| `Acceptance.AcceptedExactly` | src/front/passes/ast_passes.cpp:103-152 | A body is accepted if and only if the pass gets through, assignments and the result fit, assignments have variables on the left, arithmetic is on numbers, written casts are allowed and loop conditions do not become bools by themselves |
| `CastMeaning.CastPassPreservesMeaning` | src/front/passes/AddImplicitCastsPass.h:15-151 | Evaluating the rewritten tree, with no promotion, equals evaluating the source with mixed operands promoted to the higher type, right sides to the type of the variable, branches to their join and conditions to bool: same value, memory, failure and running time |
| `CastMeaning.MeaningArithmetic` | src/front/passes/AddImplicitCastsPass.h:34-58 | The same for arithmetic and comparison |
| `CastMeaning.MeaningLogical` | src/front/passes/AddImplicitCastsPass.h:15-33 | The same for logical operators |
| `CastMeaning.MeaningIf` | src/front/passes/AddImplicitCastsPass.h:61-100 | The same for conditionals |
| `CastMeaning.MeaningLoop` | src/front/passes/AddImplicitCastsPass.h:102-117 | The same for loops, round by round |
| `CastMeaning.VarStays` | src/front/passes/AddImplicitCastsPass.h:34-45 | A variable is never rewritten, and nothing else becomes one: the target of an assignment stays bare |
| `CastNodes.ExprNode.ExprType` | src/include/anode/front/ast.h:862-887 | Asking a node for its type gives the type of the tree it stands for, or the failed debug assertion |
| `CastNodes.ExprNode.CastCondition` | src/front/passes/AddImplicitCastsPass.h:61-75 | Casting a condition in place replaces that child as the specification says and leaves the others |
| `CastNodes.ExprNode.VisitedBinary` | src/front/passes/AddImplicitCastsPass.h:15-59 | Rewriting the operands of a visited node in place gives the specified tree and error count: one error exactly for an assignment whose right side has a higher type than its left |
| `CastNodes.ExprNode.VisitedBranches` | src/front/passes/AddImplicitCastsPass.h:78-99 | Rewriting the branches of a visited conditional in place gives the specified tree and error count |
| `CastNodes.ExprNode.Visit` | src/front/passes/AddImplicitCastsPass.h:15-151 | Visiting a tree of nodes in place, children first and a loop condition before its own, leaves exactly the tree and error count of the specification, or fails a debug assertion exactly when it does |
| `CastNodes.VisitFunction` | src/front/passes/AddImplicitCastsPass.h:119-134 | The same for a function body, with the cast of its implicit return; it gets through, and reports no error, exactly when the source says so |
| `Pipeline.EmittableExactlyWhenClean` | src/back/ExprStmtAstVisitor.cpp:88-142 | Of the trees that the cast pass, the operator check and the cast check accept, those that reach no assertion and no unhandled case of the emitter are exactly the ones whose source meets a check on the source tree, `double` variables included |
| `Pipeline.BodyFitsExactlyWhenClean` | src/front/passes/BinaryExprSemanticsPass.h:10-30 | The same for a whole function body with its result type |
| `Pipeline.EmitAccepted` | src/back/FuncDefStmtVistors.cpp:83-132 | Handing an accepted body to the emitter fails exactly when its source is not clean, and otherwise gives the specified function |
| `Pipeline.AcceptedIsReady` | src/front/passes/AddImplicitCastsPass.h:119-134 | What the passes accept has agreeing types and the marks its source had, which is all the emitter asks of its callers |
| `Pipeline.CastKeepsShape` | src/back/ExprStmtAstVisitor.cpp:375-414 | Inserting casts neither opens a block nor hides one |
| `Pipeline.BodyMeaning` | src/front/passes/AddImplicitCastsPass.h:119-134 | The rewritten body means what the source body means, promoted to the result type |
| `Pipeline.CompiledCodeMeansSource` | src/front/passes/ast_passes.cpp:103-152 | From source to running code: an accepted, clean body whose logical operators have plain operands passes module verification, and calling it ends in a way if and only if evaluating its source, with promotion, does |
| `Pipeline.CompiledCodeDiverges` | src/front/passes/ast_passes.cpp:103-152 | Under the same conditions calling it runs for ever if and only if evaluating its source does |
| `Parse.ParseExpr` | src/front/parser/PrattParser.h:118-164 | Parsing ends on every sequence of tokens and consumes at least one of them when it succeeds |
| `ParseCorrect.SoundExpr` | src/front/parser/PrattParser.h:144-161 | What is returned stands for exactly the tokens that were consumed and is well bound at the given precedence |
| `ParseCorrect.CompleteExpr` | src/front/parser/PrattParser.h:144-161 | Every well bound tree is returned when its tokens are parsed, and what follows is left over |
| `ParseCorrect.ParserFindsTheBoundTree` | src/front/parser/PrattParser.h:118-164 | The parser returns a tree and a rest if and only if the tokens are those of the tree followed by the rest and the tree is well bound there |
| `ParseCorrect.BoundTreeIsUnique` | src/front/parser/PrattParser.h:144-161 | No tokens have two well bound trees, whole or in part |
| `ParseCorrect.ModuleIsItsBoundTrees` | src/front/parser/AnodeParser.h:547-561 | A module parses to a list of trees if and only if its tokens are those of the list and every tree is well bound before the next one |
| `Levels.Grouping` | src/front/parser/AnodeParser.cpp:29-65 | For all operands that are names, literals or in parentheses, or any other closed form, and all binary operators, `x op1 y op2 z` is parsed as `x op1 (y op2 z)` if and only if op2 is on a higher level than op1 or both assign, and as `(x op1 y) op2 z` otherwise |
| `Levels.GroupedNodes` | src/front/parser/AnodeParser.cpp:67-80 | The same for the nodes that are built |
| `Levels.LiteralOperand` | src/front/parser/AnodeParser.h:117-127 | Literals are such operands |
| `Levels.NameOperand` | src/front/parser/AnodeParser.h:129-140 | Names are |
| `Levels.ParenOperand` | src/front/parser/AnodeParser.h:142-146 | Anything in parentheses is |
| `Levels.MembersFirst` | src/front/parser/AnodeParser.cpp:29-65 | A member or a call after an operand is taken before any operator in front of it |
| `Levels.LevelsHoldOperators` | src/front/parser/AnodeParser.cpp:5-27 | The levels, from assignment to multiplication, hold exactly the binary operators |
| `Levels.PrecedenceFollowsLevels` | src/front/parser/AnodeParser.cpp:29-65 | Precedences of binary operators are ordered as their levels, and members and calls are above them all |
| `ParseCorrect.OperandsBindTighter` | src/front/parser/AnodeParser.cpp:5-65 | In a well bound binary expression the operator binds tighter than the context, the left operand at least as tight and the right one strictly tighter, assignment the other way round; the left operand ends in no open form, however deep on its right spine, so `!a && b` is `!(a && b)` and `a && !b == c` is `a && !(b == c)` |
| `ParseCorrect.OpenEnd` | src/front/parser/AnodeParser.h:148-165 | No form that ends in an expression parsed at precedence 0 stands to the left of an operator |
| `ParseCorrect.RightSpineStops` | src/front/parser/PrattParser.h:144-161 | What follows a well bound expression binds no tighter than any expression on its whole right spine: operands, branches, bodies, and bodies of namespaces and templates without braces |
| `ParseCorrect.NotIsOpen` | src/front/parser/AnodeParser.h:148-165 | An operation whose right operand is a negation ends in an open form |
| `ParseCorrect.StatementsBeginPlainly` | src/front/parser/AnodeParser.h:547-561 | Having no separators, a statement after the first cannot begin with `(` or `!`: either would continue the one before |
| `Build.ParsedMarks` | src/front/parser/AnodeParser.cpp:67-80 | In every parsed tree a variable is marked as written exactly where it is the target of an assignment; no field access is marked; a method name is only ever called |
| `Build.ParsedKinds` | src/front/parser/AnodeParser.h:301-391 | In every parsed tree each compound has the storage kind of the innermost function or class around it |
| `ParserClass.Parser.NextToken` | src/front/parser/AnodeLexer.h:65-78 | The next token is handed out once, and nothing past the end |
| `ParserClass.Parser.Consume` | src/front/parser/PrattParser.h:91-102 | A required token is consumed exactly when it is next |
| `ParserClass.Parser.ConsumeOptional` | src/front/parser/PrattParser.h:104-109 | An optional token is consumed exactly when it is next; otherwise nothing changes |
| `ParserClass.Parser.RunItems` | src/front/parser/AnodeParser.h:81-494 | Running the steps of a parselet consumes and yields what the grammar function says, and leaves both stacks as they were |
| `ParserClass.Parser.RunItem` | src/front/parser/AnodeParser.h:81-494 | The same for one step |
| `ParserClass.Parser.RunWhile` | src/front/parser/AnodeParser.h:81-100 | The same for a repeated qualifier |
| `ParserClass.Parser.RunUntil` | src/front/parser/AnodeParser.h:169-177 | The same for the expressions up to a closing brace |
| `ParserClass.Parser.RunSep` | src/front/parser/AnodeParser.h:274-286 | The same for a list with commas and a closing token |
| `ParserClass.Parser.RunBody` | src/front/parser/AnodeParser.h:328-330 | A body is parsed with the pushed storage kind on top, which is popped again |
| `ParserClass.Parser.ParsePrefix` | src/front/parser/AnodeParser.h:503-545 | The parselet of a first token yields the node of the tree the grammar function finds, stacks kept |
| `ParserClass.Parser.ParseDefinition` | src/front/parser/AnodeParser.h:301-391 | A function or class pushes and pops the storage kind of its body, and a generic class its type parameters |
| `ParserClass.Parser.ParseTemplate` | src/front/parser/AnodeParser.h:413-427 | A template pushes and pops its parameters |
| `ParserClass.Parser.ParseExpr` | src/front/parser/PrattParser.h:118-164 | The Pratt loop yields the node of the well bound tree, or aborts exactly when there is none, stacks kept |
| `ParserClass.Parser.ParseModule` | src/front/parser/AnodeParser.h:547-561 | A module is a compound of kind Global of the nodes of its trees, with all tokens consumed and both stacks empty again, or is aborted exactly when the tokens are no module |
| `Lookahead.PrefixDecided` | src/front/parser/AnodeParser.h:503-545 | In every prefix form one token of look-ahead tells where each step ends and which way to go, and no step is continued by a token that continues nothing |
| `Lookahead.InfixDecided` | src/front/parser/AnodeParser.cpp:67-109 | The same for every infix form |
| `Guarding.GuardedExactlyWhenListed` | src/front/parser/PrattParser.h:118-164 | Putting parentheses around just the operands that are not well bound where they stand makes a whole tree well bound at any precedence and before any token, if and only if no statement of a block but the first then begins with `(` or `!`, and the token does not bind tighter |
| `Stripping.GuardNode` | src/front/parser/AnodeParser.h:148-165 | Parentheses put in do not change what a tree stands for |
| `Needed.EverySourceHasThem` | src/front/parser/PrattParser.h:118-164 | An expression gets parentheses only if every well bound tree for it, with whatever parentheses inside, has parentheses around it |
| `Needed.SourceExactlyWhenListed` | src/front/parser/PrattParser.h:118-164 | A tree without parentheses has a well bound tree with some parentheses if and only if its statements begin plainly with the fewest |
| `FormNodes.FormIs` | src/front/parser/AnodeParser.h:81-494 | Reading the written form of any node gives the node back, marks, storage kinds, names, types and parameters included, for every kind of node |
| `Spellings.IfElseIsConditional` | src/front/parser/AnodeParser.h:225-258 | `if (c) t else e` and `(? c; t; e)` are the same node, with the condition, the branch taken and the other in their places |
| `Spellings.NamespaceBodies` | src/front/parser/AnodeParser.h:403-411 | A namespace with a single expression as its body is the one with that expression in braces |
| `Spellings.TemplateBodies` | src/front/parser/AnodeParser.h:413-427 | The same for a template, with empty angle brackets or none |
| `Spellings.ClassBodies` | src/front/parser/AnodeParser.h:341-391 | A class with empty angle brackets is a class without, and a body that is no block is a block of one |
| `Forms.FormShaped` | src/front/parser/AnodeParser.h:81-494 | The written form of every node has the shape its parselet asks for |
| `Printing.PrintThenParse` | src/front/parser/PrattParser.h:118-164 | Printing any node, its compounds of the storage kinds parsing gives them, as an operand at any precedence, parentheses only where needed, and parsing it there gives the node back and leaves whatever follows, if and only if no later statement of a block in it begins with `(` or `!` and what follows does not bind tighter; what would continue a name or an `if` is kept out by parentheses |
| `Printing.PrintThenParseTop` | src/front/parser/PrattParser.h:118-164 | The same at the top before whatever continues nothing, where no parentheses are printed around the whole |
| `Printing.ShowBound` | src/front/parser/AnodeParser.cpp:5-65 | The printed form is well bound exactly under these conditions |
| `Printing.ShowIs` | src/front/parser/AnodeParser.cpp:67-109 | The printed form builds the node that was printed, in any place |
| `Printing.UnprintableHasNoSource` | src/front/parser/PrattParser.h:118-164 | A node whose printed form is not parsed to it has no well bound tree of its written form, whatever parentheses are tried |
| `Printing.OnlyNeededParentheses` | src/front/parser/AnodeParser.cpp:5-65 | No parentheses are printed around a node where some source text of its written form does without |
| `Printing.ParenthesesAreNeeded` | src/front/parser/AnodeParser.cpp:5-65 | A bare left operand that binds less tightly, is an assignment, or ends in an open form gives a tree its tokens are never parsed to |
| `Printing.RightParenthesesAreNeeded` | src/front/parser/AnodeParser.cpp:5-27 | The same for a bare right operand that does not bind tighter |
| `Printing.SecondNegationHasNoSource` | src/front/parser/AnodeParser.h:169-177 | A block whose second statement is a negation has no text of its written form, with any parentheses |
| `Printing.PrintModuleThenParse` | src/front/parser/AnodeParser.h:547-561 | A printed module is parsed to its own trees, which stand for its nodes, if and only if its statements after the first begin plainly |
| `Reprinting.ParsedPrintable` | src/front/parser/AnodeParser.h:81-494 | Every node the parser builds can be printed |
| `Reprinting.PrintedAgain` | src/front/parser/PrattParser.h:118-164 | So printing what any text was parsed to, and parsing that, gives the same node again under the conditions above |
| `Marks.MarksReachTheEmitter` | src/front/passes/ast_passes.cpp:28-35 | From the tokens to the emitter: after parsing, any number of copies by template expansion, casts put around anything but targets, and the marking of field accesses, every assignment has a marked target and nothing else is marked, if and only if every assignment passes the check on its target |
| `Marks.MarkedExactlyWhenAssignable` | src/front/passes/BinaryExprSemanticsPass.h:14-19 | On a tree marked as parsing marks it, the last pass completes the marks exactly when every target can be written |
| `Marks.CopyKeepsMarks` | src/include/anode/front/ast.h:954-987 | Copying a template body keeps the marks exact |
| `Marks.NamedCopyIsTheSame` | src/include/anode/front/ast.h:1596-1612 | The copy made for a named template is the tree that was parsed |
| `Marks.CopyIsTheSame` | src/include/anode/front/ast.h:1596-1612 | Any other copy is the tree that was parsed too, where there is no generic class in it |
| `Marks.OnlyMarksChange` | src/front/passes/BinaryExprSemanticsPass.h:14-19 | Marking field accesses changes nothing but their marks |
| `Marks.CastsKeepMarks` | src/front/passes/AddImplicitCastsPass.h:15-59 | Putting casts anywhere but around a target keeps the marks exact |
| `Lexer.ColumnCounts` | src/front/SourceReader.h:91-96 | Within a line the column is one plus the characters since its start, and the line does not change |
| `Characters.NewlineStartsLine` | src/front/SourceReader.h:91-96 | Lines and columns count from one; after a newline the line is the next and the column one, after anything else the column is the next |
| `Lexer.SourceReader.PrimeLookahead` | src/front/SourceReader.h:26-30 | Filling the look-ahead changes neither what comes next nor the location |
| `Lexer.SourceReader.Peek` | src/front/SourceReader.h:71-79 | Looking n characters ahead gives that character of the input, or the end, whatever was looked at before |
| `Lexer.SourceReader.PeekMatch` | src/front/SourceReader.h:60-69 | A candidate matches exactly when the next characters are its own |
| `Lexer.SourceReader.Next` | src/front/SourceReader.h:81-99 | The next character is handed out once and the location moves by the rules for lines and columns, buffered or not |
| `Lexer.SourceReader.Match` | src/front/SourceReader.h:48-58 | A candidate is consumed exactly when it is next; otherwise nothing is |
| `Lexer.SourceReader.Eof` | src/front/SourceReader.h:38-38 | The reader reports the end exactly when everything has been handed out and a read past the end has been made |
| `Lexer.SourceReader.CommentStep` | src/front/parser/AnodeLexer.cpp:163-183 | One step in a comment consumes one mark or one character and changes the depth accordingly |
| `Lexer.SourceReader.DiscardMultilineComment` | src/front/parser/AnodeLexer.cpp:158-185 | A nested comment is consumed to exactly its shortest balanced prefix; a missing end is reported exactly when no prefix is balanced; nothing is consumed when none begins |
| `Lexer.CommentIsUnique` | src/front/parser/AnodeLexer.cpp:158-185 | No text has two comments at its start |
| `Lexer.CommentThenMore` | src/front/parser/AnodeLexer.cpp:158-185 | What follows a comment does not change where it ends |
| `Blanks.AnodeLexer.DiscardSingleLineComment` | src/front/parser/AnodeLexer.cpp:205-215 | A line comment is consumed to its newline or the end of the input, exactly when one is next |
| `Blanks.AnodeLexer.DiscardWhitespaceCharacters` | src/front/parser/AnodeLexer.h:101-110 | The longest run of white space is consumed |
| `Blanks.AnodeLexer.DiscardWhite` | src/front/parser/AnodeLexer.cpp:187-203 | White space and comments of both kinds are dropped, in any order, up to the next token; it fails exactly when one of the comments met has no end |
| `Blanks.CommentsAreSpaces` | src/front/parser/AnodeLexer.cpp:187-203 | Wherever there is a white character a nested comment or a line comment may stand instead: what is left for the next token is the same |
| `Blanks.AfterBlankBeginsToken` | src/front/parser/AnodeLexer.cpp:187-203 | What is left begins with no blank and is the end of the text |
| `NestedComments.NestedIsComment` | src/front/parser/AnodeLexer.cpp:158-185 | Text in comment marks, with properly nested comments in it, is one comment to its last character, whatever follows |
| `Characters.DroppedExactlyWhenWhite` | src/front/parser/AnodeLexer.h:19-21 | A character that begins no comment is dropped before a token exactly when it is a space, a tab, a newline or a return |
| `Characters.WhiteCharacters` | src/front/parser/AnodeLexer.h:19-21 | White are exactly space, tab, newline and return |
| `Characters.CommentMarks` | src/front/parser/AnodeLexer.cpp:158-208 | The marks of comments and lines |
| `Lexer.SourceReader.ExtractLiteralNumber` | src/front/parser/AnodeLexer.cpp:69-101 | A number is the longest run of digits and dots; without a dot it is accepted exactly when it is in range |
| `Characters.NumberCharacters` | src/front/parser/AnodeLexer.cpp:69-101 | A number goes on with exactly the ten digits and the dot |
| `Characters.NumberEndsOnce` | src/front/parser/AnodeLexer.cpp:69-101 | A number ends in one place |
| `Lexer.IntegerRoundTrip` | src/front/parser/AnodeLexer.h:31-38 | The decimal form of an integer is accepted exactly when the integer fits 32 bits, and reads back as itself |
| `Lexer.LeadingZero` | src/front/parser/AnodeLexer.h:31-38 | Leading zeros do not change the number |
| `TypeMaps.ClassType.AddField` | src/include/anode/front/type.h:372-377 | A field is added behind the others with its place as its ordinal, found by name only if it is the first of that name |
| `TypeMaps.ClassType.FindField` | src/include/anode/front/type.h:367-370 | The first field of a name is found, at the place its ordinal says, and nothing exactly when there is none |
| `TypeMaps.TypeMap.ToLlvmType` | src/include/anode/back/compile.h:48-74 | Translation ends on every finite class graph, cyclic or not, and never changes an existing entry |
| `TypeMaps.TypeMap.MapClass` | src/include/anode/back/compile.h:54-70 | A class is mapped before its fields are, and its struct is laid out once they are |
| `TypeMaps.TypeMap.Translate` | src/include/anode/back/compile.h:48-74 | It fails exactly on types that reach a type the map knows nothing of; otherwise exactly the classes reached are added, scalars stay scalars, and each class in the map points to a struct of its own with one slot for each field, slot i holding the translation of field i |
| `TypeMaps.MappedReaches` | src/include/anode/back/compile.h:48-74 | Whatever a mapped type reaches is mapped |
| `TypeMaps.FieldSlot` | src/back/ExprStmtAstVisitor.cpp:213-221 | The index an access to a field is emitted with selects the slot of that very field and of its type |
| `Templates.Expander.ExpandSite` | src/front/passes/NamedTemplateExpanderPass.h:25-97 | One site ends, errors included; before the first error it follows its course and the guard set is exactly the set of active expansions; copies nest no deeper than there are templates not being expanded |
| `Templates.Expander.RunPasses` | src/front/passes/ast_passes.cpp:63-82 | The passes on a copy define its names in the tables as they are by then and expand its sites, and stop after a pass that ends with errors, its own or earlier ones |
| `Templates.Expander.ExpandAll` | src/front/passes/NamedTemplateExpanderPass.h:25-97 | The same for all sites of a body, in order |
| `Templates.Expander.ExpandModule` | src/front/passes/NamedTemplateExpanderPass.h:50-97 | The first error of a module is the first thing that goes wrong on its course; a circle is reported exactly when it is that, or when a site still to come expands a template that was being expanded around it; with clear names and sites well used, and unless the first error is a name that is taken, a circle is reported if and only if some site reaches one; with no error the nodes read as the text, and every site, in copies too, holds a copy of the body of the template it found, under a scope with exactly its parameters; nesting is bounded by the number of templates |
| `Templates.Expander.PopulateAll` | src/front/passes/PopulateSymbolTablesPass.h:19-105 | The names of a list of nodes, copies in it included, are defined in the nearest scope that is not one of template parameters, one error for each that is taken there |
| `Templates.ModuleReports` | src/front/passes/NamedTemplateExpanderPass.h:53-60 | What a module that followed its course says of circles: one that is reported is there, one that is there gives an error, and it is reported unless a name that is taken is met first |
| `Copies.ModuleCopied` | src/front/passes/NamedTemplateExpanderPass.h:76-90 | After a module without errors every site, in copies too, holds a copy of a template that its name meant when it was reached; the copy reads as the body, the scope around it holds each parameter and nothing else, and every use of a parameter that no nearer scope hides means it |
| `Copies.PlacedReadsBack` | src/include/anode/front/ast.h:1596-1612 | A new copy of a text reads back as the text |
| `Copies.AllMeant` | src/front/passes/NamedTemplateExpanderPass.h:82-85 | Under a scope of parameters a use of one of them means it, unless a scope in between hides it |
| `Copies.CopyHasItsName` | src/front/passes/NamedTemplateExpanderPass.h:31-49 | Where template names are used for templates only, the template found has the name of the site |
| `Circles.ReportedCircleIsReal` | src/front/passes/NamedTemplateExpanderPass.h:53-60 | A circle is reported only if some site reaches one |
| `Circles.CircleGoesWrong` | src/front/passes/NamedTemplateExpanderPass.h:53-60 | If some site reaches a circle, the module does not get through without an error |
| `ClearNames.OnlyCirclesOrTakenNames` | src/front/passes/NamedTemplateExpanderPass.h:36-75 | With clear names and sites well used, the first thing that goes wrong is a circle or a name that is taken |
| `ClearNames.CircleReportedExactly` | src/front/passes/NamedTemplateExpanderPass.h:53-60 | With clear names and sites well used, a circle is reported if and only if some site reaches one and it is not that a taken name comes first and no site still to come hits an active template |
| `ClearNames.ModuleOpens` | src/front/passes/PopulateSymbolTablesPass.h:96-104 | With clear names, the names of templates stand in the scope of the module only, so every site of such a name finds that template |
| `TakenNames.CircleAfterTakenName` | src/front/passes/ast_passes.cpp:69-80 | In `template T { x:int } template C { expand C } expand T expand T expand C` names and counts are right and a site reaches a circle, but the first error is a taken name and no circle is reported |
| `TakenNames.WhoseX` | src/front/passes/ast_passes.cpp:69-80 | In `expand T x:int` the module keeps its own `x` and refuses the one of the copy; the pasted text keeps that of the copy; either way one name is taken |
| `Scopes.ChainUnique` | src/front/scope.cpp:35-46 | A scope has one chain of parents |
| `Scopes.ChainAcyclic` | src/front/scope.cpp:35-46 | No scope comes twice on a chain |
| `Scopes.FindInScopeOrParents` | src/front/scope.cpp:35-46 | Look-up finds what the nearest scope on the chain defines, and nothing exactly when no scope on it defines the name |
| `Scopes.ParentSetter.CurrentScope` | src/front/passes/ScopeFollowingAstVisitor.h:24-36 | Definitions land in the first scope up the chain that is not one of template parameters |
| `Scopes.DefinitionScope` | src/front/passes/ScopeFollowingAstVisitor.h:24-36 | The search from any scope up its chain ends in the nearest scope that is not one of template parameters |
| `Scopes.ParentSetter.DescendIntoNamespace` | src/front/passes/ScopeFollowingAstVisitor.h:70-95 | A namespace of the name is found, or a new and empty one of kind Global is added to the scope with it as parent and nothing else is changed; it fails exactly when the name belongs to something else |
| `Scopes.ParentSetter.PushNamespaces` | src/front/passes/ScopeFollowingAstVisitor.h:57-68 | The scopes pushed for a qualified namespace are those its parts lead to from the current definition scope, new or reopened, and definitions then land in the last of them |
| `Scopes.ParentSetter.SetParent` | src/front/passes/SetSymbolTableParentsPass.h:16-41 | A scope without a parent gets the top of the stack; one with a parent keeps it; no chain is broken |
| `Scopes.ParentSetter.Visit` | src/front/passes/SetSymbolTableParentsPass.h:23-41 | Visiting a subtree restores the stack, gives a parent only to scopes of the subtree, and puts each of them under the scope lexically around it; while there are only namespaces it cannot fail |
| `Scopes.ParentSetter.VisitModule` | src/front/passes/SetSymbolTableParentsPass.h:16-21 | After a module, the chain of parents of every scope in it is its lexical chain, ending in the global scope, so a look-up finds the nearest enclosing definition; and every namespace in a namespace is reached by name through the ones around it |
| `Scopes.NestedMembers` | src/front/passes/ScopeFollowingAstVisitor.h:57-95 | Where scopes are lexical and namespaces global, a namespace block inside others is a member of them, template expansions in between included |
| `Scopes.DefinitionsNearest` | src/front/passes/ScopeFollowingAstVisitor.h:24-36 | Definitions land in the nearest scope that is not one of template parameters |
| `Scopes.ChainsAreLexical` | src/front/passes/SetSymbolTableParentsPass.h:16-41 | Where every scope is under the one around it, chains of parents are lexical chains, namespaces included |
| `Scopes.LaterLexical` | src/front/passes/ScopeFollowingAstVisitor.h:57-68 | Scopes that are in place stay in place however many scopes and namespaces are added later |
| `QualifiedNames.FindQualifiedSymbol` | src/front/passes/symbol_search.cpp:19-104 | Finds the symbol of a qualified name, or reports the error for the part at fault, as the specification of the search says |
| `QualifiedNames.MembersAreFound` | src/front/passes/symbol_search.cpp:31-104 | Whatever is in a namespace is found by its qualified name from every scope where the first part is not hidden by a nearer definition |
| `QualifiedNames.NestedAreFound` | src/front/passes/symbol_search.cpp:31-104 | A namespace in a namespace is found by its qualified name from every scope where the first part is not hidden |
| `QualifiedNames.BlamesTheFirst` | src/front/passes/symbol_search.cpp:31-104 | The part that is blamed is the first at fault: the name up to it leads to a namespace, and the name with it to nothing or to something else |
| `QualifiedNames.ErrorKinds` | src/front/passes/symbol_search.cpp:31-104 | The error that is reported follows from the part that is blamed: the first, the last or one in between, and whether something else has its name |
| `Pasting.ExpandingIsPasting` | src/front/passes/ScopeFollowingAstVisitor.h:24-36 | For every module expanded without an error, whatever its templates and parameters: its text with the copies pasted in is populated by one pass without an error, and leaves the same symbols in every scope and the same meaning of every use of a name |
| `Pasting.PastePopulates` | src/front/passes/PopulateSymbolTablesPass.h:19-105 | One pass over the pasted text, whose definition scopes are found by the search up the chain, meets no conflict exactly when all definitions, copies included, fit together, and then adds exactly them |
| `Pasting.PasteUses` | src/front/scope.cpp:35-46 | Every use of a name resolves alike in copies and in pasted text |
| `Landings.Shuffle` | src/front/passes/PopulateSymbolTablesPass.h:19-105 | What the module defines first and its copies later is together, as a multiset, what the text defines in order |
| `Landings.FitsShuffled` | src/front/scope.cpp:27-33 | Whether definitions conflict, and what they define if not, does not depend on their order |
| `Spreading.ErrorFreeExactlyWhenPasted` | src/front/passes/NamedTemplateExpanderPass.h:25-97 | With clear names, a module whose text unfolds is expanded without an error if and only if one pass over the pasted text finds no name taken, and then the copies are those of the unfolding |
| `Spreading.UnfoldsUnlessCircle` | src/front/passes/NamedTemplateExpanderPass.h:53-60 | With clear names and sites well used, the text unfolds unless some site reaches a circle |
| `Generics.PositionFinds` | src/include/anode/front/type.h:431-439 | The search by arguments finds an entry that matches, and none exactly when no entry does |
| `Generics.SamePosition` | src/include/anode/front/type.h:400-411 | Two tuples of arguments are found at the same entry exactly when they agree type by type |
| `Generics.SameTypeExactly` | src/include/anode/front/type.h:146-149 | Two arguments are the same type exactly when they stand for the same scalar or the same class; a resolved name stands for what it was resolved to |
| `Generics.SameArgsExactly` | src/include/anode/front/type.h:400-411 | Two tuples match exactly when they stand for the same types, one by one |
| `Generics.Cache.FindExpandedClass` | src/include/anode/front/type.h:431-439 | The class of the first matching entry is found |
| `Generics.Cache.AddExpandedClass` | src/include/anode/front/type.h:441-443 | An entry is added behind the others, with a class of its own; a generic still has one class per tuple |
| `Generics.Cache.Expand` | src/front/passes/PopulateGenericTypesWithCompleteTypesPass.h:64-110 | A reference with the right number of arguments has a class afterwards, made only if there was none; any other is one error and changes nothing |
| `Generics.Cache.ExpandAll` | src/front/passes/PopulateGenericTypesWithCompleteTypesPass.h:64-135 | All references have classes unless there is an error; only classes that are referred to are made, and older entries stay |
| `Generics.Cache.Complete` | src/front/passes/ConvertGenericTypeRefsToCompletePass.h:17-51 | Over a whole module two references become the same class if and only if they name the same generic with arguments that stand for the same scalars and classes |

## Left out

- Functions.EmissionPreservesMeaning: variables are globals that hold a value from the start. Local variables, which the source does not zero, parameters and the copying of them, calls, classes, `new`, field access and unary operators are not emitted here; the source has no visit method for unary operators at all.
- Functions.EmissionPreservesMeaning: LLVM's constant folding while instructions are inserted is not modelled; operands that are constants are computed with at run time.
- ModuleCheck.VerifiedExactlyWhenLogicalOk: checks of types of instructions are not modelled; the emitter's own assertions and the simulation speak of those.
- Pipeline.CompiledCodeMeansSource: one function at a time, on the scalar types, from the typed tree that the cast pass works on; resolution of names and types turns the parser's nodes into it and is modelled on its own. Casts of call arguments and operands of class type are not part of that tree.
- CastMeaning.CastPassPreservesMeaning: rounding of floats is left to `FloatOps`; nothing is said of which rounding it is.
- Marks.MarksReachTheEmitter: the inserted casts are any casts that leave targets bare, which the cast pass is proved to do on its own tree; nodes are values here, so a generic class copied for a named template is equal to the original where the source shares its body. An expansion's copy is a tree of its own.
- ParserClass.Parser.ParseExpr: the parselets differ in the tokens they consume and the node they build, so each is a row of steps that one interpreter runs, not a method of its own. After an aborted parse nothing is said of the stacks and of what is left of the tokens, as the parser is then abandoned.
- Printing.UnprintableHasNoSource: one written form for each node, with `(? ; ; )` for an `if` with both branches and braces around the bodies of namespaces and templates; the other spellings are parsed to the same nodes and not printed.
- Blanks.CommentsAreSpaces: tokens themselves, identifiers, keywords and the table of fixed tokens are not modelled, and neither is the value of a float literal; bytes outside ASCII are excluded.
- Templates.Expander.ExpandModule: a template defined inside a template is copied to a new template at each expansion, so the guard does not see it again; the model has the templates of the module only. Bodies hold definitions, uses of names, scopes and sites: namespaces inside them, scopes of function parameters with their own errors, and the failed assertion on a repeated template parameter are not part of it. The passes that set parents and record templates, which report nothing, are part of making a copy.
- Scopes.ParentSetter.Visit: after a failed debug assertion nothing is said of the stack and the tables.
- TypeMaps.TypeMap.ToLlvmType: after a failed debug assertion a class may stay mapped to a struct without a body; nothing is said of the map then.
- Generics.Cache.Complete: arguments are scalars and plain classes, seen through resolved names; generic classes as arguments, and references inside the bodies of classes that are being made, are not modelled.
- The JIT, the runtime, module loading, result callbacks, the command line and the pretty printer: input, output and foreign code.
- Texts and positions of error messages: an error count, a kind where it matters, and the failing part of a qualified name are kept.
- Export of symbols between modules and fully qualified names: bookkeeping that would add only easy members.
