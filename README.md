# vmy expression core in Dafny

This project models the core of the `vmy` toy language from
`com.silence.vmy`:

- the stack-based parser `AST.build(Scanner)` with its chain of seven token
  handlers;
- the two tree-walking evaluators, `VmyTreeEvaluator` (untyped, names mapped
  to values) and `VariableStoreTreeEvaluator` (typed, names mapped to typed
  variable records);
- the helpers they use from `Utils.java`;
- the constants and character classes of `Identifiers.java`.

Each part is described twice.

- **Specification.** Functions describe one dispatch of a token and what
  `build` returns (module `ParseSpec`), and evaluation as a function from a
  node and a store to a result and a new store (`TreeEvalSpec`,
  `TypedEvalSpec`).
- **Implementation.** Classes carry the state the Java code mutates:
  - `AstBuilder.Parser`: the token position and the two stacks as fields,
    with `while` loops for the scans and folds;
  - `TreeEvaluator.TreeEvaluator` and `TypedEvaluator.TypedEvaluator`:
    each writes a shared store object (`Stores.ValueStore` or
    `Stores.VariableStore`).

  Every method is proved to produce exactly what the specification
  function gives for its starting state.

The properties are proved about the specification functions:
- the dispatch order;
- each handler's effect on the stacks;
- the shape invariant that makes every parsed tree well formed;
- which names an evaluation may change;
- the typed assignment check;
- a set of concrete parses and sessions.

Failures are error kinds (`ParseError`, `EvalError`), not message texts. A
failed evaluation keeps the store changes made before it, as a Java
exception thrown half-way does.

Where the code and the language's stated intent differ, the model follows
the code:
- every fold pops the newest operator first, so `1 - 2 - 3` is
  `1 - (2 - 3)`;
- an unclosed `(` is accepted;
- a lone `+` parses to a tree without a root;
- the untyped evaluator tests for null before resolving names, so an
  unassigned variable reaches the operator itself;
- the typed evaluator never checks mutability.

Module layout, one module per file:
- `wrappers.dfy`: `Option`, `Result`, `Outcome`.
- `identifiers.dfy`: Identifiers.java.
- `tokens.dfy`: tokens and `Integer.parseInt`.
- `nodes.dfy`: the AST node classes.
- `values.dfy`: runtime objects, variables and error kinds.
- `utils.dfy`: Utils.java.
- Parser: `parse_spec.dfy`, `parse_lemmas.dfy`, `parse_invariant.dfy`,
  `ast_builder.dfy`, `parse_examples.dfy`.
- Evaluators: `stores.dfy`, `tree_eval_spec.dfy`, `tree_evaluator.dfy`,
  `typed_eval_spec.dfy`, `typed_evaluator.dfy`, `program_examples.dfy`.

## Model

| member | source | states |
|---|---|---|
| Identifiers.IdentifierCharactersExactly | src/main/java/com/silence/vmy/Identifiers.java:48-56 | the set built from the index range 0..25 plus `_` holds exactly the ASCII letters and the underscore |
| Identifiers.CharacterClassesDisjoint | src/main/java/com/silence/vmy/Identifiers.java:41-56 | identifier, common (parenthesis and `=`) and operator characters are pairwise disjoint |
| Identifiers.BuiltinHoldsEqualityNotAssignment | src/main/java/com/silence/vmy/Identifiers.java:34-40 | `builtinIdentifiers` contains `==` but not `=` |
| Identifiers.DeclarationKeywordsDistinct | src/main/java/com/silence/vmy/Identifiers.java:29-30 | the immutable keyword `val` and the mutable keyword `let` differ |
| Tokens.ParseInt | src/main/java/com/silence/vmy/AST.java:213 | `Integer.parseInt` of an integer token yields only values inside the Java `int` range |
| Tokens.ParseIntRoundTrip | src/main/java/com/silence/vmy/AST.java:213 | parsing the decimal spelling of any `int` (with a leading minus when negative) gives that value back |
| Tokens.ParseIntRejectsNonNumbers | src/main/java/com/silence/vmy/AST.java:213 | empty text, a bare sign, or text with a non-digit after the first character is rejected |
| Values.NumberObj | src/main/java/com/silence/vmy/AST.java:448-449 | a value node evaluates to a boxed Integer exactly when it holds an integer, and the box holds the node's own integer or double |
| Utils.EOL | src/main/java/com/silence/vmy/Utils.java:85-90 | the result is -1 or in (start, start+2]; it is start+2 exactly at `\r\n` and start+1 exactly at `\n` |
| Utils.IsEOLIffLineBreak | src/main/java/com/silence/vmy/Utils.java:92-94 | `isEOL` holds exactly where `\n` or `\r\n` starts; a `\r` not followed by `\n` gives -1 |
| Utils.IsMutable | src/main/java/com/silence/vmy/Utils.java:121-127 | `let` is mutable, `val` immutable, each iff; every other keyword fails |
| Utils.ObjType | src/main/java/com/silence/vmy/Utils.java:104-119 | a named variable has its own type; String, Character, Integer, Boolean and Double have the matching builtin type; null and anything else fail |
| Utils.ToType | src/main/java/com/silence/vmy/Utils.java:100-102 | a type is found only for a name that is exactly that builtin type's constant name |
| Utils.ToTypeOfTypeName | src/main/java/com/silence/vmy/Utils.java:100-102 | looking up a builtin type's own constant name gives that type back |
| Utils.ExactlyOneOrdering | src/main/java/com/silence/vmy/Utils.java:43-55 | for any `compare` and any pair, exactly one of `eq`, `gt`, `lt` holds |
| Utils.VariableWithNameDelegates | src/main/java/com/silence/vmy/Utils.java:129-157 | the adapter answers its own name and hands type, value, mutability and `setValue` to the wrapped variable |
| ParseLemmas.SelectIsFirstMatch | src/main/java/com/silence/vmy/AST.java:396-406 | a token goes to a handler iff that handler's `canHandle` holds and no earlier handler's does |
| ParseLemmas.DefaultRuleFails | src/main/java/com/silence/vmy/AST.java:383-394 | a token that reaches the default handler fails with "not support token" |
| ParseLemmas.UnclassifiedTokensReachDefault | src/main/java/com/silence/vmy/AST.java:191-196 | newline and end-of-stream tokens, and identifiers mixing letters with other characters, fall through to the default handler |
| ParseLemmas.IntegerPushesValue | src/main/java/com/silence/vmy/AST.java:211-214 | an integer token pushes one value node holding its parsed value and nothing else changes |
| ParseLemmas.LooseOperatorDefers | src/main/java/com/silence/vmy/AST.java:228-229 | `+` and `-` only push themselves onto the operator stack |
| ParseLemmas.TightOperatorNeedsOperands | src/main/java/com/silence/vmy/AST.java:230-234 | `*` or `/` with no token left fails for the missing right side, and with an empty node stack for the missing left side |
| ParseLemmas.TightOperatorBindsNextOperand | src/main/java/com/silence/vmy/AST.java:235-238 | `*` and `/` replace the top node L with `Binary(op, L, R)`, where R is what dispatching exactly the next token pushed |
| ParseLemmas.TightOperatorTakesOperandFromBelow | src/main/java/com/silence/vmy/AST.java:235-238 | when the token after `*` or `/` pushes no node (`+`, `-`), the operator takes the node below its left operand as its right one: stack `.. a b` becomes `.. Binary(op, b, a)` |
| ParseLemmas.FoldBuildsRightChain | src/main/java/com/silence/vmy/AST.java:249-257 | folding over operators and nodes above a stop marker makes them a right-nested chain over the accumulator and leaves the stacks below unchanged |
| ParseLemmas.FinishFoldsEverything | src/main/java/com/silence/vmy/AST.java:147-163 | `build` ends with no root for no nodes, with "expression wrong" exactly when the operators are not one fewer than the nodes, and otherwise with the right-nested chain of all of them as root |
| ParseLemmas.GroupClosesOnMarker | src/main/java/com/silence/vmy/AST.java:246-261 | closing a group: no node is an empty group; with more nodes than operators above the newest `(`, those become one chain, exactly that `(` is popped and everything below is kept; with fewer, the group is unbalanced |
| ParseLemmas.GroupWithoutMarkerFails | src/main/java/com/silence/vmy/AST.java:246-259 | closing a group with no `(` on the operator stack is unbalanced |
| ParseLemmas.OtherOperatorsUnsupported | src/main/java/com/silence/vmy/AST.java:262-263 | `)` and every other operator spelling reaching the operator handler fail with "not support operator" |
| ParseLemmas.DeclarationPushesDeclare | src/main/java/com/silence/vmy/AST.java:346-358 | keyword plus name pushes an untyped declaration; with `:` and an identifier-tagged type it pushes a typed one; a differently tagged type fails |
| ParseLemmas.DeclarationShape | src/main/java/com/silence/vmy/AST.java:346-358 | a declaration pushes exactly one `Declare` node; it has a type iff a colon was consumed, and the name token is identifier-tagged |
| ParseLemmas.AssignmentNeedsTarget | src/main/java/com/silence/vmy/AST.java:305-316 | `=` with an empty node stack, or with anything but a name or declaration on top, fails for the missing target |
| ParseLemmas.FoldToAssignmentBuildsRightChain | src/main/java/com/silence/vmy/AST.java:326-328 | the assignment fold over operators and nodes above `=` makes them a right-nested chain over the accumulator and leaves the stacks below unchanged |
| ParseLemmas.AssignmentClosesOnMarker | src/main/java/com/silence/vmy/AST.java:323-330 | closing an assignment: no node fails for the missing value; with more nodes than operators above the `=`, those become one right-nested chain assigned to the target, exactly that `=` is popped and everything below is kept; with fewer, the fold pops an empty node stack |
| ParseLemmas.AssignmentFoldsToMarker | src/main/java/com/silence/vmy/AST.java:323-330 | after `a op b` the close pushes `Assign(target, Binary(op, a, b))` and pops its own `=` |
| ParseLemmas.AssignedOperatorWithoutLeftOperand | src/main/java/com/silence/vmy/AST.java:326-327 | an operator above `=` with only one value node (`x = + 1`) pops an empty node stack |
| ParseLemmas.EmptyInputHasNoRoot | src/main/java/com/silence/vmy/AST.java:147-149 | `build` on no tokens returns a tree without a root |
| ParseInvariant.FoldKeepsShape | src/main/java/com/silence/vmy/AST.java:249-257 | the parenthesis and build folds only pop the loose operators above the stop marker, keep the rest of both stacks, and build well-formed nodes |
| ParseInvariant.FoldToAssignmentKeepsShape | src/main/java/com/silence/vmy/AST.java:326-328 | the assignment fold stops exactly at its `=` and builds well-formed nodes |
| ParseInvariant.HandleKeepsShape | src/main/java/com/silence/vmy/AST.java:191-196 | a successful dispatch keeps every node well formed and only pushes `+`/`-` above the operators it found |
| ParseInvariant.HandleOperatorKeepsShape | src/main/java/com/silence/vmy/AST.java:227-264 | the same for the operator handler; a parenthesis leaves the operator stack exactly as it found it |
| ParseInvariant.TightOperatorKeepsShape | src/main/java/com/silence/vmy/AST.java:230-238 | the same for `*` and `/` |
| ParseInvariant.ParenthesisKeepsShape | src/main/java/com/silence/vmy/AST.java:239-261 | a closed group leaves the operator stack as it was and all nodes well formed |
| ParseInvariant.ParenScanKeepsShape | src/main/java/com/silence/vmy/AST.java:242-244 | the tokens inside a group keep the nodes well formed and only add loose operators |
| ParseInvariant.HandleAssignmentKeepsShape | src/main/java/com/silence/vmy/AST.java:305-331 | an assignment leaves the operator stack as it was and pushes an `Assign` whose target is the node it popped |
| ParseInvariant.AssignScanKeepsShape | src/main/java/com/silence/vmy/AST.java:319-321 | the rest of an assignment's line keeps the nodes well formed and only adds loose operators |
| ParseInvariant.BuildScanKeepsShape | src/main/java/com/silence/vmy/AST.java:144-146 | the main loop keeps the nodes well formed and only adds loose operators |
| ParseInvariant.ParsedTreesAreWellFormed | src/main/java/com/silence/vmy/AST.java:140-164 | every root `build` returns is well formed: assignments target a name or declaration, operator nodes carry `+ - * /` |
| AstBuilder.Parser.constructor | src/main/java/com/silence/vmy/AST.java:140-143 | a fresh parser is at position 0 with both stacks empty |
| AstBuilder.Parser.Next | src/main/java/com/silence/vmy/AST.java:145 | `next()` returns the token at the position and advances by one, leaving the stacks alone |
| AstBuilder.Parser.Dispatch | src/main/java/com/silence/vmy/AST.java:191-196 | the handler chain changes position and stacks exactly as the dispatch specification, and fails exactly when it does |
| AstBuilder.Parser.HandleOperator | src/main/java/com/silence/vmy/AST.java:227-264 | the operator handler agrees with its specification |
| AstBuilder.Parser.HandleTight | src/main/java/com/silence/vmy/AST.java:230-238 | the `*`/`/` branch agrees with its specification |
| AstBuilder.Parser.HandleParenthesis | src/main/java/com/silence/vmy/AST.java:239-261 | the `(` branch agrees with its specification |
| AstBuilder.Parser.ScanGroup | src/main/java/com/silence/vmy/AST.java:241-244 | the loop up to `)` agrees with the group scan |
| AstBuilder.Parser.FoldStacks | src/main/java/com/silence/vmy/AST.java:249-257 | the popping loop leaves the stacks and the merged node the fold gives, position unchanged |
| AstBuilder.Parser.CloseParenthesis | src/main/java/com/silence/vmy/AST.java:246-261 | closing a group agrees with its specification |
| AstBuilder.Parser.HandleAssignment | src/main/java/com/silence/vmy/AST.java:305-331 | the assignment handler agrees with its specification |
| AstBuilder.Parser.ScanLine | src/main/java/com/silence/vmy/AST.java:318-321 | the loop to the newline agrees with the line scan |
| AstBuilder.Parser.CloseAssignment | src/main/java/com/silence/vmy/AST.java:322-330 | folding to `=` and pushing the assignment agrees with its specification |
| AstBuilder.Parser.HandleDeclaration | src/main/java/com/silence/vmy/AST.java:346-358 | the declaration handler agrees with its specification |
| AstBuilder.Parser.Finish | src/main/java/com/silence/vmy/AST.java:147-163 | the final fold returns the tree the specification gives |
| AstBuilder.Build | src/main/java/com/silence/vmy/AST.java:140-164 | `build(Scanner)` returns exactly `Parse(toks)` |
| ParseExamples.ProductBindsTighter | src/main/java/com/silence/vmy/AST.java:228-238 | for any integer literals `a b c`, `a + b * c` (likewise `-`, `/`) parses to `a + (b * c)` |
| ParseExamples.SumOfProduct | src/main/java/com/silence/vmy/AST.java:228-238 | `2 + 3 * 4` parses to `2 + (3 * 4)` |
| ParseExamples.ProductTakesOperandFromBelow | src/main/java/com/silence/vmy/AST.java:235-238 | `2 3 * + 4` parses to `(3 * 2) + 4` |
| ParseExamples.LooseChainNestsRight | src/main/java/com/silence/vmy/AST.java:151-158 | `1 - 2 - 3` parses to `1 - (2 - 3)` |
| ParseExamples.GroupOverridesPrecedence | src/main/java/com/silence/vmy/AST.java:239-261 | `(1 + 2) * 3` parses to `(1 + 2) * 3` |
| ParseExamples.UnclosedParenthesisAccepted | src/main/java/com/silence/vmy/AST.java:242 | `(1 + 2` without `)` parses to `1 + 2` |
| ParseExamples.LoneOperatorGivesEmptyTree | src/main/java/com/silence/vmy/AST.java:147-149 | a lone `+` leaves no node, so the tree has no root |
| ParseExamples.ProductWithoutRightOperand | src/main/java/com/silence/vmy/AST.java:235-238 | `2 * +` pops an empty node stack |
| Stores.ValueStore.constructor | src/main/java/com/silence/vmy/AST.java:437 | the store starts empty |
| Stores.ValueStore.Get | src/main/java/com/silence/vmy/AST.java:479-481 | an existing name's value is returned |
| Stores.ValueStore.Put | src/main/java/com/silence/vmy/AST.java:467 | the name is mapped to the value and nothing else changes |
| Stores.VariableStore.constructor | src/main/java/com/silence/vmy/AST.java:505 | the store starts empty |
| Stores.VariableStore.Local | src/main/java/com/silence/vmy/AST.java:604-606 | the variable is returned iff the name is present |
| Stores.VariableStore.DeclareVariable | src/main/java/com/silence/vmy/AST.java:544 | a fresh unassigned variable of that type and mutability is stored under the name and returned |
| Stores.VariableStore.Put | src/main/java/com/silence/vmy/AST.java:609-611 | the name gets the variable with the new value, nothing else changes |
| TreeEvalSpec.GetValue | src/main/java/com/silence/vmy/AST.java:477-484 | a name resolves to its stored value and fails iff absent; other objects pass through |
| TreeEvalSpec.Unwrap | src/main/java/com/silence/vmy/AST.java:462-463 | an assigned string literal becomes its text; nothing stored is ever a literal node |
| TreeEvalSpec.Evaluate | src/main/java/com/silence/vmy/AST.java:447-475 | evaluation never removes a name and adds only names the node declares |
| TreeEvalSpec.EvaluateTree | src/main/java/com/silence/vmy/AST.java:440-445 | a tree without a root fails as an unrecognizable node; otherwise the root is evaluated |
| TreeEvalSpec.OnlyWrittenNamesChange | src/main/java/com/silence/vmy/AST.java:459-468 | names a parsed tree neither declares nor assigns keep their value, even when evaluation fails |
| TreeEvalSpec.AssignmentStoresResult | src/main/java/com/silence/vmy/AST.java:490-494 | a successful assignment's name was declared before or inside it, and now holds the result: the value side's value with a name resolved and a string literal turned into its text |
| TreeEvalSpec.UndeclaredNameRejected | src/main/java/com/silence/vmy/AST.java:490-492 | assigning to an undeclared name fails and leaves the store unchanged; once the value is resolved, the failure is "not declared" |
| TreeEvalSpec.SelfReferenceSeesDeclaration | src/main/java/com/silence/vmy/AST.java:460-461 | the target is evaluated first, so `let x = x` declares `x` and stores null |
| TreeEvalSpec.UnassignedOperandReachesOperator | src/main/java/com/silence/vmy/AST.java:453-458 | a declared but unassigned name passes the null test and its null goes to the operator |
| TreeEvaluator.TreeEvaluator.constructor | src/main/java/com/silence/vmy/AST.java:436-437 | the evaluator works on the given store and operator registry |
| TreeEvaluator.TreeEvaluator.Eval | src/main/java/com/silence/vmy/AST.java:440-445 | result and final store are those of `EvaluateTree` |
| TreeEvaluator.TreeEvaluator.EvalSub | src/main/java/com/silence/vmy/AST.java:447-475 | result and final store are those of `Evaluate` on the store it started with |
| TreeEvaluator.TreeEvaluator.GetValue | src/main/java/com/silence/vmy/AST.java:477-484 | the lookup agrees with `GetValue` on the current store |
| TreeEvaluator.TreeEvaluator.FindAndPut | src/main/java/com/silence/vmy/AST.java:490-494 | a declared name gets the value; an undeclared one fails with the store unchanged |
| TypedEvalSpec.GetValue | src/main/java/com/silence/vmy/AST.java:625-630 | a named variable stands for its current value, failing iff unknown; other objects pass through |
| TypedEvalSpec.GetVariable | src/main/java/com/silence/vmy/AST.java:604-606 | a name yields its variable wrapped with the name, iff it is stored |
| TypedEvalSpec.AssignTo | src/main/java/com/silence/vmy/AST.java:556-574 | the assignment step adds only the name its declaration target declares |
| TypedEvalSpec.Evaluate | src/main/java/com/silence/vmy/AST.java:520-552 | evaluation never removes a name and adds only names the node declares |
| TypedEvalSpec.EvaluateTree | src/main/java/com/silence/vmy/AST.java:508-513 | a tree without a root fails as an unrecognizable node; otherwise the root is evaluated |
| TypedEvalSpec.TypesChangeOnlyByDeclaration | src/main/java/com/silence/vmy/AST.java:556-574 | names not declared keep type and mutability; names neither declared nor assigned keep their variable |
| TypedEvalSpec.AssignmentToNameChecksType | src/main/java/com/silence/vmy/AST.java:562-565 | assigning to a name succeeds iff it holds a variable of exactly the value's type; then only its value changes, to the expression's resolved value, whatever its mutability; on failure nothing changes |
| TypedEvalSpec.DeclarationTakesValue | src/main/java/com/silence/vmy/AST.java:566-571 | a declaration with a value declares it with the keyword's mutability, the expression's resolved value, and the named type or else the value's type |
| TypedEvalSpec.DeclarationChecksTypeFirst | src/main/java/com/silence/vmy/AST.java:569-571 | a declaration target passes iff no type is named or the named type is the value's; on failure nothing is declared |
| TypedEvalSpec.UntypedDeclarationAloneFails | src/main/java/com/silence/vmy/AST.java:540-545 | a declaration evaluated on its own without a type fails and declares nothing |
| TypedEvalSpec.SelfReferenceFails | src/main/java/com/silence/vmy/AST.java:556-563 | the expression is evaluated first, so `let x = x` on a store without `x` fails and declares nothing |
| TypedEvaluator.TypedEvaluator.constructor | src/main/java/com/silence/vmy/AST.java:504-505 | the evaluator works on the given store and operator registry |
| TypedEvaluator.TypedEvaluator.Eval | src/main/java/com/silence/vmy/AST.java:508-513 | result and final store are those of `EvaluateTree` |
| TypedEvaluator.TypedEvaluator.EvalSub | src/main/java/com/silence/vmy/AST.java:520-552 | result and final store are those of `Evaluate` on the store it started with |
| TypedEvaluator.TypedEvaluator.HandleAssignment | src/main/java/com/silence/vmy/AST.java:556-574 | after the expression, result and store are those of `AssignTo` |
| TypedEvaluator.TypedEvaluator.BinaryOpCall | src/main/java/com/silence/vmy/AST.java:583-590 | the operator call agrees with `BinaryOpCall` on the current store |
| TypedEvaluator.TypedEvaluator.CanAssign | src/main/java/com/silence/vmy/AST.java:598-602 | the check passes iff the two types are equal, and otherwise fails with a type mismatch |
| TypedEvaluator.TypedEvaluator.GetVariable | src/main/java/com/silence/vmy/AST.java:604-606 | the lookup agrees with `GetVariable` on the current store |
| TypedEvaluator.TypedEvaluator.GetValue | src/main/java/com/silence/vmy/AST.java:625-630 | the resolution agrees with `GetValue` on the current store |
| ProgramExamples.TotalLineParses | src/main/java/com/silence/vmy/AST.java:305-331 | `let total = 2 + 3 * 4` parses to an assignment to a fresh declaration with the product grouped first |
| ProgramExamples.UntypedTotal | src/main/java/com/silence/vmy/AST.java:459-468 | the untyped evaluator declares `total` and stores 14 |
| ProgramExamples.TypedTotal | src/main/java/com/silence/vmy/AST.java:566-571 | the typed evaluator declares `total` as a mutable Int holding 14 |
| ProgramExamples.UntypedUnassignedOperand | src/main/java/com/silence/vmy/AST.java:453-458 | after `let x`, `x + 1` hands null to the addition, which fails |
| ProgramExamples.TypedImmutableReassigned | src/main/java/com/silence/vmy/AST.java:562-565 | a `val` variable is reassigned without complaint |
| ProgramExamples.TypedDeclarationMismatch | src/main/java/com/silence/vmy/AST.java:569-570 | an Int value in a String declaration fails and declares nothing |

## Left out

- `build(List<Token>)`: its loop tests an iterator that is never advanced. Only `build(Scanner)` is modelled.
- Double literals and floating-point arithmetic: a double token's text is kept as opaque text. `Double.parseDouble` is not modelled.
- `Tokens.ParseInt` accepts ASCII digits only. `Integer.parseInt` also accepts other Unicode decimal digits.
- The tokenizer and the `Scanner`: the parser takes the finished token sequence and a position.
- `BinaryOps.OpsMapper`: a parameter, a map from spellings to functions that may fail. `Global`, `Runtime` and `VmyTypes` are not part of this model:
  - the stores become the two classes in `Stores`;
  - only the five builtin types `get_obj_type` names exist.
- The two evaluators share one `Global` in the source. Here each has its own store kind: names to values, or names to typed variables.
- `Runtime.VariableWithName` is a value (`Named`), not a live adapter. Writes through it are not aliased to the store, and the evaluators never make such writes.
- The typed store's `local` on an unknown name is not shown. It is modelled as an `UnknownVariable` failure.
- An untyped assignment whose target evaluates to something other than a name fails with `TargetNotName`. This stands for the source's failing cast. A null name is not modelled, because no parsed target evaluates to null.
- `HandlerBuilder`, the lazy singletons `HANDLER`, `Evaluator` and `VSTEvaluator`, and `recall` through the head pointer are wiring. They are replaced by one fixed dispatch order.
- `Utils.getStaticMethod`, `getOpsStaticMethod` and `lookup`: Java reflection.
- `Utils.Order`, `Recursive` and `RecursiveException`: markers.
- `isQuote`: it uses a constant `Identifiers.java` does not define.
- `isType`: no modelled code calls it.
- `token2ValNode`: unused; `ValNode` holds what `Integer.parseInt` gives.
- `operatorEquals`: a plain string equality, written inline.
- `Identifiers.Colon`: not declared in `Identifiers.java`. It is taken to be `:`.
- Exception message texts: each failure is an error kind.
- `ProgramExamples.SampleOps`: its integer addition and multiplication do not wrap at 32 bits. It only serves the examples.
- `ParseInvariant.ParsedTreesAreWellFormed`: assumes that every assignment token is spelt `=`. The tokenizer is not part of this model.
- `Utils.EOL`: requires `start` to be a position inside the text. On a start at or past the end, Java's `charAt` throws `StringIndexOutOfBoundsException`; that exception is not modelled.
