# Nodable expression engine in Dafny

Nodable turns a flat arithmetic expression such as `1+2*3` into a graph of
nodes, and evaluates that graph to one number. The graph has:

- number and text value nodes;
- binary operation nodes for `+ - * / =`;
- symbol nodes that name values;
- a lexer node that owns the expression text.

A `Node_Context` creates every node, owns it in its arena and keeps a symbol
table for `find`. A `Node_Lexer` works in three steps: it cuts its expression
into (category, lexeme) tokens, it checks that they read
Number (Operator Number)*, and it then walks the tokens, one operation node
per operator. Before each operator it asks `NeedsToBeEvaluatedFirst` whether
to reduce now or to resolve the right operand first. The separate `Value`
class is a tagged variant with a name, a type tag, a visibility and one
payload.

The Dafny model has these modules:

| module | file | what it holds |
|---|---|---|
| `Outcomes` | outcomes.dfy | `Option`, `Result` and the error kinds: syntax error, unsupported operator, type mismatch, division by zero. |
| `DecimalText` | decimal_text.dfy | How a number lexeme is read: its leading unsigned digits and one fraction; white space, sign and exponent are not read. |
| `Values` | values.dfy | `Value.h`: the class `Value`, its setters and its coercing getters. |
| `Operations` | operations.dfy | The five operators, the dispatch from the operator character, their arithmetic, and the precedence rule. |
| `Graph` | graph.dfy | `Node.h` nodes as records in the arena of the class `Context`, plus the factory methods, `find`, slots and operation evaluation. |
| `Tokens` | tokens.dfy | The token scan and the syntax check. |
| `Semantics` | semantics.dfy | The value of a token sequence. It has three definitions: a recursive-descent reference, the builder's recursion, and the recursion as declared. It proves the builder equals the reference. |
| `Lexing` | lexing.dfy | The class `Lexer`: the tokenize loop, and the recursive build-and-evaluate that creates and evaluates nodes in the context. |
| `BuilderExamples`, `EngineExamples` | builder_examples.dfy, engine_examples.dfy | Worked expressions, and end-to-end scenarios through a context and a lexer. |

Conventions of the model:

- Every node is an index into its context's arena, and every edge is such an index.
- A null pointer is `None`.
- Numbers are mathematical reals.
- A failure is an `Err` value, never an abort.

Node.h and Value.h give most members without an inline body; where none is
given, the model follows the declaration, its comments and the engine's
intended behaviour. Where they leave a choice open, the model makes these
choices:

- `find` answers with the most recently created symbol of that name.
- A character that belongs to no token kind becomes an Unknown token, and the syntax check refuses it.
- A type mismatch or a division by zero stops evaluation with an error.
- Setting a slot past the end of a slot vector extends the vector with null slots.

## Model

| member | source | states |
|---|---|---|
| `Values.TypeCode` | sources/Value.h:8-14 | Each type tag has a code below Type_COUNT = 4 that maps back to it, and only Type_Unknown is 0. |
| `Values.TypeOfCode` | sources/Value.h:8-14 | Exactly the codes below Type_COUNT name a type tag. |
| `Values.TypeCodesDistinct` | sources/Value.h:8-14 | The four type tags have distinct codes, and every code below Type_COUNT is the code of the tag it names. |
| `Values.VisibilityCode` | sources/Value.h:16-21 | Each visibility has the integer code 0, 1 or 2, and that code maps back to it. |
| `Values.VisibilityOfCode` | sources/Value.h:16-21 | Exactly the codes 0, 1 and 2 name a visibility. |
| `Values.VisibilityCodesDistinct` | sources/Value.h:16-21 | The three visibilities have distinct codes, and Visibility_Default has Public's code, 0. |
| `Values.AsBoolean` | sources/Value.h:49 | The boolean reading succeeds exactly when the tag is set and matches the payload. A stored boolean reads back as itself. |
| `Values.AsNumber` | sources/Value.h:50 | The number reading succeeds exactly when the tag is set and matches the payload. A text of digits reads as its decimal value, and a boolean reads as 0 or 1. |
| `Values.AsString` | sources/Value.h:51 | The text reading succeeds for a text or a boolean payload, and a text reads back unchanged. |
| `Values.Value.constructor` | sources/Value.h:29 | A fresh Value is named "Unknown", has no payload, has type Unknown and is Public (code 0), so isSet is false. |
| `Values.Value.TypeQueries` | sources/Value.h:32-33 | isType(t) holds exactly when getType() is t. isSet holds exactly when the type is not Unknown, i.e. its code is not 0. |
| `Values.Value.GetType` | sources/Value.h:46 | getType is Type_Unknown exactly while the value is not set, and its code is below Type_COUNT. |
| `Values.Value.GetName` | sources/Value.h:45 | Returns the name; the constructor makes it "Unknown" and SetName's contract states that getName returns the new name. |
| `Values.Value.GetVisibility` | sources/Value.h:53 | Returns the visibility; the constructor makes it Visibility_Default and SetVisibility's contract states that it returns the visibility last set. |
| `Values.Value.GetValueAsBoolean` | sources/Value.h:49 | Succeeds exactly when the value is set and its tag matches its payload. |
| `Values.Value.GetValueAsNumber` | sources/Value.h:50 | Succeeds exactly when the value is set and its tag matches its payload; a Number value reads back its stored number. |
| `Values.Value.GetValueAsString` | sources/Value.h:51 | Succeeds only when the value is set and its tag matches its payload; a String value reads back its stored text. |
| `Values.Value.SetName` | sources/Value.h:35 | getName returns the new name, and payload, tag and visibility are unchanged. |
| `Values.Value.SetValueFrom` | sources/Value.h:36 | Copies the other value's tag and payload, so all three getters answer as they do on it. Name and visibility stay. |
| `Values.Value.SetString` | sources/Value.h:37-38 | The tag becomes String, and getValueAsString returns the text. |
| `Values.Value.SetNumber` | sources/Value.h:39 | The tag becomes Number. getValueAsNumber returns the number, and getValueAsBoolean says whether it is non-zero. |
| `Values.Value.SetBoolean` | sources/Value.h:40 | The tag becomes Boolean. The getters return the boolean, 1 or 0, and "true" or "false". |
| `Values.Value.SetType` | sources/Value.h:42 | Only the tag changes, to the given type. |
| `Values.Value.SetVisibility` | sources/Value.h:43 | Only the visibility changes, and getVisibility returns it. |
| `Operations.OperatorOf` | sources/Node.h:172 | The dispatch knows an operator for a character exactly when it is one of `+ - * / =`. |
| `Operations.Symbol` | sources/Node.h:97-139 | Every operation is written with one of the five operator characters. |
| `Operations.SymbolRoundTrip` | sources/Node.h:172 | Dispatching on an operator's character gives that operator back, and no other character dispatches to it. |
| `Operations.Level` | sources/Node.h:84-85 | Binding levels are at most 2, and level 0 is exactly the assignment. |
| `Operations.Apply` | sources/Node.h:83 | The operation fails exactly on division by zero, with DivisionByZero. Otherwise a sum minus its right operand gives the left, and likewise for a difference. An assignment yields its right operand. A product by 0 is 0 and a product by 1 is the left operand. |
| `Operations.ProductInverts` | sources/Node.h:83 | A product by a non-zero right factor, divided by that factor, gives back the left factor. |
| `Operations.QuotientInverts` | sources/Node.h:83 | A quotient by a non-zero divisor exists and, times the divisor, gives back the dividend. |
| `Operations.NeedsToBeEvaluatedFirst` | sources/Node.h:84-85 | True exactly when both characters are operators and the first must be reduced before the second. |
| `Operations.EvaluatedBeforeOrder` | sources/Node.h:84-85 | Across levels, exactly one of two operators goes first. Same-level arithmetic goes left to right. Assignment goes after everything, including another assignment. The rule is transitive. |
| `Operations.NeedsToBeEvaluatedFirstExamples` | sources/Node.h:84-85 | `*` before `+` holds, `+` before `*` does not, `=` before `=` does not, and a non-operator never goes first. |
| `DecimalText.ReadDecimal` | sources/Node.h:58 | A Number node built from text holds a non-negative number, and a text of digits gives its decimal value. |
| `DecimalText.ReadDecimalOfNatText` | sources/Node.h:58 | The text of a natural number reads back as that number. |
| `Tokens.Scan` | sources/Node.h:191 | Every token is well formed: a number token is a run of digits and points, an operator token one operator character, an Unknown token one other character. There are never more tokens than characters. |
| `Tokens.ScanKeepsText` | sources/Node.h:191 | The lexemes, written one after the other, spell the expression without its white space. |
| `Tokens.ScanNumberAt` | sources/Node.h:191 | From a run of digits and points that ends at `j`, the scan of the rest emits that run as one number token and goes on at `j`. |
| `Tokens.ScanCharAt` | sources/Node.h:191 | An operator character becomes an operator token of its own, and any other character outside a number an Unknown token, before the scan goes on. |
| `Tokens.ScanSpaceAt` | sources/Node.h:191 | White space emits no token. |
| `Tokens.ScanExample` | sources/Node.h:191 | `1+2*3` tokenizes to (Number,1) (Operator,+) (Number,2) (Operator,*) (Number,3). |
| `Tokens.SyntaxRejects` | sources/Node.h:192 | Two operators in a row, a trailing operator and empty input all fail the syntax check. |
| `Tokens.IsSyntaxValid` | sources/Node.h:192 | The check itself: the tokens read Number (Operator Number)*. What it accepts is stated by ValidShape, what it refuses by SyntaxRejects. |
| `Tokens.ValidShape` | sources/Node.h:192 | A sequence that passes the check is not empty, starts and ends with a number, and no operator follows another. |
| `Lexing.Lexer.SyntaxValid` | sources/Node.h:192 | When the lexer's tokens pass the check, they start and end with a number and no operator follows another. |
| `Tokens.ScanExampleValid` | sources/Node.h:192 | The tokens of `1+2*3` pass the syntax check. |
| `Tokens.ScanRejectsExample` | sources/Node.h:192 | The tokens of `1+*2` fail the syntax check. |
| `Semantics.OperatorAt` | sources/Node.h:181 | The operator read from an operator token is the one written by its lexeme. |
| `Semantics.Build` | sources/Node.h:190 | The recursion only moves forward through operator positions, and reports a position no earlier than where it started. |
| `Semantics.ReducesNowByChars` | sources/Node.h:84-85 | The builder's decision, taken on the operator characters with NeedsToBeEvaluatedFirst, is the decision on the operators they stand for. |
| `Semantics.BuildStepsTo` | sources/Node.h:190 | Once the right operand of an operator is known, with where it ended, the builder combines it with the running result and goes on from there, or stops on the error. |
| `Semantics.BuildUnderSum` | sources/Node.h:190 | Resolving the right operand of `+` or `-` consumes exactly the chain of `*` and `/` that follows. |
| `Semantics.BuildUnbounded` | sources/Node.h:190 | At the top level, or right of `=`, the recursion runs to the end and computes the reference value of the rest. |
| `Semantics.BuildMatchesReference` | sources/Node.h:190 | For every valid token sequence, build-and-evaluate computes the usual-precedence value, error included. |
| `Semantics.AsWrittenBuild` | sources/Node.h:190 | The recursion as declared, from an operator position: an operator that does not reduce first takes the whole rest of the expression as its right operand. AsWrittenFails and AsWrittenSubtractionCounterexample state its properties. |
| `Semantics.AsWrittenFails` | sources/Node.h:190 | The recursion as declared fails only with DivisionByZero. |
| `Semantics.AsWrittenValue` | sources/Node.h:190 | The value the recursion as declared gives a valid expression: a lone number is itself, and the only error is DivisionByZero. |
| `BuilderExamples.SumOfProduct` | sources/Node.h:188 | `1+2*3` evaluates to 7. |
| `BuilderExamples.ProductThenSum` | sources/Node.h:188 | `2*3+1` evaluates to 7. |
| `BuilderExamples.DivideByZero` | sources/Node.h:188 | `4/0` fails with DivisionByZero. |
| `BuilderExamples.AsWrittenSubtractionCounterexample` | sources/Node.h:190 | `1-2*3+4` gives -9 under the recursion as declared, but the reference and the corrected builder give -1. |
| `Graph.TypeOf` | sources/Node.h:46 | A value node's type is Number exactly for a number node and String exactly for a text node. |
| `Graph.TypeIsFixed` | sources/Node.h:43-51 | While the arena grows and evaluates, a value node keeps its type, and isType(t) keeps its answer. |
| `Graph.WithSlot` | sources/Node.h:20-21 | After storing a node in slot i, slot i holds it, every other slot reads as before, and the vector is long enough to hold slot i. |
| `Graph.LastNamed` | sources/Node.h:161 | find's answer is a symbol of that name from the table, and no later symbol has the name. It is null exactly when no symbol in the table has the name. |
| `Graph.FindsNewest` | sources/Node.h:163 | A symbol just added to the table is what find answers for its name. |
| `Graph.FindSkipsOthers` | sources/Node.h:161 | Adding a symbol of another name does not change find's answer. |
| `Graph.FindStable` | sources/Node.h:176 | Evaluating operations never changes find's answer. |
| `Graph.GrowsTransitive` | sources/Node.h:177 | An arena that only appends nodes and updates numbers stays that way over several steps. |
| `Graph.LinkedAppend` | sources/Node.h:162 | Appending a node whose references are sound keeps every reference in the arena sound. |
| `Graph.OperationResult` | sources/Node.h:83 | Evaluation fails with TypeMismatch exactly when an input or the output is not a number node. It fails with DivisionByZero exactly on a zero right operand of `/`. Otherwise the result is the operator applied to the numbers of the left and right inputs. |
| `Graph.Context.constructor` | sources/Node.h:159 | A new context has its name, no nodes and no symbols. |
| `Graph.Context.OwnsEveryNode` | sources/Node.h:16 | getContext of every node in a context is that context. |
| `Graph.Context.GetContext` | sources/Node.h:16 | In a well-formed context, getContext of any node is that context. |
| `Graph.Context.GetName` | sources/Node.h:174 | Returns the context's name, which its constructor sets. |
| `Graph.Context.GetInput` | sources/Node.h:18 | A slot past the end of the input slots reads as null, and a non-null input is a node of the same context. |
| `Graph.Context.GetOutput` | sources/Node.h:19 | A slot past the end of the output slots reads as null, and a non-null output is a node of the same context. |
| `Graph.Context.NumberOf` | sources/Node.h:60 | Node_Number::getValue; SetNumberValue's contract states that it returns the number last set. |
| `Graph.Context.TextOf` | sources/Node.h:71 | Node_String::getValue; SetTextValue's contract states that it returns the text last set. |
| `Graph.Context.AsNumber` | sources/Node.h:48 | asNumber gives the node exactly when its type is Number. |
| `Graph.Context.AsString` | sources/Node.h:49 | asString gives the node exactly when its type is String. |
| `Graph.Context.SymbolValue` | sources/Node.h:147 | A symbol names a value node of the same context. |
| `Graph.Context.SymbolName` | sources/Node.h:148 | A symbol's name is the name find looks it up by. |
| `Graph.Context.AddNode` | sources/Node.h:162 | The node gets this context as owner and is appended. Earlier nodes and the symbol table are unchanged. |
| `Graph.Context.CreateNodeNumber` | sources/Node.h:164 | Appends a number node holding the integer as a number. |
| `Graph.Context.CreateNodeNumberFromText` | sources/Node.h:165 | Appends a number node holding the decimal value of the text. |
| `Graph.Context.CreateNodeString` | sources/Node.h:166 | Appends a text node holding the given text; the empty text stands for the default of Node_String's constructor (Node.h:68). |
| `Graph.Context.CreateNodeSymbol` | sources/Node.h:163 | Appends a symbol node to the arena and to the symbol table, and find now answers with it. |
| `Graph.Context.CreateNodeOperation` | sources/Node.h:167-171 | Appends an operation node with the given operator, left input, right input and output. |
| `Graph.Context.CreateNodeBinaryOperation` | sources/Node.h:172 | Fails with UnsupportedOperator exactly for a character outside `+ - * / =`, leaving the arena as it was. Otherwise appends the operation its character names. |
| `Graph.Context.CreateNodeLexer` | sources/Node.h:173 | Appends a lexer node over the text node. |
| `Graph.Context.Find` | sources/Node.h:161 | The linear scan of the symbol table answers as LastNamed. |
| `Graph.Context.SetInput` | sources/Node.h:20 | Afterwards getInput(slot) is the target, and no other slot or node changes. |
| `Graph.Context.SetOutput` | sources/Node.h:21 | Afterwards getOutput(slot) is the target, and no other slot or node changes. |
| `Graph.Context.SetNumberValue` | sources/Node.h:61 | Node_Number::getValue returns the new number, and the type and every other node stay. |
| `Graph.Context.SetTextValue` | sources/Node.h:70 | Node_String::getValue returns the new text, and every other node stays. |
| `Graph.Context.EvaluateOperation` | sources/Node.h:83 | Writes the operation's result into its output; `=` writes it into its left input instead and leaves the output as it was. An error writes nothing. |
| `Lexing.Lexer.constructor` | sources/Node.h:186 | The context gains a lexer node over the expression, which the lexer's invariant keeps tied to it, and the token list starts empty. |
| `Lexing.Lexer.AddToken` | sources/Node.h:195 | The token is appended to the tokens. |
| `Lexing.Lexer.Tokenize` | sources/Node.h:191 | The character loop leaves exactly the tokens Scan gives for the expression text. |
| `Lexing.Lexer.NumberEnd` | sources/Node.h:191 | The inner loop stops at the end of the run of digits and points, whose length is NumberRun. |
| `Lexing.Lexer.ConvertTokenToNode` | sources/Node.h:194 | Appends a number node holding the value of the token's lexeme. |
| `Lexing.Lexer.Combine` | sources/Node.h:190 | One reduction creates the operation node over the running result and the operand, then evaluates it into the running result. |
| `Lexing.Lexer.BuildRec` | sources/Node.h:190 | Computes what Build computes and reports where it stopped. It changes no existing node but the running result. |
| `Lexing.Lexer.BuildStep` | sources/Node.h:190 | When the scan goes on past operator `i`, the step converts the next number, resolves it and reduces; it computes what Build computes from `i`. |
| `Lexing.Lexer.ResolveOperand` | sources/Node.h:190 | An operator that reduces at once takes the next number as it is; otherwise the recursion with it pending computes Build from the next operator and reports where it stopped. |
| `Lexing.Lexer.ReduceAndGoOn` | sources/Node.h:190 | The running result becomes the operation's result, or the error is returned; the recursion then goes on from where the operand ended. |
| `Lexing.Lexer.Evaluate` | sources/Node.h:188 | Invalid tokens give SyntaxError before any node is built. Otherwise the result is the reference value of the expression, or its first error. Every node that existed before is left exactly as it was. |
| `EngineExamples.EvaluateSumOfProduct` | sources/Node.h:188 | evaluate on the text `1+2*3` in a fresh context returns 7. |
| `EngineExamples.EvaluateProductThenSum` | sources/Node.h:188 | evaluate on `2*3+1` returns 7. |
| `EngineExamples.EvaluateDivisionByZero` | sources/Node.h:188 | evaluate on `4/0` returns DivisionByZero. |
| `EngineExamples.EvaluateMalformed` | sources/Node.h:192 | evaluate on `1+*2` returns SyntaxError and builds no node. |
| `EngineExamples.FindScenario` | sources/Node.h:161 | find("a") after createNodeSymbol("a", 5) reaches the number 5, and a fresh context finds no "a". |

## Left out

- Drawing (`draw`, `DrawRecursive` and the `printf` bodies): console output only.
- Destructors, heap lifetime, and the untyped payload pointer of Value: nodes are arena indices and the payload is a sum type.
- IEEE doubles: numbers are mathematical reals, and division by zero is an error rather than an infinity.
- Node::setContext: a node's owner is set once, when the context adds it.
- The Node base of Node_Context: the context has no slots of its own here.
- The separate `context` field of Node_Symbol: it duplicates the owner of the base Node.
- Node_String's `operator!=`: text nodes are values, and their equality is built into the language.
- `createNodeAdd`, `createNodeSubstract`, `createNodeMultiply`, `createNodeDivide` and `createNodeAssign`: they are the one method `Graph.Context.CreateNodeOperation` with the operator as a parameter.
- `Value::getTypeAsString` (sources/Value.h:47): the type names are not part of this model.
- Values.AsString and Values.Value.GetValueAsString: a Number payload reports TypeMismatch, because decimal formatting of doubles is library code not modelled.
- Values.AsNumber: a text that is not a decimal number reads as the number spelled by its leading unsigned digits and one fraction (0 if none). Unlike C's `atof`, leading white space, a sign and an exponent are not read. A failed parse is not reported.
- Lexing.Lexer.Evaluate: the result is returned as a value. In the source it lives only in the final running-result node.
- Identifiers in expressions, such as `a=5`: the grammar is Number (Operator Number)*. An assignment writes into the running result, not into a symbol's value.
- `Nodable.h`, with its constants and forward declarations, is not part of this model.
- `buildExecutionTreeAndEvaluate` (sources/Node.h:193) has no member of its own. It is the part of `Lexing.Lexer.Evaluate` that converts the first token and starts the recursion.

## Findings

| source | as written | input that shows it | evidently intended | confidence | as-written member | corrected member |
|---|---|---|---|---|---|---|
| sources/Node.h:190 | The recursion is `void` and takes the token index by value. So when an operator defers to a tighter one on its right, the recursive call cannot tell the caller where the right operand ended. The operand then runs to the end of the tokens. | `1-2*3+4` evaluates as 1-(2*3+4) = -9 | -1: the right operand of `-` ends at the `+`, as the usual precedence rules give | low, not executed: Node.h:190 gives only the declaration, and the recursion is reconstructed from it | `BuilderExamples.AsWrittenSubtractionCounterexample` | `Semantics.BuildMatchesReference` |
