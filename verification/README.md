# Zinc: value dispatch, `let` parsing and two VM instructions, in Dafny

This project models four pieces of the Zinc toolchain and proves properties about them.

- **The interpreter's `Value`** (`value.dfy`, `value_properties.dfy`). This is the sum type Unit | Boolean | Integer | Array | Tuple | Structure | Enumeration, together with:
  - its constructors;
  - `type_variant` and `has_the_same_type_as`;
  - the unary and binary operators.

  Each operator checks its operands' variants. It then either hands two payloads to a gadget or returns an error naming the operand it rejects. The gadgets are the payload operations of the constraint system. They are fields of a `Gadgets` record of functions. Each operation gadget may fail, or succeed with any payload. There are two exceptions (see "## Left out"). The two gadgets that allocate a constant Boolean either fail or yield exactly the requested constant. An array or structure push either fails or appends exactly its element. Gadget failures are wrapped the way the source wraps them.
- **The compiler's `let` statement parser** (`let_parser.dfy`, `let_parser_properties.dfy`). This is an eight-state machine for `let [mut] ident [: Type] = Expr ;`.
  - The lexer's output is a sequence of tokens or lexical errors. Once the sequence runs out it yields `Eof` at a fixed location.
  - The type and expression parsers are parameters. Each reads a prefix of the stream and can hand back one lookahead token.
  - The machine is proved equal, on every input, to a left-to-right reading of the production (`Grammar`). Each error position and the source's own test inputs follow from that equality.
- **`ConditionalSelect`** of the virtual machine (`vm.dfy`, `vm_properties.dfy`). It pops the condition, the value for true and the value for false, and pushes the selected value.
- **`StoreSequence`** of the virtual machine. It pops `len` values and stores the i-th popped value at `address + len - i - 1`. Memory therefore holds the values in push order.

In the VM model the stack is a sequence whose last element is the top. Memory is a map from address to value, with a capacity. A failing instruction keeps the state it had reached when it failed, because the source's `?` returns without undoing earlier pops and stores.

`wrappers.dfy` holds `Option` and `Result`, mirroring Rust's.

## Model

| member | source | states |
|---|---|---|
| Values.NewBooleanFromLiteral | interpreter/src/element/value/mod.rs:47-54 | The result is the Boolean with the literal's value exactly when allocation succeeds. Otherwise it is the allocation error, wrapped as a Boolean error. |
| Values.NewIntegerFromLiteral | interpreter/src/element/value/mod.rs:56-63 | The result is the Integer the gadget builds from the literal. If the gadget fails, the result is its error, wrapped as an Integer error. |
| Values.NewIntegerFromUsize | interpreter/src/element/value/mod.rs:65-72 | The same as `NewIntegerFromLiteral`, for a machine-size unsigned number. |
| Values.NewArray | interpreter/src/element/value/mod.rs:74-80 | Succeeds exactly when the array gadget accepts every push. The array then holds all the elements in their order. Otherwise the error is that of the first rejected push, and every earlier push was accepted. |
| Values.NewTuple | interpreter/src/element/value/mod.rs:82-88 | Never fails. The tuple holds all the elements in their order. |
| Values.NewStructure | interpreter/src/element/value/mod.rs:90-96 | Succeeds exactly when every field push is accepted. The structure then holds the fields in order. Otherwise it fails with the first rejected field's error. |
| Values.TypeVariantOf | interpreter/src/element/value/mod.rs:98-108 | Unit has the unit type. Every Enumeration has type u8, whatever its discriminant. Booleans, Integers, Arrays, Tuples and Structures take their type from their payload's type gadget. |
| ValueProperties.UnitsAndBooleansShareTheirType | interpreter/src/element/value/mod.rs:110-124 | Two Units have the same type. So do two Booleans, whatever their values. |
| ValueProperties.SameTypeFollowsVariant | interpreter/src/element/value/mod.rs:110-124 | Values of different variants never have the same type, and an Enumeration never has the same type as anything, not even another Enumeration. For Units and Booleans, having the same type is exactly having the same variant. |
| ValueProperties.EnumerationTypes | interpreter/src/element/value/mod.rs:98-124 | Any two Enumerations both report u8. Yet `has_the_same_type_as` says they differ. |
| Values.Or | interpreter/src/element/value/mod.rs:126-141 | A non-Boolean left operand is blamed first, then a non-Boolean right operand. Two Booleans give the gadget's Boolean, or its error wrapped. |
| Values.Xor | interpreter/src/element/value/mod.rs:143-162 | The same operand checks and outcome as `Or`, under the name "xor". |
| Values.And | interpreter/src/element/value/mod.rs:164-183 | The same operand checks and outcome as `Or`, under the name "and". |
| Values.Equals | interpreter/src/element/value/mod.rs:185-215 | Two Units give Boolean true, if allocation succeeds. Two Booleans or two Integers give the gadget's answer. A failing allocation for two Units, or a failing Boolean gadget, gives its error wrapped as a Boolean error. A failing Integer gadget gives its error wrapped as an Integer error. A Boolean (or Integer) left operand with a right operand of another variant blames the right operand as not Boolean (or not Integer). Every other pair is an operand-type mismatch naming both. Any success is a Boolean. |
| Values.NotEquals | interpreter/src/element/value/mod.rs:217-247 | The same as `Equals`, including how errors are wrapped, except that two Units give Boolean false. |
| Values.GreaterEquals | interpreter/src/element/value/mod.rs:249-268 | A non-Integer left operand is blamed first, then a non-Integer right operand. Two Integers give the gadget's Boolean, or its error wrapped. |
| Values.LesserEquals | interpreter/src/element/value/mod.rs:270-289 | As `GreaterEquals`, under the name "lesser_equals". |
| Values.Greater | interpreter/src/element/value/mod.rs:291-310 | As `GreaterEquals`, under the name "greater". |
| Values.Lesser | interpreter/src/element/value/mod.rs:312-331 | As `GreaterEquals`, under the name "lesser". |
| Values.Add | interpreter/src/element/value/mod.rs:333-352 | A non-Integer left operand is blamed first, then a non-Integer right operand. Two Integers give the gadget's Integer, or its error wrapped. |
| Values.Subtract | interpreter/src/element/value/mod.rs:354-373 | As `Add`, under the name "subtract". |
| Values.Multiply | interpreter/src/element/value/mod.rs:375-394 | As `Add`, under the name "multiply". |
| Values.Divide | interpreter/src/element/value/mod.rs:396-415 | As `Add`, under the name "divide". |
| Values.Modulo | interpreter/src/element/value/mod.rs:417-436 | As `Add`, under the name "modulo". |
| Values.Negate | interpreter/src/element/value/mod.rs:438-448 | Any non-Integer is rejected as "negate". An Integer gives the gadget's Integer, or its error wrapped. |
| Values.Not | interpreter/src/element/value/mod.rs:450-460 | Any non-Boolean is rejected as "not". A Boolean gives the gadget's Boolean, or its error wrapped. |
| Values.Cast | interpreter/src/element/value/mod.rs:462-476 | Any non-Integer is rejected as "cast". An Integer gives the gadget's Integer for the target type, or its error wrapped. |
| ValueProperties.UnitEquality | interpreter/src/element/value/mod.rs:185-247 | `equals(Unit, Unit)` is Boolean true and `not_equals(Unit, Unit)` is Boolean false, unless allocating the constant fails. In that case either operator returns the allocation error, wrapped as a Boolean error. |
| ValueProperties.OperatorTyping | interpreter/src/element/value/mod.rs:126-436 | For all fourteen binary operators, success implies operands the operator accepts, and a result of the operator's result kind: Boolean for logic and comparisons, Integer for arithmetic. Operands it does not accept give exactly the error its typing table names. |
| LetParser.Step | zinc-compiler/src/syntax/parser/statement/let.rs:51-187 | Each iteration either stops or moves to a strictly later state. `mutable` changes only on `mut`, in the MutOrIdentifier state. The type is recorded only in the Type state. |
| LetParser.Run | zinc-compiler/src/syntax/parser/statement/let.rs:56-186 | The loop visits strictly increasing states, so it runs at most eight iterations. A success always ends in the Semicolon state. |
| LetParserProperties.ParseIsGrammar | zinc-compiler/src/syntax/parser/statement/let.rs:51-187 | On every input and with any sub-parsers, the state machine returns exactly what the production `let [mut] ident [: Type] = Expr ;` read left to right returns. That covers the statement, the remaining stream and every error. |
| LetParserProperties.NotLetFirst | zinc-compiler/src/syntax/parser/statement/let.rs:58-76 | A first token other than `let` gives "expected one of `let`" at that token's location. |
| LetParserProperties.BindingErrors | zinc-compiler/src/syntax/parser/statement/let.rs:77-121 | After `let`, a token that is neither `mut` nor an identifier gives "expected mut or identifier" at that token. After `let mut`, a non-identifier gives "expected identifier". Both carry the identifier hint. |
| LetParserProperties.DeclarationErrors | zinc-compiler/src/syntax/parser/statement/let.rs:122-161 | After the identifier, anything other than `:` or `=` gives "expected type or value". After the type, anything other than `=` gives "expected value", with the type parser's lookahead consulted first. |
| LetParserProperties.MissingSemicolon | zinc-compiler/src/syntax/parser/statement/let.rs:169-184 | After the expression, any token other than `;` gives the error naming `;` at that token's location. The expression parser's lookahead is checked first. |
| LetParserProperties.SuccessfulParse | zinc-compiler/src/syntax/parser/statement/let.rs:51-187 | A success hands back no lookahead and carries the location of `let`. It is mutable exactly when `mut` follows `let`. It has a type exactly when `:` follows the identifier. |
| LetParserProperties.Accepted | zinc-compiler/src/syntax/parser/statement/let.rs:51-187 | A stream that reads as `let`, then a binding, a declaration and an expression closed by `;`, parses to the statement those parts make up: located at `let`, with their name, mutability, type and expression, no lookahead, and the stream after `;` left over. |
| LetParserProperties.BoundedIterations | zinc-compiler/src/syntax/parser/statement/let.rs:56-186 | From the initial state the loop starts in KeywordLet, runs between one and eight iterations, and never repeats a state. |
| LetParserProperties.SimpleLet | zinc-compiler/src/syntax/parser/statement/let.rs:213-242 | `let a = 42;`, on any line, parses to an immutable, untyped statement at column 1 named `a` at column 5, with the literal at column 9 and no lookahead. |
| LetParserProperties.MutableTypedLet | zinc-compiler/src/syntax/parser/statement/let.rs:244-276 | `let mut a: u232 = 42;`, on any line, parses to a mutable statement named `a` at column 9, of type u232 at column 12, with the literal at column 19. |
| LetParserProperties.LetWithoutName | zinc-compiler/src/syntax/parser/statement/let.rs:278-291 | `let = 42;`, on any line, fails with "expected mut or identifier" at column 5, on `=`. |
| LetParserProperties.MutWithoutName | zinc-compiler/src/syntax/parser/statement/let.rs:293-306 | `let mut = 42;`, on any line, fails with "expected identifier" at column 9, on `=`. |
| LetParserProperties.LetWithoutValue | zinc-compiler/src/syntax/parser/statement/let.rs:308-321 | `let a;`, on any line, fails with "expected type or value" at column 6, on `;`. |
| LetParserProperties.TypedLetWithoutValue | zinc-compiler/src/syntax/parser/statement/let.rs:323-336 | `let a: u64;`, on any line, fails with "expected value" at column 11, on `;`. |
| LetParserProperties.LetWithoutSemicolon | zinc-compiler/src/syntax/parser/statement/let.rs:169-184 | `let a: u64 = 42`, on any line, fails at end of input (column 16), on `Eof`, with the error naming `;` that the code raises. |
| Vm.ConditionalSelect | zinc/src/instructions/builtins/cs.rs:13-23 | With three or more entries, the stack loses its top three and gains the selected value. The condition is on top, the value for true below it, and the value for false below that. Everything deeper is unchanged and no error is raised. With fewer than three entries, the pops that succeed empty the stack and nothing is pushed. Memory never changes. |
| Vm.StoreSequence | zinc-vm/src/instructions/memory/store_array.rs:12-19 | Covers every case. `len = 0` changes nothing. When the top `len` entries exist and fit, they leave the stack and land at `address ..` in push order, with all other memory unchanged. An empty stack underflows before any change. A last address beyond capacity fails with that address after one pop. A shorter stack underflows after storing what it had at the top end of the range. |
| Vm.StoreIterations | zinc-vm/src/instructions/memory/store_array.rs:13-16 | Iterations `i .. len` of the loop, storing at `address + len - i - 1`, do what a whole `StoreSequence` of `len - i` values does. |
| VmProperties.SelectAfterPushes | zinc/src/instructions/builtins/cs.rs:14-22 | Pushing the value for false, the value for true and the condition, then selecting, leaves the old stack with exactly the selected value on top. A nonzero condition selects the value for true. |
| VmProperties.SelectTestProgram | zinc/src/instructions/builtins/cs.rs:33-44 | The instruction test's program (push 1337, 42, 0; select; push 420, 69, 1; select) ends without error, with 69 on top of 1337. |
| VmProperties.StoreAfterPushes | zinc-vm/src/instructions/memory/store_array.rs:13-16 | Pushing any values and then storing that many in range succeeds. The values land in memory from `address` on, in push order. The stack ends as it was before the pushes. |

## Left out

- Formatting of values (`fmt`, mod.rs:478-501) is not modelled. It is string rendering with no behaviour to state.
- The bodies of the Boolean, Integer, Array and Structure gadgets are left out. So are the constraint system and its namespaces. The gadgets appear only as opaque functions that may fail.
- `Value::new_unit` (mod.rs:43-45) has no member. It is the `Unit` constructor itself.
- `Values.HasTheSameTypeAs` carries no contract of its own. Its behaviour is stated by `ValueProperties.UnitsAndBooleansShareTheirType`, `SameTypeFollowsVariant` and `EnumerationTypes`.
- `Boolean::new_from_bool` and `Boolean::new_from_literal` are not part of this model. Allocating a constant Boolean is assumed to either fail or yield exactly that constant. So the value named in `Values.NewBooleanFromLiteral` and `ValueProperties.UnitEquality` comes from this assumption, not from a proof about the gadget.
- `Array::push` and `Structure::push` are not part of this model. A push the array or structure gadget accepts is assumed to append exactly its element (or named field) at the end. So the contents stated by `Values.NewArray` and `Values.NewStructure` come from this assumption, not from a proof about the gadgets.
- Tuple pushes are modelled as appends, since the source calls the tuple push without error handling.
- `LetParser.Parse` (let.rs:51-187) carries no contract of its own. `LetParserProperties.ParseIsGrammar` states its whole behaviour, and `Run` states the loop's bounds.
- The internals of the token stream are left out. So are the type and expression parsers, the shared `Rc<RefCell<…>>` stream and the statement builder. The stream is a sequence of lexer results. The sub-parsers are parameters that read a prefix of it. The builder is a record of optional fields.
- The builder's `finish` (let.rs:174) is not part of this model, nor is the failure it could raise on a missing field. The model's `Finish` requires location, identifier and expression, and `LetParser.Step` proves they are always present in the Semicolon state.
- The source's own test for a missing `;` (let.rs:338-352) expects the error `expected_one_of`. The code (let.rs:174-181) raises `expected_one_of_or_operator`. The model follows the code, so `LetWithoutSemicolon` states the code's error, with the test's location, expected list and found lexeme.
- `vm.pop`, `vm.push` and `vm.store` come from the virtual machine's core, which is not part of this model.
  - Pop fails only on an empty stack.
  - Push never fails.
  - Store fails with `OutOfBounds` exactly at addresses at or beyond a fixed capacity.
- Vm.ConditionalSelect: the selection gadget is modelled concretely, with a nonzero condition picking the value for true. Its own failure path (the `?` after `conditional_select`) is not modelled.
- Field elements are modelled as unbounded integers, without the field modulus.
- Vm.StoreSequence: `address + len - i - 1` uses natural numbers. A machine-size overflow of `address + len` is not modelled.
- VM instruction dispatch, call frames and the proving pipeline are not part of this model.
- The semantic test of a conditional whose branches have mismatched types is not modelled. It is an end-to-end compiler test with no logic of its own.
