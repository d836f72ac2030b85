# wassembler's JavaScript back end, in Dafny

This project models `wasm.js`, the core of the wassembler compiler. wassembler
takes a small typed language made of functions, imported functions (externs),
`i32` and `f32` values, binary operators, calls and `return`. It turns a
module of that language into a JavaScript function that receives the
imports and returns the exported functions. `wasm.js` has three parts, and
the model keeps all three:

- **the AST** (`ast.dfy`, wasm.js:5-133): nodes, parameters, locals,
  functions, externs and modules, as Dafny datatypes. Literal values and
  operators are kept as text, as the parser hands them over.
- **the semantic pass** (`semantic.dfy`, wasm.js:136-287), `SemanticPass`.
  It binds names to externs, functions and locals, gives every parameter a
  local slot, rewrites `call` into `calldirect`/`callexternal` and
  type-checks operands and arguments. The pure functions `Resolve`,
  `RegisterParams`, `ResolveFunction`, `ModuleScope` and `ResolveModule` say
  what each step computes. The class `SemanticPass` keeps the source's
  fields (`module`, `moduleScope`, `func`, `localScope`) and loops, and each
  of its methods is proved to compute exactly its function.
  `semantic_lemmas.dfy` proves how the module scope answers a name, and
  that every local a resolved tree reads is a slot its function has. It also
  proves what the module `processModule` returns looks like, and that every
  `getlocal` there carries the declared type of the local it names. Every
  statement there obeys the type rules against that final module, not
  only against the module it was checked in: later rounds only append
  locals, which no type already checked depends on.
  `elaborate.dfy` states what resolution makes of a parser-built tree
  without running it. `Elaborates` replaces each name by its binding
  (the local scope first) and each `call` by a direct or external call of
  the callee's index. `Resolve` succeeds exactly when such an elaboration
  exists that obeys the type rules, and it returns that elaboration.
- **the JavaScript generator** (`writer.dfy`, `jsgen.dfy`,
  wasm.js:290-477). `CodeWriter` is a class with the source's buffer,
  margin, margin stack and `dirty` flag. `JSGenerator` is a class holding
  the module, the writer and the current function. Every `generate…`
  method is proved to append exactly the text a pure function (`ExprText`,
  `BlockText`, `FuncText`, `ModuleText`, …) gives, or to fail exactly when
  that function fails. `jsgen_lemmas.dfy` proves three things about those
  functions. First, which nodes generate without throwing. Second, that the
  emitted parentheses balance (`brackets.dfy` holds the counting
  definitions). Third, what the zero-initialisation loop of `generateFunc`
  really writes.
- **`GenerateJS`** (`compiler.dfy`, wasm.js:479-486) runs both phases. It
  is proved equal to the pure `Compile`. `CompileDefined` then says when
  the whole compiler produces a program. On a module the parser builds,
  `Compile` succeeds exactly when the resolver accepts the module and no
  function or extern name is left standing as a value. Every other throw
  of the generator is ruled out by what the resolver has checked.

Throwing is modelled by `Result`/`Outcome` values carrying an `Error`:
- an unbound name;
- a bad callee;
- an arity or type mismatch;
- an unknown node or type;
- a property read on `undefined` (`UndefinedAccess`), which JavaScript
  raises as a `TypeError` when an index falls outside an array.

Several quirks of the source are modelled as written and shown by lemmas:
- A call that passes arguments to a function not processed yet fails: its
  `locals` are still empty when the argument check reads them (wasm.js:113,
  209). A call with no arguments never reads them and resolves.
- A `getlocal` node re-entering the pass gets the `Local` record as its
  type (wasm.js:169). Such an operand matches no typed operand, and two of
  them match only when they read the same slot (wasm.js:172).
- The zero-initialisation loop of `generateFunc` names the variable left
  over from the parameter loops (wasm.js:449-450).
- A `dedent` with nothing saved makes the margin `undefined` (wasm.js:319).

## Model

| member | source | states |
|---|---|---|
| Writer.Indentation | wasm.js:312-316 | the margin after `n` indents is `2n` spaces |
| Writer.CodeWriter.constructor | wasm.js:290-295 | empty buffer, empty margin, no saved margins, line not started |
| Writer.CodeWriter.Out | wasm.js:297-304 | the text is appended, preceded by the margin when the line was not started; the line is then started; margins unchanged |
| Writer.CodeWriter.Eol | wasm.js:306-310 | a newline is appended and the next `out` writes the margin again |
| Writer.CodeWriter.Indent | wasm.js:312-316 | the old margin is pushed and the margin widens by two spaces; output unchanged; nesting kept |
| Writer.CodeWriter.Dedent | wasm.js:318-321 | the last saved margin is popped back; with none saved the margin becomes "undefined" |
| Writer.UnbalancedDedentThenOut | wasm.js:297-321 | after a dedent with nothing saved the next line opens with `undefined` instead of a margin |
| Semantic.ResolveSound | wasm.js:139-240 | a successful resolution has no `getname`/`call` left, and every operator, argument and return obeys the type rules |
| Semantic.ResolveArgsSound | wasm.js:205-213 | resolved arguments keep their count, and each has exactly the declared parameter type |
| Semantic.ResolveTypesEveryNode | wasm.js:139-240 | on parser-built input, success without a bare function/extern reference types every node |
| Semantic.ResolveArgsTypesEveryArg | wasm.js:205-230 | the same for every argument of a call |
| Semantic.CallBeforeTargetProcessedFails | wasm.js:199-213 | a call with arguments to a function not yet processed fails with an `undefined` access |
| Semantic.CallWithoutArgsResolves | wasm.js:199-215 | a call with no arguments to a function without parameters resolves to its return type however far processing has got |
| Semantic.UnprocessedTargetArgs | wasm.js:205-213 | the argument loop against a function with no locals fails once the first argument resolves |
| Semantic.ReentrantLocalMismatch | wasm.js:168-177 | a `getlocal` gets its `Local` record as type, and mismatches any typed operand beside it |
| Semantic.ReentrantLocalsCompareBySlot | wasm.js:168-177 | two `getlocal` operands handed to the pass agree exactly when they read the same slot, since the `Local` records are compared as objects |
| Semantic.ResolveLocalsTyped | wasm.js:147-152 | when every local-scope entry is the local in its slot, each `getlocal` a resolution of parser-built nodes produces names a slot and carries that local's declared type |
| Semantic.ResolveArgsLocalsTyped | wasm.js:205-230 | the same for every argument of a call |
| Semantic.RegisterParams | wasm.js:257-260 | the parameter loop keeps the number of parameters |
| Semantic.RegisterParamsFrame | wasm.js:257-260 | the parameter loop changes only the locals and the parameters |
| Semantic.RegisterParamsCount | wasm.js:257-260 | each round of the parameter loop adds exactly one local |
| Semantic.RegisterParamsParam | wasm.js:257-260 | parameter `j` holds the slot past the old locals plus `j` once reached, and is untouched before |
| Semantic.RegisterParamsLocal | wasm.js:242-260 | each local after the loop is an old local or the parameter registered in that slot, with its name and type |
| Semantic.RegisterParamsScopeStep | wasm.js:257-260 | one more round binds that parameter's name to the next slot |
| Semantic.RegisterParamsIndexes | wasm.js:257-260 | parameter `j` gets the slot just past the existing locals plus `j`; later parameters are untouched |
| Semantic.RegisterParamsLocals | wasm.js:242-260 | one new local per parameter, with its name, type and slot; existing locals kept |
| Semantic.RegisterParamsScope | wasm.js:242-260 | the local scope is the map from parameter names to their new locals |
| Semantic.ParamBindingsKeys | wasm.js:249 | the local scope binds exactly the parameter names |
| Semantic.ParamBindingsLast | wasm.js:249 | a repeated parameter name is bound to its last parameter |
| Semantic.ResolveFunction | wasm.js:253-265 | a processed function leaves the externs and the number of functions unchanged; every other function is untouched |
| Semantic.IndexModule | wasm.js:272-281 | every extern and function gets its position as `index` |
| Semantic.ResolveFuncs | wasm.js:284-286 | the processing loop leaves the externs and the number of functions unchanged |
| Semantic.ResolveFuncsFailureSticks | wasm.js:284-286 | once a function fails, the module fails with that error |
| Semantic.ResolveArgsFailureSticks | wasm.js:205-213 | once an argument fails, the call fails with that error |
| Semantic.ResolveBodyFailureSticks | wasm.js:262-264 | once a statement fails, the function fails with that error |
| Semantic.SemanticPass.constructor | wasm.js:136-137 | an empty pass state |
| Semantic.SemanticPass.ProcessExpr | wasm.js:139-240 | returns exactly `Resolve` of the pass's state and the node |
| Semantic.SemanticPass.ProcessArgs | wasm.js:205-213 | the argument loop returns exactly `ResolveArgs` |
| Semantic.SemanticPass.CreateLocal | wasm.js:242-251 | appends one local in the next slot, binds its name in the local scope, returns the slot |
| Semantic.SemanticPass.ProcessBody | wasm.js:262-264 | the body loop returns exactly `ResolveBody` |
| Semantic.SemanticPass.ProcessFunction | wasm.js:253-265 | sets the current function and its parameter scope; the module becomes exactly `ResolveFunction` or the error |
| Semantic.SemanticPass.IndexDeclarations | wasm.js:268-281 | the module scope becomes `ModuleScope` and the module `IndexModule` |
| Semantic.SemanticPass.IndexExterns | wasm.js:272-276 | every extern gets its position as `index`; the scope is exactly `ExternScope` |
| Semantic.SemanticPass.IndexFuncs | wasm.js:277-281 | every function gets its position as `index`; the scope is exactly `FuncScope` on top of the externs' |
| Semantic.SemanticPass.ProcessFuncs | wasm.js:284-286 | the module after processing every function in order, or the first error, is exactly `ResolveFuncs` |
| Semantic.SemanticPass.ProcessModule | wasm.js:267-287 | the resolved module, or the first error, is exactly `ResolveModule` |
| SemanticLemmas.ExternScopeLookup | wasm.js:272-276 | the extern loop binds a name iff some extern has it, and binds it to the last such extern |
| SemanticLemmas.FuncScopeLookup | wasm.js:277-281 | the function loop binds the function names on top of the externs, each to its last function; other names keep their binding |
| SemanticLemmas.ModuleScopeLookup | wasm.js:270-281 | the module scope holds exactly the declared names; a function wins over an extern of the same name |
| SemanticLemmas.ResolveLocalsBelow | wasm.js:147-153 | on parser-built nodes every `getlocal` a successful resolution leaves names a slot the local scope holds |
| SemanticLemmas.ResolveArgsLocalsBelow | wasm.js:199-232 | the same for every resolved call argument |
| SemanticLemmas.ParamBindingsBelow | wasm.js:242-260 | the parameter bindings all point below the slots the loop has created |
| SemanticLemmas.ResolveBodyEach | wasm.js:262-264 | a successful body loop keeps the number of statements; statement `s` becomes exactly its own resolution |
| SemanticLemmas.ResolveArgsEach | wasm.js:204-230 | a successful argument loop keeps the number of arguments; argument `i` becomes exactly its own resolution |
| SemanticLemmas.WellTypedExtends | wasm.js:199-230 | a tree that obeys the type rules keeps obeying them once functions gain locals at the end of their list |
| SemanticLemmas.WithParamsExtends | wasm.js:242-260 | the parameter loop only appends locals and keeps the parameter count and return type |
| SemanticLemmas.ResolveFunctionExtends | wasm.js:253-265 | processing a function extends the module; its result extends the module the body was checked in |
| SemanticLemmas.ResolveFuncsExtends | wasm.js:284-286 | every later round of the processing loop extends what an earlier round left |
| SemanticLemmas.ProcessedBodyWellTyped | wasm.js:253-265 | the statements round `k` resolves obey the type rules against any extension of that round's module |
| SemanticLemmas.ResolveModuleFuncWellTyped | wasm.js:267-287 | every statement of function `k` obeys the type rules against the module finally returned |
| SemanticLemmas.ResolveModuleWellTyped | wasm.js:267-287 | every statement of every function obeys the type rules against the module finally returned |
| SemanticLemmas.ResolveFuncsKeeps | wasm.js:284-286 | a function the processing loop has not reached yet is as indexing left it |
| SemanticLemmas.ResolveFuncsFinal | wasm.js:284-286 | once function `k` is processed the loop had succeeded up to it and later rounds leave it unchanged |
| SemanticLemmas.ResolveFunctionProcessed | wasm.js:253-265 | processing function `k` keeps its index and header; parameter `j` takes the slot past the old locals plus `j` with a local of its name and type; old locals kept; every statement resolved |
| SemanticLemmas.ResolveModuleFunc | wasm.js:267-287 | function `k` of the processed module is the processed form of function `k` of the input; parser-built statements with no bare reference are typed at every node |
| SemanticLemmas.ResolveModuleSound | wasm.js:267-287 | the processed module keeps its externs and functions in order; extern `i` carries index `i`; every function is processed as above; every statement obeys the type rules against the processed module itself |
| SemanticLemmas.ResolveParserModuleSound | wasm.js:267-287 | on a parser-built module parameter `j` sits in slot `j` with a local of its name and type; the locals are exactly the parameters; every statement with no bare reference is typed at every node; every `getlocal` carries the declared type of the local it names in its function |
| SemanticLemmas.ParamBindingsMatch | wasm.js:242-260 | binding parameters to consecutive slots keeps every scope entry equal to the local in its slot |
| SemanticLemmas.ParamScopeMatches | wasm.js:253-260 | the local scope `processFunction` builds binds each name to the very local in its slot |
| SemanticLemmas.ResolveFunctionLocalsTyped | wasm.js:253-265 | on parser-built statements, every `getlocal` of the processed body carries the type of the local it names |
| SemanticLemmas.ResolveModuleFuncLocalsTyped | wasm.js:267-287 | the same for function `k` of the module `processModule` returns |
| Elaboration.ResolveElaborates | wasm.js:139-240 | a successful resolution of a parser-built tree is an elaboration of it: names replaced by their binding, local scope first; calls by a call of the callee's index over elaborated arguments; constants and operators kept |
| Elaboration.ResolveArgsComplete | wasm.js:205-230 | the argument loop succeeds, returning those trees, when each argument resolves to a tree of the declared type at its position |
| Elaboration.ResolveArgsStep | wasm.js:205-213 | one round of the argument loop on an argument that resolves and fits appends it |
| Elaboration.ElaboratesResolves | wasm.js:139-240 | any elaboration that obeys the type rules and gives each local its declared type is exactly what resolution returns |
| Elaboration.CallElaboratesResolves | wasm.js:180-231 | the same for a `call` node: the callee resolves to its index, each argument to its elaboration |
| Elaboration.ResolveCharacterised | wasm.js:139-240 | on a parser-built tree resolution succeeds if and only if a well-typed elaboration exists; so an unbound name, operands of different types, a callee that is not a function or extern, a wrong argument count and a wrongly typed argument all fail |
| JsGen.JSGenerator.constructor | wasm.js:323-326 | holds the module and a fresh empty writer |
| JsGen.JSGenerator.BeginTypeCoerce | wasm.js:328-341 | writes `(` for i32, `Math.fround(` for f32, nothing for void, and fails on any other type |
| JsGen.JSGenerator.EndTypeCoerce | wasm.js:343-356 | writes the `or 0` closing bracket for i32, `)` for f32, nothing for void, and fails on any other type |
| JsGen.JSGenerator.GenerateExpr | wasm.js:359-415 | appends exactly `ExprText` of the node, or fails with its error |
| JsGen.JSGenerator.GenerateCoerced | wasm.js:364-368 | a literal between the brackets of its type |
| JsGen.JSGenerator.GenerateBinop | wasm.js:373-381 | the operator node between its type's brackets and parentheses |
| JsGen.JSGenerator.GenerateOperands | wasm.js:376-378 | left operand, the operator between spaces, right operand |
| JsGen.JSGenerator.GenerateLeftOperand | wasm.js:376-377 | the left operand followed by the spaced operator |
| JsGen.JSGenerator.GenerateCall | wasm.js:382-407 | a call between the brackets of its type; an out-of-range callee is an `undefined` access |
| JsGen.JSGenerator.GenerateApply | wasm.js:384-392 | callee name, then the arguments in parentheses |
| JsGen.JSGenerator.GenerateArgs | wasm.js:386-391 | the arguments separated by `, `, or the first argument's error |
| JsGen.JSGenerator.GenerateStatement | wasm.js:420-421 | an expression followed by `;` and a newline |
| JsGen.JSGenerator.GenerateBlock | wasm.js:418-423 | appends exactly the statements of `BlockText`, each at the margin, or the first statement's error |
| JsGen.JSGenerator.GenerateSignature | wasm.js:428-436 | `function name(params) {` and a newline |
| JsGen.JSGenerator.GenerateParamList | wasm.js:429-435 | the parameter names looked up through their slots, separated by `, `; a missing slot is an `undefined` access |
| JsGen.JSGenerator.GenerateCopyLine | wasm.js:441-446 | `name = <coerced name>;` at the margin |
| JsGen.JSGenerator.GenerateParamCopies | wasm.js:440-447 | one re-coercion line per parameter, from `locals[i]`; leaves the last parameter's local in `lcl` |
| JsGen.JSGenerator.GenerateZeroInits | wasm.js:449-452 | one `var … = 0;` line per local past the parameters, naming the `lcl` it is handed |
| JsGen.JSGenerator.GenerateFunc | wasm.js:425-457 | appends exactly `FuncText`, with the body one level deeper, or fails with its error; the current function is `f`; on a writer with balanced indents the margin is two spaces per open indent and stays balanced |
| JsGen.JSGenerator.GenerateExternLines | wasm.js:461-464 | one import line per extern, in order |
| JsGen.JSGenerator.GenerateExternLine | wasm.js:462-463 | `var name = imports.name;` at the margin |
| JsGen.JSGenerator.GenerateFuncs | wasm.js:466-468 | every function in order, or the first one's error; the current function is the last one; written at two spaces per open indent |
| JsGen.JSGenerator.GenerateExports | wasm.js:470-474 | one `name: name,` line per exported function only, in order |
| JsGen.JSGenerator.GenerateModule | wasm.js:459-477 | appends exactly `ModuleText`, or fails with its error; margins restored; written at two spaces per open indent with the indents left balanced |
| JsGen.JSGenerator.GenerateModuleTail | wasm.js:469-476 | the `return { … };` object one level deeper, then `})` at the outer margin; the margin stack is popped |
| JsGen.ArgsTextNext | wasm.js:386-391 | one more argument appends `, ` (none before the first) and its text |
| JsGen.ArgsTextFails | wasm.js:386-391 | an argument that fails makes the call fail with its error |
| JsGen.ArgsTextFailureSticks | wasm.js:386-391 | once an argument fails, later ones do not change the error |
| JsGen.BlockTextNext | wasm.js:419-422 | one more statement appends the margin and its statement text |
| JsGen.BlockTextFails | wasm.js:419-422 | a statement that fails makes the block fail with its error |
| JsGen.BlockTextFailureSticks | wasm.js:419-422 | once a statement fails, later ones do not change the error |
| JsGen.FuncsTextFailureSticks | wasm.js:466-468 | once a function fails, later ones do not change the error |
| JsGen.FuncsTextFails | wasm.js:466-468 | a function that fails makes the module fail with its error |
| JsGen.ParamListFailureSticks | wasm.js:429-435 | once a parameter lookup fails, later ones do not change the error |
| JsGen.CopyLinesFailureSticks | wasm.js:440-447 | once a re-coercion line fails, later ones do not change the error |
| JsGen.ZeroLinesFailureSticks | wasm.js:449-452 | once a zero-initialisation round fails, later ones do not change the error |
| JsGenLemmas.ExprTextDefined | wasm.js:359-415 | `generateExpr` succeeds iff the node is generable: typed where bracketed, locals and callees in range, no name reference or `call` |
| JsGenLemmas.ArgsTextDefined | wasm.js:386-391 | the argument loop succeeds iff every argument is generable |
| JsGenLemmas.CoercedBalanced | wasm.js:328-356 | a balanced text between the brackets of any type is balanced |
| JsGenLemmas.I32Balanced | wasm.js:328-356 | the i32 brackets, `(` and the `or 0` closing bracket, around a balanced text are balanced |
| JsGenLemmas.F32Balanced | wasm.js:328-356 | `Math.fround(` … `)` around a balanced text is balanced |
| JsGenLemmas.ExprTextBalanced | wasm.js:359-415 | when names, literals and operators hold no parenthesis, the emitted expression balances its parentheses |
| JsGenLemmas.ApplyTextBalanced | wasm.js:384-392 | a callee with balanced arguments in parentheses is balanced |
| JsGenLemmas.ArgsTextBalanced | wasm.js:386-391 | the argument list balances its parentheses |
| JsGenLemmas.ZeroLinesRepeatLastParam | wasm.js:440-452 | with parameters, every zero-initialisation line declares the last parameter's local again |
| JsGenLemmas.ZeroLinesUndefined | wasm.js:449-450 | with no parameters, the first zero-initialisation round reads `undefined` and throws |
| JsGenLemmas.LocalsWithoutParamsFail | wasm.js:425-452 | a function with locals but no parameters cannot be generated |
| JsGenLemmas.GenerableOf | wasm.js:359-415 | a resolved tree that is fully typed and well typed with its slots present in the function can be written |
| JsGenLemmas.GenerableNoBareRefs | wasm.js:359-415 | a tree the generator can write holds no bare function or extern reference |
| JsGenLemmas.BlockTextDefined | wasm.js:418-423 | the block is written exactly when every statement is |
| JsGenLemmas.ParamListDefined | wasm.js:429-435 | with every parameter in its own slot the parameter list never throws |
| JsGenLemmas.CopyLinesDefined | wasm.js:440-447 | with a local for each parameter the re-coercion lines never throw |
| JsGenLemmas.FuncTextDefined | wasm.js:425-457 | a function with its parameters in their own slots and no other locals is written exactly when every statement can be |
| JsGenLemmas.FuncsTextDefined | wasm.js:466-468 | the function loop succeeds exactly when every function is written |
| JsGenLemmas.ModuleTextDefined | wasm.js:459-477 | such a module is written exactly when every statement of every function can be |
| Compiler.GenerateJS | wasm.js:479-486 | the output is exactly `Compile`: the resolver's error, else the generator's text or error |
| Compiler.ResolvedStatementGenerable | wasm.js:139-240 | a statement the resolver accepted can be written exactly when it holds no bare function or extern reference |
| Compiler.ProcessedFuncGenerable | wasm.js:253-265 | a processed function has parameter `j` in slot `j` and no other locals; each statement can be written exactly when it holds no bare reference |
| Compiler.CompileDefined | wasm.js:479-486 | on parser-built modules the compiler produces text exactly when the resolver accepts and no bare function or extern reference remains |

## Left out

- Console output (`console.log` before several throws) is I/O and is not modelled.
- The thrown value is reduced to an `Error` kind. Which object or number is thrown is not kept.
- Literal values and operators are copied as text. Evaluating the emitted JavaScript (the `or 0` truncation, `Math.fround`) is not modelled.
- `d8_main.js` and `system.js` (the shell driver and the runtime support) are not part of this model.
- Partial output after a throw. On a failure the generator methods state the error only. What was already written, and the margins, are left unspecified. In the source that half-written buffer is never returned.
- Indices assigned by `for … in` are strings in JavaScript. They are modelled as `nat`, which is the same wherever they are used as array indices or printed.
- The source mutates AST nodes in place. The model returns new node values. On success this is the same as long as no node object is shared between two places in the tree, which is how the parser builds trees. After a throw the two differ, as the next line says.
- The identity of a `Local` record, which the source's `!=` compares (wasm.js:172), is modelled by the slot it was read from. A re-entrant `getlocal` reads only the current function's locals, and each slot there holds its own record.
- The pass's `func` field is the index of the current function in `module.funcs`, so the locals it gains are visible through the module as in the source.
- `processExpr`'s `throw ref` for a module-scope entry that is neither a function nor an extern (wasm.js:163) cannot happen, because the scope only ever holds those two. The model has no such case.
- Names are plain map keys. A name that JavaScript finds on `Object.prototype` of the scope objects (such as `toString`) is not treated specially.
- Several source functions are split into helper methods, one per loop or line, with the same writes in the same order. `generateExpr` becomes `GenerateExpr` through `GenerateArgs`; `generateFunc` becomes `GenerateSignature` through `GenerateZeroInits`; `generateModule` becomes `GenerateExternLines` through `GenerateModuleTail`. `processModule` becomes `IndexDeclarations` (with `IndexExterns` and `IndexFuncs`) and `ProcessFuncs`.
- Ghost parameters: `base`, `first`, `fn` and `node` only name the output so far, the current function and the node being written. They carry no data the source has.
- Semantic.SemanticPass.ProcessFunction: on a throw the model states the body of function `k` as it was before processing. The source has by then stored the statements before the failing one back into the body (wasm.js:263), and has partly rewritten the failing one (wasm.js:172, 181, 208, 234). `GenerateJS` does not read the module after a throw.
- JsGen.JSGenerator.GenerateModule takes the module it writes (`mdl`) separately from the one the generator holds (`m`), as the source does. `GenerateJS` passes the same module to both.
- JsGen.JSGenerator.GenerateFunc: margins are stated on success only. On a throw the source never reaches its `dedent`.
- JsGen.JSGenerator.GenerateFuncs: margins are stated on success only, for the same reason.
- JsGen.JSGenerator.GenerateModule: margins are stated on success only, for the same reason.
