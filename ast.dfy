/**
 * The node model of the compiler (wasm.js:5-133): value types, expression
 * nodes, declarations, and the error outcomes every phase can produce.
 *
 * The source builds plain tagged records and lets the resolver add or
 * overwrite properties later (`etype`, `index`, `locals`).  Here every such
 * property is a field from the start, holding `NoType` or `None` until it is
 * assigned.
 */
module Ast {

  datatype Option<T> = None | Some(value: T)

  /** The value types the compiler knows: `"i32"`, `"f32"`, `"void"`. */
  datatype ValueType = I32 | F32 | Void

  /** A declared parameter or local, once it has a slot (wasm.js:97-104). */
  datatype Local = Local(name: string, ltype: ValueType, index: nat)

  /**
   * What a node's `etype` property holds.  Besides a value type it can be
   * unassigned (JS `undefined`), or the `Local` record itself, which is what
   * the resolver stores for a `getlocal` node it is handed (wasm.js:169).
   * The source compares such records by identity (wasm.js:172); each is the
   * one object in its slot of the function's locals, so the slot it was read
   * from, `slot`, stands for that identity.
   */
  datatype EType =
    | NoType
    | Typed(t: ValueType)
    | LocalObject(slot: nat, l: Local)

  /** Expression nodes (wasm.js:5-87), literal values and operators kept as text. */
  datatype Expr =
    | ConstI32(value: string, etype: EType)
    | ConstF32(value: string, etype: EType)
    | GetName(name: string)
    | GetFunction(index: nat)
    | GetExtern(index: nat)
    | GetLocal(index: nat, etype: EType)
    | BinaryOp(left: Expr, op: string, right: Expr, etype: EType)
    | Call(callee: Expr, args: seq<Expr>)
    | CallDirect(func: nat, args: seq<Expr>, etype: EType)
    | CallExternal(func: nat, args: seq<Expr>, etype: EType)
    | Return(expr: Expr, etype: EType)

  /** A parameter; `index` is the slot the resolver assigns (wasm.js:89-95, 259). */
  datatype Param = Param(name: string, ptype: ValueType, index: Option<nat>)

  /** A function declaration (wasm.js:106-116); `index` is set by module indexing. */
  datatype Func = Func(
    exportFunc: bool,
    name: string,
    params: seq<Param>,
    returnType: ValueType,
    locals: seq<Local>,
    body: seq<Expr>,
    index: Option<nat>)

  /** An imported function signature (wasm.js:118-125). */
  datatype Extern = Extern(name: string, args: seq<ValueType>, returnType: ValueType, index: Option<nat>)

  /** A module (wasm.js:127-133). */
  datatype Module = Module(externs: seq<Extern>, funcs: seq<Func>)

  /**
   * Why a phase gave up.  Each corresponds to a `throw` of the source, or to
   * a property read on `undefined`, which raises a TypeError in JS.
   */
  datatype Error =
    | UnresolvedName(name: string)  // wasm.js:167
    | TypeMismatch                  // wasm.js:176, 211, 228
    | ArityMismatch(count: nat)     // wasm.js:203, 220: the argument count is thrown
    | InvalidCallee                 // wasm.js:196
    | UnknownNode                   // wasm.js:238, 414
    | UndefinedAccess               // e.g. `target.locals[i].ltype` with no such local
    | BadCoercion(etype: EType)     // wasm.js:339, 354

  datatype Result<T> = Ok(value: T) | Err(error: Error)

  /** The outcome of an operation that returns nothing but may throw. */
  datatype Outcome = Pass | Fail(error: Error)

  /** Whether a computation throws, and what. */
  function OutcomeOf<T>(r: Result<T>): Outcome
  {
    if r.Ok? then Pass else Fail(r.error)
  }

  /** Reading `expr.etype`: nodes that never receive one read as unassigned. */
  function ETypeOf(e: Expr): EType
  {
    match e
    case ConstI32(_, t) => t
    case ConstF32(_, t) => t
    case GetLocal(_, t) => t
    case BinaryOp(_, _, _, t) => t
    case CallDirect(_, _, t) => t
    case CallExternal(_, _, t) => t
    case Return(_, t) => t
    case _ => NoType
  }

  /** A size measure; the call rewrite re-processes a node that is smaller by it. */
  function Size(e: Expr): (n: nat)
    ensures n >= 1
  {
    match e
    case BinaryOp(l, _, r, _) => 1 + Size(l) + Size(r)
    case Call(callee, args) => 1 + Size(callee) + SizeArgs(args)
    case CallDirect(_, args, _) => 1 + SizeArgs(args)
    case CallExternal(_, args, _) => 1 + SizeArgs(args)
    case Return(x, _) => 1 + Size(x)
    case _ => 1
  }

  function SizeArgs(s: seq<Expr>): nat
  {
    if s == [] then 0 else SizeArgs(s[..|s| - 1]) + Size(s[|s| - 1])
  }

  /** Every argument is no larger than the whole argument list. */
  lemma {:induction false} SizeArgsBound(s: seq<Expr>, i: nat)
    requires i < |s|
    ensures Size(s[i]) <= SizeArgs(s)
  {
    var n := |s| - 1;
    if i < n {
      assert s[..n][i] == s[i];
      SizeArgsBound(s[..n], i);
    }
  }

  /**
   * No node is left that only the parser produces: no `getname` and no
   * polymorphic `call`.
   */
  predicate Resolved(e: Expr)
  {
    match e
    case GetName(_) => false
    case Call(_, _) => false
    case BinaryOp(l, _, r, _) => Resolved(l) && Resolved(r)
    case CallDirect(_, args, _) => forall i :: 0 <= i < |args| ==> Resolved(args[i])
    case CallExternal(_, args, _) => forall i :: 0 <= i < |args| ==> Resolved(args[i])
    case Return(x, _) => Resolved(x)
    case _ => true
  }

  /** The node kinds the parser builds (wasm.js:19, 57), with no type assigned yet. */
  predicate ParserShaped(e: Expr)
  {
    match e
    case ConstI32(_, _) => true
    case ConstF32(_, _) => true
    case GetName(_) => true
    case BinaryOp(l, _, r, _) => ParserShaped(l) && ParserShaped(r)
    case Call(callee, args) => ParserShaped(callee) && forall i :: 0 <= i < |args| ==> ParserShaped(args[i])
    case Return(x, _) => ParserShaped(x)
    case _ => false
  }

  /** No function or extern reference stands as a value. */
  predicate NoBareRefs(e: Expr)
  {
    match e
    case GetFunction(_) => false
    case GetExtern(_) => false
    case BinaryOp(l, _, r, _) => NoBareRefs(l) && NoBareRefs(r)
    case Call(callee, args) => NoBareRefs(callee) && forall i :: 0 <= i < |args| ==> NoBareRefs(args[i])
    case CallDirect(_, args, _) => forall i :: 0 <= i < |args| ==> NoBareRefs(args[i])
    case CallExternal(_, args, _) => forall i :: 0 <= i < |args| ==> NoBareRefs(args[i])
    case Return(x, _) => NoBareRefs(x)
    case _ => true
  }

  /** Every `getlocal` names a slot below `n`. */
  predicate LocalsBelow(e: Expr, n: nat)
  {
    match e
    case GetLocal(i, _) => i < n
    case BinaryOp(l, _, r, _) => LocalsBelow(l, n) && LocalsBelow(r, n)
    case Call(callee, args) => LocalsBelow(callee, n) && forall i :: 0 <= i < |args| ==> LocalsBelow(args[i], n)
    case CallDirect(_, args, _) => forall i :: 0 <= i < |args| ==> LocalsBelow(args[i], n)
    case CallExternal(_, args, _) => forall i :: 0 <= i < |args| ==> LocalsBelow(args[i], n)
    case Return(x, _) => LocalsBelow(x, n)
    case _ => true
  }

  /** Every node carries a value type from the enumeration. */
  predicate FullyTyped(e: Expr)
  {
    ETypeOf(e).Typed? &&
    match e
    case BinaryOp(l, _, r, _) => FullyTyped(l) && FullyTyped(r)
    case CallDirect(_, args, _) => forall i :: 0 <= i < |args| ==> FullyTyped(args[i])
    case CallExternal(_, args, _) => forall i :: 0 <= i < |args| ==> FullyTyped(args[i])
    case Return(x, _) => FullyTyped(x)
    case _ => true
  }
}
