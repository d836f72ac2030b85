/**
 * The resolution and type-checking pass, `SemanticPass` (wasm.js:136-287).
 *
 * The pure functions state what each step of the pass computes: `Resolve`
 * for `processExpr`, `RegisterParams` for the parameter loop of
 * `processFunction`, `ResolveFunction`, `ModuleScope` and `ResolveModule`
 * for `processModule`.  The class `SemanticPass` keeps the source's fields
 * and loops and is proved to compute exactly those functions.
 */
module Semantic {
  import opened Ast

  /** A module-scope binding: which kind of declaration, at which index (wasm.js:275, 280). */
  datatype ScopeEntry = ExternEntry(index: nat) | FuncEntry(index: nat)

  /**
   * What `processExpr` reads from the pass: `localScope`, `moduleScope`,
   * `module`, and the function being processed, `func`, given as its index
   * into `mod.funcs` so that the locals it has gained are visible through
   * the module, as they are in the source where `func` is that same object.
   */
  datatype Ctx = Ctx(localScope: map<string, Local>, moduleScope: map<string, ScopeEntry>, mod: Module, current: nat)

  /** What a call's arguments are checked against. */
  datatype Target = Direct(f: Func) | External(x: Extern)

  /**
   * The declared type of argument `i`: `target.locals[i].ltype` for a module
   * function (wasm.js:209), `target.args[i]` for an extern (wasm.js:226);
   * `None` when the read hits `undefined`.
   */
  function Expected(t: Target, i: nat): Option<ValueType>
  {
    match t
    case Direct(f) => if i < |f.locals| then Some(f.locals[i].ltype) else None
    case External(x) => if i < |x.args| then Some(x.args[i]) else None
  }

  /** `processExpr` (wasm.js:139-240) as a function of the pass's state. */
  function Resolve(c: Ctx, e: Expr): Result<Expr>
    requires c.current < |c.mod.funcs|
    decreases Size(e), 1
  {
    match e
    case ConstI32(v, _) => Ok(ConstI32(v, Typed(I32)))
    case ConstF32(v, _) => Ok(ConstF32(v, Typed(F32)))
    case GetName(n) =>
      if n in c.localScope then
        var ref := c.localScope[n];
        Ok(GetLocal(ref.index, Typed(ref.ltype)))
      else if n in c.moduleScope then
        (match c.moduleScope[n]
         case FuncEntry(i) => Ok(GetFunction(i))
         case ExternEntry(i) => Ok(GetExtern(i)))
      else
        Err(UnresolvedName(n))
    case GetLocal(i, _) =>
      var locals := c.mod.funcs[c.current].locals;
      Ok(GetLocal(i, if i < |locals| then LocalObject(i, locals[i]) else NoType))
    case BinaryOp(l, op, r, _) =>
      (match Resolve(c, l)
       case Err(x) => Err(x)
       case Ok(l') =>
         match Resolve(c, r)
         case Err(x) => Err(x)
         case Ok(r') =>
           if ETypeOf(l') != ETypeOf(r') then Err(TypeMismatch)
           else Ok(BinaryOp(l', op, r', ETypeOf(l'))))
    case Call(callee, args) =>
      (match Resolve(c, callee)
       case Err(x) => Err(x)
       case Ok(GetFunction(i)) => Resolve(c, CallDirect(i, args, NoType))
       case Ok(GetExtern(i)) => Resolve(c, CallExternal(i, args, NoType))
       case Ok(_) => Err(InvalidCallee))
    case CallDirect(f, args, _) =>
      if f >= |c.mod.funcs| then Err(UndefinedAccess)
      else
        var target := c.mod.funcs[f];
        if |args| != |target.params| then Err(ArityMismatch(|args|))
        else
          (match ResolveArgs(c, args, Direct(target))
           case Err(x) => Err(x)
           case Ok(args') => Ok(CallDirect(f, args', Typed(target.returnType))))
    case CallExternal(f, args, _) =>
      if f >= |c.mod.externs| then Err(UndefinedAccess)
      else
        var target := c.mod.externs[f];
        if |args| != |target.args| then Err(ArityMismatch(|args|))
        else
          (match ResolveArgs(c, args, External(target))
           case Err(x) => Err(x)
           case Ok(args') => Ok(CallExternal(f, args', Typed(target.returnType))))
    case Return(x, _) =>
      (match Resolve(c, x)
       case Err(y) => Err(y)
       case Ok(x') => Ok(Return(x', Typed(Void))))
    case GetFunction(_) => Err(UnknownNode)
    case GetExtern(_) => Err(UnknownNode)
  }

  /**
   * The argument loop of the two call kinds (wasm.js:205-213, 222-230):
   * each argument in turn is processed, stored back, and checked against
   * the declared type at its position.
   */
  function ResolveArgs(c: Ctx, args: seq<Expr>, t: Target): Result<seq<Expr>>
    requires c.current < |c.mod.funcs|
    decreases SizeArgs(args), 2
  {
    if args == [] then Ok([])
    else
      var n := |args| - 1;
      match ResolveArgs(c, args[..n], t)
      case Err(x) => Err(x)
      case Ok(done) =>
        match Resolve(c, args[n])
        case Err(x) => Err(x)
        case Ok(a) =>
          match Expected(t, n)
          case None => Err(UndefinedAccess)
          case Some(ty) => if ETypeOf(a) != Typed(ty) then Err(TypeMismatch) else Ok(done + [a])
  }

  /** Argument `i` has exactly the declared type the pass compares it with (wasm.js:209, 226). */
  predicate Fits(t: Target, i: nat, a: Expr)
  {
    Expected(t, i).Some? && ETypeOf(a) == Typed(Expected(t, i).value)
  }

  /**
   * The type rules `processExpr` enforces, as a property of a tree: constants
   * have their own type, a binary operation has operands of one type and that
   * type, a call has the right number of arguments, each of the declared type
   * at its position, and the callee's return type, and a return is `void`.
   * No `getname` or `call` node is well typed.
   */
  predicate WellTyped(m: Module, e: Expr)
  {
    match e
    case ConstI32(_, t) => t == Typed(I32)
    case ConstF32(_, t) => t == Typed(F32)
    case GetName(_) => false
    case Call(_, _) => false
    case BinaryOp(l, _, r, t) =>
      WellTyped(m, l) && WellTyped(m, r) && ETypeOf(l) == ETypeOf(r) && t == ETypeOf(l)
    case CallDirect(f, args, t) =>
      f < |m.funcs| && |args| == |m.funcs[f].params| && t == Typed(m.funcs[f].returnType) &&
      forall i :: 0 <= i < |args| ==> WellTyped(m, args[i]) && Fits(Direct(m.funcs[f]), i, args[i])
    case CallExternal(f, args, t) =>
      f < |m.externs| && |args| == |m.externs[f].args| && t == Typed(m.externs[f].returnType) &&
      forall i :: 0 <= i < |args| ==> WellTyped(m, args[i]) && Fits(External(m.externs[f]), i, args[i])
    case Return(x, t) => WellTyped(m, x) && t == Typed(Void)
    case _ => true
  }

  /**
   * The type rule for locals that `processExpr` follows on a `getname`
   * bound in the local scope (wasm.js:149-152): a `getlocal` names a slot of
   * the function's locals and carries the declared type of the local there.
   */
  predicate LocalsTyped(locals: seq<Local>, e: Expr)
  {
    match e
    case GetLocal(i, t) => i < |locals| && t == Typed(locals[i].ltype)
    case BinaryOp(l, _, r, _) => LocalsTyped(locals, l) && LocalsTyped(locals, r)
    case Call(callee, args) =>
      LocalsTyped(locals, callee) && forall i :: 0 <= i < |args| ==> LocalsTyped(locals, args[i])
    case CallDirect(_, args, _) => forall i :: 0 <= i < |args| ==> LocalsTyped(locals, args[i])
    case CallExternal(_, args, _) => forall i :: 0 <= i < |args| ==> LocalsTyped(locals, args[i])
    case Return(x, _) => LocalsTyped(locals, x)
    case _ => true
  }

  /**
   * Every entry of the local scope is the local in its own slot, as
   * `createLocal` makes it (wasm.js:242-251).
   */
  predicate ScopeMatches(scope: map<string, Local>, locals: seq<Local>)
  {
    forall n :: n in scope ==> scope[n].index < |locals| && locals[scope[n].index] == scope[n]
  }

  /** A successful resolution leaves no `getname` or `call` and obeys the type rules. */
  lemma {:induction false} ResolveSound(c: Ctx, e: Expr)
    requires c.current < |c.mod.funcs|
    ensures Resolve(c, e).Ok? ==>
              Resolved(Resolve(c, e).value) && WellTyped(c.mod, Resolve(c, e).value)
    decreases Size(e), 1
  {
    match e
    case BinaryOp(l, op, r, _) =>
      ResolveSound(c, l);
      ResolveSound(c, r);
    case Call(callee, args) =>
      ResolveSound(c, callee);
      if Resolve(c, callee).Ok? {
        match Resolve(c, callee).value {
          case GetFunction(i) => ResolveSound(c, CallDirect(i, args, NoType));
          case GetExtern(i) => ResolveSound(c, CallExternal(i, args, NoType));
          case _ =>
        }
      }
    case CallDirect(f, args, _) =>
      if f < |c.mod.funcs| && |args| == |c.mod.funcs[f].params| {
        ResolveArgsSound(c, args, Direct(c.mod.funcs[f]));
      }
    case CallExternal(f, args, _) =>
      if f < |c.mod.externs| && |args| == |c.mod.externs[f].args| {
        ResolveArgsSound(c, args, External(c.mod.externs[f]));
      }
    case Return(x, _) =>
      ResolveSound(c, x);
    case _ =>
  }

  lemma {:induction false} ResolveArgsSound(c: Ctx, args: seq<Expr>, t: Target)
    requires c.current < |c.mod.funcs|
    ensures ResolveArgs(c, args, t).Ok? ==>
              var r := ResolveArgs(c, args, t).value;
              |r| == |args| &&
              forall i :: 0 <= i < |r| ==> Resolved(r[i]) && WellTyped(c.mod, r[i]) && Fits(t, i, r[i])
    decreases SizeArgs(args), 2
  {
    if args != [] {
      var n := |args| - 1;
      ResolveArgsSound(c, args[..n], t);
      ResolveSound(c, args[n]);
    }
  }

  /**
   * On what the parser builds, a successful resolution gives every node a
   * value type, unless a function or extern name was used as a value: such a
   * reference never receives one (wasm.js:159, 161).
   */
  lemma {:induction false} ResolveTypesEveryNode(c: Ctx, e: Expr)
    requires c.current < |c.mod.funcs|
    requires ParserShaped(e)
    requires Resolve(c, e).Ok? && NoBareRefs(Resolve(c, e).value)
    ensures FullyTyped(Resolve(c, e).value)
    decreases Size(e), 1
  {
    match e
    case BinaryOp(l, op, r, _) =>
      ResolveTypesEveryNode(c, l);
      ResolveTypesEveryNode(c, r);
    case Call(callee, args) =>
      match Resolve(c, callee).value {
        case GetFunction(i) =>
          var target := c.mod.funcs[i];
          ResolveArgsTypesEveryArg(c, args, Direct(target));
        case GetExtern(i) =>
          var target := c.mod.externs[i];
          ResolveArgsTypesEveryArg(c, args, External(target));
        case _ =>
      }
    case Return(x, _) =>
      ResolveTypesEveryNode(c, x);
    case _ =>
  }

  lemma {:induction false} ResolveArgsTypesEveryArg(c: Ctx, args: seq<Expr>, t: Target)
    requires c.current < |c.mod.funcs|
    requires forall i :: 0 <= i < |args| ==> ParserShaped(args[i])
    requires ResolveArgs(c, args, t).Ok?
    requires forall i :: 0 <= i < |ResolveArgs(c, args, t).value| ==> NoBareRefs(ResolveArgs(c, args, t).value[i])
    ensures |ResolveArgs(c, args, t).value| == |args|
    ensures forall i :: 0 <= i < |args| ==> FullyTyped(ResolveArgs(c, args, t).value[i])
    decreases SizeArgs(args), 2
  {
    if args != [] {
      var n := |args| - 1;
      var done := ResolveArgs(c, args[..n], t).value;
      var a := Resolve(c, args[n]).value;
      assert ResolveArgs(c, args, t).value == done + [a];
      assert forall i :: 0 <= i < |done| ==> done[i] == (done + [a])[i];
      ResolveArgsTypesEveryArg(c, args[..n], t);
      assert (done + [a])[|done|] == a;
      ResolveTypesEveryNode(c, args[n]);
    }
  }

  /**
   * When every local-scope entry is the local in its slot, each `getlocal`
   * a successful resolution of parser-built nodes produces carries the type
   * of the local it names.
   */
  lemma {:induction false} ResolveLocalsTyped(c: Ctx, e: Expr)
    requires c.current < |c.mod.funcs|
    requires ParserShaped(e) && ScopeMatches(c.localScope, c.mod.funcs[c.current].locals)
    requires Resolve(c, e).Ok?
    ensures LocalsTyped(c.mod.funcs[c.current].locals, Resolve(c, e).value)
    decreases Size(e), 1
  {
    match e
    case BinaryOp(l, op, r, _) =>
      ResolveLocalsTyped(c, l);
      ResolveLocalsTyped(c, r);
    case Call(callee, args) =>
      match Resolve(c, callee).value {
        case GetFunction(i) =>
          ResolveArgsLocalsTyped(c, args, Direct(c.mod.funcs[i]));
        case GetExtern(i) =>
          ResolveArgsLocalsTyped(c, args, External(c.mod.externs[i]));
        case _ =>
      }
    case Return(x, _) =>
      ResolveLocalsTyped(c, x);
    case _ =>
  }

  lemma {:induction false} ResolveArgsLocalsTyped(c: Ctx, args: seq<Expr>, t: Target)
    requires c.current < |c.mod.funcs|
    requires forall i :: 0 <= i < |args| ==> ParserShaped(args[i])
    requires ScopeMatches(c.localScope, c.mod.funcs[c.current].locals)
    requires ResolveArgs(c, args, t).Ok?
    ensures |ResolveArgs(c, args, t).value| == |args|
    ensures forall i :: 0 <= i < |args| ==> LocalsTyped(c.mod.funcs[c.current].locals, ResolveArgs(c, args, t).value[i])
    decreases SizeArgs(args), 2
  {
    if args != [] {
      var n := |args| - 1;
      var done := ResolveArgs(c, args[..n], t).value;
      var a := Resolve(c, args[n]).value;
      assert ResolveArgs(c, args, t).value == done + [a];
      assert forall i :: 0 <= i < |done| ==> done[i] == (done + [a])[i];
      ResolveArgsLocalsTyped(c, args[..n], t);
      assert (done + [a])[|done|] == a;
      ResolveLocalsTyped(c, args[n]);
    }
  }

  /**
   * The check on wasm.js:209 reads `target.locals[i]`, but a function has no
   * locals until it is itself processed (wasm.js:113, 257-260).  So a call
   * passing arguments to a function not yet processed fails, once the first
   * argument has been resolved, with a property read on `undefined`.
   */
  lemma {:induction false} CallBeforeTargetProcessedFails(c: Ctx, f: nat, args: seq<Expr>, t: EType)
    requires c.current < |c.mod.funcs|
    requires f < |c.mod.funcs| && c.mod.funcs[f].locals == []
    requires |args| == |c.mod.funcs[f].params| > 0
    requires Resolve(c, args[0]).Ok?
    ensures Resolve(c, CallDirect(f, args, t)) == Err(UndefinedAccess)
  {
    UnprocessedTargetArgs(c, args, Direct(c.mod.funcs[f]));
  }

  /**
   * A call with no arguments never reaches that check, so it resolves to the
   * callee's return type whether or not the callee has been processed.
   */
  lemma CallWithoutArgsResolves(c: Ctx, f: nat, t: EType)
    requires c.current < |c.mod.funcs|
    requires f < |c.mod.funcs| && c.mod.funcs[f].params == []
    ensures Resolve(c, CallDirect(f, [], t)) == Ok(CallDirect(f, [], Typed(c.mod.funcs[f].returnType)))
  {
  }

  lemma {:induction false} UnprocessedTargetArgs(c: Ctx, args: seq<Expr>, t: Target)
    requires c.current < |c.mod.funcs|
    requires t.Direct? && t.f.locals == []
    requires |args| > 0 && Resolve(c, args[0]).Ok?
    ensures ResolveArgs(c, args, t) == Err(UndefinedAccess)
    decreases |args|
  {
    var n := |args| - 1;
    if n == 0 {
      assert args[..n] == [];
    } else {
      assert args[..n][0] == args[0];
      UnprocessedTargetArgs(c, args[..n], t);
    }
  }

  /**
   * A `getlocal` handed to the pass gets the `Local` record as its `etype`
   * (wasm.js:169), which equals no value type: it fails as an operand beside
   * any typed operand.
   */
  lemma ReentrantLocalMismatch(c: Ctx, i: nat, t: EType, op: string, other: Expr, t': EType)
    requires c.current < |c.mod.funcs|
    requires i < |c.mod.funcs[c.current].locals|
    requires Resolve(c, other).Ok? && ETypeOf(Resolve(c, other).value).Typed?
    ensures Resolve(c, GetLocal(i, t)) == Ok(GetLocal(i, LocalObject(i, c.mod.funcs[c.current].locals[i])))
    ensures Resolve(c, BinaryOp(GetLocal(i, t), op, other, t')) == Err(TypeMismatch)
  {
  }

  /**
   * The records are compared as objects (wasm.js:172), so two re-entrant
   * `getlocal` operands agree exactly when they read the same slot, however
   * alike the locals in two different slots are.
   */
  lemma ReentrantLocalsCompareBySlot(c: Ctx, i: nat, j: nat, t1: EType, op: string, t2: EType, t': EType)
    requires c.current < |c.mod.funcs|
    requires i < |c.mod.funcs[c.current].locals| && j < |c.mod.funcs[c.current].locals|
    ensures Resolve(c, BinaryOp(GetLocal(i, t1), op, GetLocal(j, t2), t')).Ok? <==> i == j
  {
  }

  // ---------------------------------------------------------------------
  // processFunction: registering the parameters, then the body

  /** `createLocal` on a function (wasm.js:242-251): one more local, in the next slot. */
  function WithLocal(f: Func, name: string, t: ValueType): Func
  {
    f.(locals := f.locals + [Local(name, t, |f.locals|)])
  }

  /** Function `k` of the module replaced by `f`. */
  function WithFunc(m: Module, k: nat, f: Func): Module
    requires k < |m.funcs|
  {
    m.(funcs := m.funcs[k := f])
  }

  /** Parameter `j` is the last of the first `n` with its name: later ones shadow it. */
  predicate LastNamed(ps: seq<Param>, n: nat, j: nat)
    requires n <= |ps|
  {
    j < n && forall j2 :: j < j2 < n ==> ps[j2].name != ps[j].name
  }

  /**
   * The first `n` rounds of the parameter loop of `processFunction`
   * (wasm.js:257-260), from an empty local scope: the function afterwards
   * and the local scope.  Each round is `createLocal` followed by storing
   * the slot in the parameter.
   */
  function RegisterParams(f: Func, n: nat): (r: (Func, map<string, Local>))
    requires n <= |f.params|
    ensures |r.0.params| == |f.params|
    decreases n
  {
    if n == 0 then (f, map[])
    else
      var (f1, scope) := RegisterParams(f, n - 1);
      var p := f1.params[n - 1];
      var slot := |f1.locals|;
      var f2 := WithLocal(f1, p.name, p.ptype);
      (f2.(params := f2.params[n - 1 := p.(index := Some(slot))]), scope[p.name := Local(p.name, p.ptype, slot)])
  }

  /** Registering parameters changes nothing but the locals and the parameters. */
  lemma {:induction false} RegisterParamsFrame(f: Func, n: nat)
    requires n <= |f.params|
    ensures RegisterParams(f, n).0.(locals := f.locals, params := f.params) == f
    decreases n
  {
    if n > 0 {
      RegisterParamsFrame(f, n - 1);
    }
  }

  /** Each round of the parameter loop adds one local. */
  lemma {:induction false} RegisterParamsCount(f: Func, n: nat)
    requires n <= |f.params|
    ensures |RegisterParams(f, n).0.locals| == |f.locals| + n
    decreases n
  {
    if n > 0 {
      RegisterParamsCount(f, n - 1);
    }
  }

  /** Parameter `j` after `n` rounds: given its slot if reached, untouched otherwise. */
  lemma {:induction false} RegisterParamsParam(f: Func, n: nat, j: nat)
    requires n <= |f.params| && j < |f.params|
    ensures RegisterParams(f, n).0.params[j] ==
              if j < n then f.params[j].(index := Some(|f.locals| + j)) else f.params[j]
    decreases n
  {
    if n > 0 {
      RegisterParamsCount(f, n - 1);
      RegisterParamsParam(f, n - 1, j);
      if j != n - 1 {
        RegisterParamsParam(f, n - 1, n - 1);
      }
    }
  }

  /** Local `i` after `n` rounds: an old local, or the parameter registered in that slot. */
  lemma {:induction false} RegisterParamsLocal(f: Func, n: nat, i: nat)
    requires n <= |f.params| && i < |f.locals| + n
    ensures |RegisterParams(f, n).0.locals| == |f.locals| + n
    ensures RegisterParams(f, n).0.locals[i] ==
              if i < |f.locals| then f.locals[i]
              else Local(f.params[i - |f.locals|].name, f.params[i - |f.locals|].ptype, i)
    decreases n
  {
    RegisterParamsCount(f, n);
    if n > 0 {
      RegisterParamsCount(f, n - 1);
      if i < |f.locals| + n - 1 {
        RegisterParamsLocal(f, n - 1, i);
      } else {
        RegisterParamsParam(f, n - 1, n - 1);
      }
    }
  }

  /**
   * Parameter `j` is stored with the slot `|locals| + j`; parameters not yet
   * reached are untouched.
   */
  lemma RegisterParamsIndexes(f: Func, n: nat)
    requires n <= |f.params|
    ensures var f' := RegisterParams(f, n).0;
            && (forall j :: 0 <= j < n ==> f'.params[j] == f.params[j].(index := Some(|f.locals| + j)))
            && (forall j :: n <= j < |f.params| ==> f'.params[j] == f.params[j])
  {
    forall j | 0 <= j < |f.params| {
      RegisterParamsParam(f, n, j);
    }
  }

  /**
   * The locals grow by exactly one per parameter: parameter `j` becomes the
   * local in slot `|locals| + j`, with its name and declared type, and the
   * locals there before are kept.
   */
  lemma RegisterParamsLocals(f: Func, n: nat)
    requires n <= |f.params|
    ensures var f' := RegisterParams(f, n).0;
            && |f'.locals| == |f.locals| + n
            && f'.locals[..|f.locals|] == f.locals
            && forall j :: 0 <= j < n ==>
                 f'.locals[|f.locals| + j] == Local(f.params[j].name, f.params[j].ptype, |f.locals| + j)
  {
    RegisterParamsCount(f, n);
    forall i | 0 <= i < |f.locals| + n {
      RegisterParamsLocal(f, n, i);
    }
  }

  /**
   * The local scope after binding the first `n` parameters to the slots
   * from `base` on, each name to its latest parameter.
   */
  function ParamBindings(ps: seq<Param>, n: nat, base: nat): map<string, Local>
    requires n <= |ps|
  {
    if n == 0 then map[]
    else ParamBindings(ps, n - 1, base)[ps[n - 1].name := Local(ps[n - 1].name, ps[n - 1].ptype, base + n - 1)]
  }

  /** One more round of the parameter loop binds that parameter's name to the next slot. */
  lemma RegisterParamsScopeStep(f: Func, n: nat)
    requires 0 < n <= |f.params|
    ensures var p := f.params[n - 1];
            RegisterParams(f, n).1 == RegisterParams(f, n - 1).1[p.name := Local(p.name, p.ptype, |f.locals| + n - 1)]
  {
    var f1 := RegisterParams(f, n - 1).0;
    RegisterParamsCount(f, n - 1);
    RegisterParamsParam(f, n - 1, n - 1);
    assert f1.params[n - 1] == f.params[n - 1];
    assert |f1.locals| == |f.locals| + n - 1;
  }

  /** The local scope of the parameter loop binds parameter names to their new slots. */
  lemma {:induction false} RegisterParamsScope(f: Func, n: nat)
    requires n <= |f.params|
    ensures RegisterParams(f, n).1 == ParamBindings(f.params, n, |f.locals|)
    decreases n
  {
    if n > 0 {
      RegisterParamsScope(f, n - 1);
      RegisterParamsScopeStep(f, n);
    }
  }

  /** The names of the first `n` parameters. */
  function ParamNames(ps: seq<Param>, n: nat): set<string>
    requires n <= |ps|
  {
    if n == 0 then {} else ParamNames(ps, n - 1) + {ps[n - 1].name}
  }

  /** The local scope binds exactly the parameter names. */
  lemma {:induction false} ParamBindingsKeys(ps: seq<Param>, n: nat, base: nat)
    requires n <= |ps|
    ensures ParamBindings(ps, n, base).Keys == ParamNames(ps, n)
  {
    if n > 0 {
      ParamBindingsKeys(ps, n - 1, base);
    }
  }

  /**
   * A parameter name is bound to the local of the last parameter that has
   * it: a later parameter of the same name shadows an earlier one.
   */
  lemma {:induction false} ParamBindingsLast(ps: seq<Param>, n: nat, base: nat, j: nat)
    requires n <= |ps| && LastNamed(ps, n, j)
    ensures ps[j].name in ParamBindings(ps, n, base)
    ensures ParamBindings(ps, n, base)[ps[j].name] == Local(ps[j].name, ps[j].ptype, base + j)
  {
    if j < n - 1 {
      assert LastNamed(ps, n - 1, j);
      ParamBindingsLast(ps, n - 1, base, j);
    }
  }

  /** The body loop of `processFunction` (wasm.js:262-264): each statement in turn is processed. */
  function ResolveBody(c: Ctx, body: seq<Expr>): Result<seq<Expr>>
    requires c.current < |c.mod.funcs|
  {
    if body == [] then Ok([])
    else
      var n := |body| - 1;
      match ResolveBody(c, body[..n])
      case Err(x) => Err(x)
      case Ok(done) =>
        match Resolve(c, body[n])
        case Err(x) => Err(x)
        case Ok(s) => Ok(done + [s])
  }

  /** The local scope `processFunction` builds for function `k`. */
  function ParamScope(m: Module, k: nat): map<string, Local>
    requires k < |m.funcs|
  {
    RegisterParams(m.funcs[k], |m.funcs[k].params|).1
  }

  /** The module once the parameter loop of `processFunction` has run on function `k`. */
  function WithParams(m: Module, k: nat): Module
    requires k < |m.funcs|
  {
    WithFunc(m, k, RegisterParams(m.funcs[k], |m.funcs[k].params|).0)
  }

  /**
   * `processFunction` on function `k` (wasm.js:253-265): register all its
   * parameters, then resolve its body against the module with those locals.
   * On success the module differs from the input only in that function's
   * locals, parameter slots and body.
   */
  function ResolveFunction(m: Module, ms: map<string, ScopeEntry>, k: nat): (r: Result<Module>)
    requires k < |m.funcs|
    ensures r.Ok? ==> |r.value.funcs| == |m.funcs| && r.value.externs == m.externs
    ensures r.Ok? ==> forall j :: 0 <= j < |m.funcs| && j != k ==> r.value.funcs[j] == m.funcs[j]
  {
    var m1 := WithParams(m, k);
    var f := m1.funcs[k];
    match ResolveBody(Ctx(ParamScope(m, k), ms, m1, k), f.body)
    case Err(x) => Err(x)
    case Ok(body) => Ok(WithFunc(m, k, f.(body := body)))
  }

  // ---------------------------------------------------------------------
  // processModule: indexing, then every function in order

  /** The module scope after the first `n` externs are indexed (wasm.js:272-276). */
  function ExternScope(es: seq<Extern>, n: nat): map<string, ScopeEntry>
    requires n <= |es|
  {
    if n == 0 then map[] else ExternScope(es, n - 1)[es[n - 1].name := ExternEntry(n - 1)]
  }

  /** The module scope after the first `n` functions are indexed, on top of `base` (wasm.js:277-281). */
  function FuncScope(fs: seq<Func>, n: nat, base: map<string, ScopeEntry>): map<string, ScopeEntry>
    requires n <= |fs|
  {
    if n == 0 then base else FuncScope(fs, n - 1, base)[fs[n - 1].name := FuncEntry(n - 1)]
  }

  /** The module scope `processModule` builds: externs first, then functions. */
  function ModuleScope(m: Module): map<string, ScopeEntry>
  {
    FuncScope(m.funcs, |m.funcs|, ExternScope(m.externs, |m.externs|))
  }

  /** An extern that carries `i` as its `index` (wasm.js:274). */
  function IndexedExtern(e: Extern, i: nat): Extern
  {
    e.(index := Some(i))
  }

  /** A function that carries `i` as its `index` (wasm.js:279). */
  function IndexedFunc(f: Func, i: nat): Func
  {
    f.(index := Some(i))
  }

  /** The module once every extern and function carries its position as `index`. */
  function IndexModule(m: Module): (r: Module)
    ensures |r.externs| == |m.externs| && |r.funcs| == |m.funcs|
    ensures forall i :: 0 <= i < |m.externs| ==> r.externs[i] == IndexedExtern(m.externs[i], i)
    ensures forall i :: 0 <= i < |m.funcs| ==> r.funcs[i] == IndexedFunc(m.funcs[i], i)
  {
    Module(seq(|m.externs|, i requires 0 <= i < |m.externs| => IndexedExtern(m.externs[i], i)),
           seq(|m.funcs|, i requires 0 <= i < |m.funcs| => IndexedFunc(m.funcs[i], i)))
  }

  /** The first `n` rounds of the processing loop of `processModule` (wasm.js:284-286). */
  function ResolveFuncs(m: Module, ms: map<string, ScopeEntry>, n: nat): (r: Result<Module>)
    requires n <= |m.funcs|
    ensures r.Ok? ==> |r.value.funcs| == |m.funcs| && r.value.externs == m.externs
  {
    if n == 0 then Ok(m)
    else
      match ResolveFuncs(m, ms, n - 1)
      case Err(x) => Err(x)
      case Ok(m') => ResolveFunction(m', ms, n - 1)
  }

  /** `processModule` (wasm.js:267-287): index everything, then process every function. */
  function ResolveModule(m: Module): Result<Module>
  {
    ResolveFuncs(IndexModule(m), ModuleScope(m), |m.funcs|)
  }

  /** Once a round of the processing loop fails, the module fails with that error. */
  lemma {:induction false} ResolveFuncsFailureSticks(m: Module, ms: map<string, ScopeEntry>, i: nat, n: nat)
    requires i <= n <= |m.funcs|
    requires ResolveFuncs(m, ms, i).Err?
    ensures ResolveFuncs(m, ms, n) == ResolveFuncs(m, ms, i)
    decreases n
  {
    if n > i {
      ResolveFuncsFailureSticks(m, ms, i, n - 1);
    }
  }

  /** The pass's state, with the fields the source gives it. */
  class SemanticPass {
    var mod: Module
    var moduleScope: map<string, ScopeEntry>
    var current: nat
    var localScope: map<string, Local>

    constructor ()
      ensures mod == Module([], []) && moduleScope == map[] && localScope == map[] && current == 0
    {
      mod := Module([], []);
      moduleScope := map[];
      localScope := map[];
      current := 0;
    }

    /** The state `processExpr` reads. */
    function Context(): Ctx
      reads this
    {
      Ctx(localScope, moduleScope, mod, current)
    }

    /** `processExpr` (wasm.js:139-240); it changes no field of the pass. */
    method ProcessExpr(e: Expr) returns (r: Result<Expr>)
      requires current < |mod.funcs|
      ensures r == Resolve(Context(), e)
      decreases Size(e), 1
    {
      match e {
        case ConstI32(v, _) =>
          r := Ok(ConstI32(v, Typed(I32)));
        case ConstF32(v, _) =>
          r := Ok(ConstF32(v, Typed(F32)));
        case GetName(n) =>
          if n in localScope {
            var ref := localScope[n];
            return Ok(GetLocal(ref.index, Typed(ref.ltype)));
          }
          if n in moduleScope {
            match moduleScope[n] {
              case FuncEntry(i) => return Ok(GetFunction(i));
              case ExternEntry(i) => return Ok(GetExtern(i));
            }
          }
          r := Err(UnresolvedName(n));
        case GetLocal(i, _) =>
          var locals := mod.funcs[current].locals;
          r := Ok(GetLocal(i, if i < |locals| then LocalObject(i, locals[i]) else NoType));
        case BinaryOp(l, op, rt, _) =>
          var left := ProcessExpr(l);
          if left.Err? {
            return Err(left.error);
          }
          var right := ProcessExpr(rt);
          if right.Err? {
            return Err(right.error);
          }
          if ETypeOf(left.value) != ETypeOf(right.value) {
            return Err(TypeMismatch);
          }
          r := Ok(BinaryOp(left.value, op, right.value, ETypeOf(left.value)));
        case Call(callee, args) =>
          var target := ProcessExpr(callee);
          if target.Err? {
            return Err(target.error);
          }
          var call: Expr;
          match target.value {
            case GetFunction(i) => call := CallDirect(i, args, NoType);
            case GetExtern(i) => call := CallExternal(i, args, NoType);
            case _ => return Err(InvalidCallee);
          }
          r := ProcessExpr(call);
        case CallDirect(f, args, _) =>
          if f >= |mod.funcs| {
            return Err(UndefinedAccess);
          }
          var target := mod.funcs[f];
          if |args| != |target.params| {
            return Err(ArityMismatch(|args|));
          }
          var args' := ProcessArgs(args, Direct(target));
          if args'.Err? {
            return Err(args'.error);
          }
          r := Ok(CallDirect(f, args'.value, Typed(target.returnType)));
        case CallExternal(f, args, _) =>
          if f >= |mod.externs| {
            return Err(UndefinedAccess);
          }
          var target := mod.externs[f];
          if |args| != |target.args| {
            return Err(ArityMismatch(|args|));
          }
          var args' := ProcessArgs(args, External(target));
          if args'.Err? {
            return Err(args'.error);
          }
          r := Ok(CallExternal(f, args'.value, Typed(target.returnType)));
        case Return(x, _) =>
          var x' := ProcessExpr(x);
          if x'.Err? {
            return Err(x'.error);
          }
          r := Ok(Return(x'.value, Typed(Void)));
        case GetFunction(_) =>
          r := Err(UnknownNode);
        case GetExtern(_) =>
          r := Err(UnknownNode);
      }
    }

    /**
     * The argument loop shared by both call kinds (wasm.js:205-213,
     * 222-230): `args'` is the argument array as the loop leaves it.
     */
    method ProcessArgs(args: seq<Expr>, t: Target) returns (r: Result<seq<Expr>>)
      requires current < |mod.funcs|
      ensures r == ResolveArgs(Context(), args, t)
      decreases SizeArgs(args), 2
    {
      var args' := [];
      var i := 0;
      while i < |args|
        invariant 0 <= i <= |args|
        invariant ResolveArgs(Context(), args[..i], t) == Ok(args')
      {
        assert args[..i + 1][..i] == args[..i];
        assert args[..i + 1][i] == args[i];
        SizeArgsBound(args, i);
        var arg := ProcessExpr(args[i]);
        if arg.Err? {
          ResolveArgsFailureSticks(Context(), args, t, i + 1);
          return Err(arg.error);
        }
        match Expected(t, i) {
          case None =>
            ResolveArgsFailureSticks(Context(), args, t, i + 1);
            return Err(UndefinedAccess);
          case Some(ty) =>
            if ETypeOf(arg.value) != Typed(ty) {
              ResolveArgsFailureSticks(Context(), args, t, i + 1);
              return Err(TypeMismatch);
            }
        }
        args' := args' + [arg.value];
        i := i + 1;
      }
      assert args[..i] == args;
      r := Ok(args');
    }

    /**
     * `createLocal` (wasm.js:242-251): the new local takes the slot
     * `locals.length`, the current function's locals grow by exactly that
     * local, and the local scope binds its name to it.
     */
    method CreateLocal(name: string, t: ValueType) returns (slot: nat)
      requires current < |mod.funcs|
      modifies this
      ensures current == old(current) && moduleScope == old(moduleScope)
      ensures slot == |old(mod.funcs[current].locals)|
      ensures mod == WithFunc(old(mod), current, WithLocal(old(mod).funcs[current], name, t))
      ensures localScope == old(localScope)[name := Local(name, t, slot)]
    {
      var f := mod.funcs[current];
      var lcl := Local(name, t, |f.locals|);
      mod := mod.(funcs := mod.funcs[current := f.(locals := f.locals + [lcl])]);
      localScope := localScope[name := lcl];
      slot := lcl.index;
    }

    /**
     * The body loop of `processFunction` (wasm.js:262-264): `body'` is the
     * body as the loop leaves it.  Processing a statement changes no field of
     * the pass, so the loop gathers the statements and the caller stores them.
     */
    method ProcessBody(body: seq<Expr>) returns (r: Result<seq<Expr>>)
      requires current < |mod.funcs|
      ensures r == ResolveBody(Context(), body)
    {
      var body' := [];
      var j := 0;
      while j < |body|
        invariant 0 <= j <= |body|
        invariant ResolveBody(Context(), body[..j]) == Ok(body')
      {
        assert body[..j + 1][..j] == body[..j];
        assert body[..j + 1][j] == body[j];
        var s := ProcessExpr(body[j]);
        if s.Err? {
          ResolveBodyFailureSticks(Context(), body, j + 1);
          return Err(s.error);
        }
        body' := body' + [s.value];
        j := j + 1;
      }
      assert body[..j] == body;
      r := Ok(body');
    }

    /**
     * `processFunction` on the function at index `k` (wasm.js:253-265): a
     * fresh local scope, every parameter registered as a local in turn, then
     * the body processed.
     */
    method ProcessFunction(k: nat) returns (o: Outcome)
      requires k < |mod.funcs|
      modifies this
      ensures current == k && moduleScope == old(moduleScope)
      ensures localScope == ParamScope(old(mod), k)
      ensures ResolveFunction(old(mod), moduleScope, k) == if o.Pass? then Ok(mod) else Err(o.error)
      ensures o.Fail? ==> mod == WithParams(old(mod), k)
    {
      current := k;
      localScope := map[];
      ghost var f0 := mod.funcs[k];
      var i := 0;
      while i < |mod.funcs[k].params|
        invariant i <= |f0.params|
        invariant mod == WithFunc(old(mod), k, RegisterParams(f0, i).0)
        invariant localScope == RegisterParams(f0, i).1
        invariant current == k && moduleScope == old(moduleScope)
      {
        var p := mod.funcs[k].params[i];
        var slot := CreateLocal(p.name, p.ptype);
        var f := mod.funcs[k];
        mod := mod.(funcs := mod.funcs[k := f.(params := f.params[i := p.(index := Some(slot))])]);
        i := i + 1;
      }
      var body := ProcessBody(mod.funcs[k].body);
      if body.Err? {
        return Fail(body.error);
      }
      var f := mod.funcs[k];
      mod := mod.(funcs := mod.funcs[k := f.(body := body.value)]);
      assert mod.funcs == old(mod).funcs[k := f.(body := body.value)];
      o := Pass;
    }

    /**
     * The indexing half of `processModule` (wasm.js:268-281): every extern,
     * then every function, gets its position as `index` and is bound by name
     * in a fresh module scope.  No function body is looked at.  The loops
     * work on local copies, stored in the fields once both are done.
     */
    method IndexDeclarations(m: Module)
      modifies this
      ensures mod == IndexModule(m) && moduleScope == ModuleScope(m)
      ensures current == old(current) && localScope == old(localScope)
    {
      var externs, scope := IndexExterns(m.externs);
      var funcs, scope' := IndexFuncs(m.funcs, scope);
      assert Module(externs, funcs) == IndexModule(m);
      mod, moduleScope := Module(externs, funcs), scope';
    }

    /** The extern loop of `processModule` (wasm.js:272-276), from an empty module scope. */
    method IndexExterns(es: seq<Extern>) returns (r: seq<Extern>, scope: map<string, ScopeEntry>)
      ensures |r| == |es| && forall j :: 0 <= j < |es| ==> r[j] == IndexedExtern(es[j], j)
      ensures scope == ExternScope(es, |es|)
    {
      r, scope := es, map[];
      var i := 0;
      while i < |r|
        invariant i <= |es| == |r|
        invariant forall j :: 0 <= j < i ==> r[j] == IndexedExtern(es[j], j)
        invariant forall j :: i <= j < |es| ==> r[j] == es[j]
        invariant scope == ExternScope(es, i)
      {
        var e := r[i];
        r := r[i := IndexedExtern(e, i)];
        scope := scope[e.name := ExternEntry(i)];
        i := i + 1;
      }
    }

    /** The function loop of `processModule` (wasm.js:277-281), on top of the externs' scope. */
    method IndexFuncs(fs: seq<Func>, base: map<string, ScopeEntry>) returns (r: seq<Func>, scope: map<string, ScopeEntry>)
      ensures |r| == |fs| && forall j :: 0 <= j < |fs| ==> r[j] == IndexedFunc(fs[j], j)
      ensures scope == FuncScope(fs, |fs|, base)
    {
      r, scope := fs, base;
      var i := 0;
      while i < |r|
        invariant i <= |fs| == |r|
        invariant forall j :: 0 <= j < i ==> r[j] == IndexedFunc(fs[j], j)
        invariant forall j :: i <= j < |fs| ==> r[j] == fs[j]
        invariant scope == FuncScope(fs, i, base)
      {
        var func := r[i];
        r := r[i := IndexedFunc(func, i)];
        scope := scope[func.name := FuncEntry(i)];
        i := i + 1;
      }
    }

    /**
     * `processModule` (wasm.js:267-287): index every extern and function
     * first, and only then process every function, in order.
     */
    method ProcessModule(m: Module) returns (o: Outcome)
      modifies this
      ensures moduleScope == ModuleScope(m)
      ensures ResolveModule(m) == if o.Pass? then Ok(mod) else Err(o.error)
    {
      IndexDeclarations(m);
      o := ProcessFuncs();
    }

    /** The processing loop of `processModule` (wasm.js:284-286): every function in order. */
    method ProcessFuncs() returns (o: Outcome)
      modifies this
      ensures moduleScope == old(moduleScope)
      ensures ResolveFuncs(old(mod), moduleScope, |old(mod).funcs|) == if o.Pass? then Ok(mod) else Err(o.error)
    {
      ghost var im, ms := mod, moduleScope;
      var i := 0;
      while i < |mod.funcs|
        invariant i <= |im.funcs| == |mod.funcs|
        invariant moduleScope == ms
        invariant ResolveFuncs(im, ms, i) == Ok(mod)
      {
        ghost var before := mod;
        o := ProcessFunction(i);
        assert ResolveFuncs(im, ms, i + 1) == ResolveFunction(before, ms, i);
        if o.Fail? {
          ResolveFuncsFailureSticks(im, ms, i + 1, |im.funcs|);
          return;
        }
        i := i + 1;
      }
      o := Pass;
    }
  }

  /** Once an argument fails, the whole argument list fails with that error. */
  lemma {:induction false} ResolveArgsFailureSticks(c: Ctx, args: seq<Expr>, t: Target, i: nat)
    requires c.current < |c.mod.funcs|
    requires i <= |args|
    requires ResolveArgs(c, args[..i], t).Err?
    ensures ResolveArgs(c, args, t) == ResolveArgs(c, args[..i], t)
    decreases |args|
  {
    if i < |args| {
      var n := |args| - 1;
      assert args[..n][..i] == args[..i];
      ResolveArgsFailureSticks(c, args[..n], t, i);
    } else {
      assert args[..i] == args;
    }
  }

  /** Once a statement fails, the whole body fails with that error. */
  lemma {:induction false} ResolveBodyFailureSticks(c: Ctx, body: seq<Expr>, i: nat)
    requires c.current < |c.mod.funcs|
    requires i <= |body|
    requires ResolveBody(c, body[..i]).Err?
    ensures ResolveBody(c, body) == ResolveBody(c, body[..i])
    decreases |body|
  {
    if i < |body| {
      var n := |body| - 1;
      assert body[..n][..i] == body[..i];
      ResolveBodyFailureSticks(c, body[..n], i);
    } else {
      assert body[..i] == body;
    }
  }
}
