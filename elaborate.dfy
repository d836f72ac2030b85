/**
 * What `processExpr` (wasm.js:139-240) makes of a tree the parser built,
 * stated as a relation rather than a computation.  `Elaborates` relates a tree to its resolved
 * form, leaving the types aside.  Every name is replaced by what it is bound
 * to, the local scope first, then the module scope.  Every call becomes a
 * direct or external call of the callee's index over the elaborated
 * arguments.  Constants, operators and nesting are kept.  The types are then
 * fixed by `WellTyped` and `LocalsTyped`.  Resolution succeeds exactly when
 * a well-typed elaboration exists, and it returns that elaboration.
 */
module Elaboration {
  import opened Ast
  import opened Semantic
  import opened SemanticLemmas

  /** What the name `n` stands for: its local if it has one, else its module-scope declaration. */
  predicate Binds(c: Ctx, n: string, r: Expr)
  {
    if n in c.localScope then r.GetLocal? && r.index == c.localScope[n].index
    else
      n in c.moduleScope &&
      match c.moduleScope[n]
      case FuncEntry(i) => r == GetFunction(i)
      case ExternEntry(i) => r == GetExtern(i)
  }

  /** `r` is `e` with its names and calls resolved, whatever the types in `r`. */
  predicate Elaborates(c: Ctx, e: Expr, r: Expr)
    decreases e
  {
    match e
    case ConstI32(v, _) => r.ConstI32? && r.value == v
    case ConstF32(v, _) => r.ConstF32? && r.value == v
    case GetName(n) => Binds(c, n, r)
    case BinaryOp(l, op, rt, _) =>
      r.BinaryOp? && r.op == op && Elaborates(c, l, r.left) && Elaborates(c, rt, r.right)
    case Call(callee, args) =>
      && ((r.CallDirect? && Elaborates(c, callee, GetFunction(r.func))) ||
          (r.CallExternal? && Elaborates(c, callee, GetExtern(r.func))))
      && |r.args| == |args|
      && forall i :: 0 <= i < |args| ==> Elaborates(c, args[i], r.args[i])
    case Return(x, _) => r.Return? && Elaborates(c, x, r.expr)
    case _ => false
  }

  /** A successful resolution of a parser-built tree is an elaboration of it. */
  lemma {:induction false} ResolveElaborates(c: Ctx, e: Expr)
    requires c.current < |c.mod.funcs|
    requires ParserShaped(e) && Resolve(c, e).Ok?
    ensures Elaborates(c, e, Resolve(c, e).value)
    decreases e
  {
    match e
    case BinaryOp(l, op, rt, _) =>
      ResolveElaborates(c, l);
      ResolveElaborates(c, rt);
    case Call(callee, args) =>
      ResolveElaborates(c, callee);
      var r := Resolve(c, e).value;
      match Resolve(c, callee).value {
        case GetFunction(i) =>
          ResolveArgsEach(c, args, Direct(c.mod.funcs[i]));
          forall j | 0 <= j < |args| ensures Elaborates(c, args[j], r.args[j]) {
            ResolveElaborates(c, args[j]);
          }
        case GetExtern(i) =>
          ResolveArgsEach(c, args, External(c.mod.externs[i]));
          forall j | 0 <= j < |args| ensures Elaborates(c, args[j], r.args[j]) {
            ResolveElaborates(c, args[j]);
          }
        case _ =>
      }
    case Return(x, _) =>
      ResolveElaborates(c, x);
    case _ =>
  }

  /**
   * The argument loop succeeds when each argument resolves to a tree that
   * has the declared type at its position, and it returns those trees.
   */
  lemma {:induction false} ResolveArgsComplete(c: Ctx, args: seq<Expr>, t: Target, rs: seq<Expr>)
    requires c.current < |c.mod.funcs|
    requires |rs| == |args|
    requires forall i :: 0 <= i < |args| ==> Resolve(c, args[i]) == Ok(rs[i]) && Fits(t, i, rs[i])
    ensures ResolveArgs(c, args, t) == Ok(rs)
    decreases |args|
  {
    if args != [] {
      var n := |args| - 1;
      assert forall i :: 0 <= i < n ==> args[..n][i] == args[i] && rs[..n][i] == rs[i];
      ResolveArgsComplete(c, args[..n], t, rs[..n]);
      ResolveArgsStep(c, args, t, rs);
    }
  }

  /** One more round of the argument loop, on a last argument that resolves and fits. */
  lemma ResolveArgsStep(c: Ctx, args: seq<Expr>, t: Target, rs: seq<Expr>)
    requires c.current < |c.mod.funcs| && |rs| == |args| > 0
    requires ResolveArgs(c, args[..|args| - 1], t) == Ok(rs[..|args| - 1])
    requires Resolve(c, args[|args| - 1]) == Ok(rs[|args| - 1]) && Fits(t, |args| - 1, rs[|args| - 1])
    ensures ResolveArgs(c, args, t) == Ok(rs)
  {
    var n := |args| - 1;
    assert rs[..n] + [rs[n]] == rs;
  }

  /**
   * Resolution returns every well-typed elaboration: when a tree has one
   * that obeys the type rules and gives each local its declared type,
   * resolution succeeds with exactly that tree.
   */
  lemma {:induction false} ElaboratesResolves(c: Ctx, e: Expr, r: Expr)
    requires c.current < |c.mod.funcs|
    requires ScopeMatches(c.localScope, c.mod.funcs[c.current].locals)
    requires Elaborates(c, e, r) && WellTyped(c.mod, r) && LocalsTyped(c.mod.funcs[c.current].locals, r)
    ensures Resolve(c, e) == Ok(r)
    decreases e, 1
  {
    match e
    case BinaryOp(l, op, rt, _) =>
      ElaboratesResolves(c, l, r.left);
      ElaboratesResolves(c, rt, r.right);
    case Call(callee, args) =>
      CallElaboratesResolves(c, callee, args, r);
    case Return(x, _) =>
      ElaboratesResolves(c, x, r.expr);
    case _ =>
  }

  /** The call case: the callee resolves to its index, then every argument to its elaboration. */
  lemma {:induction false} CallElaboratesResolves(c: Ctx, callee: Expr, args: seq<Expr>, r: Expr)
    requires c.current < |c.mod.funcs|
    requires ScopeMatches(c.localScope, c.mod.funcs[c.current].locals)
    requires Elaborates(c, Call(callee, args), r) && WellTyped(c.mod, r)
    requires LocalsTyped(c.mod.funcs[c.current].locals, r)
    ensures Resolve(c, Call(callee, args)) == Ok(r)
    decreases Call(callee, args), 0
  {
    if r.CallDirect? {
      ElaboratesResolves(c, callee, GetFunction(r.func));
      forall j | 0 <= j < |args| ensures Resolve(c, args[j]) == Ok(r.args[j]) {
        ElaboratesResolves(c, args[j], r.args[j]);
      }
      ResolveArgsComplete(c, args, Direct(c.mod.funcs[r.func]), r.args);
    } else {
      ElaboratesResolves(c, callee, GetExtern(r.func));
      forall j | 0 <= j < |args| ensures Resolve(c, args[j]) == Ok(r.args[j]) {
        ElaboratesResolves(c, args[j], r.args[j]);
      }
      ResolveArgsComplete(c, args, External(c.mod.externs[r.func]), r.args);
    }
  }

  /**
   * On a parser-built tree, with a local scope whose entries sit in their
   * slots, resolution succeeds exactly when the tree has a well-typed
   * elaboration.  So it fails on an unbound name, on operands of different
   * types, on a callee that is not a function or extern, on a wrong number
   * of arguments and on an argument of the wrong type.
   */
  lemma ResolveCharacterised(c: Ctx, e: Expr)
    requires c.current < |c.mod.funcs|
    requires ParserShaped(e) && ScopeMatches(c.localScope, c.mod.funcs[c.current].locals)
    ensures Resolve(c, e).Ok? <==>
              exists r :: Elaborates(c, e, r) && WellTyped(c.mod, r) && LocalsTyped(c.mod.funcs[c.current].locals, r)
  {
    if Resolve(c, e).Ok? {
      var r := Resolve(c, e).value;
      ResolveElaborates(c, e);
      ResolveSound(c, e);
      ResolveLocalsTyped(c, e);
      assert Elaborates(c, e, r) && WellTyped(c.mod, r) && LocalsTyped(c.mod.funcs[c.current].locals, r);
    } else {
      forall r | Elaborates(c, e, r) && WellTyped(c.mod, r) && LocalsTyped(c.mod.funcs[c.current].locals, r)
        ensures false
      {
        ElaboratesResolves(c, e, r);
      }
    }
  }
}
