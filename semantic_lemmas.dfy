/**
 * How the module scope of `processModule` (wasm.js:267-287) answers a
 * name: externs are bound first and functions after them, each in order,
 * so the last declaration of a name wins and a function wins over an
 * extern.
 */
module SemanticLemmas {
  import opened Ast
  import opened Semantic

  /** Extern `j` is the last of the first `n` externs named `name`. */
  predicate LastExtern(es: seq<Extern>, n: nat, j: nat, name: string)
    requires n <= |es|
  {
    j < n && es[j].name == name && forall k :: j < k < n ==> es[k].name != name
  }

  /** Function `j` is the last of the first `n` functions named `name`. */
  predicate LastFunc(fs: seq<Func>, n: nat, j: nat, name: string)
    requires n <= |fs|
  {
    j < n && fs[j].name == name && forall k :: j < k < n ==> fs[k].name != name
  }

  /** The extern loop binds exactly the names of the externs, each to its last extern. */
  lemma {:induction false} ExternScopeLookup(es: seq<Extern>, n: nat, name: string)
    requires n <= |es|
    ensures name in ExternScope(es, n) <==> exists j :: 0 <= j < n && es[j].name == name
    ensures forall j :: LastExtern(es, n, j, name) ==>
              name in ExternScope(es, n) && ExternScope(es, n)[name] == ExternEntry(j)
    decreases n
  {
    if n > 0 {
      ExternScopeLookup(es, n - 1, name);
      if es[n - 1].name != name {
        forall j | LastExtern(es, n, j, name)
          ensures LastExtern(es, n - 1, j, name)
        {
        }
      }
    }
  }

  /**
   * The function loop binds the names of the functions on top of `base`,
   * each to its last function; other names keep their binding in `base`.
   */
  lemma {:induction false} FuncScopeLookup(fs: seq<Func>, n: nat, base: map<string, ScopeEntry>, name: string)
    requires n <= |fs|
    ensures name in FuncScope(fs, n, base) <==> name in base || exists j :: 0 <= j < n && fs[j].name == name
    ensures forall j :: LastFunc(fs, n, j, name) ==>
              name in FuncScope(fs, n, base) && FuncScope(fs, n, base)[name] == FuncEntry(j)
    ensures (forall j :: 0 <= j < n ==> fs[j].name != name) && name in base ==>
              FuncScope(fs, n, base)[name] == base[name]
    decreases n
  {
    if n > 0 {
      FuncScopeLookup(fs, n - 1, base, name);
      if fs[n - 1].name != name {
        forall j | LastFunc(fs, n, j, name)
          ensures LastFunc(fs, n - 1, j, name)
        {
        }
      }
    }
  }

  /**
   * The module scope holds exactly the declared names.  A name some
   * function has is bound to the last such function; any other declared
   * name to the last extern that has it.
   */
  lemma ModuleScopeLookup(m: Module, name: string)
    ensures name in ModuleScope(m) <==>
              (exists j :: 0 <= j < |m.externs| && m.externs[j].name == name) ||
              (exists j :: 0 <= j < |m.funcs| && m.funcs[j].name == name)
    ensures forall j :: LastFunc(m.funcs, |m.funcs|, j, name) ==>
              name in ModuleScope(m) && ModuleScope(m)[name] == FuncEntry(j)
    ensures (forall j :: 0 <= j < |m.funcs| ==> m.funcs[j].name != name) ==>
              forall j :: LastExtern(m.externs, |m.externs|, j, name) ==>
                name in ModuleScope(m) && ModuleScope(m)[name] == ExternEntry(j)
  {
    ExternScopeLookup(m.externs, |m.externs|, name);
    FuncScopeLookup(m.funcs, |m.funcs|, ExternScope(m.externs, |m.externs|), name);
  }

  /** Every binding of the local scope is to a slot below `n`. */
  predicate SlotsBelow(scope: map<string, Local>, n: nat)
  {
    forall x :: x in scope ==> scope[x].index < n
  }

  /**
   * On what the parser builds, every `getlocal` a successful resolution
   * leaves comes from the local scope (wasm.js:148-153), so its slot is one
   * the scope holds.
   */
  lemma {:induction false} ResolveLocalsBelow(c: Ctx, e: Expr, n: nat)
    requires c.current < |c.mod.funcs|
    requires ParserShaped(e) && SlotsBelow(c.localScope, n)
    requires Resolve(c, e).Ok?
    ensures LocalsBelow(Resolve(c, e).value, n)
    decreases Size(e), 1
  {
    match e
    case BinaryOp(l, op, r, _) =>
      ResolveLocalsBelow(c, l, n);
      ResolveLocalsBelow(c, r, n);
    case Call(callee, args) =>
      match Resolve(c, callee).value {
        case GetFunction(i) =>
          ResolveArgsLocalsBelow(c, args, Direct(c.mod.funcs[i]), n);
        case GetExtern(i) =>
          ResolveArgsLocalsBelow(c, args, External(c.mod.externs[i]), n);
        case _ =>
      }
    case Return(x, _) =>
      ResolveLocalsBelow(c, x, n);
    case _ =>
  }

  lemma {:induction false} ResolveArgsLocalsBelow(c: Ctx, args: seq<Expr>, t: Target, n: nat)
    requires c.current < |c.mod.funcs|
    requires (forall i :: 0 <= i < |args| ==> ParserShaped(args[i])) && SlotsBelow(c.localScope, n)
    requires ResolveArgs(c, args, t).Ok?
    ensures forall i :: 0 <= i < |ResolveArgs(c, args, t).value| ==> LocalsBelow(ResolveArgs(c, args, t).value[i], n)
    decreases SizeArgs(args), 2
  {
    if args != [] {
      var k := |args| - 1;
      var done := ResolveArgs(c, args[..k], t).value;
      var a := Resolve(c, args[k]).value;
      assert ResolveArgs(c, args, t).value == done + [a];
      assert forall i :: 0 <= i < k ==> args[..k][i] == args[i];
      ResolveArgsLocalsBelow(c, args[..k], t, n);
      ResolveLocalsBelow(c, args[k], n);
      assert forall i :: 0 <= i < |done| ==> (done + [a])[i] == done[i];
    }
  }

  /** The parameter bindings from slot `base` on are all to slots below `base + n`. */
  lemma {:induction false} ParamBindingsBelow(ps: seq<Param>, n: nat, base: nat)
    requires n <= |ps|
    ensures SlotsBelow(ParamBindings(ps, n, base), base + n)
  {
    if n > 0 {
      ParamBindingsBelow(ps, n - 1, base);
    }
  }

  /** A successful body loop resolves each statement on its own: statement `s` becomes `Resolve` of it. */
  lemma {:induction false} ResolveBodyEach(c: Ctx, body: seq<Expr>)
    requires c.current < |c.mod.funcs|
    requires ResolveBody(c, body).Ok?
    ensures |ResolveBody(c, body).value| == |body|
    ensures forall s :: 0 <= s < |body| ==> Resolve(c, body[s]) == Ok(ResolveBody(c, body).value[s])
    decreases |body|
  {
    if body != [] {
      var n := |body| - 1;
      var done := ResolveBody(c, body[..n]).value;
      var st := Resolve(c, body[n]).value;
      ResolveBodyEach(c, body[..n]);
      assert ResolveBody(c, body).value == done + [st];
      assert forall s :: 0 <= s < n ==> body[..n][s] == body[s] && (done + [st])[s] == done[s];
    }
  }

  /** A function the processing loop has not reached yet is as indexing left it. */
  lemma {:induction false} ResolveFuncsKeeps(m: Module, ms: map<string, ScopeEntry>, n: nat, k: nat)
    requires n <= k < |m.funcs|
    requires ResolveFuncs(m, ms, n).Ok?
    ensures ResolveFuncs(m, ms, n).value.funcs[k] == m.funcs[k]
    decreases n
  {
    if n > 0 {
      ResolveFuncsKeeps(m, ms, n - 1, k);
    }
  }

  /** Once the loop has processed function `k`, later rounds leave it as it is. */
  lemma {:induction false} ResolveFuncsFinal(m: Module, ms: map<string, ScopeEntry>, n: nat, k: nat)
    requires k < n <= |m.funcs|
    requires ResolveFuncs(m, ms, n).Ok?
    ensures ResolveFuncs(m, ms, k + 1).Ok?
    ensures ResolveFuncs(m, ms, n).value.funcs[k] == ResolveFuncs(m, ms, k + 1).value.funcs[k]
    decreases n
  {
    if n > k + 1 {
      ResolveFuncsFinal(m, ms, n - 1, k);
    }
  }
  /** A successful argument loop resolves each argument on its own: argument `i` becomes `Resolve` of it (wasm.js:206-208, 223-225). */
  lemma {:induction false} ResolveArgsEach(c: Ctx, args: seq<Expr>, t: Target)
    requires c.current < |c.mod.funcs|
    requires ResolveArgs(c, args, t).Ok?
    ensures |ResolveArgs(c, args, t).value| == |args|
    ensures forall i :: 0 <= i < |args| ==> Resolve(c, args[i]) == Ok(ResolveArgs(c, args, t).value[i])
    decreases |args|
  {
    if args != [] {
      var n := |args| - 1;
      var done := ResolveArgs(c, args[..n], t).value;
      var a := Resolve(c, args[n]).value;
      ResolveArgsEach(c, args[..n], t);
      assert ResolveArgs(c, args, t).value == done + [a];
      assert forall i :: 0 <= i < n ==> args[..n][i] == args[i] && (done + [a])[i] == done[i];
    }
  }

  // ---------------------------------------------------------------------
  // The type rules survive the rest of the processing loop

  /**
   * Function `f2` is `f1` with possibly more locals at the end: the same
   * number of parameters and the same return type, so every type a call
   * check reads from `f1` reads the same from `f2`.
   */
  predicate FuncExtends(f1: Func, f2: Func)
  {
    |f2.params| == |f1.params| && f2.returnType == f1.returnType && f1.locals <= f2.locals
  }

  /** Module `m2` is `m1` with its functions extended as `FuncExtends` says. */
  predicate Extends(m1: Module, m2: Module)
  {
    && m2.externs == m1.externs && |m2.funcs| == |m1.funcs|
    && forall f :: 0 <= f < |m1.funcs| ==> FuncExtends(m1.funcs[f], m2.funcs[f])
  }

  lemma ExtendsTrans(m1: Module, m2: Module, m3: Module)
    requires Extends(m1, m2) && Extends(m2, m3)
    ensures Extends(m1, m3)
  {
    forall f | 0 <= f < |m1.funcs| ensures FuncExtends(m1.funcs[f], m3.funcs[f]) {
      assert FuncExtends(m1.funcs[f], m2.funcs[f]) && FuncExtends(m2.funcs[f], m3.funcs[f]);
    }
  }

  /** A tree that obeys the type rules against a module obeys them against any extension of it. */
  lemma {:induction false} WellTypedExtends(m1: Module, m2: Module, e: Expr)
    requires Extends(m1, m2) && WellTyped(m1, e)
    ensures WellTyped(m2, e)
    decreases e
  {
    match e
    case BinaryOp(l, _, r, _) =>
      WellTypedExtends(m1, m2, l);
      WellTypedExtends(m1, m2, r);
    case CallDirect(f, args, _) =>
      assert FuncExtends(m1.funcs[f], m2.funcs[f]);
      forall i | 0 <= i < |args| ensures WellTyped(m2, args[i]) && Fits(Direct(m2.funcs[f]), i, args[i]) {
        WellTypedExtends(m1, m2, args[i]);
        assert m1.funcs[f].locals[i] == m2.funcs[f].locals[i];
      }
    case CallExternal(_, args, _) =>
      forall i | 0 <= i < |args| ensures WellTyped(m2, args[i]) {
        WellTypedExtends(m1, m2, args[i]);
      }
    case Return(x, _) =>
      WellTypedExtends(m1, m2, x);
    case _ =>
  }

  /** Registering the parameters of function `k` extends the module. */
  lemma WithParamsExtends(m: Module, k: nat)
    requires k < |m.funcs|
    ensures Extends(m, WithParams(m, k))
  {
    var f := m.funcs[k];
    RegisterParamsFrame(f, |f.params|);
    RegisterParamsLocals(f, |f.params|);
    assert FuncExtends(f, WithParams(m, k).funcs[k]);
  }

  /** One round of the processing loop extends the module, and its result extends the module its body was checked in. */
  lemma ResolveFunctionExtends(m: Module, ms: map<string, ScopeEntry>, k: nat)
    requires k < |m.funcs| && ResolveFunction(m, ms, k).Ok?
    ensures Extends(m, ResolveFunction(m, ms, k).value)
    ensures Extends(WithParams(m, k), ResolveFunction(m, ms, k).value)
  {
    WithParamsExtends(m, k);
    var m1 := WithParams(m, k);
    var r := ResolveFunction(m, ms, k).value;
    assert r.funcs[k].(body := m1.funcs[k].body) == m1.funcs[k];
    assert Extends(m1, r);
    ExtendsTrans(m, m1, r);
  }

  /** Later rounds of the processing loop extend what earlier rounds left. */
  lemma {:induction false} ResolveFuncsExtends(m: Module, ms: map<string, ScopeEntry>, i: nat, n: nat)
    requires i <= n <= |m.funcs|
    requires ResolveFuncs(m, ms, n).Ok?
    ensures ResolveFuncs(m, ms, i).Ok?
    ensures Extends(ResolveFuncs(m, ms, i).value, ResolveFuncs(m, ms, n).value)
    decreases n
  {
    if n == i {
      var r := ResolveFuncs(m, ms, n).value;
      assert forall f :: 0 <= f < |r.funcs| ==> FuncExtends(r.funcs[f], r.funcs[f]);
    } else {
      ResolveFuncsExtends(m, ms, i, n - 1);
      ResolveFunctionExtends(ResolveFuncs(m, ms, n - 1).value, ms, n - 1);
      ExtendsTrans(ResolveFuncs(m, ms, i).value, ResolveFuncs(m, ms, n - 1).value, ResolveFuncs(m, ms, n).value);
    }
  }

  /**
   * Every statement of function `k` obeys the type rules against the module
   * `processModule` finally returns, not only against the module it was
   * checked in.
   */
  lemma ResolveModuleFuncWellTyped(m: Module, k: nat)
    requires k < |m.funcs| && ResolveModule(m).Ok?
    ensures var f := ResolveModule(m).value.funcs[k];
            forall s :: 0 <= s < |f.body| ==> WellTyped(ResolveModule(m).value, f.body[s])
  {
    var im, ms, n := IndexModule(m), ModuleScope(m), |m.funcs|;
    ResolveFuncsFinal(im, ms, n, k);
    ResolveFuncsExtends(im, ms, k + 1, n);
    ProcessedBodyWellTyped(im, ms, k, ResolveModule(m).value);
  }

  /** The statements round `k` resolves obey the type rules against every extension of its result. */
  lemma ProcessedBodyWellTyped(im: Module, ms: map<string, ScopeEntry>, k: nat, r: Module)
    requires k < |im.funcs| && ResolveFuncs(im, ms, k + 1).Ok?
    requires Extends(ResolveFuncs(im, ms, k + 1).value, r)
    ensures var f := ResolveFuncs(im, ms, k + 1).value.funcs[k];
            forall s :: 0 <= s < |f.body| ==> WellTyped(r, f.body[s])
  {
    var mk := ResolveFuncs(im, ms, k).value;
    var mk1 := ResolveFunction(mk, ms, k).value;
    assert ResolveFuncs(im, ms, k + 1).value == mk1;
    var m1 := WithParams(mk, k);
    var f1 := m1.funcs[k];
    var c := Ctx(ParamScope(mk, k), ms, m1, k);
    var body := ResolveBody(c, f1.body).value;
    assert mk1.funcs[k] == f1.(body := body);
    ResolveBodyEach(c, f1.body);
    ResolveFunctionExtends(mk, ms, k);
    ExtendsTrans(m1, mk1, r);
    forall s | 0 <= s < |body| ensures WellTyped(r, body[s]) {
      ResolveSound(c, f1.body[s]);
      WellTypedExtends(m1, r, body[s]);
    }
  }

  /** Every statement of every function obeys the type rules against the module `processModule` returns. */
  lemma ResolveModuleWellTyped(m: Module)
    requires ResolveModule(m).Ok?
    ensures var r := ResolveModule(m).value;
            forall k, s :: 0 <= k < |r.funcs| && 0 <= s < |r.funcs[k].body| ==> WellTyped(r, r.funcs[k].body[s])
  {
    var r := ResolveModule(m).value;
    forall k | 0 <= k < |r.funcs| ensures forall s :: 0 <= s < |r.funcs[k].body| ==> WellTyped(r, r.funcs[k].body[s]) {
      ResolveModuleFuncWellTyped(m, k);
    }
  }

  // ---------------------------------------------------------------------
  // What processModule leaves behind

  /** A function as the parser hands it over: no locals yet (wasm.js:113), a body of parser-built nodes. */
  predicate ParserFunc(f: Func)
  {
    f.locals == [] && forall s :: 0 <= s < |f.body| ==> ParserShaped(f.body[s])
  }

  predicate ParserModule(mdl: Module)
  {
    forall k :: 0 <= k < |mdl.funcs| ==> ParserFunc(mdl.funcs[k])
  }

  /**
   * Function `f` is what `processModule` makes of `f0` at position `k`: it
   * carries `k` as its index and keeps its name, export flag and return
   * type; parameter `j` holds the slot just past the old locals plus `j`,
   * and that slot holds a local of the parameter's name and type; the old
   * locals are kept; every statement has been resolved.
   */
  predicate ProcessedFunc(f0: Func, k: nat, f: Func)
  {
    && f.(params := f0.params, locals := f0.locals, body := f0.body) == IndexedFunc(f0, k)
    && |f.params| == |f0.params|
    && (forall j :: 0 <= j < |f0.params| ==> f.params[j] == f0.params[j].(index := Some(|f0.locals| + j)))
    && |f.locals| == |f0.locals| + |f0.params|
    && f.locals[..|f0.locals|] == f0.locals
    && (forall j :: 0 <= j < |f0.params| ==>
          f.locals[|f0.locals| + j] == Local(f0.params[j].name, f0.params[j].ptype, |f0.locals| + j))
    && |f.body| == |f0.body|
    && (forall s :: 0 <= s < |f.body| ==> Resolved(f.body[s]))
  }

  /**
   * Function `k` of the module `processModule` returns is the processed
   * form of function `k` of its input; on a parser-built function, every
   * statement that holds no bare function or extern reference is typed at
   * every node.
   */
  lemma ResolveModuleFunc(m: Module, k: nat)
    requires k < |m.funcs| && ResolveModule(m).Ok?
    ensures ProcessedFunc(m.funcs[k], k, ResolveModule(m).value.funcs[k])
    ensures var f := ResolveModule(m).value.funcs[k];
            ParserFunc(m.funcs[k]) ==> forall s :: 0 <= s < |f.body| && NoBareRefs(f.body[s]) ==> FullyTyped(f.body[s])
  {
    var im, ms, n := IndexModule(m), ModuleScope(m), |m.funcs|;
    ResolveFuncsFinal(im, ms, n, k);
    var mk := ResolveFuncs(im, ms, k).value;
    ResolveFuncsKeeps(im, ms, k, k);
    assert mk.funcs[k] == IndexedFunc(m.funcs[k], k);
    ResolveFunctionProcessed(mk, ms, k, m.funcs[k]);
  }

  /** `processFunction` on a function that indexing gave position `k`. */
  lemma ResolveFunctionProcessed(mk: Module, ms: map<string, ScopeEntry>, k: nat, f0: Func)
    requires k < |mk.funcs| && mk.funcs[k] == IndexedFunc(f0, k)
    requires ResolveFunction(mk, ms, k).Ok?
    ensures ProcessedFunc(f0, k, ResolveFunction(mk, ms, k).value.funcs[k])
    ensures var f := ResolveFunction(mk, ms, k).value.funcs[k];
            ParserFunc(f0) ==> forall s :: 0 <= s < |f.body| && NoBareRefs(f.body[s]) ==> FullyTyped(f.body[s])
  {
    var fk := mk.funcs[k];
    var m1 := WithParams(mk, k);
    var f1 := m1.funcs[k];
    assert f1 == RegisterParams(fk, |fk.params|).0;
    var c := Ctx(ParamScope(mk, k), ms, m1, k);
    var body := ResolveBody(c, f1.body).value;
    assert ResolveFunction(mk, ms, k).value.funcs[k] == f1.(body := body);
    RegisterParamsFrame(fk, |fk.params|);
    RegisterParamsIndexes(fk, |fk.params|);
    RegisterParamsLocals(fk, |fk.params|);
    ResolveBodyEach(c, f1.body);
    forall s | 0 <= s < |body|
      ensures Resolved(body[s])
      ensures ParserFunc(f0) && NoBareRefs(body[s]) ==> FullyTyped(body[s])
    {
      ResolveSound(c, f1.body[s]);
      if ParserFunc(f0) && NoBareRefs(body[s]) {
        ResolveTypesEveryNode(c, f1.body[s]);
      }
    }
  }

  /** Binding the first `n` parameters to the slots from `base` on keeps every entry in its slot. */
  lemma {:induction false} ParamBindingsMatch(ps: seq<Param>, n: nat, base: nat, locals: seq<Local>)
    requires n <= |ps|
    requires base + n <= |locals|
    requires forall i :: base <= i < base + n ==> locals[i] == Local(ps[i - base].name, ps[i - base].ptype, i)
    ensures ScopeMatches(ParamBindings(ps, n, base), locals)
    decreases n
  {
    if n > 0 {
      ParamBindingsMatch(ps, n - 1, base, locals);
      var i := base + n - 1;
      assert locals[i] == Local(ps[n - 1].name, ps[n - 1].ptype, i);
    }
  }

  /**
   * The local scope `processFunction` builds for function `k` binds each
   * name to the very local in its slot (wasm.js:257-260).
   */
  lemma ParamScopeMatches(m: Module, k: nat)
    requires k < |m.funcs|
    ensures ScopeMatches(ParamScope(m, k), WithParams(m, k).funcs[k].locals)
  {
    var f := m.funcs[k];
    var n := |f.params|;
    RegisterParamsScope(f, n);
    RegisterParamsCount(f, n);
    forall i | |f.locals| <= i < |f.locals| + n {
      RegisterParamsLocal(f, n, i);
    }
    ParamBindingsMatch(f.params, n, |f.locals|, RegisterParams(f, n).0.locals);
  }

  /**
   * On a function whose statements the parser built, every `getlocal` in
   * the processed body carries the type of the local it names in that
   * function.
   */
  lemma ResolveFunctionLocalsTyped(mk: Module, ms: map<string, ScopeEntry>, k: nat)
    requires k < |mk.funcs| && ResolveFunction(mk, ms, k).Ok?
    requires forall s :: 0 <= s < |mk.funcs[k].body| ==> ParserShaped(mk.funcs[k].body[s])
    ensures var f := ResolveFunction(mk, ms, k).value.funcs[k];
            forall s :: 0 <= s < |f.body| ==> LocalsTyped(f.locals, f.body[s])
  {
    var fk := mk.funcs[k];
    var m1 := WithParams(mk, k);
    var f1 := m1.funcs[k];
    assert f1 == RegisterParams(fk, |fk.params|).0;
    RegisterParamsFrame(fk, |fk.params|);
    assert f1.body == fk.body;
    var c := Ctx(ParamScope(mk, k), ms, m1, k);
    ParamScopeMatches(mk, k);
    var body := ResolveBody(c, f1.body).value;
    assert ResolveFunction(mk, ms, k).value.funcs[k] == f1.(body := body);
    ResolveBodyEach(c, f1.body);
    forall s | 0 <= s < |body| ensures LocalsTyped(f1.locals, body[s]) {
      ResolveLocalsTyped(c, f1.body[s]);
    }
  }

  /** The same for function `k` of the module `processModule` returns. */
  lemma ResolveModuleFuncLocalsTyped(m: Module, k: nat)
    requires k < |m.funcs| && ResolveModule(m).Ok? && ParserFunc(m.funcs[k])
    ensures var f := ResolveModule(m).value.funcs[k];
            forall s :: 0 <= s < |f.body| ==> LocalsTyped(f.locals, f.body[s])
  {
    var im, ms, n := IndexModule(m), ModuleScope(m), |m.funcs|;
    ResolveFuncsFinal(im, ms, n, k);
    var mk := ResolveFuncs(im, ms, k).value;
    ResolveFuncsKeeps(im, ms, k, k);
    assert mk.funcs[k] == IndexedFunc(m.funcs[k], k);
    ResolveFunctionLocalsTyped(mk, ms, k);
  }

  /**
   * The module `processModule` returns (wasm.js:267-287): same externs and
   * functions in the same order, each extern carrying its position as
   * `index`, each function processed as `ProcessedFunc` says, and every
   * statement obeying the type rules against that module.
   */
  lemma ResolveModuleSound(m: Module)
    requires ResolveModule(m).Ok?
    ensures var r := ResolveModule(m).value;
            && |r.externs| == |m.externs| && |r.funcs| == |m.funcs|
            && (forall i :: 0 <= i < |m.externs| ==> r.externs[i] == IndexedExtern(m.externs[i], i))
            && (forall k :: 0 <= k < |m.funcs| ==> ProcessedFunc(m.funcs[k], k, r.funcs[k]))
            && (forall k, s :: 0 <= k < |r.funcs| && 0 <= s < |r.funcs[k].body| ==> WellTyped(r, r.funcs[k].body[s]))
  {
    ResolveModuleWellTyped(m);
    forall k | 0 <= k < |m.funcs| ensures ProcessedFunc(m.funcs[k], k, ResolveModule(m).value.funcs[k]) {
      ResolveModuleFunc(m, k);
    }
  }

  /**
   * On a module as the parser builds it, parameter `j` of every function
   * sits in slot `j`, the locals are exactly the parameters, every
   * statement with no bare function or extern reference is typed at every
   * node, and every `getlocal` carries the type of the local it names.
   */
  lemma ResolveParserModuleSound(m: Module)
    requires ParserModule(m) && ResolveModule(m).Ok?
    ensures var r := ResolveModule(m).value;
            forall k :: 0 <= k < |m.funcs| ==>
              && |r.funcs[k].locals| == |r.funcs[k].params| == |m.funcs[k].params|
              && (forall j :: 0 <= j < |m.funcs[k].params| ==>
                    && r.funcs[k].params[j].index == Some(j)
                    && r.funcs[k].locals[j] == Local(m.funcs[k].params[j].name, m.funcs[k].params[j].ptype, j))
              && (forall s :: 0 <= s < |r.funcs[k].body| && NoBareRefs(r.funcs[k].body[s]) ==> FullyTyped(r.funcs[k].body[s]))
              && (forall s :: 0 <= s < |r.funcs[k].body| ==> LocalsTyped(r.funcs[k].locals, r.funcs[k].body[s]))
  {
    var r := ResolveModule(m).value;
    forall k | 0 <= k < |m.funcs|
      ensures |r.funcs[k].locals| == |r.funcs[k].params| == |m.funcs[k].params|
      ensures forall j :: 0 <= j < |m.funcs[k].params| ==>
                && r.funcs[k].params[j].index == Some(j)
                && r.funcs[k].locals[j] == Local(m.funcs[k].params[j].name, m.funcs[k].params[j].ptype, j)
      ensures forall s :: 0 <= s < |r.funcs[k].body| && NoBareRefs(r.funcs[k].body[s]) ==> FullyTyped(r.funcs[k].body[s])
      ensures forall s :: 0 <= s < |r.funcs[k].body| ==> LocalsTyped(r.funcs[k].locals, r.funcs[k].body[s])
    {
      ResolveModuleFunc(m, k);
      ResolveModuleFuncLocalsTyped(m, k);
      assert |m.funcs[k].locals| == 0;
    }
  }
}
