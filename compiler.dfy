/**
 * `GenerateJS` (wasm.js:479-486): the resolver runs over the module, and
 * the generator then writes the module it has resolved, from a fresh
 * writer.  Whatever either phase throws is the result.
 */
module Compiler {
  import opened Ast
  import opened Writer
  import opened Semantic
  import opened JsGen
  import opened SemanticLemmas
  import opened JsGenLemmas

  /** The JavaScript text of a module, or what one of the two phases throws. */
  function Compile(mdl: Module): Result<string>
  {
    match ResolveModule(mdl)
    case Err(x) => Err(x)
    case Ok(resolved) => ModuleText(resolved, resolved, "")
  }

  /** `GenerateJS` (wasm.js:479-486). */
  method GenerateJS(mdl: Module) returns (r: Result<string>)
    ensures r == Compile(mdl)
  {
    var semantic := new SemanticPass();
    var o := semantic.ProcessModule(mdl);
    if o.Fail? {
      return Err(o.error);
    }
    var resolved := semantic.mod;
    var gen := new JSGenerator(resolved);
    var g, text := gen.GenerateModule(resolved, "");
    if g.Fail? {
      return Err(g.error);
    }
    assert gen.writer.output == "" + text == text;
    r := Ok(gen.writer.output);
  }

  /** No statement of any function holds a bare function or extern reference. */
  predicate NoBareRefsIn(mdl: Module)
  {
    forall k, s :: 0 <= k < |mdl.funcs| && 0 <= s < |mdl.funcs[k].body| ==> NoBareRefs(mdl.funcs[k].body[s])
  }

  /**
   * A statement the resolver accepted, given a local scope of slots the
   * function has, can be written exactly when it holds no bare function or
   * extern reference.
   */
  lemma ResolvedStatementGenerable(c: Ctx, e: Expr, m: Module, f: Func)
    requires c.current < |c.mod.funcs|
    requires ParserShaped(e) && SlotsBelow(c.localScope, |f.locals|) && Resolve(c, e).Ok?
    requires |m.funcs| == |c.mod.funcs| && |m.externs| == |c.mod.externs|
    ensures Generable(m, Some(f), Resolve(c, e).value) <==> NoBareRefs(Resolve(c, e).value)
  {
    var v := Resolve(c, e).value;
    ResolveSound(c, e);
    ResolveLocalsBelow(c, e, |f.locals|);
    if NoBareRefs(v) {
      ResolveTypesEveryNode(c, e);
      GenerableOf(c.mod, m, Some(f), v);
    }
    if Generable(m, Some(f), v) {
      GenerableNoBareRefs(m, Some(f), v);
    }
  }

  /**
   * A function `processFunction` accepted has its parameters in slots
   * `0, 1, …` and no other locals, and each statement of its body can be
   * written exactly when it holds no bare function or extern reference.
   */
  lemma ProcessedFuncGenerable(m': Module, ms: map<string, ScopeEntry>, k: nat, m: Module)
    requires k < |m'.funcs| && ParserFunc(m'.funcs[k])
    requires |m.funcs| == |m'.funcs| && |m.externs| == |m'.externs|
    requires ResolveFunction(m', ms, k).Ok?
    ensures Slotted(ResolveFunction(m', ms, k).value.funcs[k])
    ensures var f := ResolveFunction(m', ms, k).value.funcs[k];
            forall s :: 0 <= s < |f.body| ==> (Generable(m, Some(f), f.body[s]) <==> NoBareRefs(f.body[s]))
  {
    var fk := m'.funcs[k];
    var m1 := WithParams(m', k);
    var f1 := m1.funcs[k];
    assert f1 == RegisterParams(fk, |fk.params|).0;
    var c := Ctx(ParamScope(m', k), ms, m1, k);
    var f := ResolveFunction(m', ms, k).value.funcs[k];
    assert f == f1.(body := ResolveBody(c, f1.body).value);
    RegisterParamsCount(fk, |fk.params|);
    RegisterParamsFrame(fk, |fk.params|);
    forall j | 0 <= j < |fk.params| ensures f.params[j].index == Some(j) {
      RegisterParamsParam(fk, |fk.params|, j);
    }
    RegisterParamsScope(fk, |fk.params|);
    ParamBindingsBelow(fk.params, |fk.params|, 0);
    ResolveBodyEach(c, f1.body);
    forall s | 0 <= s < |f.body| ensures Generable(m, Some(f), f.body[s]) <==> NoBareRefs(f.body[s]) {
      ResolvedStatementGenerable(c, f1.body[s], m, f);
    }
  }

  /**
   * On what the parser builds, the compiler produces a program exactly when
   * the resolver accepts the module and leaves no function or extern name
   * standing as a value: every other way the generator can throw is ruled
   * out by what the resolver has established.
   */
  lemma CompileDefined(mdl: Module)
    requires ParserModule(mdl)
    ensures Compile(mdl).Ok? <==> ResolveModule(mdl).Ok? && NoBareRefsIn(ResolveModule(mdl).value)
  {
    if ResolveModule(mdl).Ok? {
      var im, ms := IndexModule(mdl), ModuleScope(mdl);
      var r := ResolveModule(mdl).value;
      var n := |mdl.funcs|;
      assert r == ResolveFuncs(im, ms, n).value;
      forall k | 0 <= k < n
        ensures Slotted(r.funcs[k])
        ensures forall s :: 0 <= s < |r.funcs[k].body| ==>
                  (Generable(r, Some(r.funcs[k]), r.funcs[k].body[s]) <==> NoBareRefs(r.funcs[k].body[s]))
      {
        ResolveFuncsFinal(im, ms, n, k);
        var mk := ResolveFuncs(im, ms, k).value;
        ResolveFuncsKeeps(im, ms, k, k);
        assert mk.funcs[k] == IndexedFunc(mdl.funcs[k], k);
        ProcessedFuncGenerable(mk, ms, k, r);
      }
      ModuleTextDefined(r, r, "");
    }
  }
}
