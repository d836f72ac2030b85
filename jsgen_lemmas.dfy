/**
 * What the text of `generateExpr` (wasm.js:359-415) is made of: which
 * nodes it writes without throwing, and that the brackets it writes around
 * them are balanced.
 */
module JsGenLemmas {
  import opened Ast
  import opened Brackets
  import opened JsGen
  import opened Semantic

  /**
   * The nodes `generateExpr` handles, with a value type on every node it
   * brackets, a local for every `getlocal` and a declaration for every
   * callee index.  Name references and the polymorphic `call` are not
   * among them.
   */
  predicate Generable(m: Module, fn: Option<Func>, e: Expr)
  {
    match e
    case ConstI32(_, _) => true
    case ConstF32(_, t) => t.Typed?
    case GetLocal(i, _) => fn.Some? && i < |fn.value.locals|
    case BinaryOp(l, _, r, t) => t.Typed? && Generable(m, fn, l) && Generable(m, fn, r)
    case CallExternal(f, args, t) =>
      t.Typed? && f < |m.externs| && forall i :: 0 <= i < |args| ==> Generable(m, fn, args[i])
    case CallDirect(f, args, t) =>
      t.Typed? && f < |m.funcs| && forall i :: 0 <= i < |args| ==> Generable(m, fn, args[i])
    case Return(x, _) => Generable(m, fn, x)
    case _ => false
  }

  /** `generateExpr` succeeds on a node exactly when the node is generable. */
  lemma {:induction false} ExprTextDefined(m: Module, fn: Option<Func>, e: Expr)
    ensures ExprText(m, fn, e).Ok? <==> Generable(m, fn, e)
    decreases Size(e), 1
  {
    match e
    case BinaryOp(l, op, r, t) =>
      ExprTextDefined(m, fn, l);
      ExprTextDefined(m, fn, r);
      var inner := OperandsText(m, fn, l, op, r);
      assert LeftOperandText(m, fn, l, op).Ok? <==> ExprText(m, fn, l).Ok?;
      assert inner.Ok? <==> ExprText(m, fn, l).Ok? && ExprText(m, fn, r).Ok?;
      assert ExprText(m, fn, e) == CoercedText(t, inner);
      assert CoercedText(t, inner).Ok? <==> Coercion(t).Ok? && inner.Ok?;
    case CallExternal(f, args, t) =>
      ArgsTextDefined(m, fn, args);
      assert ExprText(m, fn, e) == CoercedText(t, ApplyText(m, fn, ExternName(m, f), args));
    case CallDirect(f, args, t) =>
      ArgsTextDefined(m, fn, args);
      assert ExprText(m, fn, e) == CoercedText(t, ApplyText(m, fn, FuncName(m, f), args));
    case Return(x, _) =>
      ExprTextDefined(m, fn, x);
    case _ =>
  }

  /** The argument loop succeeds exactly when every argument is generable. */
  lemma {:induction false} ArgsTextDefined(m: Module, fn: Option<Func>, args: seq<Expr>)
    ensures ArgsText(m, fn, args).Ok? <==> forall i :: 0 <= i < |args| ==> Generable(m, fn, args[i])
    decreases SizeArgs(args), 2
  {
    if args != [] {
      var n := |args| - 1;
      ArgsTextDefined(m, fn, args[..n]);
      ExprTextDefined(m, fn, args[n]);
      assert forall i :: 0 <= i < n ==> args[..n][i] == args[i];
    }
  }

  /*
   * Parenthesis balance.  Literal values, operators and names are opaque
   * text; the balance holds when none of them holds a parenthesis.
   */

  /** No parenthesis in a piece of text the generator copies. */
  predicate Plain(s: string)
  {
    Free(s, '(', ')')
  }

  /** Every literal value and operator in the tree is plain. */
  predicate PlainNodes(e: Expr)
  {
    match e
    case ConstI32(v, _) => Plain(v)
    case ConstF32(v, _) => Plain(v)
    case BinaryOp(l, op, r, _) => Plain(op) && PlainNodes(l) && PlainNodes(r)
    case Call(callee, args) => PlainNodes(callee) && forall i :: 0 <= i < |args| ==> PlainNodes(args[i])
    case CallDirect(_, args, _) => forall i :: 0 <= i < |args| ==> PlainNodes(args[i])
    case CallExternal(_, args, _) => forall i :: 0 <= i < |args| ==> PlainNodes(args[i])
    case Return(x, _) => PlainNodes(x)
    case _ => true
  }

  /** Every extern, function and local name the generator can copy is plain. */
  predicate PlainNames(m: Module, fn: Option<Func>)
  {
    && (forall i :: 0 <= i < |m.externs| ==> Plain(m.externs[i].name))
    && (forall i :: 0 <= i < |m.funcs| ==> Plain(m.funcs[i].name))
    && (fn.Some? ==> forall i :: 0 <= i < |fn.value.locals| ==> Plain(fn.value.locals[i].name))
  }

  /** Parentheses never close more than they open, and `k` are open at the end. */
  predicate Open(s: string, k: int)
  {
    Net(s, '(', ')') == k && Dip(s, '(', ')') == 0
  }

  /** A balanced text keeps the depth reached before it. */
  lemma OpenExtend(a: string, b: string, k: int)
    requires k >= 0 && Open(a, k) && Balanced(b, '(', ')')
    ensures Open(a + b, k)
  {
    Concat(a, b, '(', ')');
  }

  /** An opening parenthesis goes one deeper. */
  lemma OpenPush(a: string, k: int)
    requires k >= 0 && Open(a, k)
    ensures Open(a + "(", k + 1)
  {
    Concat(a, "(", '(', ')');
    assert "("[1..] == [];
  }

  /** A closing parenthesis with one open goes back one. */
  lemma OpenPop(a: string, k: int)
    requires k >= 0 && Open(a, k + 1)
    ensures Open(a + ")", k)
  {
    Concat(a, ")", '(', ')');
    assert ")"[1..] == [];
  }

  /** A value between the brackets of its type stays balanced. */
  lemma CoercedBalanced(t: EType, s: string)
    requires Coercion(t).Ok? && Balanced(s, '(', ')')
    ensures Balanced(Coercion(t).value.0 + s + Coercion(t).value.1, '(', ')')
  {
    if t == Typed(I32) {
      I32Balanced(s);
    } else if t == Typed(F32) {
      F32Balanced(s);
    } else {
      assert Coercion(t).value.0 + s + Coercion(t).value.1 == s;
    }
  }

  /** The `i32` brackets `(` and `|0)` around a balanced text. */
  lemma I32Balanced(s: string)
    requires Balanced(s, '(', ')')
    ensures Balanced("(" + s + "|0)", '(', ')')
  {
    FreeBalanced("", '(', ')');
    OpenPush("", 0);
    assert "" + "(" == "(";
    OpenExtend("(", s, 1);
    assert Free("|0", '(', ')');
    FreeBalanced("|0", '(', ')');
    OpenExtend("(" + s, "|0", 1);
    OpenPop("(" + s + "|0", 0);
    assert "(" + s + "|0" + ")" == "(" + s + "|0)";
  }

  /** The `f32` brackets `Math.fround(` and `)` around a balanced text. */
  lemma F32Balanced(s: string)
    requires Balanced(s, '(', ')')
    ensures Balanced("Math.fround(" + s + ")", '(', ')')
  {
    assert Free("Math.fround", '(', ')');
    ApplyTextBalanced("Math.fround", s);
    assert "Math.fround" + "(" + s + ")" == "Math.fround(" + s + ")";
  }

  /** The text of an expression balances its parentheses. */
  lemma {:induction false} ExprTextBalanced(m: Module, fn: Option<Func>, e: Expr)
    requires PlainNames(m, fn) && PlainNodes(e) && ExprText(m, fn, e).Ok?
    ensures Balanced(ExprText(m, fn, e).value, '(', ')')
    decreases Size(e), 1
  {
    match e
    case ConstI32(v, _) =>
      FreeBalanced(v, '(', ')');
    case ConstF32(v, t) =>
      FreeBalanced(v, '(', ')');
      CoercedBalanced(t, v);
    case GetLocal(i, _) =>
      FreeBalanced(fn.value.locals[i].name, '(', ')');
    case BinaryOp(l, op, r, t) =>
      assert ExprText(m, fn, e) == CoercedText(t, OperandsText(m, fn, l, op, r));
      assert LeftOperandText(m, fn, l, op).Ok?;
      ExprTextBalanced(m, fn, l);
      ExprTextBalanced(m, fn, r);
      var lt, rt := ExprText(m, fn, l).value, ExprText(m, fn, r).value;
      FreeBalanced("", '(', ')');
      OpenPush("", 0);
      OpenExtend("" + "(", lt, 1);
      assert "" + "(" + lt == "(" + lt;
      FreeBalanced(" ", '(', ')');
      FreeBalanced(op, '(', ')');
      OpenExtend("(" + lt, " ", 1);
      OpenExtend("(" + lt + " ", op, 1);
      OpenExtend("(" + lt + " " + op, " ", 1);
      OpenExtend("(" + lt + " " + op + " ", rt, 1);
      OpenPop("(" + lt + " " + op + " " + rt, 0);
      CoercedBalanced(t, "(" + lt + " " + op + " " + rt + ")");
    case CallExternal(f, args, t) =>
      assert ExprText(m, fn, e) == CoercedText(t, ApplyText(m, fn, ExternName(m, f), args));
      ArgsTextBalanced(m, fn, args);
      ApplyTextBalanced(ExternName(m, f).value, ArgsText(m, fn, args).value);
      CoercedBalanced(t, ApplyText(m, fn, ExternName(m, f), args).value);
    case CallDirect(f, args, t) =>
      assert ExprText(m, fn, e) == CoercedText(t, ApplyText(m, fn, FuncName(m, f), args));
      ArgsTextBalanced(m, fn, args);
      ApplyTextBalanced(FuncName(m, f).value, ArgsText(m, fn, args).value);
      CoercedBalanced(t, ApplyText(m, fn, FuncName(m, f), args).value);
    case Return(x, _) =>
      ExprTextBalanced(m, fn, x);
      FreeBalanced("return ", '(', ')');
      BalancedConcat("return ", ExprText(m, fn, x).value, '(', ')');
  }

  /** A callee's name with balanced arguments in parentheses is balanced. */
  lemma ApplyTextBalanced(name: string, at: string)
    requires Plain(name) && Balanced(at, '(', ')')
    ensures Balanced(name + "(" + at + ")", '(', ')')
  {
    FreeBalanced(name, '(', ')');
    OpenPush(name, 0);
    OpenExtend(name + "(", at, 1);
    OpenPop(name + "(" + at, 0);
  }

  /** The argument list of a call balances its parentheses. */
  lemma {:induction false} ArgsTextBalanced(m: Module, fn: Option<Func>, args: seq<Expr>)
    requires PlainNames(m, fn) && forall i :: 0 <= i < |args| ==> PlainNodes(args[i])
    requires ArgsText(m, fn, args).Ok?
    ensures Balanced(ArgsText(m, fn, args).value, '(', ')')
    decreases SizeArgs(args), 2
  {
    if args != [] {
      var n := |args| - 1;
      assert forall i :: 0 <= i < n ==> args[..n][i] == args[i];
      ArgsTextBalanced(m, fn, args[..n]);
      ExprTextBalanced(m, fn, args[n]);
      var sep := if n == 0 then "" else ", ";
      FreeBalanced(sep, '(', ')');
      BalancedConcat(ArgsText(m, fn, args[..n]).value, sep, '(', ')');
      BalancedConcat(ArgsText(m, fn, args[..n]).value + sep, ExprText(m, fn, args[n]).value, '(', ')');
    }
  }

  /*
   * The zero-initialisation loop of `generateFunc` (wasm.js:449-452) names
   * the variable left over from the parameter loops, not the local of the
   * round.
   */

  /** `n` copies of a line. */
  function Repeat(line: string, n: nat): string
  {
    if n == 0 then "" else Repeat(line, n - 1) + line
  }

  /**
   * With parameters, every zero-initialisation line declares the local of
   * the last parameter again, whichever local the round is for.
   */
  lemma {:induction false} ZeroLinesRepeatLastParam(f: Func, margin: string, n: nat)
    requires 0 < |f.params| <= |f.locals|
    ensures ZeroLinesText(StaleLocal(f), n, margin) == Ok(Repeat(ZeroLine(f.locals[|f.params| - 1], margin), n))
    decreases n
  {
    if n > 0 {
      ZeroLinesRepeatLastParam(f, margin, n - 1);
    }
  }

  /** With nothing left in `lcl`, the first round throws. */
  lemma {:induction false} ZeroLinesUndefined(margin: string, n: nat)
    requires n > 0
    ensures ZeroLinesText(None, n, margin) == Err(UndefinedAccess)
    decreases n
  {
    if n > 1 {
      ZeroLinesUndefined(margin, n - 1);
    }
  }

  /** A function with locals but no parameters cannot be generated. */
  lemma LocalsWithoutParamsFail(m: Module, f: Func, margin: string)
    requires |f.params| == 0 < |f.locals|
    ensures FuncText(m, f, margin) == Err(UndefinedAccess)
  {
    ZeroLinesUndefined(margin + "  ", |f.locals|);
  }

  /*
   * When the generator accepts what the resolver produced.
   */

  /**
   * A resolved tree the generator can write: typed throughout (which
   * excludes bare function and extern references), well typed against a
   * module of the same shape, and with every local slot present in `fn`.
   */
  lemma {:induction false} GenerableOf(m0: Module, m: Module, fn: Option<Func>, e: Expr)
    requires |m0.funcs| == |m.funcs| && |m0.externs| == |m.externs| && fn.Some?
    requires Resolved(e) && NoBareRefs(e) && FullyTyped(e) && WellTyped(m0, e)
    requires LocalsBelow(e, |fn.value.locals|)
    ensures Generable(m, fn, e)
    decreases e
  {
    match e
    case BinaryOp(l, _, r, _) =>
      GenerableOf(m0, m, fn, l);
      GenerableOf(m0, m, fn, r);
    case CallDirect(_, args, _) =>
      forall i | 0 <= i < |args| ensures Generable(m, fn, args[i]) {
        GenerableOf(m0, m, fn, args[i]);
      }
    case CallExternal(_, args, _) =>
      forall i | 0 <= i < |args| ensures Generable(m, fn, args[i]) {
        GenerableOf(m0, m, fn, args[i]);
      }
    case Return(x, _) =>
      GenerableOf(m0, m, fn, x);
    case _ =>
  }

  /** A tree the generator can write holds no bare function or extern reference. */
  lemma {:induction false} GenerableNoBareRefs(m: Module, fn: Option<Func>, e: Expr)
    requires Generable(m, fn, e)
    ensures NoBareRefs(e)
    decreases e
  {
    match e
    case BinaryOp(l, _, r, _) =>
      GenerableNoBareRefs(m, fn, l);
      GenerableNoBareRefs(m, fn, r);
    case CallDirect(_, args, _) =>
      forall i | 0 <= i < |args| ensures NoBareRefs(args[i]) {
        GenerableNoBareRefs(m, fn, args[i]);
      }
    case CallExternal(_, args, _) =>
      forall i | 0 <= i < |args| ensures NoBareRefs(args[i]) {
        GenerableNoBareRefs(m, fn, args[i]);
      }
    case Return(x, _) =>
      GenerableNoBareRefs(m, fn, x);
    case _ =>
  }

  /** `generateBlock` succeeds exactly when every statement does. */
  lemma {:induction false} BlockTextDefined(m: Module, fn: Option<Func>, block: seq<Expr>, first: string, margin: string)
    ensures BlockText(m, fn, block, first, margin).Ok? <==>
              forall s :: 0 <= s < |block| ==> ExprText(m, fn, block[s]).Ok?
    decreases |block|
  {
    if block != [] {
      var n := |block| - 1;
      BlockTextDefined(m, fn, block[..n], first, margin);
      assert forall s :: 0 <= s < n ==> block[..n][s] == block[s];
    }
  }

  /** Parameter `j` sits in slot `j`, and there is a local for each parameter and no other. */
  predicate Slotted(f: Func)
  {
    |f.locals| == |f.params| && forall j :: 0 <= j < |f.params| ==> f.params[j].index == Some(j)
  }

  /** With every parameter in its own slot, the parameter list is written in full. */
  lemma {:induction false} ParamListDefined(f: Func, n: nat)
    requires n <= |f.params| && Slotted(f)
    ensures ParamListText(f, n).Ok?
  {
    if n > 0 {
      ParamListDefined(f, n - 1);
    }
  }

  /** With a local for each parameter, the re-coercion lines are written in full. */
  lemma {:induction false} CopyLinesDefined(f: Func, n: nat, margin: string)
    requires n <= |f.params| <= |f.locals|
    ensures CopyLinesText(f, n, margin).Ok?
  {
    if n > 0 {
      CopyLinesDefined(f, n - 1, margin);
    }
  }

  /**
   * A function whose parameters occupy exactly its locals is written in full
   * exactly when every statement of its body is generable.
   */
  lemma FuncTextDefined(m: Module, f: Func, margin: string)
    requires Slotted(f)
    ensures FuncText(m, f, margin).Ok? <==> forall s :: 0 <= s < |f.body| ==> Generable(m, Some(f), f.body[s])
  {
    var inner := margin + "  ";
    ParamListDefined(f, |f.params|);
    CopyLinesDefined(f, |f.params|, inner);
    assert ZeroCount(f) == 0;
    BlockTextDefined(m, Some(f), f.body, inner, inner);
    forall s | 0 <= s < |f.body| {
      ExprTextDefined(m, Some(f), f.body[s]);
    }
  }

  /** The function loop of `generateModule` succeeds exactly when every function does. */
  lemma {:induction false} FuncsTextDefined(m: Module, fs: seq<Func>, n: nat, margin: string)
    requires n <= |fs|
    ensures FuncsText(m, fs, n, margin).Ok? <==> forall k :: 0 <= k < n ==> FuncText(m, fs[k], margin).Ok?
    decreases n
  {
    if n > 0 {
      FuncsTextDefined(m, fs, n - 1, margin);
      FuncsTextStep(m, fs, n, margin);
    }
  }

  /** One more round of the function loop succeeds exactly when the earlier rounds and that function do. */
  lemma FuncsTextStep(m: Module, fs: seq<Func>, n: nat, margin: string)
    requires 0 < n <= |fs|
    ensures FuncsText(m, fs, n, margin).Ok? <==> FuncsText(m, fs, n - 1, margin).Ok? && FuncText(m, fs[n - 1], margin).Ok?
  {
  }

  /**
   * A module whose functions all have their parameters in their own slots
   * is written in full exactly when every statement of every function is
   * generable.
   */
  lemma ModuleTextDefined(m: Module, mdl: Module, margin: string)
    requires forall k :: 0 <= k < |mdl.funcs| ==> Slotted(mdl.funcs[k])
    ensures ModuleText(m, mdl, margin).Ok? <==>
              forall k, s :: 0 <= k < |mdl.funcs| && 0 <= s < |mdl.funcs[k].body| ==>
                Generable(m, Some(mdl.funcs[k]), mdl.funcs[k].body[s])
  {
    FuncsTextDefined(m, mdl.funcs, |mdl.funcs|, margin + "  ");
    forall k | 0 <= k < |mdl.funcs| {
      FuncTextDefined(m, mdl.funcs[k], margin + "  ");
    }
  }
}
