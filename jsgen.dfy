/**
 * The JavaScript back end, `JSGenerator` (wasm.js:323-486).
 *
 * The pure functions give the text each `generate…` method writes for a
 * node, a block, a function and a module.  The text starts with the first
 * `out` of the method: the caller's writer puts its pending margin in
 * front of it.  The class keeps the source's fields and loops and is proved
 * to write exactly that text, or to throw what the function says.
 */
module JsGen {
  import opened Ast
  import opened Writer

  /**
   * The brackets `beginTypeCoerce` and `endTypeCoerce` write around a value
   * of a type (wasm.js:328-356); anything else is thrown.
   */
  function Coercion(t: EType): Result<(string, string)>
  {
    match t
    case Typed(I32) => Ok(("(", "|0)"))
    case Typed(F32) => Ok(("Math.fround(", ")"))
    case Typed(Void) => Ok(("", ""))
    case _ => Err(BadCoercion(t))
  }

  /** The local a `getlocal` names, read from the function being generated (wasm.js:369-371). */
  function LocalAt(fn: Option<Func>, i: nat): Result<Local>
  {
    if fn.Some? && i < |fn.value.locals| then Ok(fn.value.locals[i]) else Err(UndefinedAccess)
  }

  /**
   * A text inside the coercion of a type: the coercion is checked first,
   * then the text, which may itself be what was thrown.
   */
  function CoercedText(t: EType, inner: Result<string>): Result<string>
  {
    match Coercion(t)
    case Err(x) => Err(x)
    case Ok((o, c)) =>
      match inner
      case Err(x) => Err(x)
      case Ok(text) => Ok(o + text + c)
  }

  /** The name of extern `i`, if there is one. */
  function ExternName(m: Module, i: nat): Option<string>
  {
    if i < |m.externs| then Some(m.externs[i].name) else None
  }

  /** The name of function `i`, if there is one. */
  function FuncName(m: Module, i: nat): Option<string>
  {
    if i < |m.funcs| then Some(m.funcs[i].name) else None
  }

  /*
   * `generateExpr` and the text of each of its cases.  The cases that hold
   * sub-expressions are functions of their own, so that each states one
   * bracketing step.
   */

  /** `generateExpr` (wasm.js:359-415): the text of one expression. */
  function ExprText(m: Module, fn: Option<Func>, e: Expr): Result<string>
    decreases Size(e), 3
  {
    match e
    case ConstI32(v, _) => Ok(v)
    case ConstF32(v, t) => CoercedText(t, Ok(v))
    case GetLocal(i, _) =>
      (match LocalAt(fn, i)
       case Err(x) => Err(x)
       case Ok(l) => Ok(l.name))
    case BinaryOp(l, op, r, t) => BinopText(m, fn, l, op, r, t)
    case CallExternal(f, args, t) => CallText(m, fn, ExternName(m, f), args, t)
    case CallDirect(f, args, t) => CallText(m, fn, FuncName(m, f), args, t)
    case Return(x, _) =>
      (match ExprText(m, fn, x)
       case Err(y) => Err(y)
       case Ok(xt) => Ok("return " + xt))
    case GetName(_) => Err(UnknownNode)
    case GetFunction(_) => Err(UnknownNode)
    case GetExtern(_) => Err(UnknownNode)
    case Call(_, _) => Err(UnknownNode)
  }

  /** The `binop` case (wasm.js:373-381): the parenthesized operands inside the coercion of its type. */
  function BinopText(m: Module, fn: Option<Func>, l: Expr, op: string, r: Expr, t: EType): Result<string>
    decreases 1 + Size(l) + Size(r), 2
  {
    CoercedText(t, OperandsText(m, fn, l, op, r))
  }

  /** The operands of a `binop` in parentheses (wasm.js:375-379). */
  function OperandsText(m: Module, fn: Option<Func>, l: Expr, op: string, r: Expr): Result<string>
    decreases Size(l) + Size(r), 2
  {
    match LeftOperandText(m, fn, l, op)
    case Err(x) => Err(x)
    case Ok(lt) =>
      match ExprText(m, fn, r)
      case Err(x) => Err(x)
      case Ok(rt) => Ok(lt + rt + ")")
  }

  /** The opening parenthesis, the left operand and the operator of a `binop` (wasm.js:375-377). */
  function LeftOperandText(m: Module, fn: Option<Func>, l: Expr, op: string): Result<string>
    decreases Size(l), 4
  {
    match ExprText(m, fn, l)
    case Err(x) => Err(x)
    case Ok(lt) => Ok("(" + lt + " " + op + " ")
  }

  /**
   * The `callexternal` and `calldirect` cases (wasm.js:382-407): the call
   * inside the coercion of its type.  The coercion is checked first.
   */
  function CallText(m: Module, fn: Option<Func>, callee: Option<string>, args: seq<Expr>, t: EType): Result<string>
    decreases SizeArgs(args) + 1, 2
  {
    CoercedText(t, ApplyText(m, fn, callee, args))
  }

  /** A call's name and arguments (wasm.js:384-392, 397-405); a missing callee reads `undefined`. */
  function ApplyText(m: Module, fn: Option<Func>, callee: Option<string>, args: seq<Expr>): Result<string>
    decreases SizeArgs(args), 5
  {
    match callee
    case None => Err(UndefinedAccess)
    case Some(name) =>
      match ArgsText(m, fn, args)
      case Err(x) => Err(x)
      case Ok(at) => Ok(name + "(" + at + ")")
  }

  /** The argument loop of both call kinds (wasm.js:386-391, 399-404): arguments separated by ", ". */
  function ArgsText(m: Module, fn: Option<Func>, args: seq<Expr>): Result<string>
    decreases SizeArgs(args), 4
  {
    if args == [] then Ok("")
    else
      var n := |args| - 1;
      match ArgsText(m, fn, args[..n])
      case Err(x) => Err(x)
      case Ok(done) =>
        match ExprText(m, fn, args[n])
        case Err(x) => Err(x)
        case Ok(a) => Ok(done + (if n == 0 then "" else ", ") + a)
  }

  /** One statement of a block (wasm.js:420-421): the expression, then ";" and the end of the line. */
  function StatementText(m: Module, fn: Option<Func>, e: Expr): Result<string>
  {
    match ExprText(m, fn, e)
    case Err(x) => Err(x)
    case Ok(s) => Ok(s + ";" + "\n")
  }

  /**
   * `generateBlock` (wasm.js:418-423): each statement on a line of its own.
   * The first line starts with `first`, what the writer has pending; the
   * others with the margin.
   */
  function BlockText(m: Module, fn: Option<Func>, block: seq<Expr>, first: string, margin: string): Result<string>
  {
    if block == [] then Ok("")
    else
      var n := |block| - 1;
      match BlockText(m, fn, block[..n], first, margin)
      case Err(x) => Err(x)
      case Ok(done) =>
        match StatementText(m, fn, block[n])
        case Err(x) => Err(x)
        case Ok(st) => Ok(done + (if n == 0 then first else margin) + st)
  }

  /**
   * The name parameter `i` has in the signature: that of the local in the
   * parameter's slot (wasm.js:430).  A parameter without a slot, or a slot
   * with no local, reads `undefined`.
   */
  function ParamName(f: Func, i: nat): Result<string>
    requires i < |f.params|
  {
    match f.params[i].index
    case None => Err(UndefinedAccess)
    case Some(k) => if k < |f.locals| then Ok(f.locals[k].name) else Err(UndefinedAccess)
  }

  /** The first `n` names of the parameter list (wasm.js:429-435), separated by ", ". */
  function ParamListText(f: Func, n: nat): Result<string>
    requires n <= |f.params|
  {
    if n == 0 then Ok("")
    else
      match ParamListText(f, n - 1)
      case Err(x) => Err(x)
      case Ok(done) =>
        match ParamName(f, n - 1)
        case Err(x) => Err(x)
        case Ok(p) => Ok(done + (if n == 1 then "" else ", ") + p)
  }

  /** The signature line of `generateFunc` (wasm.js:428-436). */
  function SignatureText(f: Func): Result<string>
  {
    match ParamListText(f, |f.params|)
    case Err(x) => Err(x)
    case Ok(ps) => Ok("function " + f.name + "(" + ps + ") {" + "\n")
  }

  /** The line that re-coerces a parameter on entry (wasm.js:441-446), by the local's type. */
  function CopyLine(l: Local, margin: string): string
  {
    var brackets := Coercion(Typed(l.ltype)).value;
    margin + l.name + " = " + brackets.0 + l.name + brackets.1 + ";" + "\n"
  }

  /**
   * The first `n` re-coercion lines (wasm.js:440-447): parameter `i` is
   * taken to be local `i`, and a missing local reads `undefined`.
   */
  function CopyLinesText(f: Func, n: nat, margin: string): Result<string>
    requires n <= |f.params|
  {
    if n == 0 then Ok("")
    else
      match CopyLinesText(f, n - 1, margin)
      case Err(x) => Err(x)
      case Ok(done) =>
        if n - 1 < |f.locals| then Ok(done + CopyLine(f.locals[n - 1], margin)) else Err(UndefinedAccess)
  }

  /**
   * What `lcl` holds once both parameter loops have run: the local in the
   * last parameter's slot, and `undefined` when there are no parameters.
   */
  function StaleLocal(f: Func): Option<Local>
  {
    if 0 < |f.params| <= |f.locals| then Some(f.locals[|f.params| - 1]) else None
  }

  /** How many times the zero-initialisation loop runs (wasm.js:449). */
  function ZeroCount(f: Func): nat
  {
    if |f.params| < |f.locals| then |f.locals| - |f.params| else 0
  }

  /** One zero-initialisation line (wasm.js:450), naming the local `lcl` holds. */
  function ZeroLine(l: Local, margin: string): string
  {
    margin + "var " + l.name + " = 0;" + "\n"
  }

  /**
   * The first `n` rounds of the zero-initialisation loop (wasm.js:449-452).
   * Every round names `lcl`, left over from the loop before, and not the
   * local of the round; with nothing in `lcl` the first round throws.
   */
  function ZeroLinesText(lcl: Option<Local>, n: nat, margin: string): Result<string>
  {
    if n == 0 then Ok("")
    else
      match ZeroLinesText(lcl, n - 1, margin)
      case Err(x) => Err(x)
      case Ok(done) =>
        match lcl
        case None => Err(UndefinedAccess)
        case Some(l) => Ok(done + ZeroLine(l, margin))
  }

  /**
   * `generateFunc` (wasm.js:425-457) at margin `margin`: the signature, then
   * one margin deeper the re-coercion lines, the zero-initialisation lines
   * and the body, then the closing brace at the margin again.
   */
  function FuncText(m: Module, f: Func, margin: string): Result<string>
  {
    var inner := margin + "  ";
    match SignatureText(f)
    case Err(x) => Err(x)
    case Ok(sig) =>
      match CopyLinesText(f, |f.params|, inner)
      case Err(x) => Err(x)
      case Ok(cs) =>
        match ZeroLinesText(StaleLocal(f), ZeroCount(f), inner)
        case Err(x) => Err(x)
        case Ok(zs) =>
          match BlockText(m, Some(f), f.body, inner, inner)
          case Err(x) => Err(x)
          case Ok(bs) => Ok(sig + cs + zs + bs + margin + "}" + "\n")
  }

  /** The alias line of an extern (wasm.js:462-463). */
  function ExternLine(x: Extern, margin: string): string
  {
    margin + "var " + x.name + " = imports." + x.name + ";" + "\n"
  }

  /** The alias lines of the first `n` externs (wasm.js:461-464). */
  function ExternLinesText(xs: seq<Extern>, n: nat, margin: string): string
    requires n <= |xs|
  {
    if n == 0 then "" else ExternLinesText(xs, n - 1, margin) + ExternLine(xs[n - 1], margin)
  }

  /** The first `n` functions (wasm.js:466-468), each starting on a line of its own. */
  function FuncsText(m: Module, fs: seq<Func>, n: nat, margin: string): Result<string>
    requires n <= |fs|
  {
    if n == 0 then Ok("")
    else
      match FuncsText(m, fs, n - 1, margin)
      case Err(x) => Err(x)
      case Ok(done) =>
        match FuncText(m, fs[n - 1], margin)
        case Err(x) => Err(x)
        case Ok(ft) => Ok(done + margin + ft)
  }

  /** The entry of the exports object for a function, only when it is exported (wasm.js:471-473). */
  function ExportLine(f: Func, margin: string): string
  {
    if f.exportFunc then margin + f.name + ": " + f.name + "," + "\n" else ""
  }

  /** The export entries of the first `n` functions (wasm.js:470-474). */
  function ExportsText(fs: seq<Func>, n: nat, margin: string): string
    requires n <= |fs|
  {
    if n == 0 then "" else ExportsText(fs, n - 1, margin) + ExportLine(fs[n - 1], margin)
  }

  /**
   * `generateModule` (wasm.js:459-477) at margin `margin`: a function of
   * `imports` holding the extern aliases and the functions, returning the
   * exports object; the closing parenthesis leaves the line open.
   */
  function ModuleText(m: Module, mdl: Module, margin: string): Result<string>
  {
    var inner := margin + "  ";
    match FuncsText(m, mdl.funcs, |mdl.funcs|, inner)
    case Err(x) => Err(x)
    case Ok(fs) =>
      Ok("(function(imports) {" + "\n" + ExternLinesText(mdl.externs, |mdl.externs|, inner) + fs +
         ModuleTailText(mdl.funcs, margin))
  }

  /**
   * The end of `generateModule` (wasm.js:469-476): the exports object one
   * margin deeper than `margin`, then the closing parenthesis at `margin`.
   */
  function ModuleTailText(fs: seq<Func>, margin: string): string
  {
    var inner := margin + "  ";
    inner + "return {" + "\n" + ExportsText(fs, |fs|, inner + "  ") + inner + "};" + "\n" + margin + "})"
  }

  /** What a generation method that wrote `text` and ended with `o` has produced. */
  function Written(o: Outcome, text: string): Result<string>
  {
    if o.Pass? then Ok(text) else Err(o.error)
  }

  class JSGenerator {
    const m: Module
    const writer: CodeWriter
    /** The function being generated; JS `undefined` until `generateFunc` sets it. */
    var func: Option<Func>

    /** `new JSGenerator(m)` (wasm.js:323-326): a fresh writer. */
    constructor (m: Module)
      ensures this.m == m && func == None
      ensures fresh(writer) && writer.output == "" && writer.margin == "" && writer.margins == [] && !writer.dirty
    {
      this.m := m;
      writer := new CodeWriter();
      func := None;
    }

    /*
     * The methods below take a ghost `base`: what the output reads once the
     * writer's pending margin is written, that is the output itself when the
     * line is already open.  What a method writes is stated as the text that
     * follows `base`.
     */

    /**
     * `beginTypeCoerce` (wasm.js:328-341): the opening bracket for the type,
     * written only when it is not empty; on anything but a value type the
     * type is thrown before anything is written.
     */
    method BeginTypeCoerce(t: EType, ghost base: string) returns (o: Outcome)
      requires writer.dirty ==> base == writer.output
      requires !writer.dirty ==> base == writer.output + writer.margin
      modifies writer
      ensures o == OutcomeOf(Coercion(t))
      ensures writer.margin == old(writer.margin) && writer.margins == old(writer.margins)
      ensures o.Fail? || Coercion(t).value.0 == "" ==>
                writer.output == old(writer.output) && writer.dirty == old(writer.dirty)
      ensures o.Pass? && Coercion(t).value.0 != "" ==> writer.output == base + Coercion(t).value.0 && writer.dirty
    {
      match t {
        case Typed(I32) => writer.Out("(");
        case Typed(F32) => writer.Out("Math.fround(");
        case Typed(Void) =>
        case _ => return Fail(BadCoercion(t));
      }
      o := Pass;
    }

    /** `endTypeCoerce` (wasm.js:343-356): the closing bracket for the type. */
    method EndTypeCoerce(t: EType, ghost base: string) returns (o: Outcome)
      requires writer.dirty ==> base == writer.output
      requires !writer.dirty ==> base == writer.output + writer.margin
      modifies writer
      ensures o == OutcomeOf(Coercion(t))
      ensures writer.margin == old(writer.margin) && writer.margins == old(writer.margins)
      ensures o.Fail? || Coercion(t).value.1 == "" ==>
                writer.output == old(writer.output) && writer.dirty == old(writer.dirty)
      ensures o.Pass? && Coercion(t).value.1 != "" ==> writer.output == base + Coercion(t).value.1 && writer.dirty
    {
      match t {
        case Typed(I32) => writer.Out("|0)");
        case Typed(F32) => writer.Out(")");
        case Typed(Void) =>
        case _ => return Fail(BadCoercion(t));
      }
      o := Pass;
    }

    /**
     * `generateExpr` (wasm.js:359-415): writes the expression's text, or
     * throws what `ExprText` gives.  Every expression writes something, so
     * the line is left open.  The cases with brackets are written out in the
     * methods below; `text` names what was written and `fn` is the function
     * being generated.
     */
    method GenerateExpr(ghost fn: Option<Func>, e: Expr, ghost base: string) returns (o: Outcome, ghost text: string)
      requires fn == func
      requires writer.dirty ==> base == writer.output
      requires !writer.dirty ==> base == writer.output + writer.margin
      modifies writer
      ensures Written(o, text) == ExprText(m, fn, e)
      ensures o.Pass? ==> writer.output == base + text && writer.dirty
      ensures writer.margin == old(writer.margin) && writer.margins == old(writer.margins)
      decreases e, 3
    {
      text := "";
      match e {
        case ConstI32(v, _) =>
          writer.Out(v);
          o, text := Pass, v;
        case ConstF32(v, t) =>
          o, text := GenerateCoerced(fn, v, t, base);
        case GetLocal(i, _) =>
          var lcl := LocalAt(func, i);
          if lcl.Err? {
            return Fail(lcl.error), text;
          }
          writer.Out(lcl.value.name);
          o, text := Pass, lcl.value.name;
        case BinaryOp(l, op, r, t) =>
          o, text := GenerateBinop(fn, l, op, r, t, base, e);
        case CallExternal(f, args, t) =>
          o, text := GenerateCall(fn, ExternName(m, f), args, t, base, e);
        case CallDirect(f, args, t) =>
          o, text := GenerateCall(fn, FuncName(m, f), args, t, base, e);
        case Return(x, _) =>
          writer.Out("return ");
          ghost var xt;
          o, xt := GenerateExpr(fn, x, writer.output);
          Append3(base, "return ", xt);
          text := "return " + xt;
        case GetName(_) =>
          o := Fail(UnknownNode);
        case GetFunction(_) =>
          o := Fail(UnknownNode);
        case GetExtern(_) =>
          o := Fail(UnknownNode);
        case Call(_, _) =>
          o := Fail(UnknownNode);
      }
    }

    /** The `const_f32` case (wasm.js:364-368): the literal inside the coercion of its type. */
    method GenerateCoerced(ghost fn: Option<Func>, v: string, t: EType, ghost base: string) returns (o: Outcome, ghost text: string)
      requires fn == func
      requires writer.dirty ==> base == writer.output
      requires !writer.dirty ==> base == writer.output + writer.margin
      modifies writer
      ensures Written(o, text) == CoercedText(t, Ok(v))
      ensures o.Pass? ==> writer.output == base + text && writer.dirty
      ensures writer.margin == old(writer.margin) && writer.margins == old(writer.margins)
    {
      text := "";
      o := BeginTypeCoerce(t, base);
      if o.Fail? {
        return;
      }
      ghost var open := Coercion(t).value.0;
      writer.Out(v);
      Append3(base, open, v);
      text := open + v;
      o := EndTypeCoerce(t, writer.output);
      ghost var close := Coercion(t).value.1;
      Append3(base, text, close);
      text := text + close;
    }

    /** The `binop` case (wasm.js:373-381): the parenthesized operands inside the coercion of its type. */
    method GenerateBinop(ghost fn: Option<Func>, l: Expr, op: string, r: Expr, t: EType, ghost base: string, ghost node: Expr)
      returns (o: Outcome, ghost text: string)
      requires node == BinaryOp(l, op, r, t)
      requires fn == func
      requires writer.dirty ==> base == writer.output
      requires !writer.dirty ==> base == writer.output + writer.margin
      modifies writer
      ensures Written(o, text) == BinopText(m, fn, l, op, r, t)
      ensures o.Pass? ==> writer.output == base + text && writer.dirty
      ensures writer.margin == old(writer.margin) && writer.margins == old(writer.margins)
      decreases node, 2
    {
      text := "";
      o := BeginTypeCoerce(t, base);
      if o.Fail? {
        return;
      }
      ghost var open := Coercion(t).value.0;
      ghost var piece;
      o, piece := GenerateOperands(fn, l, op, r, base + open, node);
      if o.Fail? {
        return;
      }
      Append3(base, open, piece);
      text := open + piece;
      o := EndTypeCoerce(t, writer.output);
      ghost var close := Coercion(t).value.1;
      Append3(base, text, close);
      text := text + close;
    }

    /** The operands of a `binop` in parentheses (wasm.js:375-379). */
    method GenerateOperands(ghost fn: Option<Func>, l: Expr, op: string, r: Expr, ghost base: string, ghost node: Expr)
      returns (o: Outcome, ghost text: string)
      requires node.BinaryOp? && node.left == l && node.op == op && node.right == r
      requires fn == func
      requires writer.dirty ==> base == writer.output
      requires !writer.dirty ==> base == writer.output + writer.margin
      modifies writer
      ensures Written(o, text) == OperandsText(m, fn, l, op, r)
      ensures o.Pass? ==> writer.output == base + text && writer.dirty
      ensures writer.margin == old(writer.margin) && writer.margins == old(writer.margins)
      decreases node, 1
    {
      o, text := GenerateLeftOperand(fn, l, op, base, node);
      if o.Fail? {
        return;
      }
      ghost var piece;
      o, piece := GenerateExpr(fn, r, writer.output);
      if o.Fail? {
        return;
      }
      Append3(base, text, piece);
      text := text + piece;
      writer.Out(")");
      Append3(base, text, ")");
      text := text + ")";
    }

    /** The opening parenthesis, the left operand and the operator of a `binop` (wasm.js:375-377). */
    method GenerateLeftOperand(ghost fn: Option<Func>, l: Expr, op: string, ghost base: string, ghost node: Expr)
      returns (o: Outcome, ghost text: string)
      requires node.BinaryOp? && node.left == l
      requires fn == func
      requires writer.dirty ==> base == writer.output
      requires !writer.dirty ==> base == writer.output + writer.margin
      modifies writer
      ensures Written(o, text) == LeftOperandText(m, fn, l, op)
      ensures o.Pass? ==> writer.output == base + text && writer.dirty
      ensures writer.margin == old(writer.margin) && writer.margins == old(writer.margins)
      decreases node, 0
    {
      writer.Out("(");
      text := "(";
      ghost var piece;
      o, piece := GenerateExpr(fn, l, writer.output);
      if o.Fail? {
        return;
      }
      Append3(base, text, piece);
      text := text + piece;
      writer.Out(" ");
      Append3(base, text, " ");
      text := text + " ";
      writer.Out(op);
      Append3(base, text, op);
      text := text + op;
      writer.Out(" ");
      Append3(base, text, " ");
      text := text + " ";
    }

    /**
     * The `callexternal` and `calldirect` cases (wasm.js:382-407): the
     * callee's name and the arguments in parentheses, inside the coercion of
     * the call's type.  A callee index with no declaration reads `undefined`.
     */
    method GenerateCall(ghost fn: Option<Func>, callee: Option<string>, args: seq<Expr>, t: EType, ghost base: string, ghost node: Expr)
      returns (o: Outcome, ghost text: string)
      requires (node.CallDirect? || node.CallExternal?) && node.args == args
      requires fn == func
      requires writer.dirty ==> base == writer.output
      requires !writer.dirty ==> base == writer.output + writer.margin
      modifies writer
      ensures Written(o, text) == CallText(m, fn, callee, args, t)
      ensures o.Pass? ==> writer.output == base + text && writer.dirty
      ensures writer.margin == old(writer.margin) && writer.margins == old(writer.margins)
      decreases node, 2
    {
      text := "";
      o := BeginTypeCoerce(t, base);
      if o.Fail? {
        return;
      }
      if callee.None? {
        return Fail(UndefinedAccess), text;
      }
      ghost var open := Coercion(t).value.0;
      ghost var piece;
      o, piece := GenerateApply(fn, callee.value, args, base + open, node);
      if o.Fail? {
        return;
      }
      Append3(base, open, piece);
      text := open + piece;
      o := EndTypeCoerce(t, writer.output);
      ghost var close := Coercion(t).value.1;
      Append3(base, text, close);
      text := text + close;
    }

    /** A callee's name and its arguments in parentheses (wasm.js:384-392, 397-405). */
    method GenerateApply(ghost fn: Option<Func>, name: string, args: seq<Expr>, ghost base: string, ghost node: Expr)
      returns (o: Outcome, ghost text: string)
      requires (node.CallDirect? || node.CallExternal?) && node.args == args
      requires fn == func
      requires writer.dirty ==> base == writer.output
      requires !writer.dirty ==> base == writer.output + writer.margin
      modifies writer
      ensures Written(o, text) == ApplyText(m, fn, Some(name), args)
      ensures o.Pass? ==> writer.output == base + text && writer.dirty
      ensures writer.margin == old(writer.margin) && writer.margins == old(writer.margins)
      decreases node, 1
    {
      writer.Out(name);
      text := name;
      writer.Out("(");
      Append3(base, text, "(");
      text := text + "(";
      ghost var piece;
      o, piece := GenerateArgs(fn, args, node);
      if o.Fail? {
        return;
      }
      Append3(base, text, piece);
      text := text + piece;
      writer.Out(")");
      Append3(base, text, ")");
      text := text + ")";
    }

    /**
     * The argument loop of both call kinds (wasm.js:386-391, 399-404), on a
     * line already open.
     */
    method GenerateArgs(ghost fn: Option<Func>, args: seq<Expr>, ghost node: Expr) returns (o: Outcome, ghost text: string)
      requires (node.CallDirect? || node.CallExternal?) && node.args == args
      requires fn == func
      requires writer.dirty
      modifies writer
      ensures Written(o, text) == ArgsText(m, fn, args)
      ensures o.Pass? ==> writer.output == old(writer.output) + text && writer.dirty
      ensures writer.margin == old(writer.margin) && writer.margins == old(writer.margins)
      decreases node, 0
    {
      text := "";
      var i := 0;
      while i < |args|
        invariant 0 <= i <= |args|
        invariant ArgsText(m, fn, args[..i]) == Ok(text)
        invariant writer.output == old(writer.output) + text
        invariant writer.dirty
        invariant writer.margin == old(writer.margin) && writer.margins == old(writer.margins)
      {
        ghost var before, sep := writer.output, "";
        if i != 0 {
          writer.Out(", ");
          sep := ", ";
        }
        assert writer.output == before + sep;
        var a, at := GenerateExpr(fn, args[i], writer.output);
        if a.Fail? {
          ArgsTextFails(m, fn, args, i);
          return a, text;
        }
        ArgsTextNext(m, fn, args, i);
        Append3(before, sep, at);
        Append3(old(writer.output), text, sep + at);
        text := text + (sep + at);
        i := i + 1;
      }
      assert args[..i] == args;
      o := Pass;
    }

    /** One statement of a block (wasm.js:420-421); the line is closed afterwards. */
    method GenerateStatement(ghost fn: Option<Func>, e: Expr, ghost base: string) returns (o: Outcome, ghost text: string)
      requires fn == func
      requires writer.dirty ==> base == writer.output
      requires !writer.dirty ==> base == writer.output + writer.margin
      modifies writer
      ensures Written(o, text) == StatementText(m, fn, e)
      ensures o.Pass? ==> writer.output == base + text && !writer.dirty
      ensures writer.margin == old(writer.margin) && writer.margins == old(writer.margins)
    {
      o, text := GenerateExpr(fn, e, base);
      if o.Fail? {
        return;
      }
      writer.Out(";");
      Append3(base, text, ";");
      text := text + ";";
      writer.Eol();
      Append3(base, text, "\n");
      text := text + "\n";
    }

    /**
     * `generateBlock` (wasm.js:418-423): the statements in order, each
     * closing its line.  `first` is what the writer has pending.
     */
    method GenerateBlock(ghost fn: Option<Func>, block: seq<Expr>, ghost first: string) returns (o: Outcome, ghost text: string)
      requires fn == func
      requires writer.dirty ==> first == ""
      requires !writer.dirty ==> first == writer.margin
      modifies writer
      ensures Written(o, text) == BlockText(m, fn, block, first, writer.margin)
      ensures o.Pass? ==> writer.output == old(writer.output) + text
      ensures o.Pass? ==> writer.dirty == (old(writer.dirty) && block == [])
      ensures writer.margin == old(writer.margin) && writer.margins == old(writer.margins)
    {
      text := "";
      var i := 0;
      while i < |block|
        invariant 0 <= i <= |block|
        invariant BlockText(m, fn, block[..i], first, writer.margin) == Ok(text)
        invariant writer.output == old(writer.output) + text
        invariant writer.dirty == (old(writer.dirty) && i == 0)
        invariant writer.margin == old(writer.margin) && writer.margins == old(writer.margins)
      {
        ghost var before, lead := writer.output, writer.margin;
        if i == 0 {
          lead := first;
        }
        var s, st := GenerateStatement(fn, block[i], before + lead);
        if s.Fail? {
          BlockTextFails(m, fn, block, first, writer.margin, i);
          return s, text;
        }
        BlockTextNext(m, fn, block, first, writer.margin, i);
        Append3(old(writer.output), text, lead);
        Append3(old(writer.output), text + lead, st);
        text := text + lead + st;
        i := i + 1;
      }
      assert block[..i] == block;
      o := Pass;
    }

    /**
     * The signature of `generateFunc` (wasm.js:428-436), ending its line.
     * `lcl` is the variable the parameter loop leaves behind.
     */
    method GenerateSignature(f: Func, ghost base: string) returns (o: Outcome, ghost text: string, lcl: Option<Local>)
      requires writer.dirty ==> base == writer.output
      requires !writer.dirty ==> base == writer.output + writer.margin
      modifies writer
      ensures Written(o, text) == SignatureText(f)
      ensures o.Pass? ==> writer.output == base + text && !writer.dirty
      ensures |f.params| == 0 ==> lcl == None
      ensures writer.margin == old(writer.margin) && writer.margins == old(writer.margins)
    {
      writer.Out("function ");
      text := "function ";
      writer.Out(f.name);
      Append3(base, text, f.name);
      text := text + f.name;
      writer.Out("(");
      Append3(base, text, "(");
      text := text + "(";
      ghost var ps;
      o, ps, lcl := GenerateParamList(f);
      if o.Fail? {
        return;
      }
      Append3(base, text, ps);
      text := text + ps;
      writer.Out(") {");
      Append3(base, text, ") {");
      text := text + ") {";
      writer.Eol();
      Append3(base, text, "\n");
      text := text + "\n";
    }

    /** The parameter list loop (wasm.js:429-435), on a line already open. */
    method GenerateParamList(f: Func) returns (o: Outcome, ghost text: string, lcl: Option<Local>)
      requires writer.dirty
      modifies writer
      ensures Written(o, text) == ParamListText(f, |f.params|)
      ensures o.Pass? ==> writer.output == old(writer.output) + text && writer.dirty
      ensures |f.params| == 0 ==> lcl == None
      ensures writer.margin == old(writer.margin) && writer.margins == old(writer.margins)
    {
      text, lcl := "", None;
      var i := 0;
      while i < |f.params|
        invariant 0 <= i <= |f.params|
        invariant ParamListText(f, i) == Ok(text)
        invariant writer.output == old(writer.output) + text && writer.dirty
        invariant |f.params| == 0 ==> lcl == None
        invariant writer.margin == old(writer.margin) && writer.margins == old(writer.margins)
      {
        var k := f.params[i].index;
        if k.None? || k.value >= |f.locals| {
          ParamListFailureSticks(f, i + 1, |f.params|);
          return Fail(UndefinedAccess), text, lcl;
        }
        lcl := Some(f.locals[k.value]);
        ghost var before, sep := writer.output, "";
        if i != 0 {
          writer.Out(", ");
          sep := ", ";
        }
        assert writer.output == before + sep;
        writer.Out(lcl.value.name);
        Append3(before, sep, lcl.value.name);
        Append3(old(writer.output), text, sep + lcl.value.name);
        Append3(text, sep, lcl.value.name);
        text := text + (sep + lcl.value.name);
        i := i + 1;
      }
      o := Pass;
    }

    /** One re-coercion line (wasm.js:441-446), from the start of a line. */
    method GenerateCopyLine(l: Local) returns (ghost text: string)
      requires !writer.dirty
      modifies writer
      ensures text == CopyLine(l, writer.margin)
      ensures writer.output == old(writer.output) + text && !writer.dirty
      ensures writer.margin == old(writer.margin) && writer.margins == old(writer.margins)
    {
      ghost var base := writer.output;
      writer.Out(l.name);
      text := writer.margin + l.name;
      Append3(base, writer.margin, l.name);
      writer.Out(" = ");
      Append3(base, text, " = ");
      text := text + " = ";
      ghost var brackets := Coercion(Typed(l.ltype)).value;
      var _ := BeginTypeCoerce(Typed(l.ltype), writer.output);
      Append3(base, text, brackets.0);
      text := text + brackets.0;
      assert writer.output == base + text && writer.dirty;
      writer.Out(l.name);
      Append3(base, text, l.name);
      text := text + l.name;
      var _ := EndTypeCoerce(Typed(l.ltype), writer.output);
      Append3(base, text, brackets.1);
      text := text + brackets.1;
      assert writer.output == base + text;
      writer.Out(";");
      Append3(base, text, ";");
      text := text + ";";
      writer.Eol();
      Append3(base, text, "\n");
      text := text + "\n";
    }

    /**
     * The re-coercion loop (wasm.js:440-447), from the start of a line.
     * `lcl` comes in from the loop before and is left holding the last
     * local read.
     */
    method GenerateParamCopies(f: Func, lcl0: Option<Local>) returns (o: Outcome, ghost text: string, lcl: Option<Local>)
      requires !writer.dirty
      modifies writer
      ensures Written(o, text) == CopyLinesText(f, |f.params|, writer.margin)
      ensures o.Pass? ==> writer.output == old(writer.output) + text && !writer.dirty
      ensures o.Pass? ==> |f.params| <= |f.locals|
      ensures |f.params| == 0 ==> lcl == lcl0
      ensures 0 < |f.params| && o.Pass? ==> lcl == StaleLocal(f)
      ensures writer.margin == old(writer.margin) && writer.margins == old(writer.margins)
    {
      text, lcl := "", lcl0;
      var i := 0;
      while i < |f.params|
        invariant 0 <= i <= |f.params| && i <= |f.locals|
        invariant CopyLinesText(f, i, writer.margin) == Ok(text)
        invariant writer.output == old(writer.output) + text && !writer.dirty
        invariant 0 < i ==> lcl == Some(f.locals[i - 1])
        invariant |f.params| == 0 ==> lcl == lcl0
        invariant writer.margin == old(writer.margin) && writer.margins == old(writer.margins)
      {
        if i >= |f.locals| {
          CopyLinesFailureSticks(f, writer.margin, i + 1, |f.params|);
          return Fail(UndefinedAccess), text, lcl;
        }
        lcl := Some(f.locals[i]);
        ghost var line := GenerateCopyLine(lcl.value);
        Append3(old(writer.output), text, line);
        text := text + line;
        i := i + 1;
      }
      o := Pass;
    }

    /**
     * The zero-initialisation loop (wasm.js:449-452), from the start of a
     * line: one line per local after the parameters, each naming `lcl`.
     */
    method GenerateZeroInits(f: Func, lcl: Option<Local>) returns (o: Outcome, ghost text: string)
      requires !writer.dirty
      modifies writer
      ensures Written(o, text) == ZeroLinesText(lcl, ZeroCount(f), writer.margin)
      ensures o.Pass? ==> writer.output == old(writer.output) + text && !writer.dirty
      ensures writer.margin == old(writer.margin) && writer.margins == old(writer.margins)
    {
      text := "";
      var i := |f.params|;
      while i < |f.locals|
        invariant |f.params| <= i && (i <= |f.locals| || i == |f.params|)
        invariant ZeroLinesText(lcl, i - |f.params|, writer.margin) == Ok(text)
        invariant writer.output == old(writer.output) + text && !writer.dirty
        invariant writer.margin == old(writer.margin) && writer.margins == old(writer.margins)
      {
        if lcl.None? {
          ZeroLinesFailureSticks(lcl, writer.margin, i - |f.params| + 1, ZeroCount(f));
          return Fail(UndefinedAccess), text;
        }
        ghost var base := writer.output;
        writer.Out("var ");
        Append3(base, writer.margin, "var ");
        ghost var line := writer.margin + "var ";
        writer.Out(lcl.value.name);
        Append3(base, line, lcl.value.name);
        line := line + lcl.value.name;
        writer.Out(" = 0;");
        Append3(base, line, " = 0;");
        line := line + " = 0;";
        writer.Eol();
        Append3(base, line, "\n");
        line := line + "\n";
        Append3(old(writer.output), text, line);
        text := text + line;
        i := i + 1;
      }
      o := Pass;
    }

    /**
     * `generateFunc` (wasm.js:425-457): makes `f` the function being
     * generated, then writes the signature, the parameter and local lines
     * and the body one margin deeper, and the closing brace.
     */
    method GenerateFunc(f: Func, ghost base: string) returns (o: Outcome, ghost text: string)
      requires writer.dirty ==> base == writer.output
      requires !writer.dirty ==> base == writer.output + writer.margin
      modifies this, writer
      ensures func == Some(f)
      ensures Written(o, text) == FuncText(m, f, old(writer.margin))
      ensures old(writer.Nested()) ==> Written(o, text) == FuncText(m, f, Indentation(|old(writer.margins)|))
      ensures o.Pass? ==> writer.output == base + text && !writer.dirty
      ensures o.Pass? ==> writer.margin == old(writer.margin) && writer.margins == old(writer.margins)
      ensures o.Pass? && old(writer.Nested()) ==> writer.Nested()
    {
      func := Some(f);
      var lcl;
      o, text, lcl := GenerateSignature(f, base);
      if o.Fail? {
        return;
      }
      ghost var margin := writer.margin;
      writer.Indent();
      ghost var piece;
      o, piece, lcl := GenerateParamCopies(f, lcl);
      if o.Fail? {
        return;
      }
      Append3(base, text, piece);
      text := text + piece;
      o, piece := GenerateZeroInits(f, lcl);
      if o.Fail? {
        return;
      }
      Append3(base, text, piece);
      text := text + piece;
      o, piece := GenerateBlock(Some(f), f.body, writer.margin);
      if o.Fail? {
        return;
      }
      Append3(base, text, piece);
      text := text + piece;
      writer.Dedent();
      writer.Out("}");
      Append3(base, text, margin);
      Append3(base, text + margin, "}");
      text := text + margin + "}";
      writer.Eol();
      Append3(base, text, "\n");
      text := text + "\n";
    }

    /** The extern alias loop (wasm.js:461-464), from the start of a line. */
    method GenerateExternLines(xs: seq<Extern>) returns (ghost text: string)
      requires !writer.dirty
      modifies writer
      ensures text == ExternLinesText(xs, |xs|, writer.margin)
      ensures writer.output == old(writer.output) + text && !writer.dirty
      ensures writer.margin == old(writer.margin) && writer.margins == old(writer.margins)
    {
      text := "";
      var i := 0;
      while i < |xs|
        invariant 0 <= i <= |xs|
        invariant text == ExternLinesText(xs, i, writer.margin)
        invariant writer.output == old(writer.output) + text && !writer.dirty
        invariant writer.margin == old(writer.margin) && writer.margins == old(writer.margins)
      {
        ghost var line := GenerateExternLine(xs[i]);
        Append3(old(writer.output), text, line);
        text := text + line;
        i := i + 1;
      }
    }

    /** The alias line of one extern (wasm.js:462-463), from the start of a line. */
    method GenerateExternLine(x: Extern) returns (ghost text: string)
      requires !writer.dirty
      modifies writer
      ensures text == ExternLine(x, writer.margin)
      ensures writer.output == old(writer.output) + text && !writer.dirty
      ensures writer.margin == old(writer.margin) && writer.margins == old(writer.margins)
    {
      ghost var base := writer.output;
      writer.Out("var ");
      Append3(base, writer.margin, "var ");
      text := writer.margin + "var ";
      writer.Out(x.name);
      Append3(base, text, x.name);
      text := text + x.name;
      writer.Out(" = imports.");
      Append3(base, text, " = imports.");
      text := text + " = imports.";
      writer.Out(x.name);
      Append3(base, text, x.name);
      text := text + x.name;
      writer.Out(";");
      Append3(base, text, ";");
      text := text + ";";
      writer.Eol();
      Append3(base, text, "\n");
      text := text + "\n";
    }

    /**
     * The function loop of `generateModule` (wasm.js:466-468), from the
     * start of a line; the last function is left as the one generated.
     */
    method GenerateFuncs(fs: seq<Func>) returns (o: Outcome, ghost text: string)
      requires !writer.dirty
      modifies this, writer
      ensures Written(o, text) == FuncsText(m, fs, |fs|, old(writer.margin))
      ensures old(writer.Nested()) ==> Written(o, text) == FuncsText(m, fs, |fs|, Indentation(|old(writer.margins)|))
      ensures o.Pass? ==> writer.output == old(writer.output) + text && !writer.dirty
      ensures o.Pass? ==> writer.margin == old(writer.margin) && writer.margins == old(writer.margins)
      ensures o.Pass? && old(writer.Nested()) ==> writer.Nested()
      ensures o.Pass? && fs == [] ==> func == old(func)
      ensures o.Pass? && fs != [] ==> func == Some(fs[|fs| - 1])
    {
      text := "";
      var i := 0;
      while i < |fs|
        invariant 0 <= i <= |fs|
        invariant FuncsText(m, fs, i, old(writer.margin)) == Ok(text)
        invariant writer.output == old(writer.output) + text && !writer.dirty
        invariant writer.margin == old(writer.margin) && writer.margins == old(writer.margins)
        invariant func == if i == 0 then old(func) else Some(fs[i - 1])
      {
        ghost var before := writer.output;
        var g, ft := GenerateFunc(fs[i], before + writer.margin);
        if g.Fail? {
          FuncsTextFails(m, fs, old(writer.margin), i);
          return g, text;
        }
        Append3(old(writer.output), text, old(writer.margin));
        Append3(old(writer.output), text + old(writer.margin), ft);
        text := text + old(writer.margin) + ft;
        i := i + 1;
      }
      o := Pass;
    }

    /** The export loop of `generateModule` (wasm.js:470-474), from the start of a line. */
    method GenerateExports(fs: seq<Func>) returns (ghost text: string)
      requires !writer.dirty
      modifies writer
      ensures text == ExportsText(fs, |fs|, writer.margin)
      ensures writer.output == old(writer.output) + text && !writer.dirty
      ensures writer.margin == old(writer.margin) && writer.margins == old(writer.margins)
    {
      text := "";
      var i := 0;
      while i < |fs|
        invariant 0 <= i <= |fs|
        invariant text == ExportsText(fs, i, writer.margin)
        invariant writer.output == old(writer.output) + text && !writer.dirty
        invariant writer.margin == old(writer.margin) && writer.margins == old(writer.margins)
      {
        var f := fs[i];
        i := i + 1;
        if !f.exportFunc {
          continue;
        }
        ghost var base := writer.output;
        writer.Out(f.name);
        Append3(base, writer.margin, f.name);
        ghost var line := writer.margin + f.name;
        writer.Out(": ");
        Append3(base, line, ": ");
        line := line + ": ";
        writer.Out(f.name);
        Append3(base, line, f.name);
        line := line + f.name;
        writer.Out(",");
        Append3(base, line, ",");
        line := line + ",";
        writer.Eol();
        Append3(base, line, "\n");
        line := line + "\n";
        Append3(old(writer.output), text, line);
        text := text + line;
      }
    }

    /**
     * `generateModule` (wasm.js:459-477): the module as a function of
     * `imports`, ending on the closing parenthesis with the line open.
     */
    method GenerateModule(mdl: Module, ghost base: string) returns (o: Outcome, ghost text: string)
      requires writer.dirty ==> base == writer.output
      requires !writer.dirty ==> base == writer.output + writer.margin
      modifies this, writer
      ensures Written(o, text) == ModuleText(m, mdl, old(writer.margin))
      ensures old(writer.Nested()) ==> Written(o, text) == ModuleText(m, mdl, Indentation(|old(writer.margins)|))
      ensures o.Pass? ==> writer.output == base + text && writer.dirty
      ensures o.Pass? ==> writer.margin == old(writer.margin) && writer.margins == old(writer.margins)
      ensures o.Pass? && old(writer.Nested()) ==> writer.Nested()
      ensures o.Pass? && mdl.funcs == [] ==> func == old(func)
      ensures o.Pass? && mdl.funcs != [] ==> func == Some(mdl.funcs[|mdl.funcs| - 1])
    {
      ghost var margin := writer.margin;
      writer.Out("(function(imports) {");
      writer.Eol();
      Append3(base, "(function(imports) {", "\n");
      text := "(function(imports) {" + "\n";
      writer.Indent();
      ghost var piece := GenerateExternLines(mdl.externs);
      Append3(base, text, piece);
      text := text + piece;
      o, piece := GenerateFuncs(mdl.funcs);
      if o.Fail? {
        return;
      }
      Append3(base, text, piece);
      text := text + piece;
      piece := GenerateModuleTail(mdl.funcs, margin);
      Append3(base, text, piece);
      text := text + piece;
    }

    /**
     * The end of `generateModule` (wasm.js:469-476), from the start of a
     * line one margin deeper than `outer`: the exports object, then the
     * closing parenthesis back at `outer`.
     */
    method GenerateModuleTail(fs: seq<Func>, ghost outer: string) returns (ghost text: string)
      requires !writer.dirty && writer.margin == outer + "  "
      requires |writer.margins| > 0 && writer.margins[|writer.margins| - 1] == outer
      modifies writer
      ensures text == ModuleTailText(fs, outer)
      ensures writer.output == old(writer.output) + text && writer.dirty
      ensures writer.margin == outer && writer.margins == old(writer.margins)[..|old(writer.margins)| - 1]
    {
      ghost var base, inner := writer.output, writer.margin;
      writer.Out("return {");
      Append3(base, inner, "return {");
      text := inner + "return {";
      writer.Eol();
      Append3(base, text, "\n");
      text := text + "\n";
      writer.Indent();
      ghost var piece := GenerateExports(fs);
      Append3(base, text, piece);
      text := text + piece;
      writer.Dedent();
      writer.Out("};");
      Append3(base, text, inner);
      Append3(base, text + inner, "};");
      text := text + inner + "};";
      writer.Eol();
      Append3(base, text, "\n");
      text := text + "\n";
      writer.Dedent();
      writer.Out("})");
      Append3(base, text, outer);
      Append3(base, text + outer, "})");
      text := text + outer + "})";
    }
  }

  /** The argument list one argument longer, once the shorter one has a text. */
  lemma ArgsTextNext(m: Module, fn: Option<Func>, args: seq<Expr>, i: nat)
    requires i < |args| && ArgsText(m, fn, args[..i]).Ok? && ExprText(m, fn, args[i]).Ok?
    ensures ArgsText(m, fn, args[..i + 1]) ==
              Ok(ArgsText(m, fn, args[..i]).value + ((if i == 0 then "" else ", ") + ExprText(m, fn, args[i]).value))
  {
    assert args[..i + 1][..i] == args[..i];
    assert args[..i + 1][i] == args[i];
    Append3(ArgsText(m, fn, args[..i]).value, if i == 0 then "" else ", ", ExprText(m, fn, args[i]).value);
  }

  /** An argument that fails makes the whole argument list fail with its error. */
  lemma ArgsTextFails(m: Module, fn: Option<Func>, args: seq<Expr>, i: nat)
    requires i < |args| && ArgsText(m, fn, args[..i]).Ok? && ExprText(m, fn, args[i]).Err?
    ensures ArgsText(m, fn, args) == ExprText(m, fn, args[i])
  {
    assert args[..i + 1][..i] == args[..i];
    assert args[..i + 1][i] == args[i];
    ArgsTextFailureSticks(m, fn, args, i + 1);
  }

  /** Once an argument fails, the whole argument list fails with that error. */
  lemma {:induction false} ArgsTextFailureSticks(m: Module, fn: Option<Func>, args: seq<Expr>, i: nat)
    requires i <= |args|
    requires ArgsText(m, fn, args[..i]).Err?
    ensures ArgsText(m, fn, args) == ArgsText(m, fn, args[..i])
    decreases |args|
  {
    if i < |args| {
      var n := |args| - 1;
      assert args[..n][..i] == args[..i];
      ArgsTextFailureSticks(m, fn, args[..n], i);
    } else {
      assert args[..i] == args;
    }
  }

  /** The block one statement longer, once the shorter one has a text. */
  lemma BlockTextNext(m: Module, fn: Option<Func>, block: seq<Expr>, first: string, margin: string, i: nat)
    requires i < |block| && BlockText(m, fn, block[..i], first, margin).Ok? && StatementText(m, fn, block[i]).Ok?
    ensures BlockText(m, fn, block[..i + 1], first, margin) ==
              Ok(BlockText(m, fn, block[..i], first, margin).value + (if i == 0 then first else margin) +
                 StatementText(m, fn, block[i]).value)
  {
    assert block[..i + 1][..i] == block[..i];
    assert block[..i + 1][i] == block[i];
  }

  /** A statement that fails makes the whole block fail with its error. */
  lemma BlockTextFails(m: Module, fn: Option<Func>, block: seq<Expr>, first: string, margin: string, i: nat)
    requires i < |block| && BlockText(m, fn, block[..i], first, margin).Ok? && StatementText(m, fn, block[i]).Err?
    ensures BlockText(m, fn, block, first, margin) == StatementText(m, fn, block[i])
  {
    assert block[..i + 1][..i] == block[..i];
    assert block[..i + 1][i] == block[i];
    BlockTextFailureSticks(m, fn, block, first, margin, i + 1);
  }

  /** Once a statement fails, the whole block fails with that error. */
  lemma {:induction false} BlockTextFailureSticks(m: Module, fn: Option<Func>, block: seq<Expr>, first: string, margin: string, i: nat)
    requires i <= |block|
    requires BlockText(m, fn, block[..i], first, margin).Err?
    ensures BlockText(m, fn, block, first, margin) == BlockText(m, fn, block[..i], first, margin)
    decreases |block|
  {
    if i < |block| {
      var n := |block| - 1;
      assert block[..n][..i] == block[..i];
      BlockTextFailureSticks(m, fn, block[..n], first, margin, i);
    } else {
      assert block[..i] == block;
    }
  }

  /** Once a function fails, the whole function loop fails with that error. */
  lemma {:induction false} FuncsTextFailureSticks(m: Module, fs: seq<Func>, margin: string, i: nat, n: nat)
    requires i <= n <= |fs|
    requires FuncsText(m, fs, i, margin).Err?
    ensures FuncsText(m, fs, n, margin) == FuncsText(m, fs, i, margin)
    decreases n
  {
    if n > i {
      FuncsTextFailureSticks(m, fs, margin, i, n - 1);
    }
  }

  /** A function that fails makes the whole function loop fail with its error. */
  lemma FuncsTextFails(m: Module, fs: seq<Func>, margin: string, i: nat)
    requires i < |fs| && FuncsText(m, fs, i, margin).Ok? && FuncText(m, fs[i], margin).Err?
    ensures FuncsText(m, fs, |fs|, margin) == FuncText(m, fs[i], margin)
  {
    FuncsTextFailureSticks(m, fs, margin, i + 1, |fs|);
  }

  /** Once a parameter name fails, the whole parameter list fails with that error. */
  lemma {:induction false} ParamListFailureSticks(f: Func, i: nat, n: nat)
    requires i <= n <= |f.params|
    requires ParamListText(f, i).Err?
    ensures ParamListText(f, n) == ParamListText(f, i)
    decreases n
  {
    if n > i {
      ParamListFailureSticks(f, i, n - 1);
    }
  }

  /** Once a re-coercion line fails, the whole loop fails with that error. */
  lemma {:induction false} CopyLinesFailureSticks(f: Func, margin: string, i: nat, n: nat)
    requires i <= n <= |f.params|
    requires CopyLinesText(f, i, margin).Err?
    ensures CopyLinesText(f, n, margin) == CopyLinesText(f, i, margin)
    decreases n
  {
    if n > i {
      CopyLinesFailureSticks(f, margin, i, n - 1);
    }
  }

  /** Once a zero-initialisation round fails, the whole loop fails with that error. */
  lemma {:induction false} ZeroLinesFailureSticks(lcl: Option<Local>, margin: string, i: nat, n: nat)
    requires i <= n
    requires ZeroLinesText(lcl, i, margin).Err?
    ensures ZeroLinesText(lcl, n, margin) == ZeroLinesText(lcl, i, margin)
    decreases n
  {
    if n > i {
      ZeroLinesFailureSticks(lcl, margin, i, n - 1);
    }
  }
}
