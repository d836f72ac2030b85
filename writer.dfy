/**
 * `CodeWriter` (wasm.js:290-321): an output buffer with an indentation
 * margin.  Text is appended with `out`; the first `out` of a line writes the
 * margin first.  `indent` saves the margin on a stack and widens it by two
 * spaces, `dedent` restores the saved one.
 */
module Writer {

  /** The margin after `n` indents from an empty margin: two spaces each. */
  function Indentation(n: nat): (s: string)
    ensures |s| == 2 * n
    ensures forall i :: 0 <= i < |s| ==> s[i] == ' '
  {
    if n == 0 then "" else Indentation(n - 1) + "  "
  }

  /**
   * What JS makes of `margins.pop()` on an empty stack: `undefined`, which
   * printed as part of a string reads as below.
   */
  const Undefined: string := "undefined"

  /** Appending in two steps is appending once. */
  lemma Append3(a: string, b: string, c: string)
    ensures a + b + c == a + (b + c)
  {
  }

  class CodeWriter {
    var margins: seq<string>
    var margin: string
    var output: string
    var dirty: bool

    constructor ()
      ensures margins == [] && margin == "" && output == "" && !dirty
      ensures Nested()
    {
      margins := [];
      margin := "";
      output := "";
      dirty := false;
    }

    /**
     * The margin is two spaces per open `indent`, and each saved margin is
     * the one of its own depth.
     */
    ghost predicate Nested()
      reads this
    {
      && margin == Indentation(|margins|)
      && forall i :: 0 <= i < |margins| ==> margins[i] == Indentation(i)
    }

    /**
     * `out` (wasm.js:297-304): the first `out` of a line writes the margin
     * before its text.
     */
    method Out(text: string)
      modifies this
      ensures old(dirty) ==> output == old(output) + text
      ensures !old(dirty) ==> output == old(output) + old(margin) + text
      ensures dirty
      ensures margin == old(margin) && margins == old(margins)
      ensures old(Nested()) ==> Nested()
    {
      if !dirty {
        output := output + margin;
        dirty := true;
      }
      output := output + text;
    }

    /** `eol` (wasm.js:306-310): ends the line, so the next `out` writes the margin. */
    method Eol()
      modifies this
      ensures output == old(output) + "\n"
      ensures !dirty
      ensures margin == old(margin) && margins == old(margins)
      ensures old(Nested()) ==> Nested()
    {
      output := output + "\n";
      dirty := false;
    }

    /** `indent` (wasm.js:312-316): the margin is saved and widened by two spaces. */
    method Indent()
      modifies this
      ensures margins == old(margins) + [old(margin)]
      ensures margin == old(margin) + "  "
      ensures output == old(output) && dirty == old(dirty)
      ensures old(Nested()) ==> Nested()
    {
      margins := margins + [margin];
      margin := margin + "  ";
    }

    /**
     * `dedent` (wasm.js:318-321): the last saved margin comes back.  With
     * nothing saved, `pop` yields `undefined` and the margin becomes that.
     */
    method Dedent()
      modifies this
      ensures old(margins) == [] ==> margins == [] && margin == Undefined
      ensures old(margins) != [] ==>
                margins == old(margins)[..|old(margins)| - 1] && margin == old(margins)[|old(margins)| - 1]
      ensures output == old(output) && dirty == old(dirty)
      ensures old(Nested()) && old(margins) != [] ==> Nested()
    {
      if margins == [] {
        margin := Undefined;
      } else {
        margin := margins[|margins| - 1];
        margins := margins[..|margins| - 1];
      }
    }
  }

  /**
   * After a `dedent` with nothing saved, the next line the writer starts
   * opens with `undefined` where its margin belongs (wasm.js:300-303,
   * 318-321).
   */
  method UnbalancedDedentThenOut(w: CodeWriter, text: string)
    requires w.margins == [] && !w.dirty
    modifies w
    ensures w.output == old(w.output) + Undefined + text
    ensures w.margin == Undefined && w.margins == [] && w.dirty
  {
    w.Dedent();
    w.Out(text);
  }
}
