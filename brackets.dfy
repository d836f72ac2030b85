/**
 * Bracket balance of generated text, for a pair of bracket characters `o`
 * and `c`: the depth never drops below zero and ends at zero.  The
 * definitions and lemmas here take the pair as a parameter; the generator's
 * lemmas apply them to parentheses only.
 */
module Brackets {

  /** The depth change of one character. */
  function Step(ch: char, o: char, c: char): int
  {
    if ch == o then 1 else if ch == c then -1 else 0
  }

  /** The depth at the end of `s`. */
  function Net(s: string, o: char, c: char): int
  {
    if s == [] then 0 else Step(s[0], o, c) + Net(s[1..], o, c)
  }

  /** The lowest depth reached in `s`, counting the start as depth zero. */
  function Dip(s: string, o: char, c: char): (d: int)
    ensures d <= 0
  {
    if s == [] then 0 else Min(0, Step(s[0], o, c) + Dip(s[1..], o, c))
  }

  function Min(a: int, b: int): int
  {
    if a <= b then a else b
  }

  /** Every prefix is at depth zero or more, and the whole text at zero. */
  predicate Balanced(s: string, o: char, c: char)
  {
    Net(s, o, c) == 0 && Dip(s, o, c) == 0
  }

  /** Neither bracket character occurs. */
  predicate Free(s: string, o: char, c: char)
  {
    forall i :: 0 <= i < |s| ==> s[i] != o && s[i] != c
  }

  /** Depth adds up over concatenation, and the low point is the lower of the two parts' low points. */
  lemma {:induction false} Concat(a: string, b: string, o: char, c: char)
    ensures Net(a + b, o, c) == Net(a, o, c) + Net(b, o, c)
    ensures Dip(a + b, o, c) == Min(Dip(a, o, c), Net(a, o, c) + Dip(b, o, c))
    decreases |a|
  {
    if a != [] {
      assert (a + b)[0] == a[0];
      assert (a + b)[1..] == a[1..] + b;
      Concat(a[1..], b, o, c);
    } else {
      assert a + b == b;
    }
  }

  /** Text with neither bracket has depth zero throughout. */
  lemma {:induction false} FreeBalanced(s: string, o: char, c: char)
    requires Free(s, o, c)
    ensures Balanced(s, o, c)
    decreases |s|
  {
    if s != [] {
      assert Free(s[1..], o, c) by {
        forall i | 0 <= i < |s[1..]| ensures s[1..][i] != o && s[1..][i] != c {
          assert s[1..][i] == s[i + 1];
        }
      }
      FreeBalanced(s[1..], o, c);
    }
  }

  /** Two balanced texts in a row are balanced. */
  lemma BalancedConcat(a: string, b: string, o: char, c: char)
    requires Balanced(a, o, c) && Balanced(b, o, c)
    ensures Balanced(a + b, o, c)
  {
    Concat(a, b, o, c);
  }
}
