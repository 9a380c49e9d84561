/** Binding the graph variable by text: before a function of `x` is evaluated at
    a sample point, every character `x` in its text is replaced by the printed
    form of the point. It is a plain textual replace-all, so an `x` inside any
    other token is replaced as well. */
module Substitution {
  import opened Values

  /** The variable of the plotted function. */
  const VARIABLE: char := 'x'

  /** `s` with every occurrence of `c` replaced by `t`, left to right. */
  function ReplaceAll(s: string, c: char, t: string): (r: string)
    ensures c !in t ==> c !in r
    ensures c !in s ==> r == s
    ensures forall d :: d in r ==> d in s || d in t
  {
    if s == [] then []
    else (if s[0] == c then t else [s[0]]) + ReplaceAll(s[1..], c, t)
  }

  /** Replacing distributes over concatenation: each part is rewritten on its own. */
  lemma {:induction false} ReplaceAllConcat(s: string, u: string, c: char, t: string)
    ensures ReplaceAll(s + u, c, t) == ReplaceAll(s, c, t) + ReplaceAll(u, c, t)
  {
    if s == [] {
      assert s + u == u;
    } else {
      assert (s + u)[0] == s[0];
      assert (s + u)[1..] == s[1..] + u;
      ReplaceAllConcat(s[1..], u, c, t);
    }
  }

  /** The text produced for a prefix of the input is a prefix of the text
      produced for a longer prefix: what is written never moves backwards. */
  lemma {:induction false} ReplaceAllKeepsOrder(s: string, c: char, t: string, i: nat, j: nat)
    requires i <= j <= |s|
    ensures ReplaceAll(s[..i], c, t) <= ReplaceAll(s[..j], c, t)
  {
    assert s[..j] == s[..i] + s[i..j];
    ReplaceAllConcat(s[..i], s[i..j], c, t);
  }

  /** One more input character: the output for the input up to character `i`
      is the output for the input before it followed by exactly `t` if that
      character is `c`, and by the character itself otherwise. */
  lemma {:induction false} ReplaceAllStep(s: string, c: char, t: string, i: nat)
    requires i < |s|
    ensures ReplaceAll(s[..i + 1], c, t)
         == ReplaceAll(s[..i], c, t) + (if s[i] == c then t else [s[i]])
  {
    assert s[..i + 1] == s[..i] + [s[i]];
    ReplaceAllConcat(s[..i], [s[i]], c, t);
    assert [s[i]][1..] == [];
  }

  /** Where character `i` of the input lands in the whole output: right after
      the output for the input before it, as exactly `t` if it is `c` and as
      the character itself otherwise. */
  lemma {:induction false} ReplaceAllAt(s: string, c: char, t: string, i: nat)
    requires i < |s|
    ensures ReplaceAll(s[..i + 1], c, t)
         == ReplaceAll(s[..i], c, t) + (if s[i] == c then t else [s[i]])
    ensures var p := |ReplaceAll(s[..i], c, t)|;
      var r := ReplaceAll(s, c, t);
      if s[i] == c then p + |t| <= |r| && r[p..p + |t|] == t
      else p < |r| && r[p] == s[i]
  {
    ReplaceAllStep(s, c, t, i);
    assert s == s[..i + 1] + s[i + 1..];
    ReplaceAllConcat(s[..i + 1], s[i + 1..], c, t);
  }

  /** Replacing `c` by itself changes nothing. */
  lemma {:induction false} ReplaceAllBySelf(s: string, c: char)
    ensures ReplaceAll(s, c, [c]) == s
  {
    if s != [] {
      ReplaceAllBySelf(s[1..], c);
      assert s == [s[0]] + s[1..];
    }
  }

  /** The text of the plotted function with the printed sample point in place
      of every `x`. As long as a printed number contains no `x`, no `x` is left. */
  function SubstituteVariable(lib: Numerics, expr: string, x: Num): (r: string)
    ensures VARIABLE !in lib.toText(x) ==> VARIABLE !in r
    ensures VARIABLE !in expr ==> r == expr
  {
    ReplaceAll(expr, VARIABLE, lib.toText(x))
  }
}
