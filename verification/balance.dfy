/** Parenthesis balance of a piece of text, scanned left to right with a nesting depth. */
module Balance {
  import opened Text

  function Step(c: char, depth: int): int {
    if c == '(' then depth + 1 else if c == ')' then depth - 1 else depth
  }

  /** The nesting depth after scanning `s` from `depth`. */
  function Depth(s: string, depth: int): int
    decreases |s|
  {
    if |s| == 0 then depth else Depth(s[1..], Step(s[0], depth))
  }

  /** Scanning `s` from `depth` never closes a parenthesis that is not open. */
  predicate NeverBelow(s: string, depth: int)
    decreases |s|
  {
    depth >= 0 && (|s| == 0 || NeverBelow(s[1..], Step(s[0], depth)))
  }

  predicate Balanced(s: string) {
    NeverBelow(s, 0) && Depth(s, 0) == 0
  }

  predicate ParenFree(s: string) {
    forall i :: 0 <= i < |s| ==> s[i] != '(' && s[i] != ')'
  }

  lemma {:induction false} DepthConcat(a: string, b: string, depth: int)
    ensures Depth(a + b, depth) == Depth(b, Depth(a, depth))
    decreases |a|
  {
    if |a| > 0 {
      assert (a + b)[1..] == a[1..] + b;
      DepthConcat(a[1..], b, Step(a[0], depth));
    } else {
      assert a + b == b;
    }
  }

  lemma {:induction false} NeverBelowConcat(a: string, b: string, depth: int)
    ensures NeverBelow(a + b, depth) <==> NeverBelow(a, depth) && NeverBelow(b, Depth(a, depth))
    decreases |a|
  {
    if |a| > 0 {
      assert (a + b)[1..] == a[1..] + b;
      NeverBelowConcat(a[1..], b, Step(a[0], depth));
    } else {
      assert a + b == b;
    }
  }

  /** Starting deeper shifts the final depth and keeps the scan non-negative. */
  lemma {:induction false} Deeper(s: string, depth: int, k: nat)
    ensures Depth(s, depth + k) == Depth(s, depth) + k
    ensures NeverBelow(s, depth) ==> NeverBelow(s, depth + k)
    decreases |s|
  {
    if |s| > 0 {
      Deeper(s[1..], Step(s[0], depth), k);
    }
  }

  lemma {:induction false} ParenFreeBalanced(s: string, depth: nat)
    requires ParenFree(s)
    ensures Depth(s, depth) == depth && NeverBelow(s, depth)
    decreases |s|
  {
    if |s| > 0 {
      ParenFreeBalanced(s[1..], depth);
    }
  }

  lemma BalancedConcat(a: string, b: string)
    requires Balanced(a) && Balanced(b)
    ensures Balanced(a + b)
  {
    DepthConcat(a, b, 0);
    NeverBelowConcat(a, b, 0);
  }

  /** Wrapping balanced text in one pair of parentheses keeps it balanced. */
  lemma BalancedWrap(s: string)
    requires Balanced(s)
    ensures Balanced("(" + s + ")")
  {
    Deeper(s, 0, 1);
    DepthConcat("(", s, 0);
    NeverBelowConcat("(", s, 0);
    DepthConcat("(" + s, ")", 0);
    NeverBelowConcat("(" + s, ")", 0);
  }

  lemma {:induction false} JoinBalanced(parts: seq<string>, sep: string)
    requires forall i :: 0 <= i < |parts| ==> Balanced(parts[i])
    requires Balanced(sep)
    ensures Balanced(Join(parts, sep))
    decreases |parts|
  {
    if |parts| == 0 {
    } else if |parts| > 1 {
      JoinBalanced(parts[1..], sep);
      BalancedConcat(parts[0], sep);
      BalancedConcat(parts[0] + sep, Join(parts[1..], sep));
    }
  }
}
