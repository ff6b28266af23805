/** Where a piece of text occurs inside a larger one: the vocabulary in
    which the layout of the assembled prompts is stated. */
module TextLayout {
  /** `p` occurs in `s` at offset `k`. */
  predicate OccursAt(s: string, p: string, k: int) {
    0 <= k && k + |p| <= |s| && s[k..k + |p|] == p
  }

  /** Each character of an occurrence. */
  lemma {:induction false} OccursAtIndex(s: string, p: string, k: int, j: nat)
    requires OccursAt(s, p, k) && j < |p|
    ensures s[k + j] == p[j]
  {
    assert s[k + j] == s[k..k + |p|][j];
  }

  /** A text occurs at the start of any extension of itself. */
  lemma {:induction false} OccursPrefix(a: string, b: string)
    ensures OccursAt(a + b, a, 0)
  {
    assert (a + b)[0..|a|] == a;
  }

  /** An occurrence survives text appended after it. */
  lemma {:induction false} OccursExtend(s: string, t: string, p: string, k: int)
    requires OccursAt(s, p, k)
    ensures OccursAt(s + t, p, k)
  {
    assert (s + t)[k..k + |p|] == s[k..k + |p|];
  }

  /** An occurrence moves right by the length of text prepended to it. */
  lemma {:induction false} OccursShift(t: string, s: string, p: string, k: int)
    requires OccursAt(s, p, k)
    ensures OccursAt(t + s, p, |t| + k)
  {
    assert (t + s)[|t| + k..|t| + k + |p|] == s[k..k + |p|];
  }

  /** An occurrence inside an occurrence. */
  lemma {:induction false} OccursWithin(s: string, p: string, k: int, q: string, j: int)
    requires OccursAt(s, p, k) && OccursAt(p, q, j)
    ensures OccursAt(s, q, k + j)
  {
    forall n | 0 <= n < |q|
      ensures s[k + j + n] == q[n]
    {
      assert q[n] == p[j..j + |q|][n] == p[j + n];
      assert p[j + n] == s[k..k + |p|][j + n];
    }
    assert s[k + j..k + j + |q|] == q;
  }

  /** A text occurs at the end of any text extended by it. */
  lemma {:induction false} OccursSuffix(a: string, b: string)
    ensures OccursAt(a + b, b, |a|)
  {
    assert (a + b)[|a|..|a| + |b|] == b;
  }

  /** Where the four sections of a prompt lie, one lemma each. */
  lemma {:induction false} FirstOfFour(a: string, b: string, c: string, d: string)
    ensures OccursAt(a + b + c + d, a, 0)
  {
    OccursPrefix(a, b);
    OccursExtend(a + b, c, a, 0);
    OccursExtend(a + b + c, d, a, 0);
  }

  lemma {:induction false} SecondOfFour(a: string, b: string, c: string, d: string)
    ensures OccursAt(a + b + c + d, b, |a|)
  {
    OccursSuffix(a, b);
    OccursExtend(a + b, c, b, |a|);
    OccursExtend(a + b + c, d, b, |a|);
  }

  lemma {:induction false} ThirdOfFour(a: string, b: string, c: string, d: string)
    ensures OccursAt(a + b + c + d, c, |a| + |b|)
  {
    OccursSuffix(a + b, c);
    OccursExtend(a + b + c, d, c, |a| + |b|);
  }

  lemma {:induction false} FourthOfFour(a: string, b: string, c: string, d: string)
    ensures OccursAt(a + b + c + d, d, |a| + |b| + |c|)
  {
    OccursSuffix(a + b + c, d);
  }

  lemma {:induction false} LastOfFour(a: string, b: string, c: string, head: string, tail: string)
    ensures OccursAt(a + b + c + (head + tail), tail, |a + b + c + (head + tail)| - |tail|)
  {
    OccursSuffix(a + b + c + head, tail);
    assert a + b + c + (head + tail) == a + b + c + head + tail;
  }

  /** Where the three sections of a prompt lie, one lemma each. */
  lemma {:induction false} FirstOfThree(a: string, b: string, c: string)
    ensures OccursAt(a + b + c, a, 0)
  {
    OccursPrefix(a, b);
    OccursExtend(a + b, c, a, 0);
  }

  lemma {:induction false} SecondOfThree(a: string, b: string, c: string)
    ensures OccursAt(a + b + c, b, |a|)
  {
    OccursSuffix(a, b);
    OccursExtend(a + b, c, b, |a|);
  }

  lemma {:induction false} ThirdOfThree(a: string, b: string, c: string)
    ensures OccursAt(a + b + c, c, |a| + |b|)
    ensures |a + b + c| - |c| == |a| + |b|
  {
    OccursSuffix(a + b, c);
  }
}
