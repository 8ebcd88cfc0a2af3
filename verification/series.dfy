/** Sums and counts over sequences of exact decimal amounts. */
module Series {

  /** The sum of all amounts. */
  function Sum(s: seq<real>): real
  {
    if s == [] then 0.0 else Sum(s[..|s| - 1]) + s[|s| - 1]
  }

  /** The sum of the amounts that satisfy `p`. */
  function SumWhere(s: seq<real>, p: real -> bool): real
  {
    if s == [] then 0.0
    else SumWhere(s[..|s| - 1], p) + (if p(s[|s| - 1]) then s[|s| - 1] else 0.0)
  }

  /** How many amounts satisfy `p`. */
  function CountWhere(s: seq<real>, p: real -> bool): nat
  {
    if s == [] then 0
    else CountWhere(s[..|s| - 1], p) + (if p(s[|s| - 1]) then 1 else 0)
  }

  predicate Positive(x: real) { x > 0.0 }

  predicate Negative(x: real) { x < 0.0 }

  predicate IsZero(x: real) { x == 0.0 }

  lemma {:induction false} SumAppend(a: seq<real>, b: seq<real>)
    ensures Sum(a + b) == Sum(a) + Sum(b)
    decreases |b|
  {
    if b != [] {
      assert (a + b)[..|a + b| - 1] == a + b[..|b| - 1];
      SumAppend(a, b[..|b| - 1]);
    } else {
      assert a + b == a;
    }
  }

  lemma {:induction false} CountWhereAppend(a: seq<real>, b: seq<real>, p: real -> bool)
    ensures CountWhere(a + b, p) == CountWhere(a, p) + CountWhere(b, p)
    decreases |b|
  {
    if b != [] {
      assert (a + b)[..|a + b| - 1] == a + b[..|b| - 1];
      CountWhereAppend(a, b[..|b| - 1], p);
    } else {
      assert a + b == a;
    }
  }

  lemma {:induction false} CountWhereAtMost(s: seq<real>, p: real -> bool)
    ensures CountWhere(s, p) <= |s|
  {
    if s != [] {
      CountWhereAtMost(s[..|s| - 1], p);
    }
  }

  lemma {:induction false} CountWhereNone(s: seq<real>, p: real -> bool)
    requires forall i :: 0 <= i < |s| ==> !p(s[i])
    ensures CountWhere(s, p) == 0
  {
    if s != [] {
      CountWhereNone(s[..|s| - 1], p);
    }
  }

  /** A positive, a negative and a zero amount: every amount is exactly one of the three. */
  lemma {:induction false} SignPartition(s: seq<real>)
    ensures CountWhere(s, Positive) + CountWhere(s, Negative) + CountWhere(s, IsZero) == |s|
    ensures Sum(s) == SumWhere(s, Positive) + SumWhere(s, Negative)
  {
    if s != [] {
      SignPartition(s[..|s| - 1]);
    }
  }

  /** The positive amounts sum to a positive total exactly when there is one. */
  lemma {:induction false} PositiveSum(s: seq<real>)
    ensures SumWhere(s, Positive) >= 0.0
    ensures SumWhere(s, Positive) > 0.0 <==> CountWhere(s, Positive) > 0
  {
    if s != [] {
      PositiveSum(s[..|s| - 1]);
    }
  }

  /** The negative amounts sum to a negative total exactly when there is one. */
  lemma {:induction false} NegativeSum(s: seq<real>)
    ensures SumWhere(s, Negative) <= 0.0
    ensures SumWhere(s, Negative) < 0.0 <==> CountWhere(s, Negative) > 0
  {
    if s != [] {
      NegativeSum(s[..|s| - 1]);
    }
  }

  /** Counting does not depend on the order of the amounts. */
  lemma {:induction false} CountWherePermutation(a: seq<real>, b: seq<real>, p: real -> bool)
    requires multiset(a) == multiset(b)
    ensures CountWhere(a, p) == CountWhere(b, p)
    decreases |a|
  {
    if a == [] {
      assert |b| == |multiset(b)| == 0;
    } else {
      var x := a[|a| - 1];
      var a' := a[..|a| - 1];
      assert a == a' + [x];
      assert x in multiset(b);
      var j :| 0 <= j < |b| && b[j] == x;
      var b' := b[..j] + b[j + 1..];
      assert b == b[..j] + [x] + b[j + 1..];
      assert multiset(b') == multiset(b) - multiset{x} == multiset(a');
      CountWherePermutation(a', b', p);
      CountWhereAppend(b[..j] + [x], b[j + 1..], p);
      CountWhereAppend(b[..j], [x], p);
      CountWhereAppend(b[..j], b[j + 1..], p);
      assert [x][..0] == [];
    }
  }

  /** `n` copies of `c` sum to `n * c`. */
  lemma {:induction false} SumConstant(s: seq<real>, c: real)
    requires forall i :: 0 <= i < |s| ==> s[i] == c
    ensures Sum(s) == |s| as real * c
  {
    if s != [] {
      SumConstant(s[..|s| - 1], c);
    }
  }
}
