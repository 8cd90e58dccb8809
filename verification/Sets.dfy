/** Facts about finite sets, sequences without repetition, and sums. */
module Sets {

  lemma {:induction false} SubsetSize<T>(small: set<T>, large: set<T>)
    requires small <= large
    ensures |small| <= |large|
    ensures |small| == |large| ==> small == large
  {
    var rest := large - small;
    assert large == small + rest;
    assert |large| == |small| + |rest|;
  }

  predicate Distinct<T(==)>(s: seq<T>) {
    forall i, j :: 0 <= i < j < |s| ==> s[i] != s[j]
  }

  /** A sequence without repetition is no longer than a set that holds its elements. */
  lemma {:induction false} DistinctFits<T>(s: seq<T>, pool: set<T>)
    requires Distinct(s)
    requires forall i :: 0 <= i < |s| ==> s[i] in pool
    ensures |s| <= |pool|
  {
    if s != [] {
      DistinctFits(s[1..], pool - {s[0]});
    }
  }

  /** Some number is not in a finite set. */
  lemma {:induction false} FreshNumber(used: set<nat>) returns (n: nat)
    ensures n !in used
  {
    n := Above(used);
    assert n in used ==> n < n;
  }

  lemma {:induction false} Above(used: set<nat>) returns (n: nat)
    ensures forall m :: m in used ==> m < n
    decreases used
  {
    n := 0;
    if used != {} {
      var some :| some in used;
      var rest := Above(used - {some});
      n := if rest <= some then some + 1 else rest;
      forall m | m in used ensures m < n {
        assert m == some || m in used - {some};
      }
    }
  }

  // ---- products without multiplication ----

  /** `n` times `each`. */
  function Times(n: nat, each: nat): nat {
    if n == 0 then 0 else each + Times(n - 1, each)
  }

  lemma {:induction false} TimesMultiply(n: nat, each: nat)
    ensures Times(n, each) == n * each
  {
    if n > 0 {
      TimesMultiply(n - 1, each);
    }
  }

  lemma {:induction false} TimesGrows(n: nat, m: nat, each: nat)
    requires n <= m
    ensures Times(n, each) <= Times(m, each)
  {
    if n < m {
      TimesGrows(n, m - 1, each);
    }
  }
}
