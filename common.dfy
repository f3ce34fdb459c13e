/** Numbers and sequence operations shared by the three testers: the Python
    list idioms they use (`[x] * n`, `s * n`, boolean masks, fixed-size
    grouping) and numpy's closeness test. */
module Common {

  datatype Option<T> = None | Some(value: T)

  /** numpy.isclose's default relative tolerance. */
  const IsCloseRtol: real := 0.00001

  /** The absolute tolerance both testers pass to np.isclose. */
  const Atol: real := 0.01

  function Abs(x: real): real { if x < 0.0 then -x else x }

  function Min(a: int, b: int): int { if a < b then a else b }

  /** Python's `[x] * n` and `range(n)` treat a negative count as zero. */
  function Max0(n: int): nat { if n > 0 then n else 0 }

  /** Python's int() applied to a float: truncation toward zero. */
  function Trunc(x: real): (r: int)
    ensures Abs(r as real) <= Abs(x) < Abs(r as real) + 1.0
    ensures r != 0 ==> (r > 0 <==> x > 0.0)
  {
    if x >= 0.0 then x.Floor else -((-x).Floor)
  }

  /** n copies of x added up: the total of n equal waits. */
  function Times(n: nat, x: real): real
  {
    if n == 0 then 0.0 else Times(n - 1, x) + x
  }

  lemma {:induction false} TimesIsProduct(n: nat, x: real)
    ensures Times(n, x) == n as real * x
  {
    if n > 0 {
      TimesIsProduct(n - 1, x);
    }
  }

  /** n blocks of w samples each, added up. */
  function Count(n: nat, w: nat): nat
  {
    if n == 0 then 0 else Count(n - 1, w) + w
  }

  lemma {:induction false} CountIsProduct(n: nat, w: nat)
    ensures Count(n, w) == n * w
  {
    if n > 0 {
      CountIsProduct(n - 1, w);
      MulSucc(n - 1, w);
    }
  }

  /** numpy.isclose(a, b, atol=atol): |a - b| <= atol + rtol * |b|. The
      tolerance grows with the reference b only, so the test is not
      symmetric in a and b. */
  predicate IsClose(a: real, b: real, atol: real): (r: bool)
    ensures r <==> b - (atol + IsCloseRtol * Abs(b)) <= a <= b + (atol + IsCloseRtol * Abs(b))
    ensures a == b && atol >= 0.0 ==> r
  {
    Abs(a - b) <= atol + IsCloseRtol * Abs(b)
  }

  /** `[x] * n` */
  function Repeat<T>(x: T, n: int): (r: seq<T>)
    ensures |r| == Max0(n)
    ensures forall i :: 0 <= i < |r| ==> r[i] == x
  {
    seq(Max0(n), _ => x)
  }

  /** `s * n` for a list s: n copies of s one after the other. */
  function RepeatSeq<T>(s: seq<T>, n: int): seq<T>
    decreases Max0(n)
  {
    if n <= 0 then [] else s + RepeatSeq(s, n - 1)
  }

  /** Euclidean division is determined by its quotient-remainder equation. */
  lemma DivModUnique(a: int, m: int, q: int, r: int)
    requires m > 0 && 0 <= r < m && a == q * m + r
    ensures a / m == q && a % m == r
  {
    var d, e := a / m, a % m;
    assert d * m + e == q * m + r;
    if d < q {
      MulLe(d + 1, q, m);
    } else if d > q {
      MulLe(q + 1, d, m);
    }
  }

  /** One more copy of k. */
  lemma MulSucc(n: int, k: int)
    ensures (n + 1) * k == n * k + k
  {
  }

  lemma MulLe(x: int, y: int, m: int)
    requires x <= y && m >= 0
    ensures x * m <= y * m
  {
    assert y * m - x * m == (y - x) * m;
  }

  lemma ModStep(k: int, m: int)
    requires m > 0 && k >= m
    ensures (k - m) % m == k % m
  {
    var q, r := (k - m) / m, (k - m) % m;
    DivModUnique(k - m, m, q, r);
    DivModUnique(k, m, q + 1, r);
  }

  lemma {:induction false} RepeatSeqLength<T>(s: seq<T>, n: int)
    ensures |RepeatSeq(s, n)| == |s| * Max0(n)
    decreases Max0(n)
  {
    if n > 0 {
      RepeatSeqLength(s, n - 1);
      assert |s| * Max0(n) == |s| + |s| * Max0(n - 1);
    }
  }

  /** Element k of `s * n` is element k mod |s| of s. */
  lemma {:induction false} RepeatSeqAt<T>(s: seq<T>, n: int, k: int)
    requires |s| > 0 && 0 <= k < |RepeatSeq(s, n)|
    ensures RepeatSeq(s, n)[k] == s[k % |s|]
    decreases Max0(n)
  {
    assert n > 0;
    var rest := RepeatSeq(s, n - 1);
    assert RepeatSeq(s, n) == s + rest;
    if k < |s| {
      DivModUnique(k, |s|, 0, k);
    } else {
      RepeatSeqAt(s, n - 1, k - |s|);
      ModStep(k, |s|);
    }
  }

  lemma ConcatAssoc<T>(a: seq<T>, b: seq<T>, c: seq<T>, d: seq<T>)
    ensures a + b + c + d == a + (b + c + d)
  {
  }

  /** The elements of s that satisfy keep, in their original order: a boolean mask. */
  function Filter<T>(s: seq<T>, keep: T -> bool): (r: seq<T>)
    ensures |r| <= |s|
    ensures forall x :: x in r ==> x in s && keep(x)
  {
    if s == [] then [] else (if keep(s[0]) then [s[0]] else []) + Filter(s[1..], keep)
  }

  /** Filtering a concatenation filters each part: the kept elements keep their order. */
  lemma {:induction false} FilterAppend<T>(a: seq<T>, b: seq<T>, keep: T -> bool)
    ensures Filter(a + b, keep) == Filter(a, keep) + Filter(b, keep)
  {
    if a == [] {
      assert a + b == b;
    } else {
      var head := if keep(a[0]) then [a[0]] else [];
      assert (a + b)[1..] == a[1..] + b;
      assert Filter(a + b, keep) == head + Filter(a[1..] + b, keep);
      FilterAppend(a[1..], b, keep);
    }
  }

  /** Every element that satisfies keep is kept. */
  lemma {:induction false} FilterComplete<T>(s: seq<T>, keep: T -> bool, x: T)
    requires x in s && keep(x)
    ensures x in Filter(s, keep)
  {
    if s[0] != x {
      FilterComplete(s[1..], keep, x);
    }
  }

  function Sum(s: seq<real>): real
  {
    if s == [] then 0.0 else Sum(s[..|s| - 1]) + s[|s| - 1]
  }

  /** pandas' Series.mean() of a non-empty block. */
  function Mean(s: seq<real>): real
    requires |s| > 0
  {
    Sum(s) / |s| as real
  }

  lemma {:induction false} SumBounds(s: seq<real>, lo: real, hi: real)
    requires forall i :: 0 <= i < |s| ==> lo <= s[i] <= hi
    ensures |s| as real * lo <= Sum(s) <= |s| as real * hi
  {
    if s != [] {
      SumBounds(s[..|s| - 1], lo, hi);
    }
  }

  /** The mean of a block lies within the range of its values. */
  lemma MeanBounds(s: seq<real>, lo: real, hi: real)
    requires |s| > 0
    requires forall i :: 0 <= i < |s| ==> lo <= s[i] <= hi
    ensures lo <= Mean(s) <= hi
  {
    SumBounds(s, lo, hi);
    var n := |s| as real;
    assert n * lo <= Sum(s) <= n * hi;
    assert Sum(s) / n >= lo by {
      assert Sum(s) / n * n == Sum(s);
    }
    assert Sum(s) / n <= hi by {
      assert Sum(s) / n * n == Sum(s);
    }
  }

  /** The complete consecutive blocks of k elements of s; a trailing
      incomplete block is dropped. */
  function Blocks<T>(s: seq<T>, k: nat): (r: seq<seq<T>>)
    requires k > 0
    ensures forall j :: 0 <= j < |r| ==> |r[j]| == k
    decreases |s|
  {
    if |s| < k then [] else [s[..k]] + Blocks(s[k..], k)
  }

  /** There are floor(|s| / k) blocks. */
  lemma {:induction false} BlocksCount<T>(s: seq<T>, k: nat)
    requires k > 0
    ensures |Blocks(s, k)| * k <= |s| < |Blocks(s, k)| * k + k
    ensures |Blocks(s, k)| == |s| / k
    decreases |s|
  {
    var b := Blocks(s, k);
    if |s| >= k {
      var rest := Blocks(s[k..], k);
      assert |rest| * k <= |s| - k < |rest| * k + k by { BlocksCount(s[k..], k); }
      assert |b| == |rest| + 1;
      MulSucc(|rest|, k);
    }
    DivModUnique(|s|, k, |b|, |s| - |b| * k);
  }

  /** Block j is s[j*k .. j*k + k]. */
  lemma {:induction false} BlocksAt<T>(s: seq<T>, k: nat)
    requires k > 0
    ensures forall j :: 0 <= j < |Blocks(s, k)| ==>
              j * k + k <= |s| && Blocks(s, k)[j] == s[j * k .. j * k + k]
    decreases |s|
  {
    var b := Blocks(s, k);
    if |s| >= k {
      var rest := Blocks(s[k..], k);
      BlocksAt(s[k..], k);
      assert b == [s[..k]] + rest;
      forall j | 0 <= j < |b|
        ensures j * k + k <= |s| && b[j] == s[j * k .. j * k + k]
      {
        if j > 0 {
          assert b[j] == rest[j - 1];
          MulSucc(j - 1, k);
          assert s[k..][(j - 1) * k .. (j - 1) * k + k] == s[j * k .. j * k + k];
        }
      }
    }
  }

  /** The grouping loop: walk s in steps of k and keep each slice that is a
      complete block. */
  method CompleteBlocks<T>(s: seq<T>, k: nat) returns (groups: seq<seq<T>>)
    requires k > 0
    ensures groups == Blocks(s, k)
  {
    groups := [];
    var idx := 0;
    while idx < |s|
      invariant idx <= |s| ==> groups + Blocks(s[idx..], k) == Blocks(s, k)
      invariant idx > |s| ==> groups == Blocks(s, k)
      decreases |s| - idx
    {
      var block := s[idx .. if idx + k <= |s| then idx + k else |s|];
      if |block| == k {
        assert s[idx..][..k] == block;
        assert s[idx..][k..] == s[idx + k..];
        groups := groups + [block];
      }
      idx := idx + k;
    }
  }
}
