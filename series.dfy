/** pandas float series as far as the cointegration pipeline uses them:
    observations that are a number or NaN, `Series.diff()` and
    `Series.dropna()`. Floating point is modelled by exact reals. */
module Series {

  /** One observation: a number, or NaN (pandas' missing value). */
  datatype Obs = Num(v: real) | NaN

  type Series = seq<Obs>

  /** Float subtraction as far as NaN goes: NaN if either operand is NaN. */
  function Sub(a: Obs, b: Obs): Obs
  {
    if a.Num? && b.Num? then Num(a.v - b.v) else NaN
  }

  /** `s.diff()`: the same length; the first entry is NaN and entry i is s[i] - s[i-1]. */
  function Diff(s: Series): (r: Series)
    ensures |r| == |s|
  {
    seq(|s|, i => if 0 < i < |s| then Sub(s[i], s[i - 1]) else NaN)
  }

  /** Entry i of `s.diff()` is NaN exactly when i is the first position or
      either s[i] or s[i-1] is NaN; otherwise it is s[i] - s[i-1]. */
  lemma DiffAt(s: Series, i: nat)
    requires i < |s|
    ensures Diff(s)[i].NaN? <==> i == 0 || s[i].NaN? || s[i - 1].NaN?
    ensures Diff(s)[i].Num? ==> Diff(s)[i].v == s[i].v - s[i - 1].v
  {
  }

  /** `d` successive applications of `diff()`; the length never changes. */
  function Diffs(s: Series, d: nat): (r: Series)
    ensures |r| == |s|
  {
    if d == 0 then s else Diff(Diffs(s, d - 1))
  }

  /** Each `diff()` adds one leading NaN: after d of them, the first d entries are NaN. */
  lemma {:induction false} DiffsLeadingNaNs(s: Series, d: nat, i: nat)
    requires i < d && i < |s|
    ensures |Diffs(s, d)| == |s|
    ensures Diffs(s, d)[i].NaN?
  {
    if i > 0 {
      DiffsLeadingNaNs(s, d - 1, i - 1);
    }
    DiffAfterNaN(Diffs(s, d - 1), i);
  }

  /** Entry i of `diff()` is NaN at the first position and right after a NaN. */
  lemma DiffAfterNaN(x: Series, i: nat)
    requires i < |x|
    requires i > 0 ==> x[i - 1].NaN?
    ensures |Diff(x)| == |x|
    ensures Diff(x)[i].NaN?
  {
  }

  predicate NoNaN(s: Series)
  {
    forall i :: 0 <= i < |s| ==> s[i].Num?
  }

  /** `s.dropna()`: the numbers of `s`, in order, without the NaNs. */
  function DropNa(s: Series): (r: Series)
    ensures NoNaN(r)
    ensures |r| <= |s|
  {
    if s == [] then []
    else if s[0].NaN? then DropNa(s[1..])
    else [s[0]] + DropNa(s[1..])
  }

  /** An observation survives `dropna()` exactly when it is a number of `s`. */
  lemma {:induction false} DropNaMembers(s: Series, x: Obs)
    ensures x in DropNa(s) <==> x in s && x.Num?
  {
    if s != [] {
      DropNaMembers(s[1..], x);
      assert s == [s[0]] + s[1..];
    }
  }

  /** A run of `k` missing values. */
  function NaNs(k: nat): Series
  {
    seq(k, _ => NaN)
  }

  /** A series of plain numbers. */
  function Lift(v: seq<real>): Series
  {
    seq(|v|, i => if 0 <= i < |v| then Num(v[i]) else NaN)
  }

  /** The numbers of a series that holds no NaN. */
  function Values(s: Series): seq<real>
    requires NoNaN(s)
  {
    seq(|s|, i => if 0 <= i < |s| && s[i].Num? then s[i].v else 0.0)
  }

  /** The first finite difference of a sequence of numbers: one element shorter. */
  function FiniteDiff(v: seq<real>): seq<real>
  {
    if |v| == 0 then [] else seq(|v| - 1, i => if 0 <= i < |v| - 1 then v[i + 1] - v[i] else 0.0)
  }

  /** The d-th finite difference. */
  function FiniteDiffs(v: seq<real>, d: nat): seq<real>
  {
    if d == 0 then v else FiniteDiff(FiniteDiffs(v, d - 1))
  }

  function Min(a: nat, b: nat): nat
  {
    if a <= b then a else b
  }

  /** The d-th finite difference of n numbers has n - d of them (none once d >= n). */
  lemma {:induction false} FiniteDiffsLength(v: seq<real>, d: nat)
    ensures |FiniteDiffs(v, d)| == if d <= |v| then |v| - d else 0
  {
    if d > 0 {
      FiniteDiffsLength(v, d - 1);
    }
  }

  lemma {:induction false} DropNaAppend(a: Series, b: Series)
    ensures DropNa(a + b) == DropNa(a) + DropNa(b)
  {
    if a != [] {
      assert (a + b)[0] == a[0];
      assert (a + b)[1..] == a[1..] + b;
      DropNaAppend(a[1..], b);
    } else {
      assert a + b == b;
    }
  }

  lemma {:induction false} DropNaOfNaNs(k: nat)
    ensures DropNa(NaNs(k)) == []
  {
    if k > 0 {
      assert NaNs(k)[1..] == NaNs(k - 1);
      DropNaOfNaNs(k - 1);
    }
  }

  lemma {:induction false} DropNaOfNumbers(v: seq<real>)
    ensures DropNa(Lift(v)) == Lift(v)
  {
    if v != [] {
      assert Lift(v)[1..] == Lift(v[1..]);
      DropNaOfNumbers(v[1..]);
      assert Lift(v) == [Lift(v)[0]] + Lift(v[1..]);
    }
  }

  /** One `diff()` of a series of `k` leading NaNs followed by numbers `v`:
      one more leading NaN (while numbers remain), then the finite difference of `v`. */
  lemma DiffOfPadded(k: nat, v: seq<real>)
    ensures Diff(NaNs(k) + Lift(v)) == NaNs(if |v| == 0 then k else k + 1) + Lift(FiniteDiff(v))
  {
    var s := NaNs(k) + Lift(v);
    var r := NaNs(if |v| == 0 then k else k + 1) + Lift(FiniteDiff(v));
    assert |r| == |s|;
    forall i | 0 <= i < |s|
      ensures Diff(s)[i] == r[i]
    {
      if i > k {
        assert s[i] == Num(v[i - k]) && s[i - 1] == Num(v[i - 1 - k]);
        assert r[i] == Num(FiniteDiff(v)[i - k - 1]);
      } else if 0 < i {
        assert s[i - 1] == NaN;
      }
    }
  }

  /** `d` applications of `diff()` to `k` leading NaNs followed by numbers `v`. */
  lemma {:induction false} DiffsOfPadded(k: nat, v: seq<real>, d: nat)
    ensures Diffs(NaNs(k) + Lift(v), d) == NaNs(k + Min(d, |v|)) + Lift(FiniteDiffs(v, d))
  {
    if d > 0 {
      var s := NaNs(k) + Lift(v);
      var k' := k + Min(d - 1, |v|);
      var w := FiniteDiffs(v, d - 1);
      DiffsOfPadded(k, v, d - 1);
      DiffCongruent(Diffs(s, d - 1), NaNs(k') + Lift(w));
      DiffOfPadded(k', w);
      FiniteDiffsLength(v, d - 1);
      PaddedCongruent(if |w| == 0 then k' else k' + 1, k + Min(d, |v|), FiniteDiff(w), FiniteDiffs(v, d));
    }
  }

  lemma DiffCongruent(a: Series, b: Series)
    requires a == b
    ensures Diff(a) == Diff(b)
  { }

  lemma PaddedCongruent(m: nat, n: nat, x: seq<real>, y: seq<real>)
    requires m == n && x == y
    ensures NaNs(m) + Lift(x) == NaNs(n) + Lift(y)
  { }

  /** After `d` differences and `dropna()`, a series of numbers that may start
      with missing values is exactly the d-th finite difference of its numbers. */
  lemma DropNaDiffsOfPadded(k: nat, v: seq<real>, d: nat)
    ensures DropNa(Diffs(NaNs(k) + Lift(v), d)) == Lift(FiniteDiffs(v, d))
    ensures |DropNa(Diffs(NaNs(k) + Lift(v), d))| == if d <= |v| then |v| - d else 0
  {
    DiffsOfPadded(k, v, d);
    DropNaAppend(NaNs(k + Min(d, |v|)), Lift(FiniteDiffs(v, d)));
    DropNaOfNaNs(k + Min(d, |v|));
    DropNaOfNumbers(FiniteDiffs(v, d));
    FiniteDiffsLength(v, d);
  }

  /** A NaN inside a series is spread by `diff()` to the next position, so the
      padded-series result above does not extend to interior NaNs: for
      [1, NaN, 3, 4] one difference and `dropna()` leave [1], not the finite
      difference [2, 1] of its numbers [1, 3, 4]. */
  lemma InteriorNaNSpreads()
    ensures var s := [Num(1.0), NaN, Num(3.0), Num(4.0)];
      && DropNa(Diffs(s, 1)) == [Num(1.0)]
      && Values(DropNa(s)) == [1.0, 3.0, 4.0]
      && FiniteDiff(Values(DropNa(s))) == [2.0, 1.0]
  {
    var s := [Num(1.0), NaN, Num(3.0), Num(4.0)];
    assert Diffs(s, 1) == Diff(s);
    assert Diff(s) == NaNs(3) + Lift([1.0]);
    DropNaAppend(NaNs(3), Lift([1.0]));
    DropNaOfNaNs(3);
    DropNaOfNumbers([1.0]);
    assert DropNa(s) == [Num(1.0), Num(3.0), Num(4.0)];
  }
}
