/** The numpy primitives the red-tag engine is built from, over exact reals:
    float division with its infinities and NaN, the strict `>` test against a
    threshold, `nanmax`, masked `sum`, element-wise `fmax` of 0/1 masks and
    `unique` (sorted distinct values). */
module Numerics {

  /** The value of a float division `n / d` of two finite numbers: a division
      by zero gives an infinity signed like `n`, or NaN when `n` is zero too. */
  datatype Ratio = Finite(value: real) | PosInf | NegInf | NaN

  function Divide(n: real, d: real): Ratio
  {
    if d != 0.0 then Finite(n / d)
    else if n > 0.0 then PosInf
    else if n < 0.0 then NegInf
    else NaN
  }

  /** `r > t` for a finite threshold `t`; every comparison with NaN is false. */
  predicate Exceeds(r: Ratio, t: real)
  {
    match r
    case Finite(v) => v > t
    case PosInf => true
    case NegInf => false
    case NaN => false
  }

  /** A quotient with a zero divisor exceeds a non-negative threshold exactly
      when the dividend is positive: 0/0 is NaN and never tags, x/0 with x > 0
      is +inf and always tags. */
  lemma ZeroDivisorExceeds(n: real, t: real)
    requires t >= 0.0
    ensures Exceeds(Divide(n, 0.0), t) <==> n > 0.0
  {
  }

  /** A non-positive dividend over a non-negative divisor never exceeds a
      non-negative threshold. */
  lemma NonPositiveNeverExceeds(n: real, q: real, t: real)
    requires n <= 0.0 && q >= 0.0 && t >= 0.0
    ensures !Exceeds(Divide(n, q), t)
  {
  }

  /** Anything above a threshold is above every lower threshold. */
  lemma ExceedsLower(r: Ratio, t: real, t': real)
    requires t' <= t && Exceeds(r, t)
    ensures Exceeds(r, t')
  {
  }

  /** numpy `fmax` of two values: NaN loses to any number. */
  function NanMax2(a: Ratio, b: Ratio): Ratio
  {
    if a.NaN? then b
    else if b.NaN? then a
    else if a.PosInf? || b.NegInf? then a
    else if b.PosInf? || a.NegInf? then b
    else if a.value >= b.value then a
    else b
  }

  /** numpy `nanmax` over a non-empty vector: NaN entries are ignored; an
      all-NaN vector gives NaN. */
  function NanMax(rs: seq<Ratio>): Ratio
    requires |rs| > 0
  {
    if |rs| == 1 then rs[0] else NanMax2(NanMax(rs[..|rs| - 1]), rs[|rs| - 1])
  }

  /** The `nanmax` of some ratios exceeds a threshold exactly when one of them does. */
  lemma {:induction false} NanMaxExceeds(rs: seq<Ratio>, t: real)
    requires |rs| > 0
    ensures Exceeds(NanMax(rs), t) <==> exists i :: 0 <= i < |rs| && Exceeds(rs[i], t)
  {
    if |rs| > 1 {
      var init := rs[..|rs| - 1];
      NanMaxExceeds(init, t);
      assert forall i :: 0 <= i < |init| ==> init[i] == rs[i];
    }
  }

  /** `nanmax` over a non-empty vector of finite values. */
  function Max(xs: seq<real>): real
    requires |xs| > 0
  {
    if |xs| == 1 then xs[0]
    else
      var p := Max(xs[..|xs| - 1]);
      if xs[|xs| - 1] > p then xs[|xs| - 1] else p
  }

  /** The `nanmax` of a vector is one of its entries and no entry is larger. */
  lemma {:induction false} MaxIsLargest(xs: seq<real>)
    requires |xs| > 0
    ensures forall i :: 0 <= i < |xs| ==> xs[i] <= Max(xs)
    ensures exists i :: 0 <= i < |xs| && xs[i] == Max(xs)
  {
    if |xs| > 1 {
      var init := xs[..|xs| - 1];
      MaxIsLargest(init);
      assert forall i :: 0 <= i < |init| ==> init[i] == xs[i];
      if xs[|xs| - 1] > Max(init) {
        assert xs[|xs| - 1] == Max(xs);
      } else {
        var k :| 0 <= k < |init| && init[k] == Max(init);
        assert xs[k] == Max(xs);
      }
    } else {
      assert xs[0] == Max(xs);
    }
  }

  /** `nanmax` of a 0/1 vector (or `fmax` folded over it): whether some entry
      is set. Taken over a prefix, it is the running OR a loop accumulates. */
  predicate Any(bs: seq<bool>)
  {
    |bs| > 0 && (Any(bs[..|bs| - 1]) || bs[|bs| - 1])
  }

  /** The OR of a vector is set exactly when one of its entries is. */
  lemma {:induction false} AnySome(bs: seq<bool>)
    ensures Any(bs) <==> exists i :: 0 <= i < |bs| && bs[i]
  {
    if |bs| > 0 {
      var init := bs[..|bs| - 1];
      AnySome(init);
      assert forall i :: 0 <= i < |init| ==> init[i] == bs[i];
    }
  }

  /** The OR is monotone: setting more entries never clears it. */
  lemma {:induction false} AnyMonotone(a: seq<bool>, b: seq<bool>)
    requires |a| == |b| && forall i :: 0 <= i < |a| && a[i] ==> b[i]
    ensures Any(a) ==> Any(b)
  {
    if |a| > 0 {
      AnyMonotone(a[..|a| - 1], b[..|b| - 1]);
    }
  }

  /** Extending a prefix by one entry ORs that entry in. */
  lemma AnyStep(bs: seq<bool>, n: nat)
    requires n < |bs|
    ensures Any(bs[..n + 1]) == (Any(bs[..n]) || bs[n])
  {
    assert bs[..n + 1][..n] == bs[..n];
  }

  /** Unset entries after position `k` change nothing: a buffer sized for
      more entries than were written has the OR of the written part. */
  lemma {:induction false} AnyTrailing(bs: seq<bool>, k: nat)
    requires k <= |bs|
    requires forall i :: k <= i < |bs| ==> !bs[i]
    ensures Any(bs) == Any(bs[..k])
  {
    if |bs| == k {
      assert bs[..k] == bs;
    } else {
      AnyTrailing(bs[..|bs| - 1], k);
      assert bs[..|bs| - 1][..k] == bs[..k];
    }
  }

  /** `np.sum(xs[keep])`: the sum of the entries a boolean mask selects. */
  function MaskedSum(xs: seq<real>, keep: seq<bool>): real
    requires |xs| == |keep|
  {
    if |xs| == 0 then 0.0
    else MaskedSum(xs[..|xs| - 1], keep[..|keep| - 1]) + (if keep[|keep| - 1] then xs[|xs| - 1] else 0.0)
  }

  /** A sum over selected entries that are all zero is zero. */
  lemma {:induction false} MaskedSumOfZeros(xs: seq<real>, keep: seq<bool>)
    requires |xs| == |keep|
    requires forall i :: 0 <= i < |xs| && keep[i] ==> xs[i] == 0.0
    ensures MaskedSum(xs, keep) == 0.0
  {
    if |xs| > 0 {
      MaskedSumOfZeros(xs[..|xs| - 1], keep[..|keep| - 1]);
    }
  }

  /** A positive sum over selected entries has a selected positive entry. */
  lemma {:induction false} MaskedSumPositive(xs: seq<real>, keep: seq<bool>)
    requires |xs| == |keep| && MaskedSum(xs, keep) > 0.0
    ensures exists i :: 0 <= i < |xs| && keep[i] && xs[i] > 0.0
  {
    var n := |xs| - 1;
    if MaskedSum(xs[..n], keep[..n]) > 0.0 {
      MaskedSumPositive(xs[..n], keep[..n]);
      var i :| 0 <= i < n && keep[..n][i] && xs[..n][i] > 0.0;
      assert keep[i] && xs[i] > 0.0;
    } else {
      assert keep[n] && xs[n] > 0.0;
    }
  }

  /** Element-wise `fmax` of two 0/1 masks of the same length. */
  function Or(a: seq<bool>, b: seq<bool>): seq<bool>
    requires |a| == |b|
  {
    seq(|a|, j requires 0 <= j < |a| => a[j] || b[j])
  }

  /** An all-zero mask (`np.zeros`). */
  function Zeros(n: nat): seq<bool>
  {
    seq(n, _ => false)
  }

  ghost predicate Increasing(xs: seq<int>)
  {
    forall i, j :: 0 <= i < j < |xs| ==> xs[i] < xs[j]
  }

  /** Adds `x` to a strictly increasing sequence unless it is already there. */
  function Insert(xs: seq<int>, x: int): seq<int>
  {
    if |xs| == 0 then [x]
    else if x < xs[0] then [x] + xs
    else if x == xs[0] then xs
    else [xs[0]] + Insert(xs[1..], x)
  }

  /** Inserting adds `x` and keeps every value already there. */
  lemma {:induction false} InsertMembers(xs: seq<int>, x: int)
    ensures forall y :: y in Insert(xs, x) <==> y in xs || y == x
  {
    if |xs| > 0 && x > xs[0] {
      InsertMembers(xs[1..], x);
      assert xs == [xs[0]] + xs[1..];
    }
  }

  /** Inserting into a strictly increasing sequence keeps it strictly increasing. */
  lemma {:induction false} InsertKeepsOrder(xs: seq<int>, x: int)
    requires Increasing(xs)
    ensures Increasing(Insert(xs, x))
  {
    if |xs| > 0 && x > xs[0] {
      var tail := xs[1..];
      InsertKeepsOrder(tail, x);
      InsertMembers(tail, x);
      var rest := Insert(tail, x);
      forall i | 0 <= i < |rest|
        ensures xs[0] < rest[i]
      {
        assert rest[i] in rest;
      }
    }
  }

  /** `np.unique`: the distinct values, in increasing order. */
  function Unique(xs: seq<int>): seq<int>
  {
    if |xs| == 0 then [] else Insert(Unique(xs[..|xs| - 1]), xs[|xs| - 1])
  }

  /** The result of `np.unique` is strictly increasing and holds exactly the
      values of its input. */
  lemma {:induction false} UniqueSortedDistinct(xs: seq<int>)
    ensures Increasing(Unique(xs))
    ensures forall y :: y in Unique(xs) <==> y in xs
  {
    if |xs| > 0 {
      UniqueSortedDistinct(xs[..|xs| - 1]);
      InsertKeepsOrder(Unique(xs[..|xs| - 1]), xs[|xs| - 1]);
      InsertMembers(Unique(xs[..|xs| - 1]), xs[|xs| - 1]);
      assert xs == xs[..|xs| - 1] + [xs[|xs| - 1]];
    }
  }

  /** `xs[xs != v]`: the entries other than `v`, in their order. */
  function Without(xs: seq<int>, v: int): (r: seq<int>)
    ensures |r| <= |xs|
  {
    if |xs| == 0 then []
    else if xs[0] == v then Without(xs[1..], v)
    else [xs[0]] + Without(xs[1..], v)
  }

  /** Filtering keeps exactly the values other than `v`. */
  lemma {:induction false} WithoutMembers(xs: seq<int>, v: int)
    ensures forall y :: y in Without(xs, v) <==> y in xs && y != v
  {
    if |xs| > 0 {
      WithoutMembers(xs[1..], v);
      assert xs == [xs[0]] + xs[1..];
    }
  }

  /** Filtering keeps exactly the other values and keeps an increasing sequence increasing. */
  lemma {:induction false} WithoutKeepsOrder(xs: seq<int>, v: int)
    ensures forall y :: y in Without(xs, v) <==> y in xs && y != v
    ensures Increasing(xs) ==> Increasing(Without(xs, v))
  {
    WithoutMembers(xs, v);
    if |xs| > 0 && Increasing(xs) {
      var tail := xs[1..];
      WithoutKeepsOrder(tail, v);
      var rest := Without(tail, v);
      forall i | 0 <= i < |rest|
        ensures xs[0] < rest[i]
      {
        assert rest[i] in rest;
        var k :| 0 <= k < |tail| && tail[k] == rest[i];
        assert xs[k + 1] == rest[i];
      }
    }
  }
}
