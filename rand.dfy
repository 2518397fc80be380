/** The simulation's single random stream (`sim.seed`, a `random.Random`).
    Every draw is an explicit input: the stream is a tape of uniform values
    in [0, 1) read in order, plus a tape of standard normal deviates for
    `normalvariate`. The operations consume the tape in the order the
    library functions the engine calls consume their draws. */
module Rand {
  import opened Config
  import opened Arith

  /** The total of the first n weights, accumulated from the left. */
  function Prefix(w: seq<real>, n: nat): real
    requires n <= |w|
  {
    if n == 0 then 0.0 else Prefix(w, n - 1) + w[n - 1]
  }

  /** The total of all weights. */
  function Sum(w: seq<real>): real
  {
    Prefix(w, |w|)
  }

  /** `itertools.accumulate(w)`: the running totals, cum[i] = w[0] + ... + w[i]. */
  function Accumulate(w: seq<real>): (cum: seq<real>)
    ensures |cum| == |w|
    ensures forall i :: 0 <= i < |w| ==> cum[i] == Prefix(w, i + 1)
  {
    seq(|w|, i requires 0 <= i < |w| => Prefix(w, i + 1))
  }

  /** Running totals of non-negative weights never decrease. */
  lemma {:induction false} PrefixMonotone(w: seq<real>, i: nat, j: nat)
    requires forall k :: 0 <= k < |w| ==> w[k] >= 0.0
    requires i <= j <= |w|
    ensures Prefix(w, i) <= Prefix(w, j)
  {
    if i < j {
      PrefixMonotone(w, i, j - 1);
    }
  }

  /** `bisect.bisect_right(a, x, 0, hi)`, Python's binary search. On a sorted
      prefix it returns the first position whose value is above x, or hi. */
  method Bisect(a: seq<real>, x: real, hi: nat) returns (i: nat)
    requires hi <= |a|
    requires forall m, n :: 0 <= m <= n < hi ==> a[m] <= a[n]
    ensures i <= hi
    ensures forall m :: 0 <= m < i ==> a[m] <= x
    ensures forall m :: i <= m < hi ==> x < a[m]
  {
    var lo, top := 0, hi;
    while lo < top
      invariant 0 <= lo <= top <= hi
      invariant forall m :: 0 <= m < lo ==> a[m] <= x
      invariant forall m :: top <= m < hi ==> x < a[m]
    {
      var mid := (lo + top) / 2;
      if x < a[mid] {
        top := mid;
      } else {
        lo := mid + 1;
      }
    }
    i := lo;
  }

  /** What `random.choices(population, weights)` returns for k = 1: the
      position `bisect_right(cum, u * total, 0, n - 1)`. */
  ghost predicate WeightedPick(w: seq<real>, u: real, i: nat)
    requires |w| > 0
  {
    var cum := Accumulate(w);
    && i < |w|
    && (forall m :: 0 <= m < i ==> cum[m] <= u * Sum(w))
    && (forall m :: i <= m < |w| - 1 ==> u * Sum(w) < cum[m])
  }

  /** With non-negative weights of positive total, a weighted pick never
      lands on an entry of weight zero. */
  lemma PickHasPositiveWeight(w: seq<real>, u: real, i: nat)
    requires |w| > 0
    requires Sum(w) > 0.0 && 0.0 <= u < 1.0
    requires WeightedPick(w, u, i)
    ensures w[i] > 0.0
  {
    var x := u * Sum(w);
    MulNonneg(u, Sum(w));
    assert x < Sum(w) by {
      MulStrict(u, 1.0, Sum(w));
    }
    assert x < Prefix(w, i + 1) by {
      if i < |w| - 1 {
        assert x < Accumulate(w)[i];
      }
    }
    assert Prefix(w, i) <= x by {
      if i > 0 {
        assert Accumulate(w)[i - 1] <= x;
      }
    }
  }

  /** The running totals of non-negative weights are sorted. */
  lemma AccumulateSorted(w: seq<real>)
    requires forall k :: 0 <= k < |w| ==> w[k] >= 0.0
    ensures forall m, n :: 0 <= m <= n < |w| ==> Accumulate(w)[m] <= Accumulate(w)[n]
  {
    forall m, n | 0 <= m <= n < |w| ensures Accumulate(w)[m] <= Accumulate(w)[n] {
      PrefixMonotone(w, m + 1, n + 1);
    }
  }

  /** What Bisect returns over the running totals is a weighted pick, and
      it lands on a positive weight. */
  lemma PickFound(w: seq<real>, u: real, i: nat)
    requires |w| > 0 && Sum(w) > 0.0 && 0.0 <= u < 1.0 && i <= |w| - 1
    requires forall m :: 0 <= m < i ==> Accumulate(w)[m] <= u * Sum(w)
    requires forall m :: i <= m < |w| - 1 ==> u * Sum(w) < Accumulate(w)[m]
    ensures WeightedPick(w, u, i) && w[i] > 0.0
  {
    PickHasPositiveWeight(w, u, i);
  }

  /** Between(x, a, b): x lies in the closed interval spanned by a and b,
      whichever of the two is smaller. */
  predicate Between(x: real, a: real, b: real)
  {
    if a <= b then a <= x <= b else b <= x <= a
  }

  /** `uniform(a, b)` for the draw u: a + (b - a) * u. */
  function UniformOf(a: real, b: real, u: real): real
  {
    a + (b - a) * u
  }

  /** A uniform value lies between its bounds. */
  lemma UniformBetween(a: real, b: real, u: real)
    requires 0.0 <= u < 1.0
    ensures Between(UniformOf(a, b, u), a, b)
  {
    var x := UniformOf(a, b, u);
    ScaleWithinUnit(b - a, u);
    if a <= b {
      assert a <= x <= b;
    } else {
      assert b <= x <= a;
    }
  }

  /** The index a uniform draw u selects out of n: floor(u * n). */
  function Index(u: real, n: nat): (j: int)
    requires 0.0 <= u < 1.0 && n > 0
    ensures 0 <= j < n
  {
    var x := u * n as real;
    assert 0.0 <= x < n as real by {
      MulNonneg(u, n as real);
      MulStrict(u, 1.0, n as real);
    }
    assert x.Floor as real <= x;
    x.Floor
  }

  /** Overwriting position j of the pool's first m elements with the m-th
      one and shortening the pool by one takes exactly pool[j] out. */
  lemma PoolStep<T>(pool: seq<T>, m: nat, j: nat)
    requires j < m <= |pool|
    ensures multiset(pool[j := pool[m - 1]][..m - 1]) + multiset{pool[j]} == multiset(pool[..m])
  {
    var q := pool[..m];
    assert pool[j := pool[m - 1]][..m - 1] == q[j := q[m - 1]][..m - 1];
    if j == m - 1 {
      assert q == q[..m - 1] + [q[m - 1]];
    } else {
      assert q == q[..j] + [q[j]] + q[j + 1..m - 1] + [q[m - 1]];
      assert q[j := q[m - 1]][..m - 1] == q[..j] + [q[m - 1]] + q[j + 1..m - 1];
    }
  }

  /** `random.shuffle` of a copy of a list: a permutation of it. */
  method Shuffled<T>(rng: Rng, items: seq<T>) returns (order: seq<T>)
    requires rng.Valid()
    modifies rng`pos
    ensures multiset(order) == multiset(items) && |order| == |items|
    ensures forall i :: 0 <= i < |order| ==> order[i] in items
    ensures rng.pos == old(rng.pos) + (if items == [] then 0 else |items| - 1)
  {
    var a := new T[|items|](i requires 0 <= i < |items| => items[i]);
    assert a[..] == items;
    rng.Shuffle(a);
    order := a[..];
    forall i | 0 <= i < |order| ensures order[i] in items {
      assert order[i] in multiset(order);
    }
  }

  /** `random.Random`: a position on a tape of uniform draws in [0, 1), and
      one on a tape of standard normal deviates. */
  class Rng {
    const draw: nat -> real
    const normal: nat -> real
    var pos: nat
    var normalPos: nat

    ghost predicate Valid() {
      forall k: nat :: 0.0 <= draw(k) < 1.0
    }

    constructor (draw: nat -> real, normal: nat -> real)
      requires forall k: nat :: 0.0 <= draw(k) < 1.0
      ensures Valid() && this.draw == draw && this.normal == normal
      ensures pos == 0 && normalPos == 0
    {
      this.draw, this.normal := draw, normal;
      pos, normalPos := 0, 0;
    }

    /** `random()`: the next uniform draw. */
    method Random() returns (u: real)
      requires Valid()
      modifies this`pos
      ensures u == draw(old(pos)) && pos == old(pos) + 1
      ensures 0.0 <= u < 1.0
    {
      u := draw(pos);
      pos := pos + 1;
    }

    /** `_randbelow(n)`: an index below n from the next draw. */
    method RandBelow(n: nat) returns (j: nat)
      requires Valid() && n > 0
      modifies this`pos
      ensures j == Index(draw(old(pos)), n) && pos == old(pos) + 1
      ensures j < n
    {
      var u := Random();
      j := Index(u, n);
    }

    /** `uniform(a, b)`: a + (b - a) * random(). */
    method Uniform(a: real, b: real) returns (x: real)
      requires Valid()
      modifies this`pos
      ensures x == UniformOf(a, b, draw(old(pos))) && pos == old(pos) + 1
      ensures Between(x, a, b)
    {
      var u := Random();
      x := UniformOf(a, b, u);
      UniformBetween(a, b, u);
    }

    /** `normalvariate(mu, sigma)`: mu + z * sigma for the next deviate z. */
    method NormalVariate(mu: real, sigma: real) returns (x: real)
      modifies this`normalPos
      ensures x == mu + normal(old(normalPos)) * sigma
      ensures normalPos == old(normalPos) + 1
    {
      x := mu + normal(normalPos) * sigma;
      normalPos := normalPos + 1;
    }

    /** `shuffle(a)`, in place: for i from len-1 down to 1, swap a[i] with
        a[randbelow(i + 1)]. The result is a permutation of the input. */
    method Shuffle<T>(a: array<T>)
      requires Valid()
      modifies this`pos, a
      ensures multiset(a[..]) == old(multiset(a[..]))
      ensures pos == old(pos) + (if a.Length == 0 then 0 else a.Length - 1)
    {
      var i: int := a.Length - 1;
      while i > 0
        invariant -1 <= i < a.Length
        invariant a.Length > 0 ==> i >= 0
        invariant multiset(a[..]) == old(multiset(a[..]))
        invariant pos == old(pos) + (a.Length - 1 - i)
      {
        var j := RandBelow(i + 1);
        a[i], a[j] := a[j], a[i];
        i := i - 1;
      }
    }

    /** `sample(population, k)` for a population of at most 21 elements
        (Python then draws from a shrinking pool): k elements drawn without
        replacement. */
    method Sample<T>(population: seq<T>, k: nat) returns (s: seq<T>)
      requires Valid() && k <= |population|
      modifies this`pos
      ensures |s| == k && multiset(s) <= multiset(population)
      ensures pos == old(pos) + k
    {
      var n := |population|;
      var pool := population;
      s := [];
      assert pool[..n] == population;
      var i := 0;
      while i < k
        invariant 0 <= i <= k && |s| == i && |pool| == n
        invariant multiset(s) + multiset(pool[..n - i]) == multiset(population)
        invariant pos == old(pos) + i
      {
        var j := RandBelow(n - i);
        PoolStep(pool, n - i, j);
        s := s + [pool[j]];
        pool := pool[j := pool[n - i - 1]];
        i := i + 1;
      }
    }

    /** `choices(items, weights)[0]`, by position: None where Python raises
        ValueError (no items, or a total weight that is not positive), and
        no draw is consumed then. */
    method Choices(weights: seq<real>) returns (pick: Option<nat>)
      requires Valid()
      requires forall k :: 0 <= k < |weights| ==> weights[k] >= 0.0
      modifies this`pos
      ensures pick.None? <==> (weights == [] || Sum(weights) <= 0.0)
      ensures pick.None? ==> pos == old(pos)
      ensures pick.Some? ==> pos == old(pos) + 1 && WeightedPick(weights, draw(old(pos)), pick.value)
      ensures pick.Some? ==> pick.value < |weights| && weights[pick.value] > 0.0
    {
      if weights == [] {
        return None;
      }
      var cum := Accumulate(weights);
      var total := cum[|cum| - 1] + 0.0;
      if total <= 0.0 {
        return None;
      }
      var u := Random();
      AccumulateSorted(weights);
      var i := Bisect(cum, u * total, |weights| - 1);
      PickFound(weights, u, i);
      pick := Some(i);
    }
  }
}
