/** Sparse keyword vectors in exact arithmetic: normalisation and cosine similarity. */
module Similarity {
  import opened Wrappers

  newtype Dim = x: int | 0 <= x < 0x1_0000_0000

  type Weights = map<Dim, real>

  // A value as it arrives; numbers are exact.
  datatype Float = Number(x: real) | Infinite | NaN

  datatype SparseVector = SparseVector(indices: seq<Dim>, values: seq<Float>)

  // ---- sums over finite sets, in any order ----

  ghost function Sum(s: set<Dim>, f: Dim -> real): real {
    if s == {} then 0.0
    else
      var x :| x in s;
      f(x) + Sum(s - {x}, f)
  }

  lemma {:induction false} SumTake(s: set<Dim>, f: Dim -> real, x: Dim)
    requires x in s
    ensures Sum(s, f) == f(x) + Sum(s - {x}, f)
    decreases |s|
  {
    var y :| y in s && Sum(s, f) == f(y) + Sum(s - {y}, f);
    if x != y {
      SumTake(s - {y}, f, x);
      SumTake(s - {x}, f, y);
      assert s - {x} - {y} == s - {y} - {x};
    }
  }

  lemma {:induction false} SumWiden(s: set<Dim>, t: set<Dim>, f: Dim -> real)
    requires s <= t && forall x | x in t - s :: f(x) == 0.0
    ensures Sum(t, f) == Sum(s, f)
    decreases |t|
  {
    if t - s == {} {
      assert s == t;
    } else {
      var x :| x in t - s;
      SumTake(t, f, x);
      SumWiden(s, t - {x}, f);
    }
  }

  lemma {:induction false} SumMonotone(s: set<Dim>, f: Dim -> real, g: Dim -> real)
    requires forall x | x in s :: f(x) <= g(x)
    ensures Sum(s, f) <= Sum(s, g)
    decreases |s|
  {
    if s != {} {
      var x :| x in s;
      SumTake(s, f, x);
      SumTake(s, g, x);
      SumMonotone(s - {x}, f, g);
    }
  }

  // ---- products ----

  // Multiplication behind a name, so that proofs use only the laws below.
  function Times(x: real, y: real): real { x * y }

  lemma TimesSymmetric(x: real, y: real)
    ensures Times(x, y) == Times(y, x)
  {
  }

  lemma TimesZero(x: real)
    ensures Times(0.0, x) == 0.0 == Times(x, 0.0)
  {
  }

  lemma TimesNonNegative(x: real, y: real)
    requires x >= 0.0 && y >= 0.0
    ensures Times(x, y) >= 0.0
  {
  }

  lemma TimesPositive(x: real, y: real)
    requires x > 0.0 && y > 0.0
    ensures Times(x, y) > 0.0
  {
  }

  lemma SquareNonNegative(x: real)
    ensures x * x >= 0.0
  {
  }

  lemma TimesMean(x: real, y: real)
    ensures Times(x, y) + Times(x, y) <= Times(x, x) + Times(y, y)
  {
    SquareNonNegative(x - y);
    assert (x - y) * (x - y) == x * x + y * y - 2.0 * (x * y);
  }

  lemma TimesAdds(a: real, b: real, k: real)
    ensures Times(a + b, k) == Times(a, k) + Times(b, k)
  {
    assert (a + b) * k == a * k + b * k;
  }

  lemma TimesSquare(x: real, norm: real)
    ensures Times(Times(x, x), Times(norm, norm)) == Times(Times(x, norm), Times(x, norm))
  {
    assert (x * x) * (norm * norm) == (x * norm) * (x * norm);
  }

  lemma TimesCross(x: real, y: real, norm: real)
    ensures Times(x, Times(y, norm)) == Times(y, Times(x, norm))
  {
    assert x * (y * norm) == y * (x * norm);
  }

  lemma TimesOne(x: real, k: real)
    requires Times(x, k) == k > 0.0
    ensures x == 1.0
  {
    assert (x - 1.0) * k == 0.0;
  }

  lemma Quotient(x: real, norm: real) returns (q: real)
    requires x > 0.0 && norm > 0.0
    ensures q == x / norm && q > 0.0 && Times(q, norm) == x
  {
    q := x / norm;
  }

  // ---- vectors ----

  // A missing dimension reads as zero, as in a Go map.
  function At(v: Weights, d: Dim): real {
    if d in v then v[d] else 0.0
  }

  function Product(a: Weights, b: Weights): Dim -> real {
    (d: Dim) => Times(At(a, d), At(b, d))
  }

  ghost function Dot(a: Weights, b: Weights): real {
    Sum(a.Keys + b.Keys, Product(a, b))
  }

  /** Positive weights of total square one, or no weight at all. */
  ghost predicate Unit(v: Weights) {
    (forall d | d in v :: v[d] > 0.0) && (v == map[] || Sum(v.Keys, Product(v, v)) == 1.0)
  }

  function Clamp(x: real): real {
    if x < 0.0 then 0.0 else if x > 1.0 then 1.0 else x
  }

  lemma DotOneSide(a: Weights, b: Weights)
    ensures Sum(a.Keys, Product(a, b)) == Dot(a, b)
  {
    forall d: Dim | d !in a ensures Product(a, b)(d) == 0.0 {
      TimesZero(At(b, d));
    }
    SumWiden(a.Keys, a.Keys + b.Keys, Product(a, b));
  }

  lemma {:induction false} SameTerms(s: set<Dim>, f: Dim -> real, g: Dim -> real)
    requires forall x | x in s :: f(x) == g(x)
    ensures Sum(s, f) == Sum(s, g)
  {
    SumMonotone(s, f, g);
    SumMonotone(s, g, f);
  }

  lemma DotSymmetric(a: Weights, b: Weights)
    ensures Dot(a, b) == Dot(b, a)
  {
    assert a.Keys + b.Keys == b.Keys + a.Keys;
    forall d: Dim ensures Product(a, b)(d) == Product(b, a)(d) {
      TimesSymmetric(At(a, d), At(b, d));
    }
    SameTerms(a.Keys + b.Keys, Product(a, b), Product(b, a));
  }

  lemma {:induction false} SquaresWidened(v: Weights, all: set<Dim>)
    requires Unit(v) && v.Keys <= all
    ensures Sum(all, Product(v, v)) <= 1.0
  {
    forall d: Dim | d !in v ensures Product(v, v)(d) == 0.0 {
      TimesZero(0.0);
    }
    SumWiden(v.Keys, all, Product(v, v));
  }

  lemma {:induction false} MeanBound(s: set<Dim>, p: Dim -> real, f: Dim -> real, g: Dim -> real)
    requires forall d | d in s :: 0.0 <= p(d) && p(d) + p(d) <= f(d) + g(d)
    ensures 0.0 <= Sum(s, p) && Sum(s, p) + Sum(s, p) <= Sum(s, f) + Sum(s, g)
    decreases |s|
  {
    if s != {} {
      var d :| d in s;
      SumTake(s, p, d);
      SumTake(s, f, d);
      SumTake(s, g, d);
      MeanBound(s - {d}, p, f, g);
    }
  }

  lemma TermBounds(a: Weights, b: Weights, d: Dim)
    requires At(a, d) >= 0.0 && At(b, d) >= 0.0
    ensures 0.0 <= Product(a, b)(d)
    ensures Product(a, b)(d) + Product(a, b)(d) <= Product(a, a)(d) + Product(b, b)(d)
  {
    TimesNonNegative(At(a, d), At(b, d));
    TimesMean(At(a, d), At(b, d));
  }

  /** For normalised vectors the dot product lies in [0, 1], so clamping it changes nothing. */
  lemma DotInRange(a: Weights, b: Weights)
    requires Unit(a) && Unit(b)
    ensures 0.0 <= Dot(a, b) <= 1.0
    ensures Clamp(Dot(a, b)) == Dot(a, b)
  {
    var all := a.Keys + b.Keys;
    var p, f, g := Product(a, b), Product(a, a), Product(b, b);
    forall d | d in all ensures 0.0 <= p(d) && p(d) + p(d) <= f(d) + g(d) {
      TermBounds(a, b, d);
    }
    MeanBound(all, p, f, g);
    SquaresWidened(a, all);
    SquaresWidened(b, all);
  }

  /** The smaller map is the one iterated, in any order; neither choice shows in the result. */
  method Cosine(a: Weights, b: Weights) returns (score: real)
    ensures score == Clamp(Dot(a, b))
    ensures Unit(a) && Unit(b) ==> score == Dot(a, b)
  {
    var x, y := a, b;
    if |a| > |b| { x, y := b, a; }
    score := SumOfProducts(x, y);
    DotOneSide(x, y);
    DotSymmetric(a, b);
    if Unit(a) && Unit(b) { DotInRange(a, b); }
    score := Clamp(score);
  }

  lemma {:induction false} TakeTerm(x: Weights, y: Weights, rest: set<Dim>, d: Dim)
    requires rest <= x.Keys && d in rest
    ensures Sum(rest, Product(x, y)) == Times(x[d], At(y, d)) + Sum(rest - {d}, Product(x, y))
  {
    SumTake(rest, Product(x, y), d);
  }

  // The loop of Cosine over the entries of one map, in any order.
  method SumOfProducts(x: Weights, y: Weights) returns (score: real)
    ensures score == Sum(x.Keys, Product(x, y))
  {
    score := 0.0;
    var rest := x.Keys;
    while rest != {}
      invariant rest <= x.Keys
      invariant score + Sum(rest, Product(x, y)) == Sum(x.Keys, Product(x, y))
      decreases |rest|
    {
      var d :| d in rest;
      TakeTerm(x, y, rest, d);
      var term := Times(x[d], At(y, d));
      score := score + term;
      rest := rest - {d};
    }
  }

  // ---- normalisation ----

  predicate Accepted(f: Float) { f.Number? && f.x >= 0.0 }
  predicate Positive(f: Float) { f.Number? && f.x > 0.0 }
  function Amount(f: Float): real { if Positive(f) then f.x else 0.0 }

  // The positive values that a vector lists for a dimension, added up.
  function Total(v: SparseVector, d: Dim, n: nat): real
    requires n <= |v.indices| == |v.values|
  {
    if n == 0 then 0.0
    else Total(v, d, n - 1) + if v.indices[n - 1] == d then Amount(v.values[n - 1]) else 0.0
  }

  ghost predicate Usable(v: SparseVector) {
    && |v.indices| == |v.values|
    && (forall i | 0 <= i < |v.values| :: Accepted(v.values[i]))
    && (exists i :: 0 <= i < |v.values| && Positive(v.values[i]))
  }

  /** A unit vector over the dimensions with a positive value, proportional to their totals. */
  ghost predicate NormalForm(v: SparseVector, w: Weights)
    requires |v.indices| == |v.values|
  {
    && Unit(w)
    && (forall d :: d in w <==> exists i :: 0 <= i < |v.values| && v.indices[i] == d && Positive(v.values[i]))
    && (forall d, e | d in w && e in w :: Times(w[d], Total(v, e, |v.values|)) == Times(w[e], Total(v, d, |v.values|)))
  }

  /** A square root in exact arithmetic. */
  ghost predicate SquareRoot(sqrt: real -> real) {
    forall x | x > 0.0 :: sqrt(x) > 0.0 && Times(sqrt(x), sqrt(x)) == x
  }

  // Every recorded weight is the positive total of its dimension over the first n values.
  ghost predicate Accumulated(v: SparseVector, out: Weights, n: nat) {
    && n <= |v.indices| == |v.values|
    && (forall d :: d in out <==> exists i :: 0 <= i < n && v.indices[i] == d && Positive(v.values[i]))
    && (forall d | d in out :: out[d] == Total(v, d, n) > 0.0)
    && (forall d: Dim | d !in out :: Total(v, d, n) == 0.0)
  }

  lemma AccumulatedMore(v: SparseVector, out: Weights, n: nat, out': Weights)
    requires Accumulated(v, out, n) && n < |v.indices|
    requires var d, x := v.indices[n], v.values[n];
             out' == if Positive(x) then out[d := At(out, d) + x.x] else out
    ensures Accumulated(v, out', n + 1)
  {
    forall d: Dim
      ensures d in out' <==> exists i :: 0 <= i < n + 1 && v.indices[i] == d && Positive(v.values[i])
      ensures At(out', d) == Total(v, d, n + 1)
      ensures d in out' ==> out'[d] > 0.0
    {
      assert At(out, d) == Total(v, d, n);
      if d in out' {
        if d in out {
          var i :| 0 <= i < n && v.indices[i] == d && Positive(v.values[i]);
        } else {
          assert v.indices[n] == d && Positive(v.values[n]);
        }
      }
    }
  }

  lemma {:induction false} PositiveSum(s: set<Dim>, f: Dim -> real)
    requires s != {} && forall x | x in s :: f(x) > 0.0
    ensures Sum(s, f) > 0.0
    decreases |s|
  {
    var x :| x in s;
    SumTake(s, f, x);
    if s != {x} { PositiveSum(s - {x}, f); }
  }

  // Each weight of scaled, times the norm, is the weight of out.
  ghost predicate Divided(out: Weights, norm: real, scaled: Weights) {
    && norm > 0.0 && scaled.Keys == out.Keys
    && forall d | d in out :: out[d] > 0.0 && scaled[d] > 0.0 && Times(scaled[d], norm) == out[d]
  }

  lemma {:induction false} DividedSum(out: Weights, norm: real, scaled: Weights, s: set<Dim>)
    requires Divided(out, norm, scaled) && s <= out.Keys
    ensures Times(Sum(s, Product(scaled, scaled)), Times(norm, norm)) == Sum(s, Product(out, out))
    decreases |s|
  {
    var p, k := Product(scaled, scaled), Times(norm, norm);
    if s == {} {
      TimesZero(k);
    } else {
      var d :| d in s;
      SumTake(s, Product(out, out), d);
      SumTake(s, p, d);
      TimesSquare(scaled[d], norm);
      DividedSum(out, norm, scaled, s - {d});
      TimesAdds(p(d), Sum(s - {d}, p), k);
    }
  }

  lemma UnitAfterScaling(out: Weights, norm: real, scaled: Weights)
    requires Divided(out, norm, scaled) && Times(norm, norm) == Sum(out.Keys, Product(out, out)) > 0.0
    ensures Unit(scaled)
  {
    DividedSum(out, norm, scaled, out.Keys);
    TimesOne(Sum(scaled.Keys, Product(scaled, scaled)), Times(norm, norm));
  }

  lemma NonZero(out: Weights)
    requires forall d | d in out :: out[d] > 0.0
    ensures out == map[] ==> Sum(out.Keys, Product(out, out)) == 0.0
    ensures out != map[] ==> Sum(out.Keys, Product(out, out)) > 0.0
  {
    if out != map[] {
      var d :| d in out;
      assert d in out.Keys;
      forall d | d in out.Keys ensures Product(out, out)(d) > 0.0 {
        TimesPositive(out[d], out[d]);
      }
      PositiveSum(out.Keys, Product(out, out));
    }
  }

  // The squares are added up over the entries of the map, in any order.
  method SumOfSquares(out: Weights) returns (sum: real)
    ensures sum == Sum(out.Keys, Product(out, out))
  {
    sum := 0.0;
    var rest := out.Keys;
    while rest != {}
      invariant rest <= out.Keys
      invariant sum + Sum(rest, Product(out, out)) == Sum(out.Keys, Product(out, out))
      decreases |rest|
    {
      var d :| d in rest;
      TakeTerm(out, out, rest, d);
      var square := Times(out[d], out[d]);
      sum := sum + square;
      rest := rest - {d};
    }
  }

  // The positive totals of a vector, unless a value is negative.
  method Totals(v: SparseVector) returns (r: Option<Weights>)
    requires |v.indices| == |v.values|
    ensures r.Some? <==> forall i | 0 <= i < |v.values| :: Accepted(v.values[i])
    ensures r.Some? ==> Accumulated(v, r.value, |v.values|)
  {
    var out: Weights := map[];
    for i := 0 to |v.indices|
      invariant Accumulated(v, out, i)
      invariant forall k | 0 <= k < i :: Accepted(v.values[k])
    {
      var d, value := v.indices[i], v.values[i];
      if value.NaN? || value.Infinite? || value.x < 0.0 { return None; }
      ghost var before := out;
      if value.x > 0.0 { out := out[d := At(out, d) + value.x]; }
      AccumulatedMore(v, before, i, out);
    }
    return Some(out);
  }

  lemma UsableHasWeight(v: SparseVector, out: Weights)
    requires Accumulated(v, out, |v.values|)
    requires forall i | 0 <= i < |v.values| :: Accepted(v.values[i])
    ensures Usable(v) <==> out != map[]
  {
    if Usable(v) {
      var k :| 0 <= k < |v.values| && Positive(v.values[k]);
      assert v.indices[k] in out;
    }
    if out != map[] {
      var d :| d in out;
    }
  }

  // Every weight divided by the norm.
  method Scale(out: Weights, norm: real) returns (scaled: Weights)
    requires norm > 0.0 && forall d | d in out :: out[d] > 0.0
    ensures Divided(out, norm, scaled)
  {
    scaled := map d | d in out :: out[d] / norm;
    forall d | d in out ensures scaled[d] > 0.0 && Times(scaled[d], norm) == out[d] {
      var q := Quotient(out[d], norm);
    }
  }

  lemma SameDirection(out: Weights, norm: real, scaled: Weights, d: Dim, e: Dim)
    requires Divided(out, norm, scaled) && d in out && e in out
    ensures Times(scaled[d], out[e]) == Times(scaled[e], out[d])
  {
    TimesCross(scaled[d], scaled[e], norm);
  }

  /** A usable vector becomes a unit vector in the direction of its positive totals; any other is dropped. */
  method Normalized(v: SparseVector, sqrt: real -> real) returns (r: Option<Weights>)
    requires SquareRoot(sqrt)
    ensures r.Some? <==> Usable(v)
    ensures r.Some? ==> NormalForm(v, r.value) && r.value != map[]
  {
    if |v.indices| != |v.values| { return None; }
    var totals := Totals(v);
    if totals == None { return None; }
    var out := totals.value;
    var sum := SumOfSquares(out);
    NonZero(out);
    UsableHasWeight(v, out);
    if sum <= 0.0 { return None; }
    var norm := sqrt(sum);
    var scaled := Scale(out, norm);
    UnitAfterScaling(out, norm, scaled);
    forall d, e | d in out && e in out ensures Times(scaled[d], out[e]) == Times(scaled[e], out[d]) {
      SameDirection(out, norm, scaled, d, e);
    }
    return Some(scaled);
  }
}
