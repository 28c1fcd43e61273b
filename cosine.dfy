/** Cosine similarity of two dense vectors (`cosine`): the shorter vector is
    padded with zeros, and a zero vector on either side gives 0. The square
    root is a parameter, constrained only by the facts the model relies on. */
module Cosine {

  /** A square root: 0 at 0, positive on positive arguments. */
  type SqrtFn = f: real -> real | f(0.0) == 0.0 && forall x :: x > 0.0 ==> f(x) > 0.0
    witness (x: real) => if x > 0.0 then x else 0.0

  /** `$a[$i] ?? 0.0` */
  function At(a: seq<real>, i: nat): real {
    if i < |a| then a[i] else 0.0
  }

  /** The dot product of the first n (padded) coordinates. */
  function Dot(a: seq<real>, b: seq<real>, n: nat): real {
    if n == 0 then 0.0 else Dot(a, b, n - 1) + At(a, n - 1) * At(b, n - 1)
  }

  function Len(a: seq<real>, b: seq<real>): nat {
    if |a| >= |b| then |a| else |b|
  }

  /** The guarded quotient ending `cosine`, from the three accumulated sums. */
  function Quotient(sqrt: SqrtFn, dot: real, na: real, nb: real): real
    requires na >= 0.0 && nb >= 0.0
  {
    if na == 0.0 || nb == 0.0 then 0.0
    else
      ProductPositive(sqrt(na), sqrt(nb));
      dot / (sqrt(na) * sqrt(nb))
  }

  /** The value `cosine` returns. */
  function CosineOf(sqrt: SqrtFn, a: seq<real>, b: seq<real>): real {
    var n := Len(a, b);
    SquaresNonNegative(a, n);
    SquaresNonNegative(b, n);
    Quotient(sqrt, Dot(a, b, n), Dot(a, a, n), Dot(b, b, n))
  }

  lemma ProductPositive(x: real, y: real)
    requires x > 0.0 && y > 0.0
    ensures x * y > 0.0
  {
  }

  /** `cosine`: the accumulation loop over the padded length, then the guarded quotient. */
  method ComputeCosine(sqrt: SqrtFn, a: seq<real>, b: seq<real>) returns (r: real)
    ensures r == CosineOf(sqrt, a, b)
  {
    var dot, na, nb := Accumulate(a, b);
    if na == 0.0 || nb == 0.0 {
      return 0.0;
    }
    ProductPositive(sqrt(na), sqrt(nb));
    r := dot / (sqrt(na) * sqrt(nb));
  }

  /** The loop of `cosine`: the dot product and both squared norms over the
      longer length, missing coordinates read as 0. */
  method Accumulate(a: seq<real>, b: seq<real>) returns (dot: real, na: real, nb: real)
    ensures dot == Dot(a, b, Len(a, b)) && na == Dot(a, a, Len(a, b)) && nb == Dot(b, b, Len(a, b))
    ensures na >= 0.0 && nb >= 0.0
  {
    var len := if |a| >= |b| then |a| else |b|;
    dot, na, nb := 0.0, 0.0, 0.0;
    for i := 0 to len
      invariant dot == Dot(a, b, i) && na == Dot(a, a, i) && nb == Dot(b, b, i)
    {
      // `$a[$i] ?? 0.0`, `$b[$i] ?? 0.0`
      dot := dot + At(a, i) * At(b, i);
      na := na + At(a, i) * At(a, i);
      nb := nb + At(b, i) * At(b, i);
    }
    SquaresNonNegative(a, len);
    SquaresNonNegative(b, len);
  }

  predicate IsZero(a: seq<real>) {
    forall i :: 0 <= i < |a| ==> a[i] == 0.0
  }

  lemma {:induction false} SquaresNonNegative(a: seq<real>, n: nat)
    ensures Dot(a, a, n) >= 0.0
  {
    if n > 0 {
      SquaresNonNegative(a, n - 1);
      SquareNonNegative(At(a, n - 1));
    }
  }

  lemma SquareNonNegative(x: real)
    ensures x * x >= 0.0
  {
    if x < 0.0 {
      assert x * x == (-x) * (-x);
    }
  }

  /** Coordinates that are all 0 have squared norm 0. */
  lemma {:induction false} SquaresZero(a: seq<real>, n: nat)
    requires forall i :: 0 <= i < n ==> At(a, i) == 0.0
    ensures Dot(a, a, n) == 0.0
  {
    if n > 0 {
      SquaresZero(a, n - 1);
    }
  }

  /** Either vector being all zeros gives similarity 0, whatever the other is. */
  lemma CosineZeroNorm(sqrt: SqrtFn, a: seq<real>, b: seq<real>)
    requires IsZero(a) || IsZero(b)
    ensures CosineOf(sqrt, a, b) == 0.0
  {
    var n := Len(a, b);
    if IsZero(a) {
      SquaresZero(a, n);
    } else {
      SquaresZero(b, n);
    }
  }

  lemma {:induction false} DotSymmetric(a: seq<real>, b: seq<real>, n: nat)
    ensures Dot(a, b, n) == Dot(b, a, n)
  {
    if n > 0 {
      DotSymmetric(a, b, n - 1);
    }
  }

  /** Similarity does not depend on the order of the arguments. */
  lemma CosineSymmetric(sqrt: SqrtFn, a: seq<real>, b: seq<real>)
    ensures CosineOf(sqrt, a, b) == CosineOf(sqrt, b, a)
  {
    var n := Len(a, b);
    DotSymmetric(a, b, n);
    assert n == Len(b, a);
    SquaresNonNegative(a, n);
    SquaresNonNegative(b, n);
    var na, nb := Dot(a, a, n), Dot(b, b, n);
    assert sqrt(na) * sqrt(nb) == sqrt(nb) * sqrt(na);
    assert Quotient(sqrt, Dot(a, b, n), na, nb) == Quotient(sqrt, Dot(b, a, n), nb, na);
  }

  function Zeros(k: nat): (z: seq<real>)
    ensures |z| == k && IsZero(z)
  {
    seq(k, _ => 0.0)
  }

  lemma {:induction false} DotPast(a: seq<real>, b: seq<real>, n: nat)
    requires n >= Len(a, b)
    ensures Dot(a, b, n) == Dot(a, b, Len(a, b))
  {
    if n > Len(a, b) {
      DotPast(a, b, n - 1);
    }
  }

  lemma {:induction false} DotPadded(a: seq<real>, b: seq<real>, k: nat, n: nat)
    ensures Dot(a + Zeros(k), b, n) == Dot(a, b, n)
  {
    if n > 0 {
      DotPadded(a, b, k, n - 1);
      assert At(a + Zeros(k), n - 1) == At(a, n - 1);
    }
  }

  /** Explicit trailing zeros change nothing: missing coordinates read as 0. */
  lemma CosinePadding(sqrt: SqrtFn, a: seq<real>, b: seq<real>, k: nat)
    ensures CosineOf(sqrt, a + Zeros(k), b) == CosineOf(sqrt, a, b)
  {
    var a' := a + Zeros(k);
    var n, n' := Len(a, b), Len(a', b);
    DotPadded(a, b, k, n');
    DotPast(a, b, n');
    assert Dot(a', b, n') == Dot(a, b, n);
    DotPadded2(a, a, k, n');
    DotPast(a, a, n');
    DotPast(a, a, n);
    assert Dot(a', a', n') == Dot(a, a, n);
    DotPast(b, b, n');
    DotPast(b, b, n);
    assert Dot(b, b, n') == Dot(b, b, n);
  }

  lemma {:induction false} DotPadded2(a: seq<real>, b: seq<real>, k: nat, n: nat)
    ensures Dot(a + Zeros(k), b + Zeros(k), n) == Dot(a, b, n)
  {
    if n > 0 {
      DotPadded2(a, b, k, n - 1);
      assert At(a + Zeros(k), n - 1) == At(a, n - 1);
      assert At(b + Zeros(k), n - 1) == At(b, n - 1);
    }
  }

  predicate NonNegativeVec(a: seq<real>) {
    forall i :: 0 <= i < |a| ==> a[i] >= 0.0
  }

  lemma {:induction false} DotNonNegative(a: seq<real>, b: seq<real>, n: nat)
    requires NonNegativeVec(a) && NonNegativeVec(b)
    ensures Dot(a, b, n) >= 0.0
  {
    if n > 0 {
      DotNonNegative(a, b, n - 1);
      var x, y := At(a, n - 1), At(b, n - 1);
      assert x >= 0.0 && y >= 0.0;
      assert x * y >= 0.0;
    }
  }

  /** Vectors without negative coordinates have non-negative similarity. */
  lemma CosineNonNegative(sqrt: SqrtFn, a: seq<real>, b: seq<real>)
    requires NonNegativeVec(a) && NonNegativeVec(b)
    ensures CosineOf(sqrt, a, b) >= 0.0
  {
    var n := Len(a, b);
    DotNonNegative(a, b, n);
    SquaresNonNegative(a, n);
    SquaresNonNegative(b, n);
    var na, nb := Dot(a, a, n), Dot(b, b, n);
    if na != 0.0 && nb != 0.0 {
      var x, y := sqrt(na), sqrt(nb);
      assert x > 0.0 && y > 0.0;
      assert x * y > 0.0;
      DivNonNegative(Dot(a, b, n), x * y);
    }
  }

  lemma DivNonNegative(p: real, q: real)
    requires p >= 0.0 && q > 0.0
    ensures p / q >= 0.0
  {
  }
}
