/** Reference definitions over sequences of reals for the values the vector
    operations compute, and the algebraic laws that follow from them.
    Every sum is a left fold, in the order the loops accumulate it. */
module VectorSpec {

  /** The operator applied index by index by Add, Subtract, Multiply and Divide. */
  datatype ElemOp = Plus | Minus | Times | Over

  /** A quotient has a real value only for a non-zero divisor. */
  predicate Defined(op: ElemOp, b: seq<real>)
  {
    op == Over ==> forall i :: 0 <= i < |b| ==> b[i] != 0.0
  }

  function Combine(op: ElemOp, x: real, y: real): real
    requires op == Over ==> y != 0.0
  {
    match op
    case Plus => x + y
    case Minus => x - y
    case Times => x * y
    case Over => x / y
  }

  /** The vector an element-wise loop builds, one element appended per step. */
  function ZipWith(op: ElemOp, a: seq<real>, b: seq<real>): (r: seq<real>)
    requires |a| == |b| && Defined(op, b)
    ensures |r| == |a|
    ensures forall i :: 0 <= i < |a| ==> r[i] == Combine(op, a[i], b[i])
  {
    if |a| == 0 then []
    else ZipWith(op, a[..|a| - 1], b[..|b| - 1]) + [Combine(op, a[|a| - 1], b[|b| - 1])]
  }

  /** The dot product, accumulated left to right. */
  function Dot(a: seq<real>, b: seq<real>): real
    requires |a| == |b|
  {
    if |a| == 0 then 0.0
    else Dot(a[..|a| - 1], b[..|b| - 1]) + a[|a| - 1] * b[|b| - 1]
  }

  /** The sum of the elements of a sequence, accumulated left to right. */
  function Total(s: seq<real>): real
  {
    if |s| == 0 then 0.0 else Total(s[..|s| - 1]) + s[|s| - 1]
  }

  /** The square of the magnitude: the sum under the square root, accumulated
      left to right. */
  function SumSquares(s: seq<real>): real
  {
    if |s| == 0 then 0.0 else SumSquares(s[..|s| - 1]) + s[|s| - 1] * s[|s| - 1]
  }

  predicate AllZero(s: seq<real>)
  {
    forall i :: 0 <= i < |s| ==> s[i] == 0.0
  }

  /** Addition and multiplication do not depend on the order of the operands. */
  lemma {:induction false} ZipWithCommutes(op: ElemOp, a: seq<real>, b: seq<real>)
    requires op == Plus || op == Times
    requires |a| == |b|
    ensures ZipWith(op, a, b) == ZipWith(op, b, a)
  {
  }

  /** Subtracting b and then adding it back gives the original vector. */
  lemma {:induction false} SubtractThenAdd(a: seq<real>, b: seq<real>)
    requires |a| == |b|
    ensures ZipWith(Plus, ZipWith(Minus, a, b), b) == a
  {
    var d := ZipWith(Minus, a, b);
    var s := ZipWith(Plus, d, b);
    forall i | 0 <= i < |a| ensures s[i] == a[i] {
      assert d[i] == a[i] - b[i];
    }
  }

  /** Dividing by a vector with no zero element and then multiplying by it
      gives the original vector. */
  lemma {:induction false} DivideThenMultiply(a: seq<real>, b: seq<real>)
    requires |a| == |b| && Defined(Over, b)
    ensures ZipWith(Times, ZipWith(Over, a, b), b) == a
  {
    var q := ZipWith(Over, a, b);
    var m := ZipWith(Times, q, b);
    forall i | 0 <= i < |a| ensures m[i] == a[i] {
      var x, y := a[i], b[i];
      assert q[i] == x / y && m[i] == q[i] * y;
      assert (x / y) * y == x;
    }
  }

  lemma {:induction false} DotCommutes(a: seq<real>, b: seq<real>)
    requires |a| == |b|
    ensures Dot(a, b) == Dot(b, a)
  {
    if |a| > 0 {
      DotCommutes(a[..|a| - 1], b[..|b| - 1]);
    }
  }

  /** The dot product is the sum of the element-wise product. */
  lemma {:induction false} DotIsTotalOfProducts(a: seq<real>, b: seq<real>)
    requires |a| == |b|
    ensures Dot(a, b) == Total(ZipWith(Times, a, b))
  {
    if |a| > 0 {
      var n := |a|;
      var p := ZipWith(Times, a[..n - 1], b[..n - 1]);
      assert ZipWith(Times, a, b)[..n - 1] == p;
      DotIsTotalOfProducts(a[..n - 1], b[..n - 1]);
    }
  }

  lemma {:induction false} SumSquaresIsDot(s: seq<real>)
    ensures SumSquares(s) == Dot(s, s)
  {
    if |s| > 0 {
      SumSquaresIsDot(s[..|s| - 1]);
    }
  }

  /** The dot product distributes over element-wise addition. */
  lemma {:induction false} DotDistributesOverPlus(a: seq<real>, b: seq<real>, c: seq<real>)
    requires |a| == |b| == |c|
    ensures Dot(ZipWith(Plus, a, b), c) == Dot(a, c) + Dot(b, c)
  {
    if |a| > 0 {
      var n := |a|;
      assert ZipWith(Plus, a, b)[..n - 1] == ZipWith(Plus, a[..n - 1], b[..n - 1]);
      DotDistributesOverPlus(a[..n - 1], b[..n - 1], c[..n - 1]);
      assert (a[n - 1] + b[n - 1]) * c[n - 1] == a[n - 1] * c[n - 1] + b[n - 1] * c[n - 1];
    }
  }

  /** Two vectors of one length whose elements agree in sign, index by index. */
  predicate SameSigns(a: seq<real>, b: seq<real>)
  {
    |a| == |b| &&
    forall i :: 0 <= i < |a| ==>
      (a[i] > 0.0 && b[i] > 0.0) || (a[i] < 0.0 && b[i] < 0.0) || (a[i] == 0.0 && b[i] == 0.0)
  }

  /** Every product in such a dot product is non-negative, and positive where
      the elements are not zero. */
  lemma {:induction false} DotOfSameSigns(a: seq<real>, b: seq<real>)
    requires SameSigns(a, b)
    ensures Dot(a, b) >= 0.0
    ensures Dot(a, b) == 0.0 <==> AllZero(a)
  {
    if |a| > 0 {
      var n := |a|;
      var a', b', x, y := a[..n - 1], b[..n - 1], a[n - 1], b[n - 1];
      assert SameSigns(a', b');
      DotOfSameSigns(a', b');
      assert AllZero(a) <==> AllZero(a') && x == 0.0 by {
        assert forall i :: 0 <= i < n - 1 ==> a[i] == a'[i];
      }
      if x > 0.0 {
        assert x * y > 0.0;
      } else if x < 0.0 {
        assert x * y > 0.0;
      }
    }
  }

  /** The squared magnitude is never negative, and it is zero exactly when
      every element is zero. */
  lemma SumSquaresZeroIff(s: seq<real>)
    ensures SumSquares(s) >= 0.0
    ensures SumSquares(s) == 0.0 <==> AllZero(s)
  {
    SumSquaresIsDot(s);
    DotOfSameSigns(s, s);
  }
}
