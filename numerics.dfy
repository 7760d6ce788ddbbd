/** The numeric environment of the filter: the C math functions and the Eigen
    decompositions it calls are parameters (a `Library` of functions) whose
    contracts are only the relations the filter relies on; and the angle
    normalisation that the filter writes out as a pair of `while` loops. */
module Numerics {
  import opened Linalg

  datatype Option<T> = None | Some(value: T)

  /** M_PI rounded to 16 significant digits. Only its positivity and size matter below. */
  const Pi: real := 3.141592653589793
  const TwoPi: real := 2.0 * Pi

  function Abs(a: real): (r: real)
    ensures r >= 0.0 && (r == a || r == -a)
  {
    if a < 0.0 then -a else a
  }

  /** The functions the filter takes from <cmath> and from Eigen, left
      uninterpreted except for the relations stated by Valid(). */
  datatype Library = Library(
    sin: real -> real,
    cos: real -> real,
    atan2: (real, real) -> real,
    sqrt: real -> real,
    // floating-point division; its value at a zero divisor (inf or NaN) is left open
    divide: (real, real) -> real,
    // Eigen::LLT: None is the NumericalIssue outcome
    llt: Matrix -> Option<Matrix>,
    // MatrixXd::inverse
    inverse: Matrix -> Matrix)
  {
    ghost predicate Valid() {
      && (forall x :: 0.0 <= x ==> 0.0 <= sqrt(x) && sqrt(x) * sqrt(x) == x)
      && (forall a, b :: b != 0.0 ==> divide(a, b) == a / b)
      && (forall A: Matrix, n: nat {:trigger llt(A), IsMatrix(A, n, n)} ::
            IsMatrix(A, n, n) && llt(A).Some? ==> IsCholeskyFactor(llt(A).value, A, n))
      && (forall A: Matrix, n: nat {:trigger inverse(A), IsMatrix(A, n, n)} ::
            IsMatrix(A, n, n) ==> IsMatrix(inverse(A), n, n))
    }
  }

  /** L is lower triangular and L * L^T == A. */
  predicate IsCholeskyFactor(L: Matrix, A: Matrix, n: nat) {
    IsMatrix(L, n, n) && IsLowerTriangular(L) && Width(L) == n &&
    MatMul(L, Transpose(L), n) == A
  }

  /** The smallest integer not below x. */
  function Ceil(x: real): (n: int)
    ensures n as real - 1.0 < x <= n as real
  {
    -((-x).Floor)
  }

  /** Reference definition of the normalisation of an angle into [-Pi, Pi]:
      an angle above Pi is lowered by the fewest whole turns that bring it to
      at most Pi, an angle below -Pi is raised by the fewest whole turns that
      bring it to at least -Pi, and every other angle is kept. */
  function Wrap(a: real): real {
    if a > Pi then a - Ceil((a - Pi) / TwoPi) as real * TwoPi
    else if a < -Pi then a + Ceil((-Pi - a) / TwoPi) as real * TwoPi
    else a
  }

  /** The normalised angle lies in [-Pi, Pi]; it can equal -Pi only for an input
      below -Pi or equal to it, and Pi only for an input above Pi or equal to it. */
  lemma WrapRange(a: real)
    ensures -Pi <= Wrap(a) <= Pi
    ensures a > Pi ==> -Pi < Wrap(a)
    ensures a < -Pi ==> Wrap(a) < Pi
  {
    if a > Pi {
      var q := (a - Pi) / TwoPi;
      var n := Ceil(q);
      assert a == Pi + q * TwoPi;
      assert Wrap(a) == Pi + (q - n as real) * TwoPi;
    } else if a < -Pi {
      var q := (-Pi - a) / TwoPi;
      var n := Ceil(q);
      assert a == -Pi - q * TwoPi;
      assert Wrap(a) == -Pi + (n as real - q) * TwoPi;
    }
  }

  /** The normalised angle differs from the input by a whole number of turns. */
  lemma WrapCongruent(a: real) returns (turns: int)
    ensures Wrap(a) == a + turns as real * TwoPi
  {
    if a > Pi {
      turns := -Ceil((a - Pi) / TwoPi);
    } else if a < -Pi {
      turns := Ceil((-Pi - a) / TwoPi);
    } else {
      turns := 0;
    }
  }

  /** Normalising twice is normalising once. */
  lemma WrapIdempotent(a: real)
    ensures Wrap(Wrap(a)) == Wrap(a)
  {
    WrapRange(a);
  }

  /** An angle already in [-Pi, Pi] is left as it is. */
  lemma WrapOfInRange(a: real)
    requires -Pi <= a <= Pi
    ensures Wrap(a) == a
  {
  }

  /** The two `while` loops the filter uses to bring an angle residual into
      [-Pi, Pi]: first subtract 2*Pi while above Pi, then add 2*Pi while below -Pi. */
  method NormalizeAngle(a: real) returns (r: real)
    ensures r == Wrap(a)
    ensures -Pi <= r <= Pi
    ensures -Pi <= a <= Pi ==> r == a
  {
    r := a;
    ghost var n: int := 0;
    while r > Pi
      invariant n >= 0 && r == a - n as real * TwoPi
      invariant n > 0 ==> r > Pi - TwoPi
      decreases r
    {
      r := r - TwoPi;
      n := n + 1;
    }
    if n > 0 {
      CeilUnique((a - Pi) / TwoPi, n);
    }
    ghost var m: int := 0;
    while r < -Pi
      invariant m >= 0 && r == a - n as real * TwoPi + m as real * TwoPi
      invariant m > 0 ==> n == 0 && r < -Pi + TwoPi
      decreases -r
    {
      r := r + TwoPi;
      m := m + 1;
    }
    if m > 0 {
      CeilUnique((-Pi - a) / TwoPi, m);
    }
  }

  lemma CeilUnique(x: real, n: int)
    requires n as real - 1.0 < x <= n as real
    ensures Ceil(x) == n
  {
  }
}
