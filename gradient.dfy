/** The numeric gradient `myfunc` fills in: a central difference with step
    0.001 in each of the twelve coordinates. */
module Gradient {
  import opened Linear
  import opened Kinematics
  import opened Cost

  /** The finite-difference step `eps`. */
  const Eps: real := 0.001

  /** `(f(x + eps e_i) - f(x - eps e_i)) / (2 eps)`: coordinate `i` moved
      both ways, every other coordinate at its value in `x`. */
  function CentralDifference(f: JointVector -> real, x: JointVector, i: nat): real
    requires i < 12
  {
    (f(Bump(x, i, Eps)) - f(Bump(x, i, -Eps))) / (2.0 * Eps)
  }

  /** All twelve central differences. */
  function NumericGradient(f: JointVector -> real, x: JointVector): (g: seq<real>)
    ensures |g| == 12
  {
    seq(12, i requires 0 <= i < 12 => CentralDifference(f, x, i))
  }

  /** A gradient entry of the two-arm objective involves only the arm that
      owns the coordinate: the other arm's cost is evaluated at the same
      joints on both sides of the difference and cancels. */
  lemma GradientEntryIsArmLocal(num: Numerics, lfk: FkSolver, rfk: FkSolver, data: ConstraintData,
                                firstIter: bool, x: JointVector, i: nat)
    requires i < 12
    ensures i < 6 ==>
      NumericGradient(ObjectiveOf(num, lfk, rfk, data, firstIter), x)[i]
      == (ComputeCost(num, lfk, Bump(LeftHalf(x), i, Eps), data.lSegs, true, data, firstIter)
          - ComputeCost(num, lfk, Bump(LeftHalf(x), i, -Eps), data.lSegs, true, data, firstIter))
         / (2.0 * Eps)
    ensures 6 <= i ==>
      NumericGradient(ObjectiveOf(num, lfk, rfk, data, firstIter), x)[i]
      == (ComputeCost(num, rfk, Bump(RightHalf(x), i - 6, Eps), data.rSegs, false, data, firstIter)
          - ComputeCost(num, rfk, Bump(RightHalf(x), i - 6, -Eps), data.rSegs, false, data, firstIter))
         / (2.0 * Eps)
  {
    BumpHalves(x, i, Eps);
    BumpHalves(x, i, -Eps);
  }

  /** The objective at a bumped decision vector: the bumped arm's cost at
      its bumped joints plus the other arm's cost at its own joints. */
  lemma ObjectiveAtBump(num: Numerics, lfk: FkSolver, rfk: FkSolver, data: ConstraintData,
                        firstIter: bool, x: JointVector, i: nat, d: real)
    requires i < 12
    ensures i < 6 ==>
      TotalCost(num, lfk, rfk, data, firstIter, Bump(x, i, d))
      == ArmsCost(num, lfk, rfk, data, firstIter, Bump(LeftHalf(x), i, d), RightHalf(x))
    ensures 6 <= i ==>
      TotalCost(num, lfk, rfk, data, firstIter, Bump(x, i, d))
      == ArmsCost(num, lfk, rfk, data, firstIter, LeftHalf(x), Bump(RightHalf(x), i - 6, d))
  {
    BumpHalves(x, i, d);
  }

  /** Each gradient entry of the objective is the central difference of
      the two-arm cost in that coordinate. */
  lemma GradientOfObjective(num: Numerics, lfk: FkSolver, rfk: FkSolver, data: ConstraintData,
                            firstIter: bool, x: JointVector)
    ensures forall j :: 0 <= j < 12 ==>
      NumericGradient(ObjectiveOf(num, lfk, rfk, data, firstIter), x)[j]
      == (TotalCost(num, lfk, rfk, data, firstIter, Bump(x, j, Eps))
          - TotalCost(num, lfk, rfk, data, firstIter, Bump(x, j, -Eps))) / (2.0 * Eps)
  {
  }

  /** `sum_{j < n} a[j] x[j]^2 + b[j] x[j]`: a separable quadratic. */
  function QuadraticSum(a: seq<real>, b: seq<real>, x: seq<real>, n: nat): real
    requires n <= |x| == |a| == |b|
  {
    if n == 0 then 0.0
    else QuadraticSum(a, b, x, n - 1) + a[n - 1] * x[n - 1] * x[n - 1] + b[n - 1] * x[n - 1]
  }

  /** The objective `c + sum_j a[j] x[j]^2 + b[j] x[j]`, whose exact
      gradient is `2 a[i] x[i] + b[i]`. */
  function Quadratic(a: JointVector, b: JointVector, c: real): JointVector -> real {
    (x: JointVector) => c + QuadraticSum(a, b, x, 12)
  }

  /** Moving coordinate `i` by `d` changes only the `i`-th term of the sum. */
  lemma {:induction false} QuadraticSumBump(a: seq<real>, b: seq<real>, x: seq<real>, i: nat, d: real, n: nat)
    requires n <= |x| == |a| == |b| && i < |x|
    ensures QuadraticSum(a, b, Bump(x, i, d), n)
         == QuadraticSum(a, b, x, n) + (if i < n then a[i] * (2.0 * x[i] * d + d * d) + b[i] * d else 0.0)
  {
    if n > 0 {
      QuadraticSumBump(a, b, x, i, d, n - 1);
      var y := Bump(x, i, d);
      if i == n - 1 {
        SquareExpansion(a[i], b[i], x[i], d);
      } else {
        assert y[n - 1] == x[n - 1];
      }
    }
  }

  lemma SquareExpansion(a: real, b: real, x: real, d: real)
    ensures a * (x + d) * (x + d) + b * (x + d) == a * x * x + b * x + (a * (2.0 * x * d + d * d) + b * d)
  {
  }

  /** On a quadratic objective the central difference has no truncation
      error: each entry equals the analytic partial derivative. */
  lemma ExactOnQuadratics(a: JointVector, b: JointVector, c: real, x: JointVector, i: nat)
    requires i < 12
    ensures NumericGradient(Quadratic(a, b, c), x)[i] == 2.0 * a[i] * x[i] + b[i]
  {
    QuadraticSumBump(a, b, x, i, Eps, 12);
    QuadraticSumBump(a, b, x, i, -Eps, 12);
  }
}
