/** Fixed-size real vectors and 3x3 matrices, standing in for Eigen's
    Vector3d, Matrix3d and the 6- and 12-element joint vectors. */
module Linear {

  /** A position or direction in space (Eigen `Vector3d`). */
  type Vec3 = v: seq<real> | |v| == 3 witness [0.0, 0.0, 0.0]

  /** A 3x3 matrix stored row by row (Eigen `Matrix3d`). */
  type Mat3 = m: seq<Vec3> | |m| == 3 witness [Origin, Origin, Origin]

  const Origin: Vec3 := [0.0, 0.0, 0.0]

  /** The six joint angles of one arm (`Matrix<double, 6, 1>`). */
  type ArmJoints = q: seq<real> | |q| == 6 witness seq(6, _ => 0.0)

  /** The decision vector: the left arm's six joints, then the right arm's. */
  type JointVector = x: seq<real> | |x| == 12 witness seq(12, _ => 0.0)

  /** The all-zero decision vector a `std::vector<double>(12)` starts as. */
  const Zeros: JointVector := [0.0, 0.0, 0.0, 0.0, 0.0, 0.0, 0.0, 0.0, 0.0, 0.0, 0.0, 0.0]

  /** Entry-wise difference `a - b`. */
  function Sub(a: seq<real>, b: seq<real>): (r: seq<real>)
    requires |a| == |b|
    ensures |r| == |a|
    ensures forall i :: 0 <= i < |r| ==> r[i] == a[i] - b[i]
  {
    seq(|a|, i requires 0 <= i < |a| => a[i] - b[i])
  }

  function Transpose(m: Mat3): (t: Mat3)
    ensures forall i, j :: 0 <= i < 3 && 0 <= j < 3 ==> t[i][j] == m[j][i]
  {
    seq(3, i requires 0 <= i < 3 => seq(3, j requires 0 <= j < 3 => m[j][i]))
  }

  /** The matrix product `a * b`. */
  function Mul(a: Mat3, b: Mat3): Mat3 {
    seq(3, i requires 0 <= i < 3 =>
      seq(3, j requires 0 <= j < 3 => a[i][0] * b[0][j] + a[i][1] * b[1][j] + a[i][2] * b[2][j]))
  }

  function Trace(m: Mat3): real {
    m[0][0] + m[1][1] + m[2][2]
  }

  /** `s` with coordinate `i` moved by `d`, every other coordinate kept:
      the `q_tmp[i] += eps` / `q_tmp[i] -= eps` of the numeric gradient. */
  function Bump(s: seq<real>, i: nat, d: real): (r: seq<real>)
    requires i < |s|
    ensures |r| == |s| && r[i] == s[i] + d
    ensures forall j :: 0 <= j < |s| && j != i ==> r[j] == s[j]
  {
    s[i := s[i] + d]
  }

  /** `x[0..6)`, the left arm's joints. */
  function LeftHalf(x: JointVector): ArmJoints { x[..6] }

  /** `x[6..12)`, the right arm's joints. */
  function RightHalf(x: JointVector): ArmJoints { x[6..] }

  /** Bumping a coordinate of the decision vector bumps the same joint of
      the arm that owns it and leaves the other arm's half as it was. */
  lemma BumpHalves(x: JointVector, i: nat, d: real)
    requires i < 12
    ensures i < 6 ==>
      LeftHalf(Bump(x, i, d)) == Bump(LeftHalf(x), i, d) && RightHalf(Bump(x, i, d)) == RightHalf(x)
    ensures 6 <= i ==>
      LeftHalf(Bump(x, i, d)) == LeftHalf(x) && RightHalf(Bump(x, i, d)) == Bump(RightHalf(x), i - 6, d)
  {
    var y := Bump(x, i, d);
    if i < 6 {
      assert forall j :: 0 <= j < 6 ==> LeftHalf(y)[j] == Bump(LeftHalf(x), i, d)[j];
      assert forall j :: 0 <= j < 6 ==> RightHalf(y)[j] == RightHalf(x)[j];
    } else {
      assert forall j :: 0 <= j < 6 ==> LeftHalf(y)[j] == LeftHalf(x)[j];
      assert forall j :: 0 <= j < 6 ==> RightHalf(y)[j] == Bump(RightHalf(x), i - 6, d)[j];
    }
  }
}
