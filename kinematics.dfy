/** The interface to the kinematics library and the floating-point library
    routines the cost uses. Both are outside the model: forward kinematics is
    a function value that may fail, and `norm`, `normalized` and `acos` are
    function values whose only stated property is that a norm is never
    negative. */
module Kinematics {
  import opened Basics
  import opened Linear

  /** A homogeneous transform: the position `p` and the rotation `m` of a
      segment's tip (KDL `Frame`). */
  datatype Frame = Frame(p: Vec3, m: Mat3)

  /** `ChainFkSolverPos_recursive::JntToCart` for one arm's chain: given the
      six joint angles and the number of segments to walk from the base, the
      frame at the end of that many segments, or `None` where JntToCart
      returns a negative code. */
  type FkSolver = (ArmJoints, u32) -> Option<Frame>

  /** The Eigen and <cmath> routines the cost applies to doubles. */
  datatype Numerics = Numerics(
    norm: seq<real> -> NonNeg,
    normalized: Vec3 -> Vec3,
    acos: real -> real)

  /** The segment count handed to JntToCart for the segment at `index`:
      the count of segments up to and including it, `index + 1`, computed in
      `unsigned int` arithmetic. */
  function SegmentCount(index: u32): (n: u32)
    ensures index < 0xFFFF_FFFF ==> n == index + 1
    ensures index == 0xFFFF_FFFF ==> n == 0
  {
    WrapU32(index + 1)
  }
}
