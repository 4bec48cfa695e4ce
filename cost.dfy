/** The per-arm cost `compute_cost` and the two-arm total that `myfunc`
    returns. */
module Cost {
  import opened Basics
  import opened Linear
  import opened Kinematics
  import opened Segments

  /** One arm's human target for one frame. */
  datatype ArmGoal = ArmGoal(shoulderPos: Vec3, elbowPos: Vec3, wristPos: Vec3, wristOri: Mat3)

  /** The data handed to every cost evaluation (`my_constraint_struct`):
      the previous frame's solution, both arms' targets and both arms'
      segment indices. The robot shoulder positions the struct also holds
      are never read by the cost and are not part of the model. */
  datatype ConstraintData = ConstraintData(
    qPrev: JointVector,
    lGoal: ArmGoal, rGoal: ArmGoal,
    lSegs: SegmentIndices, rSegs: SegmentIndices)

  /** The target of the selected arm (`left_or_right` true is the left). */
  function GoalOf(data: ConstraintData, left: bool): ArmGoal {
    if left then data.lGoal else data.rGoal
  }

  /** The selected arm's block of the previous solution. */
  function PrevOf(data: ConstraintData, left: bool): ArmJoints {
    if left then LeftHalf(data.qPrev) else RightHalf(data.qPrev)
  }

  /** The five pose terms: upper-arm and forearm direction mismatch (weight
      2 each), wrist orientation angle (weight 10), wrist and elbow position
      mismatch (weight 5 each). */
  function PoseCost(num: Numerics, goal: ArmGoal, elbow: Frame, wrist: Frame, shoulder: Frame)
    : (c: real)
    ensures c >= 0.0
  {
    var shoulderElbowHuman := num.normalized(Sub(goal.elbowPos, goal.shoulderPos));
    var elbowWristHuman := num.normalized(Sub(goal.wristPos, goal.elbowPos));
    var shoulderElbowRobot := num.normalized(Sub(elbow.p, shoulder.p));
    var elbowWristRobot := num.normalized(Sub(wrist.p, elbow.p));
    2.0 * num.norm(Sub(shoulderElbowHuman, shoulderElbowRobot))
    + 2.0 * num.norm(Sub(elbowWristHuman, elbowWristRobot))
    + 10.0 * Abs(num.acos((Trace(Mul(goal.wristOri, Transpose(wrist.m))) - 1.0) / 2.0))
    + 5.0 * num.norm(Sub(goal.wristPos, wrist.p))
    + 5.0 * num.norm(Sub(goal.elbowPos, elbow.p))
  }

  /** Whether any of the three forward-kinematics calls fails. */
  predicate FkFails(fk: FkSolver, qCur: ArmJoints, segs: SegmentIndices) {
    || fk(qCur, SegmentCount(segs.elbow)).None?
    || fk(qCur, SegmentCount(segs.wrist)).None?
    || fk(qCur, SegmentCount(segs.shoulder)).None?
  }

  /** `compute_cost`: one arm's cost at joint angles `qCur`. Forward
      kinematics runs for the elbow, then the wrist, then the shoulder, and
      the first failure returns the sentinel -1. Past the first frame the
      continuity term `5 * |qCur - qPrev|` is added, with `qPrev` the
      selected arm's block of the previous solution. */
  function ComputeCost(num: Numerics, fk: FkSolver, qCur: ArmJoints, segs: SegmentIndices,
                       left: bool, data: ConstraintData, firstIter: bool): (c: real)
    ensures c < 0.0 <==> FkFails(fk, qCur, segs)
    ensures FkFails(fk, qCur, segs) ==> c == -1.0
  {
    var elbow := fk(qCur, SegmentCount(segs.elbow));
    if elbow.None? then -1.0 else
    var wrist := fk(qCur, SegmentCount(segs.wrist));
    if wrist.None? then -1.0 else
    var shoulder := fk(qCur, SegmentCount(segs.shoulder));
    if shoulder.None? then -1.0 else
    var cost := PoseCost(num, GoalOf(data, left), elbow.value, wrist.value, shoulder.value);
    if firstIter then cost else cost + 5.0 * num.norm(Sub(qCur, PrevOf(data, left)))
  }

  /** An arm's cost reads only that arm's target and that arm's block of
      the previous solution: the other arm's target and block may be
      anything. */
  lemma CostReadsOwnArmOnly(num: Numerics, fk: FkSolver, qCur: ArmJoints, segs: SegmentIndices,
                            left: bool, d1: ConstraintData, d2: ConstraintData, firstIter: bool)
    requires left ==> d1.lGoal == d2.lGoal && d1.qPrev[..6] == d2.qPrev[..6]
    requires !left ==> d1.rGoal == d2.rGoal && d1.qPrev[6..] == d2.qPrev[6..]
    ensures ComputeCost(num, fk, qCur, segs, left, d1, firstIter)
         == ComputeCost(num, fk, qCur, segs, left, d2, firstIter)
  {
  }

  /** On the first frame the previous solution is never read. */
  lemma FirstIterIgnoresPrev(num: Numerics, fk: FkSolver, qCur: ArmJoints, segs: SegmentIndices,
                             left: bool, data: ConstraintData, qPrev: JointVector)
    ensures ComputeCost(num, fk, qCur, segs, left, data, true)
         == ComputeCost(num, fk, qCur, segs, left, data.(qPrev := qPrev), true)
  {
  }

  /** Past the first frame, the cost is the first-frame cost plus five times
      the distance to the arm's previous solution. */
  lemma ContinuityTerm(num: Numerics, fk: FkSolver, qCur: ArmJoints, segs: SegmentIndices,
                       left: bool, data: ConstraintData)
    requires !FkFails(fk, qCur, segs)
    ensures ComputeCost(num, fk, qCur, segs, left, data, false)
         == ComputeCost(num, fk, qCur, segs, left, data, true)
            + 5.0 * num.norm(Sub(qCur, PrevOf(data, left)))
  {
  }

  /** With the pose error fixed, a previous solution farther from `qCur`
      gives a cost at least as high. */
  lemma ContinuityMonotone(num: Numerics, fk: FkSolver, qCur: ArmJoints, segs: SegmentIndices,
                           left: bool, data: ConstraintData, near: JointVector, far: JointVector)
    requires !FkFails(fk, qCur, segs)
    requires num.norm(Sub(qCur, PrevOf(data.(qPrev := near), left)))
          <= num.norm(Sub(qCur, PrevOf(data.(qPrev := far), left)))
    ensures ComputeCost(num, fk, qCur, segs, left, data.(qPrev := near), false)
         <= ComputeCost(num, fk, qCur, segs, left, data.(qPrev := far), false)
  {
  }

  /** The left arm's cost at `qL` plus the right arm's cost at `qR`, each
      with its own FK solver and segment indices. */
  function ArmsCost(num: Numerics, lfk: FkSolver, rfk: FkSolver, data: ConstraintData,
                    firstIter: bool, qL: ArmJoints, qR: ArmJoints): real
  {
    ComputeCost(num, lfk, qL, data.lSegs, true, data, firstIter)
    + ComputeCost(num, rfk, qR, data.rSegs, false, data, firstIter)
  }

  /** The objective of `myfunc`: both arms' costs, the left arm at
      `x[0..6)` and the right arm at `x[6..12)`. */
  function TotalCost(num: Numerics, lfk: FkSolver, rfk: FkSolver, data: ConstraintData,
                     firstIter: bool, x: JointVector): real
  {
    ArmsCost(num, lfk, rfk, data, firstIter, LeftHalf(x), RightHalf(x))
  }

  /** The objective as the function of the decision vector the optimiser
      minimises, for fixed constraint data and first-frame flag. */
  function ObjectiveOf(num: Numerics, lfk: FkSolver, rfk: FkSolver, data: ConstraintData,
                       firstIter: bool): JointVector -> real
  {
    (x: JointVector) => TotalCost(num, lfk, rfk, data, firstIter, x)
  }

  /** When no FK call fails the objective is non-negative. The sentinel is
      not kept apart from real costs: when only the left arm's FK fails the
      objective is the right arm's cost minus one, below every value that
      arm's cost can take. */
  lemma TotalCostSign(num: Numerics, lfk: FkSolver, rfk: FkSolver, data: ConstraintData,
                      firstIter: bool, x: JointVector)
    ensures !FkFails(lfk, LeftHalf(x), data.lSegs) && !FkFails(rfk, RightHalf(x), data.rSegs)
            ==> TotalCost(num, lfk, rfk, data, firstIter, x) >= 0.0
    ensures FkFails(lfk, LeftHalf(x), data.lSegs) && !FkFails(rfk, RightHalf(x), data.rSegs)
            ==> TotalCost(num, lfk, rfk, data, firstIter, x)
                == ComputeCost(num, rfk, RightHalf(x), data.rSegs, false, data, firstIter) - 1.0
  {
  }
}
