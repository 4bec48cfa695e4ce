/** The optimisation driver: the objective callback `myfunc` with its
    numeric gradient, the per-arm setup calls, and the warm-started frame
    loop of `main`. */
module Retarget {
  import opened Basics
  import opened Linear
  import opened Kinematics
  import opened Segments
  import opened Cost
  import opened Gradient

  /** NLopt's termination reasons; the frame loop accepts every one. */
  datatype Status = Success | StopvalReached | FtolReached | XtolReached | MaxevalReached | MaxtimeReached

  /** What `opt.optimize(x, minf)` leaves behind: the final `x`, the result
      code, `minf`, and how many objective evaluations it made. */
  datatype SolveResult = SolveResult(x: JointVector, status: Status, minf: real, evaluations: nat)

  /** The configured SLSQP optimiser (bounds, tolerances and evaluation
      budget fixed for the whole run) as a black box: from the objective, its
      gradient and the initial guess to the result. */
  type Solver = (JointVector -> real, JointVector -> seq<real>, JointVector) -> SolveResult

  /** One arm: the segment names of its chain and its FK solver. */
  datatype Arm = Arm(chain: Chain, fk: FkSolver)

  /** Everything fixed for the run: numerics, both arms, the optimiser. */
  datatype Robot = Robot(num: Numerics, left: Arm, right: Arm, solver: Solver)

  /** One row of the input trajectory: both arms' targets. */
  datatype FrameGoals = FrameGoals(left: ArmGoal, right: ArmGoal)

  /** The effect of `setup_left_kdl` followed by `setup_right_kdl`. */
  function SetupBoth(robot: Robot, data: ConstraintData): ConstraintData {
    var lSegs := Setup(robot.left.chain, LeftElbowLink, LeftShoulderLink, data.lSegs);
    var rSegs := Setup(robot.right.chain, RightElbowLink, RightShoulderLink, data.rSegs);
    ConstraintData(data.qPrev, data.lGoal, data.rGoal, lSegs, rSegs)
  }

  /** Once set up, further setup calls leave the constraint data alone, so
      every evaluation of the objective within a run sees the same indices. */
  lemma SetupBothIdempotent(robot: Robot, data: ConstraintData)
    ensures SetupBoth(robot, SetupBoth(robot, data)) == SetupBoth(robot, data)
  {
    SetupIdempotent(robot.left.chain, LeftElbowLink, LeftShoulderLink, data.lSegs);
    SetupIdempotent(robot.right.chain, RightElbowLink, RightShoulderLink, data.rSegs);
  }

  /** Once the constraint data is set up, loading a frame's targets and a
      previous solution keeps it set up: every `myfunc` call during that
      frame's solve leaves the data unchanged. */
  lemma SessionDataFixed(robot: Robot, init: ConstraintData, g: FrameGoals, q: JointVector)
    requires SetupBoth(robot, init) == init
    ensures var d := init.(lGoal := g.left, rGoal := g.right, qPrev := q);
      SetupBoth(robot, d) == d
  {
  }

  /** The objective handed to the optimiser. */
  function Objective(robot: Robot, data: ConstraintData, firstIter: bool): JointVector -> real {
    ObjectiveOf(robot.num, robot.left.fk, robot.right.fk, data, firstIter)
  }

  /** The gradient handed to the optimiser. */
  function GradientOf(robot: Robot, data: ConstraintData, firstIter: bool): JointVector -> seq<real> {
    (x: JointVector) => NumericGradient(Objective(robot, data, firstIter), x)
  }

  /** One call of `opt.optimize` from the initial guess `start`. */
  function SolveFrame(robot: Robot, data: ConstraintData, firstIter: bool, start: JointVector)
    : SolveResult
  {
    robot.solver(Objective(robot, data, firstIter), GradientOf(robot, data, firstIter), start)
  }

  /** The constraint data while frame `k` is optimised, `done` holding the
      results of frames `0..k`: frame `k`'s targets, and from frame 1 on the
      previous frame's result as `qPrev`. */
  function FrameData(init: ConstraintData, frames: seq<FrameGoals>, done: seq<JointVector>, k: nat)
    : ConstraintData
    requires k < |frames| && |done| == k
  {
    var data := init.(lGoal := frames[k].left, rGoal := frames[k].right);
    if k == 0 then data else data.(qPrev := done[k - 1])
  }

  /** The initial guess: all zeros for the first frame, then the previous
      frame's result. */
  function FrameStart(done: seq<JointVector>): JointVector {
    if done == [] then Zeros else done[|done| - 1]
  }

  /** The results of the first `k` frames, each solved from the previous
      one's result and compared against it. */
  function Trajectory(robot: Robot, init: ConstraintData, frames: seq<FrameGoals>, k: nat)
    : (t: seq<JointVector>)
    requires k <= |frames|
    ensures |t| == k
  {
    if k == 0 then []
    else
      var done := Trajectory(robot, init, frames, k - 1);
      done + [SolveFrame(robot, FrameData(init, frames, done, k - 1), k == 1, FrameStart(done)).x]
  }

  /** Frames are never revisited: the first `j` results of a longer run
      are the results of a run of `j` frames. */
  lemma {:induction false} TrajectoryPrefix(robot: Robot, init: ConstraintData, frames: seq<FrameGoals>,
                                            j: nat, k: nat)
    requires j <= k <= |frames|
    ensures Trajectory(robot, init, frames, k)[..j] == Trajectory(robot, init, frames, j)
    decreases k
  {
    if j < k {
      TrajectoryPrefix(robot, init, frames, j, k - 1);
      var t := Trajectory(robot, init, frames, k);
      assert t[..k - 1] == Trajectory(robot, init, frames, k - 1);
      assert t[..j] == t[..k - 1][..j];
    }
  }

  /** Row `k` of any run covering it: frame 0 is solved from all zeros with
      the first-frame flag set; frame `k > 0` is solved from row `k - 1`,
      with row `k - 1` as the previous solution. */
  lemma TrajectoryRow(robot: Robot, init: ConstraintData, frames: seq<FrameGoals>, n: nat, k: nat)
    requires k < n <= |frames|
    ensures var t := Trajectory(robot, init, frames, n);
      var frame := init.(lGoal := frames[k].left, rGoal := frames[k].right);
      && (k == 0 ==> t[0] == SolveFrame(robot, frame, true, Zeros).x)
      && (k > 0 ==> t[k] == SolveFrame(robot, frame.(qPrev := t[k - 1]), false, t[k - 1]).x)
  {
    TrajectoryPrefix(robot, init, frames, k + 1, n);
    var t := Trajectory(robot, init, frames, n);
    assert t[k] == t[..k + 1][k];
    if k > 0 {
      TrajectoryPrefix(robot, init, frames, k, n);
      assert t[k - 1] == t[..k][k - 1];
    }
  }

  /** An optimiser that sees the objective and gradient only through their
      values. */
  ghost predicate Extensional(solver: Solver) {
    forall f1: JointVector -> real, g1: JointVector -> seq<real>,
           f2: JointVector -> real, g2: JointVector -> seq<real>, x0: JointVector
      {:trigger solver(f1, g1, x0), solver(f2, g2, x0)}
      :: (forall x :: f1(x) == f2(x)) && (forall x :: g1(x) == g2(x))
         ==> solver(f1, g1, x0) == solver(f2, g2, x0)
  }

  /** The previous solution the constraint data starts with is never read:
      on the first frame the continuity term is off, and every later frame
      overwrites it first. */
  lemma {:induction false} InitialQPrevUnread(robot: Robot, init: ConstraintData, frames: seq<FrameGoals>,
                                              q: JointVector, k: nat)
    requires Extensional(robot.solver) && k <= |frames|
    ensures Trajectory(robot, init, frames, k) == Trajectory(robot, init.(qPrev := q), frames, k)
  {
    if k > 0 {
      InitialQPrevUnread(robot, init, frames, q, k - 1);
      if k == 1 {
        var d1 := FrameData(init, frames, [], 0);
        var d2 := FrameData(init.(qPrev := q), frames, [], 0);
        assert d2 == d1.(qPrev := q);
        var f1, f2 := Objective(robot, d1, true), Objective(robot, d2, true);
        forall x: JointVector ensures f1(x) == f2(x) {
          FirstIterIgnoresPrev(robot.num, robot.left.fk, LeftHalf(x), d1.lSegs, true, d1, q);
          FirstIterIgnoresPrev(robot.num, robot.right.fk, RightHalf(x), d1.rSegs, false, d1, q);
        }
        var g1, g2 := GradientOf(robot, d1, true), GradientOf(robot, d2, true);
        forall x: JointVector ensures g1(x) == g2(x) {
          assert forall i :: 0 <= i < 12 ==> g1(x)[i] == g2(x)[i] by {
            forall i | 0 <= i < 12 ensures g1(x)[i] == g2(x)[i] {
              assert f1(Bump(x, i, Eps)) == f2(Bump(x, i, Eps));
              assert f1(Bump(x, i, -Eps)) == f2(Bump(x, i, -Eps));
            }
          }
        }
        assert robot.solver(f1, g1, Zeros) == robot.solver(f2, g2, Zeros);
      }
    }
  }

  /** The gradient block of `myfunc`: two loops, over the left arm's
      joints and then the right arm's, each entry the central difference of
      the two-arm objective with one joint moved by `eps` each way. */
  method FillGradient(num: Numerics, lfk: FkSolver, rfk: FkSolver, data: ConstraintData,
                      firstIter: bool, xq: JointVector, grad: array<real>)
    requires grad.Length == 12
    modifies grad
    ensures grad[..] == NumericGradient(ObjectiveOf(num, lfk, rfk, data, firstIter), xq)
  {
    var qCurL, qCurR := LeftHalf(xq), RightHalf(xq);
    for i := 0 to 6
      invariant forall j :: 0 <= j < i ==>
        grad[j] == (TotalCost(num, lfk, rfk, data, firstIter, Bump(xq, j, Eps))
                    - TotalCost(num, lfk, rfk, data, firstIter, Bump(xq, j, -Eps))) / (2.0 * Eps)
    {
      var qTmpL, qTmpR := qCurL, qCurR;
      qTmpL := Bump(qTmpL, i, Eps);
      var cost1 := ArmsCost(num, lfk, rfk, data, firstIter, qTmpL, qTmpR);
      assert cost1 == TotalCost(num, lfk, rfk, data, firstIter, Bump(xq, i, Eps)) by {
        ObjectiveAtBump(num, lfk, rfk, data, firstIter, xq, i, Eps);
      }
      qTmpL, qTmpR := qCurL, qCurR;
      qTmpL := Bump(qTmpL, i, -Eps);
      var cost2 := ArmsCost(num, lfk, rfk, data, firstIter, qTmpL, qTmpR);
      assert cost2 == TotalCost(num, lfk, rfk, data, firstIter, Bump(xq, i, -Eps)) by {
        ObjectiveAtBump(num, lfk, rfk, data, firstIter, xq, i, -Eps);
      }
      grad[i] := (cost1 - cost2) / (2.0 * Eps);
    }
    for i := 6 to 12
      invariant forall j :: 0 <= j < i ==>
        grad[j] == (TotalCost(num, lfk, rfk, data, firstIter, Bump(xq, j, Eps))
                    - TotalCost(num, lfk, rfk, data, firstIter, Bump(xq, j, -Eps))) / (2.0 * Eps)
    {
      var qTmpL, qTmpR := qCurL, qCurR;
      qTmpR := Bump(qTmpR, i - 6, Eps);
      var cost1 := ArmsCost(num, lfk, rfk, data, firstIter, qTmpL, qTmpR);
      assert cost1 == TotalCost(num, lfk, rfk, data, firstIter, Bump(xq, i, Eps)) by {
        ObjectiveAtBump(num, lfk, rfk, data, firstIter, xq, i, Eps);
      }
      qTmpL, qTmpR := qCurL, qCurR;
      qTmpR := Bump(qTmpR, i - 6, -Eps);
      var cost2 := ArmsCost(num, lfk, rfk, data, firstIter, qTmpL, qTmpR);
      assert cost2 == TotalCost(num, lfk, rfk, data, firstIter, Bump(xq, i, -Eps)) by {
        ObjectiveAtBump(num, lfk, rfk, data, firstIter, xq, i, -Eps);
      }
      grad[i] := (cost1 - cost2) / (2.0 * Eps);
    }
    GradientOfObjective(num, lfk, rfk, data, firstIter, xq);
  }

  /** The state of one run of the frame loop of `main`: the globals `count`
      and `first_iter`, the constraint data, the decision vector `x`, the
      result table `q_results` and the frame index. */
  class RetargetSession {
    const robot: Robot
    /** The input trajectory, one row of targets per frame. */
    const frames: seq<FrameGoals>
    /** `q_results`: one row of twelve joint angles per frame. */
    const qResults: array<JointVector>
    /** The constraint data as both setup calls left it, before frame 0. */
    ghost const init: ConstraintData

    var data: ConstraintData
    var count: nat
    var firstIter: bool
    var x: JointVector
    var it: nat

    ghost predicate Valid()
      reads this, qResults
    {
      && qResults.Length == |frames|
      && it <= |frames|
      && SetupBoth(robot, init) == init
      && (firstIter <==> it == 0)
      && qResults[..it] == Trajectory(robot, init, frames, it)
      && (it == 0 ==> data == init && x == Zeros)
      && (it > 0 ==> x == qResults[it - 1]
                     && data == init.(lGoal := frames[it - 1].left, rGoal := frames[it - 1].right,
                                      qPrev := qResults[it - 1]))
    }

    /** The state `main` reaches before its frame loop: `count` 0,
        `first_iter` true, `x` all zeros, both setup calls made on a
        constraint struct whose indices start at 0 and whose previous
        solution and targets are whatever `qPrevUnset`, `lGoalUnset` and `rGoalUnset` say
        (the source leaves them uninitialised), and `q_results` filled with
        zero rows. */
    constructor (robot: Robot, frames: seq<FrameGoals>, qPrevUnset: JointVector,
                 lGoalUnset: ArmGoal, rGoalUnset: ArmGoal)
      ensures Valid() && fresh(qResults)
      ensures this.robot == robot && this.frames == frames
      ensures it == 0 && count == 0 && firstIter && x == Zeros
      ensures init == SetupBoth(robot, ConstraintData(qPrevUnset, lGoalUnset, rGoalUnset, Unset, Unset))
      ensures forall k :: 0 <= k < qResults.Length ==> qResults[k] == Zeros
    {
      var blank := ConstraintData(qPrevUnset, lGoalUnset, rGoalUnset, Unset, Unset);
      this.robot := robot;
      this.frames := frames;
      init := SetupBoth(robot, blank);
      data := blank;
      count := 0;
      firstIter := true;
      x := Zeros;
      it := 0;
      qResults := new JointVector[|frames|](_ => Zeros);
      new;
      SetupLeft();
      SetupRight();
      SetupBothIdempotent(robot, blank);
    }

    /** `setup_left_kdl`: writes the left arm's indices and nothing else. */
    method SetupLeft()
      modifies this`data
      ensures data == old(data).(lSegs := Setup(robot.left.chain, LeftElbowLink, LeftShoulderLink,
                                                old(data.lSegs)))
    {
      var segs := LocateSegments(robot.left.chain, LeftElbowLink, LeftShoulderLink, data.lSegs);
      data := data.(lSegs := segs);
    }

    /** `setup_right_kdl`: writes the right arm's indices and nothing else. */
    method SetupRight()
      modifies this`data
      ensures data == old(data).(rSegs := Setup(robot.right.chain, RightElbowLink, RightShoulderLink,
                                                old(data.rSegs)))
    {
      var segs := LocateSegments(robot.right.chain, RightElbowLink, RightShoulderLink, data.rSegs);
      data := data.(rSegs := segs);
    }

    /** `myfunc`: counts the call, runs both setups, returns the two-arm
        cost at `xq` and, when `grad` is not empty, fills all twelve entries
        with central differences. */
    method Evaluate(xq: JointVector, grad: array<real>) returns (cost: real)
      requires grad.Length == 0 || grad.Length == 12
      modifies this`count, this`data, grad
      ensures count == old(count) + 1
      ensures data == SetupBoth(robot, old(data))
      ensures cost == Objective(robot, data, firstIter)(xq)
      ensures grad.Length == 12 ==> grad[..] == NumericGradient(Objective(robot, data, firstIter), xq)
    {
      count := count + 1;
      SetupLeft();
      SetupRight();
      var num, lfk, rfk := robot.num, robot.left.fk, robot.right.fk;
      var qCurL, qCurR := LeftHalf(xq), RightHalf(xq);
      cost := ComputeCost(num, lfk, qCurL, data.lSegs, true, data, firstIter);
      cost := cost + ComputeCost(num, rfk, qCurR, data.rSegs, false, data, firstIter);
      if grad.Length != 0 {
        FillGradient(num, lfk, rfk, data, firstIter, xq, grad);
      }
    }

    /** One pass of the frame loop: reset `count`, load frame `it`'s targets,
        optimise from all zeros on the first frame and from the previous row
        afterwards, store the result as row `it` and as `q_prev`, and clear
        `first_iter`. No other row changes. */
    method Step()
      requires Valid() && it < |frames|
      modifies this`data, this`count, this`firstIter, this`x, this`it, qResults
      ensures Valid() && it == old(it) + 1
      ensures var frame := old(data).(lGoal := frames[old(it)].left, rGoal := frames[old(it)].right);
        var start := if old(it) == 0 then Zeros else old(qResults[it - 1]);
        var res := SolveFrame(robot, frame, old(firstIter), start);
        && x == res.x && count == res.evaluations
        && data == frame.(qPrev := res.x)
      ensures qResults[old(it)] == x && !firstIter
      ensures SetupBoth(robot, data) == data
      ensures forall k :: 0 <= k < qResults.Length && k != old(it) ==> qResults[k] == old(qResults[k])
    {
      count := 0;
      data := data.(lGoal := frames[it].left, rGoal := frames[it].right);
      ghost var done := qResults[..it];
      var res: SolveResult;
      if firstIter {
        res := SolveFrame(robot, data, firstIter, x);
      } else {
        x := qResults[it - 1];
        res := SolveFrame(robot, data, firstIter, x);
      }
      x := res.x;
      // each of the optimiser's evaluations is one `myfunc` call, adding one
      count := count + res.evaluations;
      qResults[it] := x;
      data := data.(qPrev := x);
      firstIter := false;
      it := it + 1;
      assert qResults[..it] == done + [x];
      SessionDataFixed(robot, init, frames[it - 1], x);
    }

    /** The frame loop of `main`: every frame in order, each exactly once. */
    method Run()
      requires Valid() && it == 0
      modifies this`data, this`count, this`firstIter, this`x, this`it, qResults
      ensures Valid() && it == |frames|
      ensures qResults[..] == Trajectory(robot, init, frames, |frames|)
    {
      while it < |frames|
        invariant Valid()
        decreases |frames| - it
      {
        Step();
      }
      assert qResults[..] == qResults[..it];
    }
  }
}
