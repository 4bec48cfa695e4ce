# Arm motion retargeting by numeric optimisation — a Dafny model

`arm_retarget_nlopt` turns a recorded human arm trajectory into joint angles for a dual-arm
robot with two six-joint arms. The human trajectory gives, for each frame, the shoulder, elbow
and wrist positions and the wrist orientation of each arm. For every frame in turn, the program
minimises a cost over the twelve joint angles. That cost compares the robot's forward-kinematics
(FK) poses with the human targets, and after the first frame it also penalises distance from the
previous frame's solution. Each frame is warm-started from the previous frame's result.

The model covers the discrete skeleton around the numerics:

- **`Segments`** — `setup_left_kdl` / `setup_right_kdl`. These scan the arm's kinematic chain,
  given as a list of segment names, and record three segment indices. The wrist is the last
  segment, computed in `unsigned int` arithmetic. The elbow is the first segment with the elbow
  name, and the scan stops there. The shoulder is the last segment with the shoulder name before
  that stop. A guard skips the scan once all three indices are non-zero. `LocateSegments` is the
  loop; `Setup` and `Scan` are its specification, and idempotence is proved about them.
- **`Kinematics`** — the foreign interface. FK is a function value that may fail. The
  floating-point routines `norm`, `normalized` and `acos` are function values, and `norm` is
  non-negative. The segment count passed to FK is `index + 1`, wrapping modulo 2^32.
- **`Cost`** — `compute_cost`. It makes three FK calls (elbow, wrist, shoulder), and any failure
  returns the sentinel −1. It picks the left or the right arm's targets and six-joint block of
  the previous solution. It returns the five-term weighted pose error, plus 5·‖q − q_prev‖ after
  the first frame. `TotalCost` is the two-arm objective of `myfunc`.
- **`Gradient`** — the central-difference gradient with step 0.001 that `myfunc` fills in.
- **`Retarget`** — `myfunc` as `RetargetSession.Evaluate`, with its gradient loops in
  `FillGradient`, and the frame loop of `main` as `RetargetSession`:
  - the class fields are the globals `count` and `first_iter`, the constraint struct, the
    decision vector `x`, the result table `q_results` (an array) and the frame index;
  - `Step` is one pass of the loop and `Run` is the whole loop;
  - the configured NLopt optimiser is a black-box function from (objective, gradient, initial
    guess) to a result;
  - `Trajectory` is the frame-by-frame specification of the result table, and `Run` is proved
    to produce it.

Doubles are modelled as `real`, with no rounding. Indices are `unsigned int` values (`u32`), and
their wrap-around is written out.

## Model

| member | source | states |
|---|---|---|
| Basics.WrapU32 | arm_hand_retargeting/src/arm_retarget_nlopt.cpp:208-209 | `unsigned int` arithmetic: values in range are unchanged, `0 - 1` wraps to 0xFFFFFFFF and 2^32 wraps to 0 |
| Basics.Abs | arm_hand_retargeting/src/arm_retarget_nlopt.cpp:154 | `fabs` is non-negative and equals its argument or its negation |
| Kinematics.SegmentCount | arm_hand_retargeting/src/arm_retarget_nlopt.cpp:92-108 | the count handed to JntToCart is index + 1, and 0 when the index is 0xFFFFFFFF |
| Linear.Bump | arm_hand_retargeting/src/arm_retarget_nlopt.cpp:333-341 | perturbing one joint moves that entry by d and leaves every other entry equal |
| Linear.BumpHalves | arm_hand_retargeting/src/arm_retarget_nlopt.cpp:314-316 | perturbing coordinate i of the 12-vector perturbs the owning arm's block at i (or i − 6) and leaves the other arm's block unchanged |
| Segments.FirstIndex | arm_hand_retargeting/src/arm_retarget_nlopt.cpp:211-216 | the index where the scan breaks is a segment with the elbow name, and no earlier segment has that name; it is the chain length when there is none |
| Segments.LastIndexBefore | arm_hand_retargeting/src/arm_retarget_nlopt.cpp:217-221 | the last index below the bound with the shoulder name, with no later match below the bound; None exactly when no index below the bound matches |
| Segments.Scan | arm_hand_retargeting/src/arm_retarget_nlopt.cpp:208-222 | wrist = n − 1, or 0xFFFFFFFF for an empty chain; elbow = the first elbow-named segment, or the old value when there is none |
| Segments.ScanShoulder | arm_hand_retargeting/src/arm_retarget_nlopt.cpp:211-222 | the recorded shoulder is the last shoulder-named segment before the elbow stop, or the old value when there is none |
| Segments.ScanIdempotent | arm_hand_retargeting/src/arm_retarget_nlopt.cpp:206-223 | re-running the scan on its own output reproduces that output |
| Segments.SetupIdempotent | arm_hand_retargeting/src/arm_retarget_nlopt.cpp:206 | a second setup call leaves the indices as the first left them |
| Segments.LocateSegments | arm_hand_retargeting/src/arm_retarget_nlopt.cpp:206-223 | the guarded scan loop, with its break at the elbow, computes exactly `Setup` |
| Retarget.RetargetSession.SetupLeft | arm_hand_retargeting/src/arm_retarget_nlopt.cpp:205-223 | the left setup writes only the left indices, and writes `Setup` of the left chain |
| Retarget.RetargetSession.SetupRight | arm_hand_retargeting/src/arm_retarget_nlopt.cpp:262-280 | the right setup writes only the right indices, and writes `Setup` of the right chain |
| Retarget.SetupBothIdempotent | arm_hand_retargeting/src/arm_retarget_nlopt.cpp:305-307 | running both setups on already set-up data changes nothing, so every evaluation sees the indices computed in `main` |
| Retarget.SessionDataFixed | arm_hand_retargeting/src/arm_retarget_nlopt.cpp:305-307 | set-up data stays set up when a frame's targets and `q_prev` are loaded, so the setups inside every `myfunc` call of a solve change nothing |
| Cost.PoseCost | arm_hand_retargeting/src/arm_retarget_nlopt.cpp:144-156 | the five-term weighted pose error is non-negative |
| Cost.ComputeCost | arm_hand_retargeting/src/arm_retarget_nlopt.cpp:80-173 | the cost is negative exactly when one of the elbow, wrist or shoulder FK calls fails, and is then exactly −1 |
| Cost.CostReadsOwnArmOnly | arm_hand_retargeting/src/arm_retarget_nlopt.cpp:125-142 | an arm's cost depends only on that arm's targets and that arm's block of `q_prev`: the left arm uses `q_prev[0..6)`, the right arm `q_prev[6..12)` |
| Cost.FirstIterIgnoresPrev | arm_hand_retargeting/src/arm_retarget_nlopt.cpp:158-159 | on the first frame the cost does not depend on `q_prev` |
| Cost.ContinuityTerm | arm_hand_retargeting/src/arm_retarget_nlopt.cpp:158-159 | after the first frame, the cost is the first-frame cost plus 5·‖q − q_prev block‖ |
| Cost.ContinuityMonotone | arm_hand_retargeting/src/arm_retarget_nlopt.cpp:158-159 | a previous solution farther from q gives a cost at least as high |
| Cost.TotalCostSign | arm_hand_retargeting/src/arm_retarget_nlopt.cpp:317-318 | the two-arm objective is ≥ 0 when no FK call fails; when only the left FK fails, it is the right cost minus 1 |
| Gradient.ObjectiveAtBump | arm_hand_retargeting/src/arm_retarget_nlopt.cpp:330-365 | the two-arm cost of a perturbed decision vector is the perturbed arm's cost at its perturbed block plus the other arm's cost at its own block |
| Gradient.GradientEntryIsArmLocal | arm_hand_retargeting/src/arm_retarget_nlopt.cpp:325-365 | in a gradient entry the arm that does not own the coordinate cancels: entry i is the central difference of the owning arm's cost alone |
| Gradient.ExactOnQuadratics | arm_hand_retargeting/src/arm_retarget_nlopt.cpp:325-345 | on a separable quadratic, the central difference equals the analytic partial derivative 2·aᵢ·xᵢ + bᵢ |
| Retarget.FillGradient | arm_hand_retargeting/src/arm_retarget_nlopt.cpp:323-369 | the two loops, left joints then right joints, write all twelve entries, and the result is the central-difference gradient of the two-arm objective |
| Retarget.RetargetSession.Evaluate | arm_hand_retargeting/src/arm_retarget_nlopt.cpp:293-375 | `myfunc`: count goes up by one, both setups run, the return value is the two-arm objective at x, and a non-empty grad receives the numeric gradient |
| Retarget.Trajectory | arm_hand_retargeting/src/arm_retarget_nlopt.cpp:734-886 | the result table's specification has one row per frame processed |
| Retarget.TrajectoryPrefix | arm_hand_retargeting/src/arm_retarget_nlopt.cpp:735-851 | frames are never revisited: the first j rows of a longer run are the rows of a run of j frames |
| Retarget.TrajectoryRow | arm_hand_retargeting/src/arm_retarget_nlopt.cpp:814-864 | row 0 is solved from all zeros with the first-frame flag set; row k > 0 is solved from row k − 1, with row k − 1 as `q_prev` |
| Retarget.InitialQPrevUnread | arm_hand_retargeting/src/arm_retarget_nlopt.cpp:46 | the uninitialised starting `q_prev` never affects the results, provided the optimiser depends only on the values of the objective and gradient |
| Retarget.RetargetSession.constructor | arm_hand_retargeting/src/arm_retarget_nlopt.cpp:665-734 | the state before the loop: zero x, count 0, first_iter set, both setups applied to indices that start at 0, `q_results` of one zero row per frame |
| Retarget.RetargetSession.Step | arm_hand_retargeting/src/arm_retarget_nlopt.cpp:735-864 | one frame: count reset, the frame's targets loaded, a solve from zeros (frame 0) or from the previous row, the result stored as row `it` and as `q_prev`, first_iter cleared, no other row changed, and the new data still set up, so the next solve's `myfunc` calls see it unchanged |
| Retarget.RetargetSession.Run | arm_hand_retargeting/src/arm_retarget_nlopt.cpp:734-886 | the loop processes every frame once in order and leaves `q_results` equal to `Trajectory` |

## Left out

- KDL tree and chain construction from the hard-coded URDF file, with its `exit(-1)` paths (lines 188-201, 245-258). This is a foreign library plus file I/O. The chain is a parameter given as a list of segment names, and FK is an abstract function that may fail.
- The NLopt SLSQP optimiser and its settings: bounds, stop value, tolerances, the evaluation cap and the exceptions `optimize` can throw (lines 696-729, 813-824). It is a black-box function; no claim is made about convergence or about the bounds.
- Floating-point numerics: rounding, `normalized()` of a zero vector, and the NaN that `acos` gives when the trace is not clamped (lines 144-156). Doubles are reals, and `norm`, `normalized` and `acos` are abstract; `norm` is only known to be non-negative.
- The FK call order and the "nothing after a failure" behaviour: FK is pure here, so only the −1 result and which calls can fail are observable, and the model states those.
- HDF5 `read_h5`/`write_h5` (lines 423-596) and writing the results (lines 903-907). This is I/O. The input frames are one sequence of both arms' targets, so the model assumes the eight input tables have the same length.
- Command-line parsing (lines 610-660) and all logging, including the result-code messages (lines 826-847). `Status` is kept only as part of the optimiser's result.
- `myconstraint` (lines 380-420): its body is empty.
- The robot shoulder positions set at lines 782-783: the cost never reads them.
- The row-major `Map` conversions of targets and FK rotations: an `ArmGoal` and a `Frame` hold the matrices already converted.
- Retarget.RetargetSession.Step: the optimiser's calls to `myfunc` are not interleaved. Its effect on `count` is summarised as the number of evaluations the optimiser reports, and each call reads the same set-up constraint data. `SessionDataFixed` and `Evaluate` justify this: the data a frame is solved with is already set up, so each `myfunc` call leaves it unchanged and returns `Objective` of it.
- Retarget.RetargetSession.constructor: the uninitialised Eigen members of the constraint struct (`q_prev` and the targets) are arbitrary parameters. `count` is a C `int`, modelled as an unbounded natural number.
- Retarget.InitialQPrevUnread: it needs the hypothesis that the optimiser depends only on the values of the objective and gradient, because Dafny function values are not compared extensionally.
- Chain length: chains are assumed to have fewer than 2^32 segments, as `getNrOfSegments` returns an `unsigned int`.
