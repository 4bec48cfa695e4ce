/** Locating the shoulder, elbow and wrist segments in an arm's kinematic
    chain (`setup_left_kdl` / `setup_right_kdl`). The chain is the list of its
    segment names, base first. */
module Segments {
  import opened Basics

  const LeftShoulderLink := "left_base_link"
  const LeftElbowLink := "left_forearm_link"
  const RightShoulderLink := "right_base_link"
  const RightElbowLink := "right_forearm_link"

  /** A chain has fewer segments than an `unsigned int` can count. */
  type Chain = c: seq<string> | |c| < 0x1_0000_0000

  /** The three segment indices stored per arm (`*_num_wrist_seg`,
      `*_num_elbow_seg`, `*_num_shoulder_seg`); 0 doubles as "not set". */
  datatype SegmentIndices = SegmentIndices(wrist: u32, elbow: u32, shoulder: u32)

  const Unset := SegmentIndices(0, 0, 0)

  /** The index of the first segment called `name`, or `|chain|` if none is. */
  function FirstIndex(chain: seq<string>, name: string): (k: nat)
    ensures k <= |chain|
    ensures k < |chain| ==> chain[k] == name
    ensures forall j :: 0 <= j < k ==> chain[j] != name
  {
    if chain == [] || chain[0] == name then 0 else 1 + FirstIndex(chain[1..], name)
  }

  /** The index of the last segment called `name` below `bound`, if any. */
  function LastIndexBefore(chain: seq<string>, name: string, bound: nat): (r: Option<nat>)
    requires bound <= |chain|
    ensures r.Some? ==> r.value < bound && chain[r.value] == name
    ensures r.Some? ==> forall j :: r.value < j < bound ==> chain[j] != name
    ensures r.None? ==> forall j :: 0 <= j < bound ==> chain[j] != name
  {
    if bound == 0 then None
    else if chain[bound - 1] == name then Some(bound - 1)
    else LastIndexBefore(chain, name, bound - 1)
  }

  /** What the scan over the chain records, starting from `segs`: the wrist
      is the last segment (`num_segments - 1`, in unsigned arithmetic); the
      elbow is the first segment named `elbowLink`, where the scan stops; the
      shoulder is the last segment named `shoulderLink` before that stop. An
      index the scan never matches keeps its value from `segs`. */
  function Scan(chain: Chain, elbowLink: string, shoulderLink: string, segs: SegmentIndices)
    : (r: SegmentIndices)
    ensures |chain| > 0 ==> r.wrist == |chain| - 1
    ensures |chain| == 0 ==> r.wrist == 0xFFFF_FFFF
    ensures (exists k :: 0 <= k < |chain| && chain[k] == elbowLink) ==>
      r.elbow < |chain| && chain[r.elbow] == elbowLink
      && forall j :: 0 <= j < r.elbow ==> chain[j] != elbowLink
    ensures (forall k :: 0 <= k < |chain| ==> chain[k] != elbowLink) ==> r.elbow == segs.elbow
  {
    var stop := FirstIndex(chain, elbowLink);
    SegmentIndices(
      WrapU32(|chain| - 1),
      if stop < |chain| then stop else segs.elbow,
      match LastIndexBefore(chain, shoulderLink, stop)
      case Some(s) => s
      case None => segs.shoulder)
  }

  /** The guard in front of the scan: it runs unless all three indices are
      already non-zero. */
  predicate IndicesSet(segs: SegmentIndices) {
    segs.wrist != 0 && segs.elbow != 0 && segs.shoulder != 0
  }

  /** The effect of one setup call on an arm's indices. */
  function Setup(chain: Chain, elbowLink: string, shoulderLink: string, segs: SegmentIndices)
    : SegmentIndices
  {
    if IndicesSet(segs) then segs else Scan(chain, elbowLink, shoulderLink, segs)
  }

  /** The shoulder the scan records is the last shoulder-named segment before
      the first elbow-named one (before the end of the chain when there is no
      elbow), or the old value when there is no such segment. */
  lemma ScanShoulder(chain: Chain, elbowLink: string, shoulderLink: string, segs: SegmentIndices)
    ensures var r := Scan(chain, elbowLink, shoulderLink, segs);
      var stop := FirstIndex(chain, elbowLink);
      (forall j :: 0 <= j < stop ==> chain[j] != shoulderLink) ==> r.shoulder == segs.shoulder
    ensures var r := Scan(chain, elbowLink, shoulderLink, segs);
      var stop := FirstIndex(chain, elbowLink);
      (exists j :: 0 <= j < stop && chain[j] == shoulderLink) ==>
        r.shoulder < stop && chain[r.shoulder] == shoulderLink
        && forall j :: r.shoulder < j < stop ==> chain[j] != shoulderLink
  {
  }

  /** Re-running the scan on the same chain reproduces what it recorded. */
  lemma ScanIdempotent(chain: Chain, elbowLink: string, shoulderLink: string, segs: SegmentIndices)
    ensures var r := Scan(chain, elbowLink, shoulderLink, segs);
      Scan(chain, elbowLink, shoulderLink, r) == r
  {
  }

  /** A second setup call changes nothing: either the guard skips the scan,
      or the scan reproduces the indices the first call recorded. */
  lemma SetupIdempotent(chain: Chain, elbowLink: string, shoulderLink: string, segs: SegmentIndices)
    ensures var r := Setup(chain, elbowLink, shoulderLink, segs);
      Setup(chain, elbowLink, shoulderLink, r) == r
  {
    if !IndicesSet(segs) {
      ScanIdempotent(chain, elbowLink, shoulderLink, segs);
    }
  }

  /** The setup loop: writes the wrist index, then walks the chain recording
      shoulder matches until the first elbow match. */
  method LocateSegments(chain: Chain, elbowLink: string, shoulderLink: string, segs: SegmentIndices)
    returns (r: SegmentIndices)
    ensures r == Setup(chain, elbowLink, shoulderLink, segs)
  {
    r := segs;
    if r.wrist == 0 || r.elbow == 0 || r.shoulder == 0 {
      var n := |chain|;
      r := r.(wrist := WrapU32(n - 1));
      var i := 0;
      while i < n
        invariant i <= n
        invariant r.wrist == WrapU32(n - 1) && r.elbow == segs.elbow
        invariant forall j :: 0 <= j < i ==> chain[j] != elbowLink
        invariant r.shoulder == match LastIndexBefore(chain, shoulderLink, i)
                                case Some(s) => s
                                case None => segs.shoulder
      {
        if chain[i] == elbowLink {
          r := r.(elbow := i);
          break;
        }
        if chain[i] == shoulderLink {
          r := r.(shoulder := i);
        }
        i := i + 1;
      }
    }
  }
}
