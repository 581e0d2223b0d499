/**
 * The kinematic state of the NAO humanoid: the configuration vector, the
 * joint limits, the identity of the support foot and the derived state
 * cached from the kinematic-chain solvers.
 */
module Igm {
  import opened Layout
  import opened Transforms

  datatype SupportFoot = Left | Right

  /** The other foot. */
  function Other(foot: SupportFoot): (other: SupportFoot)
    ensures other != foot
  {
    if foot == Left then Right else Left
  }

  type Position = s: seq<real> | |s| == 3 witness [0.0, 0.0, 0.0]

  /**
   * The external chain solvers and the Euler-angle conversion. Each solver
   * maps the whole configuration vector to a pose (or a point) expressed in
   * the frame that the support-foot region of that vector anchors.
   */
  datatype Kinematics = Kinematics(
    lLeg2RLeg: seq<real> -> Posture,
    rLeg2LLeg: seq<real> -> Posture,
    lLeg2Torso: seq<real> -> Posture,
    rLeg2Torso: seq<real> -> Posture,
    lLeg2CoM: seq<real> -> Position,
    rLeg2CoM: seq<real> -> Position,
    euler2Rot: (real, real, real) -> Rotation)

  /** Pose of the swing foot when foot is the support foot. */
  function SwingPosture(kin: Kinematics, foot: SupportFoot, q: seq<real>): Posture
  {
    if foot == Left then kin.lLeg2RLeg(q) else kin.rLeg2LLeg(q)
  }

  /** Pose of the torso when foot is the support foot. */
  function TorsoPosture(kin: Kinematics, foot: SupportFoot, q: seq<real>): Posture
  {
    if foot == Left then kin.lLeg2Torso(q) else kin.rLeg2Torso(q)
  }

  /** Center of mass when foot is the support foot. */
  function CoMOf(kin: Kinematics, foot: SupportFoot, q: seq<real>): Position
  {
    if foot == Left then kin.lLeg2CoM(q) else kin.rLeg2CoM(q)
  }

  /** The configuration re-anchored at the translation and rotation of the pose swing. */
  function Switched(q: seq<real>, swing: Posture): (r: seq<real>)
    requires |q| == STATE_VAR_NUM
    ensures |r| == STATE_VAR_NUM && r[..JOINTS_NUM] == q[..JOINTS_NUM]
    ensures r[SUPPORT_FOOT_POS_START..SUPPORT_FOOT_ORIENTATION_START] == TranslationOf(swing)
    ensures r[SUPPORT_FOOT_ORIENTATION_START..] == RotationOf(swing)
  {
    Anchored(q, TranslationOf(swing), RotationOf(swing))
  }

  /**
   * The solvers agree with one another: re-anchoring at the swing foot and
   * asking the other foot's solver for its swing foot gives back the anchor
   * the configuration had. Forward kinematics evaluated exactly has this
   * property; the model does not assume it anywhere else.
   */
  ghost predicate FrameConsistent(kin: Kinematics)
  {
    forall foot: SupportFoot, q: seq<real> | |q| == STATE_VAR_NUM ::
      var back := SwingPosture(kin, Other(foot), Switched(q, SwingPosture(kin, foot, q)));
      TranslationOf(back) == q[SUPPORT_FOOT_POS_START..SUPPORT_FOOT_ORIENTATION_START] &&
      RotationOf(back) == q[SUPPORT_FOOT_ORIENTATION_START..]
  }

  /**
   * With mutually consistent solvers, switching the support foot twice, each
   * time re-anchoring at the freshly computed swing foot, restores the
   * support foot and the configuration exactly.
   */
  lemma DoubleSwitchRestores(kin: Kinematics, foot: SupportFoot, q: seq<real>)
    requires |q| == STATE_VAR_NUM && FrameConsistent(kin)
    ensures Other(Other(foot)) == foot
    ensures var q1 := Switched(q, SwingPosture(kin, foot, q));
      Switched(q1, SwingPosture(kin, Other(foot), q1)) == q
  {
    var s0 := SwingPosture(kin, foot, q);
    var q1 := Switched(q, s0);
    var s1 := SwingPosture(kin, Other(foot), q1);
    AnchoredTwice(q, TranslationOf(s0), RotationOf(s0), TranslationOf(s1), RotationOf(s1));
    AnchoredAtOwnAnchor(q);
  }

  class NaoIgm {
    const kin: Kinematics
    const stateVarNum: nat
    const q: array<real>
    const qLowerBound: array<real>
    const qUpperBound: array<real>
    var supportFoot: SupportFoot
    const swingFootPosture: array<real>
    const torsoOrientation: array<real>
    const comPosition: array<real>

    /** The sizes of the buffers; the two bound tables are distinct arrays. */
    ghost predicate Valid()
    {
      stateVarNum == STATE_VAR_NUM &&
      q.Length == STATE_VAR_NUM &&
      qLowerBound.Length == JOINTS_NUM && qUpperBound.Length == JOINTS_NUM &&
      qLowerBound != qUpperBound &&
      swingFootPosture.Length == 16 &&
      torsoOrientation.Length == 9 &&
      comPosition.Length == 3
    }

    /** The cached derived state is what the current support foot's solvers give for q. */
    ghost predicate Refreshed()
      requires Valid()
      reads this, q, swingFootPosture, torsoOrientation, comPosition
    {
      swingFootPosture[..] == SwingPosture(kin, supportFoot, q[..]) &&
      torsoOrientation[..] == RotationOf(TorsoPosture(kin, supportFoot, q[..])) &&
      comPosition[..] == CoMOf(kin, supportFoot, q[..])
    }

    /**
     * Builds the model with the mechanical joint limits and the standard
     * initial posture of the body joints; the support-foot region, the
     * support foot and the derived state are not set until Init.
     */
    constructor (kin: Kinematics)
      ensures Valid() && this.kin == kin
      ensures fresh(q) && fresh(qLowerBound) && fresh(qUpperBound)
      ensures fresh(swingFootPosture) && fresh(torsoOrientation) && fresh(comPosition)
      ensures qLowerBound[..] == LOWER_BOUNDS && qUpperBound[..] == UPPER_BOUNDS
      ensures q[..JOINTS_NUM] == DEFAULT_POSTURE
    {
      this.kin := kin;
      stateVarNum := JOINTS_NUM + SUPPORT_FOOT_POS_NUM + SUPPORT_FOOT_ORIENTATION_NUM;
      q := new real[STATE_VAR_NUM];
      qLowerBound := new real[JOINTS_NUM];
      qUpperBound := new real[JOINTS_NUM];
      supportFoot := Left;
      swingFootPosture := new real[16];
      torsoOrientation := new real[9];
      comPosition := new real[3];
      new;

      for id := 0 to JOINTS_NUM
        invariant forall k | 0 <= k < id :: qLowerBound[k] == LOWER_BOUNDS[k] && qUpperBound[k] == UPPER_BOUNDS[k]
        modifies qLowerBound, qUpperBound
      {
        SetBounds(id, LOWER_BOUNDS[id], UPPER_BOUNDS[id]);
      }
      assert qLowerBound[..] == LOWER_BOUNDS && qUpperBound[..] == UPPER_BOUNDS;
      InitJointAngles();
    }

    /** Records the limits of one body joint; lo <= hi is not checked. */
    method SetBounds(id: nat, lo: real, hi: real)
      requires Valid() && id < JOINTS_NUM
      modifies qLowerBound, qUpperBound
      ensures qLowerBound[..] == old(qLowerBound[..])[id := lo]
      ensures qUpperBound[..] == old(qUpperBound[..])[id := hi]
    {
      qLowerBound[id] := lo;
      qUpperBound[id] := hi;
    }

    /**
     * Returns -1 when every body joint is inside its limits, and otherwise
     * the smallest index of a joint outside them.
     */
    method CheckJointBounds() returns (r: int)
      requires Valid()
      ensures -1 <= r < JOINTS_NUM
      ensures r == -1 <==>
        forall i | 0 <= i < JOINTS_NUM :: WithinBounds(q[..], qLowerBound[..], qUpperBound[..], i)
      ensures r >= 0 ==>
        !WithinBounds(q[..], qLowerBound[..], qUpperBound[..], r) &&
        forall j | 0 <= j < r :: WithinBounds(q[..], qLowerBound[..], qUpperBound[..], j)
    {
      for i := 0 to JOINTS_NUM
        invariant forall j | 0 <= j < i :: WithinBounds(q[..], qLowerBound[..], qUpperBound[..], j)
      {
        if qLowerBound[i] > q[i] || qUpperBound[i] < q[i] {
          assert !WithinBounds(q[..], qLowerBound[..], qUpperBound[..], i);
          return i;
        }
      }
      return -1;
    }

    /** Places the support foot at (x, y, z) with the orientation given by three Euler angles. */
    method SetBasePose(x: real, y: real, z: real, alpha: real, beta: real, gamma: real)
      requires Valid()
      modifies q
      ensures q[..] == Anchored(old(q[..]), [x, y, z], kin.euler2Rot(alpha, beta, gamma))
      ensures supportFoot == old(supportFoot)
    {
      var rot := kin.euler2Rot(alpha, beta, gamma);
      q[24] := x;
      q[25] := y;
      q[26] := z;

      q[27] := rot[0];
      q[30] := rot[3];
      q[33] := rot[6];
      q[28] := rot[1];
      q[31] := rot[4];
      q[34] := rot[7];
      q[29] := rot[2];
      q[32] := rot[5];
      q[35] := rot[8];
    }

    /** Overwrites the cached center of mass. */
    method SetCoM(x: real, y: real, z: real)
      requires Valid()
      modifies comPosition
      ensures comPosition[..] == [x, y, z]
    {
      comPosition[0] := x;
      comPosition[1] := y;
      comPosition[2] := z;
    }

    /** Recomputes the center of mass for the current support foot and returns it. */
    method GetUpdatedCoM() returns (com: seq<real>)
      requires Valid()
      modifies comPosition
      ensures comPosition[..] == CoMOf(kin, supportFoot, q[..])
      ensures com == comPosition[..]
    {
      if supportFoot == Left {
        Store(comPosition, kin.lLeg2CoM(q[..]));
      } else {
        Store(comPosition, kin.rLeg2CoM(q[..]));
      }
      com := [comPosition[0], comPosition[1], comPosition[2]];
    }

    /** Recomputes the swing-foot pose for the current support foot and returns its position. */
    method GetUpdatedSwingFoot() returns (swingFoot: seq<real>)
      requires Valid()
      modifies swingFootPosture
      ensures swingFootPosture[..] == SwingPosture(kin, supportFoot, q[..])
      ensures swingFoot == TranslationOf(swingFootPosture[..])
    {
      if supportFoot == Left {
        Store(swingFootPosture, kin.lLeg2RLeg(q[..]));
      } else {
        Store(swingFootPosture, kin.rLeg2LLeg(q[..]));
      }
      swingFoot := [swingFootPosture[12], swingFootPosture[13], swingFootPosture[14]];
    }

    /** Recomputes swing foot, torso orientation and center of mass with the current support foot's solvers. */
    method Refresh()
      requires Valid()
      modifies swingFootPosture, torsoOrientation, comPosition
      ensures Refreshed()
    {
      var torsoPosture := new real[16];
      if supportFoot == Left {
        Store(swingFootPosture, kin.lLeg2RLeg(q[..]));
        Store(torsoPosture, kin.lLeg2Torso(q[..]));
        Store(comPosition, kin.lLeg2CoM(q[..]));
      } else {
        Store(swingFootPosture, kin.rLeg2LLeg(q[..]));
        Store(torsoPosture, kin.rLeg2Torso(q[..]));
        Store(comPosition, kin.rLeg2CoM(q[..]));
      }
      T2Rot(torsoPosture, torsoOrientation);
    }

    /**
     * Anchors the model: the support foot is foot, placed at the first three
     * entries of supPosition with the orientation in the first nine entries
     * of supOrientation; then the derived state is recomputed.
     */
    method Init(foot: SupportFoot, supPosition: seq<real>, supOrientation: seq<real>)
      requires Valid() && |supPosition| >= SUPPORT_FOOT_POS_NUM && |supOrientation| >= SUPPORT_FOOT_ORIENTATION_NUM
      modifies this, q, swingFootPosture, torsoOrientation, comPosition
      ensures q[..] == Anchored(old(q[..]), supPosition[..SUPPORT_FOOT_POS_NUM],
                                supOrientation[..SUPPORT_FOOT_ORIENTATION_NUM])
      ensures supportFoot == foot
      ensures Refreshed()
    {
      ghost var q0 := q[..];
      for i := SUPPORT_FOOT_POS_START to SUPPORT_FOOT_POS_START + SUPPORT_FOOT_POS_NUM
        invariant forall k | 0 <= k < STATE_VAR_NUM && !(SUPPORT_FOOT_POS_START <= k < i) :: q[k] == q0[k]
        invariant forall k | SUPPORT_FOOT_POS_START <= k < i :: q[k] == supPosition[k - SUPPORT_FOOT_POS_START]
        modifies q
      {
        q[i] := supPosition[i - SUPPORT_FOOT_POS_START];
      }

      for i := SUPPORT_FOOT_ORIENTATION_START to SUPPORT_FOOT_ORIENTATION_START + SUPPORT_FOOT_ORIENTATION_NUM
        invariant forall k | 0 <= k < SUPPORT_FOOT_POS_START :: q[k] == q0[k]
        invariant forall k | SUPPORT_FOOT_POS_START <= k < SUPPORT_FOOT_ORIENTATION_START ::
          q[k] == supPosition[k - SUPPORT_FOOT_POS_START]
        invariant forall k | SUPPORT_FOOT_ORIENTATION_START <= k < i ::
          q[k] == supOrientation[k - SUPPORT_FOOT_ORIENTATION_START]
        modifies q
      {
        q[i] := supOrientation[i - SUPPORT_FOOT_ORIENTATION_START];
      }
      assert q[..] == Anchored(q0, supPosition[..SUPPORT_FOOT_POS_NUM],
                               supOrientation[..SUPPORT_FOOT_ORIENTATION_NUM]);

      supportFoot := foot;
      Refresh();
    }

    /**
     * Makes the other foot the support foot, anchoring it where the cached
     * swing-foot pose says it is, then recomputes the derived state. The
     * cache is used as it stands, fresh or not.
     */
    method SwitchSupportFoot()
      requires Valid()
      modifies this, q, swingFootPosture, torsoOrientation, comPosition
      ensures supportFoot == Other(old(supportFoot))
      ensures q[..] == Switched(old(q[..]), old(swingFootPosture[..]))
      ensures Refreshed()
    {
      if supportFoot == Left {
        supportFoot := Right;
      } else {
        supportFoot := Left;
      }

      ghost var q0 := q[..];
      ghost var swing := swingFootPosture[..];
      for i := SUPPORT_FOOT_POS_START to SUPPORT_FOOT_POS_START + SUPPORT_FOOT_POS_NUM
        invariant forall k | 0 <= k < STATE_VAR_NUM && !(SUPPORT_FOOT_POS_START <= k < i) :: q[k] == q0[k]
        invariant forall k | SUPPORT_FOOT_POS_START <= k < i :: q[k] == swing[12 + k - SUPPORT_FOOT_POS_START]
        modifies q
      {
        q[i] := swingFootPosture[12 + i - SUPPORT_FOOT_POS_START];
      }

      var supOrientation := new real[9];
      T2Rot(swingFootPosture, supOrientation);
      for i := SUPPORT_FOOT_ORIENTATION_START to SUPPORT_FOOT_ORIENTATION_START + SUPPORT_FOOT_ORIENTATION_NUM
        invariant forall k | 0 <= k < SUPPORT_FOOT_POS_START :: q[k] == q0[k]
        invariant forall k | SUPPORT_FOOT_POS_START <= k < SUPPORT_FOOT_ORIENTATION_START ::
          q[k] == swing[12 + k - SUPPORT_FOOT_POS_START]
        invariant forall k | SUPPORT_FOOT_ORIENTATION_START <= k < i ::
          q[k] == supOrientation[k - SUPPORT_FOOT_ORIENTATION_START]
        modifies q
      {
        q[i] := supOrientation[i - SUPPORT_FOOT_ORIENTATION_START];
      }
      AnchoredByEntries(q[..], q0, TranslationOf(swing), RotationOf(swing));

      Refresh();
    }

    /** Sets every body joint to its standard initial angle; the support-foot region is not touched. */
    method InitJointAngles()
      requires Valid()
      modifies q
      ensures q[..JOINTS_NUM] == DEFAULT_POSTURE
      ensures q[JOINTS_NUM..] == old(q[JOINTS_NUM..])
    {
      forall id | 0 <= id < JOINTS_NUM {
        q[id] := DEFAULT_POSTURE[id];
      }
    }
  }

  /**
   * Switching twice after a refresh, with mutually consistent solvers,
   * returns the model to the support foot and configuration it started from.
   */
  method SwitchTwice(m: NaoIgm)
    requires m.Valid() && m.Refreshed() && FrameConsistent(m.kin)
    modifies m, m.q, m.swingFootPosture, m.torsoOrientation, m.comPosition
    ensures m.supportFoot == old(m.supportFoot)
    ensures m.q[..] == old(m.q[..])
    ensures m.Refreshed()
  {
    m.SwitchSupportFoot();
    m.SwitchSupportFoot();
    DoubleSwitchRestores(m.kin, old(m.supportFoot), old(m.q[..]));
  }
}
