/**
 * The flat configuration vector of the NAO model and the joint-limit tables.
 *
 * The vector q has three contiguous regions: the 24 body joints at indices
 * 0..23, the support-foot position (x, y, z) at 24..26, and the 3x3
 * support-foot orientation, stored column by column, at 27..35.
 */
module Layout {

  const JOINTS_NUM: nat := 24
  const SUPPORT_FOOT_POS_START: nat := 24
  const SUPPORT_FOOT_POS_NUM: nat := 3
  const SUPPORT_FOOT_ORIENTATION_START: nat := 27
  const SUPPORT_FOOT_ORIENTATION_NUM: nat := 9
  const STATE_VAR_NUM: nat := JOINTS_NUM + SUPPORT_FOOT_POS_NUM + SUPPORT_FOOT_ORIENTATION_NUM

  // Body joints are numbered 0..23 in the order the tables below list them:
  // left leg (hip yaw-pitch, hip roll, hip pitch, knee pitch, ankle pitch,
  // ankle roll), right leg (the same six), left arm (shoulder pitch, shoulder
  // roll, elbow yaw, elbow roll, wrist yaw), right arm (the same five), head
  // (pitch, yaw).

  /** Mechanical lower limits of the body joints, indexed by joint id. */
  const LOWER_BOUNDS: seq<real> := [
    -1.145303,  // L_HIP_YAW_PITCH
    -0.379472,  // L_HIP_ROLL
    -1.773912,  // L_HIP_PITCH
    -0.092346,  // L_KNEE_PITCH
    -1.189516,  // L_ANKLE_PITCH
    -0.769001,  // L_ANKLE_ROLL
    -1.145303,  // R_HIP_YAW_PITCH
    -0.738321,  // R_HIP_ROLL
    -1.772308,  // R_HIP_PITCH
    -0.103083,  // R_KNEE_PITCH
    -1.186448,  // R_ANKLE_PITCH
    -0.388676,  // R_ANKLE_ROLL
    -2.085600,  // L_SHOULDER_PITCH
     0.008700,  // L_SHOULDER_ROLL
    -2.085600,  // L_ELBOW_YAW
    -1.562100,  // L_ELBOW_ROLL
    -1.823800,  // L_WRIST_YAW
    -2.085600,  // R_SHOULDER_PITCH
    -1.649400,  // R_SHOULDER_ROLL
    -2.085600,  // R_ELBOW_YAW
     0.008700,  // R_ELBOW_ROLL
    -1.823800,  // R_WRIST_YAW
    -2.085700,  // HEAD_PITCH
    -0.672000   // HEAD_YAW
  ]

  /** Mechanical upper limits of the body joints, indexed by joint id. */
  const UPPER_BOUNDS: seq<real> := [
     0.740810,  // L_HIP_YAW_PITCH
     0.790477,  // L_HIP_ROLL
     0.484090,  // L_HIP_PITCH
     2.112528,  // L_KNEE_PITCH
     0.922747,  // L_ANKLE_PITCH
     0.397880,  // L_ANKLE_ROLL
     0.740810,  // R_HIP_YAW_PITCH
     0.414754,  // R_HIP_ROLL
     0.485624,  // R_HIP_PITCH
     2.120198,  // R_KNEE_PITCH
     0.932056,  // R_ANKLE_PITCH
     0.785875,  // R_ANKLE_ROLL
     2.085600,  // L_SHOULDER_PITCH
     1.649400,  // L_SHOULDER_ROLL
     2.085600,  // L_ELBOW_YAW
    -0.008700,  // L_ELBOW_ROLL
     1.823800,  // L_WRIST_YAW
     2.085600,  // R_SHOULDER_PITCH
    -0.008700,  // R_SHOULDER_ROLL
     2.085600,  // R_ELBOW_YAW
     1.562100,  // R_ELBOW_ROLL
     1.823800,  // R_WRIST_YAW
     2.085700,  // HEAD_PITCH
     0.514900   // HEAD_YAW
  ]

  /** The standard initial posture of the body joints, indexed by joint id. */
  const DEFAULT_POSTURE: seq<real> := [
     0.000000,  // L_HIP_YAW_PITCH
     0.000000,  // L_HIP_ROLL
    -0.436332,  // L_HIP_PITCH
     0.698132,  // L_KNEE_PITCH
    -0.349066,  // L_ANKLE_PITCH
     0.000000,  // L_ANKLE_ROLL
     0.000000,  // R_HIP_YAW_PITCH
     0.000000,  // R_HIP_ROLL
    -0.436332,  // R_HIP_PITCH
     0.698132,  // R_KNEE_PITCH
    -0.349066,  // R_ANKLE_PITCH
     0.000000,  // R_ANKLE_ROLL
     1.396263,  // L_SHOULDER_PITCH
     0.349066,  // L_SHOULDER_ROLL
    -1.396263,  // L_ELBOW_YAW
    -1.047198,  // L_ELBOW_ROLL
     0.000000,  // L_WRIST_YAW
     1.396263,  // R_SHOULDER_PITCH
    -0.349066,  // R_SHOULDER_ROLL
     1.396263,  // R_ELBOW_YAW
     1.047198,  // R_ELBOW_ROLL
     0.000000,  // R_WRIST_YAW
     0.000000,  // HEAD_PITCH
     0.000000   // HEAD_YAW
  ]

  /** Joint i is inside its closed range [lo[i], hi[i]]. */
  predicate WithinBounds(q: seq<real>, lo: seq<real>, hi: seq<real>, i: nat)
    requires i < |q| && i < |lo| && i < |hi|
  {
    lo[i] <= q[i] <= hi[i]
  }

  /**
   * The configuration q with its support-foot region replaced by the
   * position pos and the orientation rot; the body joints are kept.
   */
  function Anchored(q: seq<real>, pos: seq<real>, rot: seq<real>): (r: seq<real>)
    requires |q| == STATE_VAR_NUM && |pos| == SUPPORT_FOOT_POS_NUM && |rot| == SUPPORT_FOOT_ORIENTATION_NUM
    ensures |r| == STATE_VAR_NUM
    ensures forall i | 0 <= i < JOINTS_NUM :: r[i] == q[i]
    ensures forall k | 0 <= k < SUPPORT_FOOT_POS_NUM :: r[SUPPORT_FOOT_POS_START + k] == pos[k]
    ensures forall k | 0 <= k < SUPPORT_FOOT_ORIENTATION_NUM :: r[SUPPORT_FOOT_ORIENTATION_START + k] == rot[k]
  {
    q[..SUPPORT_FOOT_POS_START] + pos + rot
  }

  /** A configuration is Anchored(q, pos, rot) exactly when its three regions hold q's joints, pos and rot. */
  lemma AnchoredByEntries(r: seq<real>, q: seq<real>, pos: seq<real>, rot: seq<real>)
    requires |r| == |q| == STATE_VAR_NUM && |pos| == SUPPORT_FOOT_POS_NUM && |rot| == SUPPORT_FOOT_ORIENTATION_NUM
    requires forall i | 0 <= i < JOINTS_NUM :: r[i] == q[i]
    requires forall k | 0 <= k < SUPPORT_FOOT_POS_NUM :: r[SUPPORT_FOOT_POS_START + k] == pos[k]
    requires forall k | 0 <= k < SUPPORT_FOOT_ORIENTATION_NUM :: r[SUPPORT_FOOT_ORIENTATION_START + k] == rot[k]
    ensures r == Anchored(q, pos, rot)
  {
    var a := Anchored(q, pos, rot);
    forall i | 0 <= i < STATE_VAR_NUM
      ensures r[i] == a[i]
    {
      if i >= SUPPORT_FOOT_ORIENTATION_START {
        assert r[SUPPORT_FOOT_ORIENTATION_START + (i - SUPPORT_FOOT_ORIENTATION_START)] == rot[i - SUPPORT_FOOT_ORIENTATION_START];
      } else if i >= SUPPORT_FOOT_POS_START {
        assert r[SUPPORT_FOOT_POS_START + (i - SUPPORT_FOOT_POS_START)] == pos[i - SUPPORT_FOOT_POS_START];
      }
    }
  }

  /** Anchoring a configuration at the anchor it already has changes nothing. */
  lemma AnchoredAtOwnAnchor(q: seq<real>)
    requires |q| == STATE_VAR_NUM
    ensures Anchored(q, q[SUPPORT_FOOT_POS_START..SUPPORT_FOOT_ORIENTATION_START],
                     q[SUPPORT_FOOT_ORIENTATION_START..]) == q
  {
  }

  /** Re-anchoring twice keeps only the second anchor. */
  lemma AnchoredTwice(q: seq<real>, p1: seq<real>, r1: seq<real>, p2: seq<real>, r2: seq<real>)
    requires |q| == STATE_VAR_NUM
    requires |p1| == |p2| == SUPPORT_FOOT_POS_NUM && |r1| == |r2| == SUPPORT_FOOT_ORIENTATION_NUM
    ensures Anchored(Anchored(q, p1, r1), p2, r2) == Anchored(q, p2, r2)
  {
  }

  /** The standard initial posture lies inside the mechanical limits of every joint. */
  lemma DefaultPostureWithinBounds()
    ensures |DEFAULT_POSTURE| == |LOWER_BOUNDS| == |UPPER_BOUNDS| == JOINTS_NUM
    ensures forall i | 0 <= i < JOINTS_NUM :: WithinBounds(DEFAULT_POSTURE, LOWER_BOUNDS, UPPER_BOUNDS, i)
  {
  }
}
