/**
 * Index layout of the rotation and homogeneous-transform helpers.
 *
 * Every matrix is stored column by column: entry (r, c) of a 3x3 rotation
 * is at 3*c + r, and of a 4x4 homogeneous matrix at 4*c + r, so that the
 * translation of a pose occupies entries 12..14 and its bottom row entries
 * 3, 7, 11 and 15.
 */
module Transforms {

  /** A 3x3 rotation matrix, column by column (9 entries). */
  type Rotation = s: seq<real> | |s| == 9 witness seq(9, _ => 0.0)
  /** A 4x4 homogeneous pose matrix, column by column (16 entries). */
  type Posture = s: seq<real> | |s| == 16 witness seq(16, _ => 0.0)

  /** The sine and cosine the angle conversions use; their values are not modelled. */
  datatype Trig = Trig(sin: real -> real, cos: real -> real)

  /** Position of entry (r, c) in a column-major 3x3 matrix. */
  function At3(c: nat, r: nat): nat { 3 * c + r }

  /** Position of entry (r, c) in a column-major 4x4 matrix. */
  function At4(c: nat, r: nat): nat { 4 * c + r }

  /** The rotation block of a pose, read column by column. */
  function RotationOf(T: Posture): Rotation
  {
    [T[0], T[1], T[2], T[4], T[5], T[6], T[8], T[9], T[10]]
  }

  /** The translation column of a pose. */
  function TranslationOf(T: Posture): (p: seq<real>)
    ensures |p| == 3 && p[0] == T[12] && p[1] == T[13] && p[2] == T[14]
  {
    T[12..15]
  }

  /** T with its rotation block replaced by rot; translation and bottom row are kept. */
  function WithRotation(T: Posture, rot: Rotation): Posture
  {
    [rot[0], rot[1], rot[2], T[3], rot[3], rot[4], rot[5], T[7],
     rot[6], rot[7], rot[8], T[11], T[12], T[13], T[14], T[15]]
  }

  /** T with its translation column replaced by the first three entries of p. */
  function WithTranslation(T: Posture, p: seq<real>): (t: Posture)
    requires |p| >= 3
    ensures TranslationOf(t) == p[..3]
    ensures t[..12] == T[..12] && t[15] == T[15]
  {
    T[..12] + p[..3] + T[15..]
  }

  /**
   * The rotation of applying roll about x, then pitch about the new y, then
   * yaw about the new z, as a column-major 3x3 matrix, given the sine and
   * cosine of each angle.
   */
  function RpyMatrix(sr: real, cr: real, sp: real, cp: real, sy: real, cy: real): Rotation
  {
    [ cp * cy,  sr * sp * cy + cr * sy, -cr * sp * cy + sr * sy,
     -cp * sy, -sr * sp * sy + cr * cy,  cr * sp * sy + sr * cy,
      sp,      -sr * cp,                 cr * cp]
  }

  /** The roll-pitch-yaw rotation of three angles. */
  function RpyRotation(trig: Trig, roll: real, pitch: real, yaw: real): Rotation
  {
    RpyMatrix(trig.sin(roll), trig.cos(roll), trig.sin(pitch), trig.cos(pitch), trig.sin(yaw), trig.cos(yaw))
  }

  /** Rotation about the x axis by the angle whose sine is s and cosine c. */
  function RotX(s: real, c: real): Rotation
  {
    [1.0, 0.0, 0.0,
     0.0, c,   s,
     0.0, -s,  c]
  }

  /** Rotation about the y axis by the angle whose sine is s and cosine c. */
  function RotY(s: real, c: real): Rotation
  {
    [c,   0.0, -s,
     0.0, 1.0, 0.0,
     s,   0.0, c]
  }

  /** Rotation about the z axis by the angle whose sine is s and cosine c. */
  function RotZ(s: real, c: real): Rotation
  {
    [c,   s,   0.0,
     -s,  c,   0.0,
     0.0, 0.0, 1.0]
  }

  /** Entry (r, c) of the product of two column-major 3x3 matrices. */
  function MulEntry(A: Rotation, B: Rotation, r: nat, c: nat): real
    requires r < 3 && c < 3
  {
    A[At3(0, r)] * B[At3(c, 0)] + A[At3(1, r)] * B[At3(c, 1)] + A[At3(2, r)] * B[At3(c, 2)]
  }

  /** The product A * B of two column-major 3x3 matrices. */
  function Mul3(A: Rotation, B: Rotation): Rotation
  {
    [MulEntry(A, B, 0, 0), MulEntry(A, B, 1, 0), MulEntry(A, B, 2, 0),
     MulEntry(A, B, 0, 1), MulEntry(A, B, 1, 1), MulEntry(A, B, 2, 1),
     MulEntry(A, B, 0, 2), MulEntry(A, B, 1, 2), MulEntry(A, B, 2, 2)]
  }

  /**
   * The rotation obtained by rotating about x by roll, then about the new y
   * by pitch, then about the new z by yaw: the product Rx * Ry * Rz.
   */
  function IntrinsicXYZ(sr: real, cr: real, sp: real, cp: real, sy: real, cy: real): Rotation
  {
    Mul3(Mul3(RotX(sr, cr), RotY(sp, cp)), RotZ(sy, cy))
  }

  /** Rotating about x and then about the new y, in closed form. */
  lemma RotXThenY(sr: real, cr: real, sp: real, cp: real)
    ensures Mul3(RotX(sr, cr), RotY(sp, cp)) == [cp, sr * sp, -cr * sp, 0.0, cr, sr, sp, -sr * cp, cr * cp]
  {
    var XY := Mul3(RotX(sr, cr), RotY(sp, cp));
    assert XY[0] == cp && XY[1] == sr * sp && XY[2] == -cr * sp;
    assert XY[3] == 0.0 && XY[4] == cr && XY[5] == sr;
    assert XY[6] == sp && XY[7] == -sr * cp && XY[8] == cr * cp;
  }

  /** The closed-form roll-pitch-yaw matrix is the intrinsic x, y', z'' rotation product. */
  lemma RpyMatrixIsIntrinsicXYZ(sr: real, cr: real, sp: real, cp: real, sy: real, cy: real)
    ensures RpyMatrix(sr, cr, sp, cp, sy, cy) == IntrinsicXYZ(sr, cr, sp, cp, sy, cy)
  {
    RotXThenY(sr, cr, sp, cp);
    var XY: Rotation := [cp, sr * sp, -cr * sp, 0.0, cr, sr, sp, -sr * cp, cr * cp];
    var R, M := Mul3(XY, RotZ(sy, cy)), RpyMatrix(sr, cr, sp, cp, sy, cy);
    assert R[0] == M[0] && R[1] == M[1] && R[2] == M[2];
    assert R[3] == M[3] && R[4] == M[4] && R[5] == M[5];
    assert R[6] == M[6] && R[7] == M[7] && R[8] == M[8];
  }

  /** Entry (r, c) of the extracted rotation is entry (r, c) of the pose. */
  lemma RotationOfEntry(T: Posture, c: nat, r: nat)
    requires c < 3 && r < 3
    ensures RotationOf(T)[At3(c, r)] == T[At4(c, r)]
  {
    if c == 0 {
      assert At3(c, r) == r && At4(c, r) == r;
    } else if c == 1 {
      assert At3(c, r) == 3 + r && At4(c, r) == 4 + r;
    } else {
      assert At3(c, r) == 6 + r && At4(c, r) == 8 + r;
    }
  }

  /** Entry (r, c) of the rotation written into a pose lands at entry (r, c) of the pose. */
  lemma WithRotationEntry(T: Posture, rot: Rotation, c: nat, r: nat)
    requires c < 3 && r < 3
    ensures WithRotation(T, rot)[At4(c, r)] == rot[At3(c, r)]
  {
  }

  /** A pose is WithRotation(T, rot) exactly when its block holds rot and its other entries are T's. */
  lemma WithRotationByEntries(t: Posture, T: Posture, rot: Rotation)
    requires t[0] == rot[0] && t[1] == rot[1] && t[2] == rot[2] && t[3] == T[3]
    requires t[4] == rot[3] && t[5] == rot[4] && t[6] == rot[5] && t[7] == T[7]
    requires t[8] == rot[6] && t[9] == rot[7] && t[10] == rot[8] && t[11] == T[11]
    requires t[12] == T[12] && t[13] == T[13] && t[14] == T[14] && t[15] == T[15]
    ensures t == WithRotation(T, rot)
  {
  }

  /** Writing a rotation keeps the bottom row and the translation of the pose. */
  lemma WithRotationKeeps(T: Posture, rot: Rotation)
    ensures var t := WithRotation(T, rot);
      t[3] == T[3] && t[7] == T[7] && t[11] == T[11] && t[15] == T[15] && TranslationOf(t) == TranslationOf(T)
  {
  }

  /** Reading back a rotation just written into a pose gives that rotation. */
  lemma RotationOfWithRotation(T: Posture, rot: Rotation)
    ensures RotationOf(WithRotation(T, rot)) == rot
  {
  }

  /** Writing back a pose's own rotation block leaves the pose unchanged. */
  lemma WithRotationOfSelf(T: Posture)
    ensures WithRotation(T, RotationOf(T)) == T
  {
  }

  /** The extracted rotation depends on the rotation block only, never on translation or bottom row. */
  lemma RotationOfIgnoresOutside(T: Posture, U: Posture)
    requires T[0..3] == U[0..3] && T[4..7] == U[4..7] && T[8..11] == U[8..11]
    ensures RotationOf(T) == RotationOf(U)
  {
  }

  /** Changing the translation does not change the rotation block, and vice versa. */
  lemma TranslationAndRotationIndependent(T: Posture, p: seq<real>, rot: Rotation)
    requires |p| >= 3
    ensures RotationOf(WithTranslation(T, p)) == RotationOf(T)
    ensures TranslationOf(WithRotation(T, rot)) == TranslationOf(T)
  {
  }

  /** Copies v into dst, as a chain solver fills its output buffer. */
  method Store(dst: array<real>, v: seq<real>)
    requires |v| == dst.Length
    modifies dst
    ensures dst[..] == v
  {
    for i := 0 to dst.Length
      invariant forall k | 0 <= k < i :: dst[k] == v[k]
    {
      dst[i] := v[i];
    }
  }

  /** Extracts the rotation block of the 4x4 pose T into Rot. */
  method T2Rot(T: array<real>, Rot: array<real>)
    requires T.Length == 16 && Rot.Length == 9
    modifies Rot
    ensures Rot[..] == RotationOf(T[..])
  {
    Rot[0] := T[0];
    Rot[3] := T[4];
    Rot[6] := T[8];
    Rot[1] := T[1];
    Rot[4] := T[5];
    Rot[7] := T[9];
    Rot[2] := T[2];
    Rot[5] := T[6];
    Rot[8] := T[10];
  }

  /** Evaluates the sines and cosines and forms the roll-pitch-yaw rotation from them. */
  method ComputeRpy(trig: Trig, roll: real, pitch: real, yaw: real) returns (m: Rotation)
    ensures m == IntrinsicXYZ(trig.sin(roll), trig.cos(roll), trig.sin(pitch), trig.cos(pitch), trig.sin(yaw), trig.cos(yaw))
    ensures m == RpyRotation(trig, roll, pitch, yaw)
  {
    var sr, cr := trig.sin(roll), trig.cos(roll);
    var sp, cp := trig.sin(pitch), trig.cos(pitch);
    var sy, cy := trig.sin(yaw), trig.cos(yaw);
    m := RpyMatrix(sr, cr, sp, cp, sy, cy);
    RpyMatrixIsIntrinsicXYZ(sr, cr, sp, cp, sy, cy);
  }

  /** Writes the roll-pitch-yaw rotation into the 3x3 matrix R. */
  method Rpy2R(trig: Trig, roll: real, pitch: real, yaw: real, R: array<real>)
    requires R.Length == 9
    modifies R
    ensures R[..] == RpyRotation(trig, roll, pitch, yaw)
    ensures R[..] == IntrinsicXYZ(trig.sin(roll), trig.cos(roll), trig.sin(pitch), trig.cos(pitch), trig.sin(yaw), trig.cos(yaw))
  {
    var m := ComputeRpy(trig, roll, pitch, yaw);
    R[0] := m[0]; R[3] := m[3]; R[6] := m[6];
    R[1] := m[1]; R[4] := m[4]; R[7] := m[7];
    R[2] := m[2]; R[5] := m[5]; R[8] := m[8];
    assert R[..] == m;
  }

  /** Writes the 3x3 rotation m into the rotation block of the 4x4 matrix R. */
  method PlaceRotation(m: Rotation, R: array<real>)
    requires R.Length == 16
    modifies R
    ensures R[..] == WithRotation(old(R[..]), m)
  {
    ghost var b: Posture := R[..];
    R[0] := m[0]; R[4] := m[3]; R[8] := m[6];
    R[1] := m[1]; R[5] := m[4]; R[9] := m[7];
    R[2] := m[2]; R[6] := m[5]; R[10] := m[8];
    ghost var t: Posture := R[..];
    assert t[0] == m[0] && t[1] == m[1] && t[2] == m[2] && t[3] == b[3];
    assert t[4] == m[3] && t[5] == m[4] && t[6] == m[5] && t[7] == b[7];
    assert t[8] == m[6] && t[9] == m[7] && t[10] == m[8] && t[11] == b[11];
    assert t[12] == b[12] && t[13] == b[13] && t[14] == b[14] && t[15] == b[15];
    WithRotationByEntries(t, b, m);
  }

  /**
   * Writes the roll-pitch-yaw rotation into the rotation block of the 4x4
   * matrix R, leaving its translation and bottom row as they were.
   */
  method Rpy2RHom(trig: Trig, roll: real, pitch: real, yaw: real, R: array<real>)
    requires R.Length == 16
    modifies R
    ensures R[..] == WithRotation(old(R[..]), RpyRotation(trig, roll, pitch, yaw))
    ensures RotationOf(R[..]) == IntrinsicXYZ(trig.sin(roll), trig.cos(roll), trig.sin(pitch), trig.cos(pitch), trig.sin(yaw), trig.cos(yaw))
  {
    var m := ComputeRpy(trig, roll, pitch, yaw);
    PlaceRotation(m, R);
    RotationOfWithRotation(old(R[..]), m);
  }

  /** Sets the translation of Tc to position and its rotation block to the roll-pitch-yaw rotation. */
  method InitPosture(trig: Trig, Tc: array<real>, position: seq<real>, roll: real, pitch: real, yaw: real)
    requires Tc.Length == 16 && |position| >= 3
    modifies Tc
    ensures Tc[..] == WithRotation(WithTranslation(old(Tc[..]), position), RpyRotation(trig, roll, pitch, yaw))
  {
    Tc[12] := position[0];
    Tc[13] := position[1];
    Tc[14] := position[2];
    assert Tc[..] == WithTranslation(old(Tc[..]), position);
    Rpy2RHom(trig, roll, pitch, yaw, Tc);
  }

  /**
   * What InitPosture produces: translation equal to the position, rotation
   * block equal to the one Rpy2R produces, bottom row untouched.
   */
  lemma InitPostureParts(trig: Trig, T: Posture, position: seq<real>, roll: real, pitch: real, yaw: real)
    requires |position| >= 3
    ensures var t := WithRotation(WithTranslation(T, position), RpyRotation(trig, roll, pitch, yaw));
      && TranslationOf(t) == position[..3]
      && RotationOf(t) == RpyRotation(trig, roll, pitch, yaw)
      && t[3] == T[3] && t[7] == T[7] && t[11] == T[11] && t[15] == T[15]
  {
  }
}
