/**
 * Off-axis projection math of scripts/three-sixty-video.js: from the four
 * field-of-view tangents of one eye to the 4x4 projection matrix handed to
 * the rendering library.
 *
 * JavaScript numbers are modelled as `real`; the tangent of an angle given in
 * degrees (`Math.tan(d * Math.PI / 180)`) is a parameter of the model.
 */
module Projection {
  import opened Optional

  /** Tangents of the four edges of one eye's field of view (a "FOV port"). */
  datatype FovPort = FovPort(upTan: real, downTan: real, leftTan: real, rightTan: real)

  /** One eye's field of view as the device reports it, in degrees. */
  datatype FieldOfView = FieldOfView(upDegrees: real, downDegrees: real, leftDegrees: real, rightDegrees: real)

  /** The `{ scale: [sx, sy], offset: [ox, oy] }` record of normalised-device-coordinate scaling. */
  datatype ScaleOffset = ScaleOffset(scaleX: real, scaleY: real, offsetX: real, offsetY: real)

  /** A homogeneous point or clip-space vector. */
  datatype Vec4 = Vec4(x: real, y: real, z: real, w: real)

  const DefaultRightHanded: bool := true
  const DefaultNear: real := 0.01
  const DefaultFar: real := 10000.0

  /** The divisions of the scale computation are defined (the caller's obligation). */
  predicate NonDegenerate(fov: FovPort)
  {
    fov.leftTan + fov.rightTan != 0.0 && fov.upTan + fov.downTan != 0.0
  }

  /**
   * fovToNDCScaleOffset: the affine maps t |-> scale * t + offset that send the
   * left edge (-leftTan) to -1 and the right edge (rightTan) to +1 horizontally,
   * and, with Y pointing down in device coordinates, the up edge (-upTan) to -1
   * and the down edge (downTan) to +1 vertically. The two edge equations of
   * each axis determine its scale and offset uniquely.
   */
  function FovToNDCScaleOffset(fov: FovPort): (r: ScaleOffset)
    requires NonDegenerate(fov)
    ensures r.scaleX * -fov.leftTan + r.offsetX == -1.0
    ensures r.scaleX * fov.rightTan + r.offsetX == 1.0
    ensures r.scaleY * -fov.upTan + r.offsetY == -1.0
    ensures r.scaleY * fov.downTan + r.offsetY == 1.0
  {
    var pxscale := 2.0 / (fov.leftTan + fov.rightTan);
    var pxoffset := (fov.leftTan - fov.rightTan) * pxscale * 0.5;
    var pyscale := 2.0 / (fov.upTan + fov.downTan);
    var pyoffset := (fov.upTan - fov.downTan) * pyscale * 0.5;
    assert pxscale * (fov.leftTan + fov.rightTan) == 2.0;
    assert pyscale * (fov.upTan + fov.downTan) == 2.0;
    ScaleOffset(pxscale, pyscale, pxoffset, pyoffset)
  }

  /** `handednessScale`: -1 for a right-handed system, +1 for a left-handed one. */
  function HandednessScale(rightHanded: bool): real
  {
    if rightHanded then -1.0 else 1.0
  }

  /** Row-major reading: entry (row, col) of a 16-element scratch matrix. */
  function Entry(m: seq<real>, row: int, col: int): real
    requires |m| == 16 && 0 <= row < 4 && 0 <= col < 4
  {
    m[row * 4 + col]
  }

  /** Column-major reading, the rendering library's storage: element (row, col). */
  function Element(m: seq<real>, row: int, col: int): real
    requires |m| == 16 && 0 <= row < 4 && 0 <= col < 4
  {
    m[col * 4 + row]
  }

  /**
   * The scratch matrix of fovPortToProjection, in the row-major order in
   * which the source fills it, one row per line.
   */
  function ScratchMatrix(fov: FovPort, rightHanded: bool, zNear: real, zFar: real): (m: seq<real>)
    requires NonDegenerate(fov) && zNear != zFar
    ensures |m| == 16
  {
    var so := FovToNDCScaleOffset(fov);
    var h := HandednessScale(rightHanded);
    [ so.scaleX, 0.0, so.offsetX * h, 0.0,
      0.0, so.scaleY, -so.offsetY * h, 0.0,
      0.0, 0.0, zFar / (zNear - zFar) * -h, (zFar * zNear) / (zNear - zFar),
      0.0, 0.0, h, 0.0 ]
  }

  /** The transpose of a 4x4 matrix stored in 16 entries. */
  function Transposed(s: seq<real>): (t: seq<real>)
    requires |s| == 16
    ensures |t| == 16
    ensures forall row, col | 0 <= row < 4 && 0 <= col < 4 :: Element(t, row, col) == Entry(s, row, col)
  {
    [ s[0], s[4], s[8], s[12],
      s[1], s[5], s[9], s[13],
      s[2], s[6], s[10], s[14],
      s[3], s[7], s[11], s[15] ]
  }

  /** The 16 elements of the matrix fovPortToProjection returns. */
  function ProjectionElements(fov: FovPort, rightHanded: bool, zNear: real, zFar: real): (m: seq<real>)
    requires NonDegenerate(fov) && zNear != zFar
    ensures |m| == 16
  {
    Transposed(ScratchMatrix(fov, rightHanded, zNear, zFar))
  }

  /** Row `row` of a column-major matrix applied to `v`. */
  function RowTimes(m: seq<real>, row: int, v: Vec4): real
    requires |m| == 16 && 0 <= row < 4
  {
    Element(m, row, 0) * v.x + Element(m, row, 1) * v.y + Element(m, row, 2) * v.z + Element(m, row, 3) * v.w
  }

  /** A column-major matrix applied to a point, as the rendering library applies it. */
  function Transform(m: seq<real>, v: Vec4): Vec4
    requires |m| == 16
  {
    Vec4(RowTimes(m, 0, v), RowTimes(m, 1, v), RowTimes(m, 2, v), RowTimes(m, 3, v))
  }

  /** The tangents of a field of view given in degrees. */
  function Tangents(fov: FieldOfView, tanDegrees: real -> real): FovPort
  {
    FovPort(tanDegrees(fov.upDegrees), tanDegrees(fov.downDegrees),
            tanDegrees(fov.leftDegrees), tanDegrees(fov.rightDegrees))
  }

  /**
   * Fills rows X, Y, Z and W of the scratch matrix. Every one of the 16 entries
   * is written, so the result does not depend on what `m` held before.
   */
  method FillScratch(m: array<real>, fov: FovPort, rightHanded: bool, zNear: real, zFar: real)
    requires m.Length == 16
    requires NonDegenerate(fov) && zNear != zFar
    modifies m
    ensures m[..] == ScratchMatrix(fov, rightHanded, zNear, zFar)
  {
    var handednessScale := if rightHanded then -1.0 else 1.0;
    var scaleAndOffset := FovToNDCScaleOffset(fov);

    // row X: horizontal scale, and the offset in the depth column
    m[0 * 4 + 0] := scaleAndOffset.scaleX;
    m[0 * 4 + 1] := 0.0;
    m[0 * 4 + 2] := scaleAndOffset.offsetX * handednessScale;
    m[0 * 4 + 3] := 0.0;

    // row Y: vertical scale, and the offset negated since device Y runs downward
    m[1 * 4 + 0] := 0.0;
    m[1 * 4 + 1] := scaleAndOffset.scaleY;
    m[1 * 4 + 2] := -scaleAndOffset.offsetY * handednessScale;
    m[1 * 4 + 3] := 0.0;

    // row Z: the depth terms
    m[2 * 4 + 0] := 0.0;
    m[2 * 4 + 1] := 0.0;
    m[2 * 4 + 2] := zFar / (zNear - zFar) * -handednessScale;
    m[2 * 4 + 3] := (zFar * zNear) / (zNear - zFar);

    // row W: copies the input depth, signed by handedness
    m[3 * 4 + 0] := 0.0;
    m[3 * 4 + 1] := 0.0;
    m[3 * 4 + 2] := handednessScale;
    m[3 * 4 + 3] := 0.0;

    assert forall i | 0 <= i < 16 :: m[i] == ScratchMatrix(fov, rightHanded, zNear, zFar)[i];
  }

  /** Exchanges two elements of the matrix storage. */
  method Swap(m: array<real>, i: int, j: int)
    requires 0 <= i < m.Length && 0 <= j < m.Length
    modifies m
    ensures m[..] == old(m[..])[i := old(m[j])][j := old(m[i])]
  {
    var tmp := m[i];
    m[i] := m[j];
    m[j] := tmp;
  }

  /** In-place transpose of a 4x4 matrix: swaps the six pairs across the diagonal. */
  method Transpose(m: array<real>)
    requires m.Length == 16
    modifies m
    ensures m[..] == Transposed(old(m[..]))
  {
    ghost var s := m[..];
    Swap(m, 1, 4);
    Swap(m, 2, 8);
    Swap(m, 6, 9);
    Swap(m, 3, 12);
    Swap(m, 7, 13);
    Swap(m, 11, 14);
    assert m[..] == [ s[0], s[4], s[8], s[12], s[1], s[5], s[9], s[13],
                      s[2], s[6], s[10], s[14], s[3], s[7], s[11], s[15] ];
  }

  /**
   * fovPortToProjection: an absent argument takes its default (right-handed,
   * near 0.01, far 10000); the matrix starts as the identity, is filled in
   * row-major order and transposed before it is returned.
   */
  method FovPortToProjection(fov: FovPort, rightHanded: Option<bool>, zNear: Option<real>, zFar: Option<real>)
    returns (m: array<real>)
    requires NonDegenerate(fov) && zNear.GetOr(DefaultNear) != zFar.GetOr(DefaultFar)
    ensures fresh(m)
    ensures m[..] == ProjectionElements(fov, rightHanded.GetOr(DefaultRightHanded),
                                        zNear.GetOr(DefaultNear), zFar.GetOr(DefaultFar))
  {
    var rh := rightHanded.GetOr(DefaultRightHanded);
    var near := zNear.GetOr(DefaultNear);
    var far := zFar.GetOr(DefaultFar);
    m := new real[16](i => if i % 5 == 0 then 1.0 else 0.0);
    FillScratch(m, fov, rh, near, far);
    Transpose(m);
  }

  /** fovToProjection: the field of view in degrees, turned into tangents first. */
  method FovToProjection(fov: FieldOfView, tanDegrees: real -> real,
                         rightHanded: Option<bool>, zNear: Option<real>, zFar: Option<real>)
    returns (m: array<real>)
    requires NonDegenerate(Tangents(fov, tanDegrees))
    requires zNear.GetOr(DefaultNear) != zFar.GetOr(DefaultFar)
    ensures fresh(m)
    ensures m[..] == ProjectionElements(Tangents(fov, tanDegrees), rightHanded.GetOr(DefaultRightHanded),
                                        zNear.GetOr(DefaultNear), zFar.GetOr(DefaultFar))
  {
    var fovPort := FovPort(tanDegrees(fov.upDegrees), tanDegrees(fov.downDegrees),
                           tanDegrees(fov.leftDegrees), tanDegrees(fov.rightDegrees));
    m := FovPortToProjection(fovPort, rightHanded, zNear, zFar);
  }

  // ---------------------------------------------------------------------------
  // Properties of the scale/offset pair
  // ---------------------------------------------------------------------------

  /**
   * For a field of view with positive tangents, both scales are positive and
   * are 2 over the tangent sums, and both offsets lie strictly inside (-1, 1):
   * the optical axis falls inside the viewport.
   */
  lemma PositiveTangentsGiveCentredScale(fov: FovPort)
    requires fov.leftTan > 0.0 && fov.rightTan > 0.0 && fov.upTan > 0.0 && fov.downTan > 0.0
    ensures var so := FovToNDCScaleOffset(fov);
      && so.scaleX > 0.0 && so.scaleX * (fov.leftTan + fov.rightTan) == 2.0
      && so.scaleY > 0.0 && so.scaleY * (fov.upTan + fov.downTan) == 2.0
      && -1.0 < so.offsetX < 1.0 && -1.0 < so.offsetY < 1.0
  {
    var so := FovToNDCScaleOffset(fov);
    OffsetInsideUnit(fov.leftTan, fov.rightTan, so.scaleX, so.offsetX);
    OffsetInsideUnit(fov.upTan, fov.downTan, so.scaleY, so.offsetY);
  }

  /** One axis of PositiveTangentsGiveCentredScale. */
  lemma OffsetInsideUnit(a: real, b: real, s: real, o: real)
    requires a > 0.0 && b > 0.0
    requires s * -a + o == -1.0 && s * b + o == 1.0
    ensures s > 0.0 && s * (a + b) == 2.0 && -1.0 < o < 1.0
  {
    assert s * (a + b) == 2.0;
    assert o == 1.0 - s * b;
    assert s * b > 0.0;
    assert s * a > 0.0;
  }

  /**
   * The offset need not be smaller than the scale: with a wide left edge and
   * a narrow right edge the offset exceeds the scale.
   */
  lemma OffsetCanExceedScale()
    ensures var so := FovToNDCScaleOffset(FovPort(1.0, 1.0, 5.0, 0.5));
      so.scaleX > 0.0 && so.offsetX > so.scaleX
  {
    var so := FovToNDCScaleOffset(FovPort(1.0, 1.0, 5.0, 0.5));
    assert so.scaleX == 2.0 / 5.5;
    assert so.offsetX == 4.5 / 5.5;
  }

  /** An offset is zero exactly when its field of view is symmetric on that axis. */
  lemma ZeroOffsetIffSymmetric(fov: FovPort)
    requires NonDegenerate(fov)
    ensures var so := FovToNDCScaleOffset(fov);
      && (so.offsetX == 0.0 <==> fov.leftTan == fov.rightTan)
      && (so.offsetY == 0.0 <==> fov.upTan == fov.downTan)
  {
    var so := FovToNDCScaleOffset(fov);
    HalfProductZeroIff(fov.leftTan - fov.rightTan, so.scaleX, fov.leftTan + fov.rightTan);
    HalfProductZeroIff(fov.upTan - fov.downTan, so.scaleY, fov.upTan + fov.downTan);
  }

  /** One axis of ZeroOffsetIffSymmetric: (d * s * 0.5 == 0) iff d == 0, for s = 2 / t. */
  lemma HalfProductZeroIff(d: real, s: real, t: real)
    requires t != 0.0 && s == 2.0 / t
    ensures d * s * 0.5 == 0.0 <==> d == 0.0
  {
    assert s * t == 2.0;
  }

  // ---------------------------------------------------------------------------
  // Properties of the projection matrix
  // ---------------------------------------------------------------------------

  /**
   * The returned matrix is the column-major layout of the scratch matrix, so
   * applying it as the rendering library does multiplies by the rows written
   * in the source.
   */
  lemma ProjectionIsScratchColumnMajor(fov: FovPort, rightHanded: bool, zNear: real, zFar: real, v: Vec4)
    requires NonDegenerate(fov) && zNear != zFar
    ensures var s := ScratchMatrix(fov, rightHanded, zNear, zFar);
      forall row | 0 <= row < 4 ::
        RowTimes(ProjectionElements(fov, rightHanded, zNear, zFar), row, v)
        == Entry(s, row, 0) * v.x + Entry(s, row, 1) * v.y + Entry(s, row, 2) * v.z + Entry(s, row, 3) * v.w
  {
  }

  /**
   * The matrix is centred (no horizontal or vertical offset in column 2) exactly
   * when the field of view is symmetric: then it is a plain symmetric perspective.
   */
  lemma CentredIffSymmetric(fov: FovPort, rightHanded: bool, zNear: real, zFar: real)
    requires NonDegenerate(fov) && zNear != zFar
    ensures var m := ProjectionElements(fov, rightHanded, zNear, zFar);
      (Element(m, 0, 2) == 0.0 && Element(m, 1, 2) == 0.0)
      <==> (fov.leftTan == fov.rightTan && fov.upTan == fov.downTan)
  {
    ZeroOffsetIffSymmetric(fov);
  }

  /**
   * Whatever the handedness, the corner (-leftTan, upTan) of the frustum at unit
   * distance in front of the eye lands on clip corner (-1, +1) and the corner
   * (rightTan, -downTan) on (+1, -1), both with w = 1. The negated Y offset is
   * what makes the up edge land on +1.
   */
  lemma FrustumCornersMapToClipCorners(fov: FovPort, rightHanded: bool, zNear: real, zFar: real)
    requires NonDegenerate(fov) && zNear != zFar
    ensures var m := ProjectionElements(fov, rightHanded, zNear, zFar);
      var h := HandednessScale(rightHanded);
      var a := Transform(m, Vec4(-fov.leftTan, fov.upTan, h, 1.0));
      var b := Transform(m, Vec4(fov.rightTan, -fov.downTan, h, 1.0));
      a.x == -1.0 && a.y == 1.0 && a.w == 1.0 && b.x == 1.0 && b.y == -1.0 && b.w == 1.0
  {
    var so := FovToNDCScaleOffset(fov);
    var h := HandednessScale(rightHanded);
    assert h * h == 1.0;
    var m := ProjectionElements(fov, rightHanded, zNear, zFar);
    assert Element(m, 0, 0) == so.scaleX && Element(m, 0, 2) == so.offsetX * h;
    assert Element(m, 1, 1) == so.scaleY && Element(m, 1, 2) == -so.offsetY * h;
    assert so.offsetX * h * h == so.offsetX;
    assert -so.offsetY * h * h == -so.offsetY;
  }

  /**
   * Depth: every point of the near plane in front of the eye, whatever its x
   * and y, gets depth 0 (z = 0, w = zNear), and every point of the far plane
   * depth 1 (z = w = zFar).
   */
  lemma NearAndFarPlanesMapToDepthRange(fov: FovPort, rightHanded: bool, zNear: real, zFar: real, x: real, y: real)
    requires NonDegenerate(fov) && zNear != zFar
    ensures var m := ProjectionElements(fov, rightHanded, zNear, zFar);
      var h := HandednessScale(rightHanded);
      var n := Transform(m, Vec4(x, y, h * zNear, 1.0));
      var f := Transform(m, Vec4(x, y, h * zFar, 1.0));
      n.z == 0.0 && n.w == zNear && f.z == zFar && f.w == zFar
  {
    var h := HandednessScale(rightHanded);
    var m := ProjectionElements(fov, rightHanded, zNear, zFar);
    assert Element(m, 2, 2) == zFar / (zNear - zFar) * -h;
    assert Element(m, 2, 3) == (zFar * zNear) / (zNear - zFar);
    assert Element(m, 3, 2) == h;
    assert Element(m, 2, 0) == 0.0 && Element(m, 2, 1) == 0.0;
    assert Element(m, 3, 0) == 0.0 && Element(m, 3, 1) == 0.0 && Element(m, 3, 3) == 0.0;
    DepthTerms(h, zNear, zFar);
  }

  /** The arithmetic of NearAndFarPlanesMapToDepthRange, on plain numbers. */
  lemma DepthTerms(h: real, n: real, f: real)
    requires h == 1.0 || h == -1.0
    requires n != f
    ensures f / (n - f) * -h * (h * n) + (f * n) / (n - f) == 0.0
    ensures f / (n - f) * -h * (h * f) + (f * n) / (n - f) == f
    ensures h * (h * n) == n && h * (h * f) == f
  {
    var d := n - f;
    var q := f / d;
    assert q * d == f;
    assert h * h == 1.0;
    assert (f * n) / d == q * n;
    assert q * -h * (h * n) == -(q * n);
    assert q * -h * (h * f) == -(q * f);
    assert q * n - q * f == q * d;
  }

  /**
   * Switching from right- to left-handed negates exactly the four entries of
   * column 2 of the scratch matrix (rows X, Y, Z and W) and keeps every other
   * entry, including the depth term zFar * zNear / (zNear - zFar). The W entry
   * is never zero, so at least that entry really changes.
   */
  lemma HandednessFlipNegatesColumnTwo(fov: FovPort, zNear: real, zFar: real)
    requires NonDegenerate(fov) && zNear != zFar
    ensures var r := ScratchMatrix(fov, true, zNear, zFar);
      var l := ScratchMatrix(fov, false, zNear, zFar);
      && (forall row, col | 0 <= row < 4 && 0 <= col < 4 ::
            Entry(l, row, col) == if col == 2 then -Entry(r, row, col) else Entry(r, row, col))
      && Entry(l, 3, 2) != Entry(r, 3, 2)
  {
    var r := ScratchMatrix(fov, true, zNear, zFar);
    var l := ScratchMatrix(fov, false, zNear, zFar);
    forall row, col | 0 <= row < 4 && 0 <= col < 4
      ensures Entry(l, row, col) == if col == 2 then -Entry(r, row, col) else Entry(r, row, col)
    {
      assert row == 0 || row == 1 || row == 2 || row == 3;
      assert col == 0 || col == 1 || col == 2 || col == 3;
    }
  }
}
