/** The projection-matrix builders of the renderer. Matrices are 16 entries
    in column-major order, entry 4 * column + row, as OpenGL expects them. */
module Projection {
  import Orientation

  /** Math.PI, taken as the exact real 3.141592653589793 (the decimal the
      double prints as). */
  const PI: real := 3.141592653589793

  /** A 4x4 matrix as its 16 column-major entries. */
  type Mat = s: seq<real> | |s| == 16
    witness [0.0, 0.0, 0.0, 0.0, 0.0, 0.0, 0.0, 0.0, 0.0, 0.0, 0.0, 0.0, 0.0, 0.0, 0.0, 0.0]

  /** The perspective matrix of glFrustum (section 2.11.2 of the OpenGL 2.1
      specification): the reference the builders below are measured against. */
  function GlFrustum(l: real, r: real, b: real, t: real, n: real, f: real): Mat
    requires r != l && t != b && f != n
  {
    [2.0 * n / (r - l), 0.0, 0.0, 0.0,
     0.0, 2.0 * n / (t - b), 0.0, 0.0,
     (r + l) / (r - l), (t + b) / (t - b), -(f + n) / (f - n), -1.0,
     0.0, 0.0, -(2.0 * f * n) / (f - n), 0.0]
  }

  /** The matrix frustumM of older Android releases produces: the glFrustum
      matrix with entry 8 doubled, the defect frustum compensates for. */
  function AndroidFrustum(l: real, r: real, b: real, t: real, n: real, f: real): (m: Mat)
    requires r != l && t != b && f != n
    ensures m == GlFrustum(l, r, b, t, n, f)[8 := 2.0 * ((r + l) / (r - l))]
  {
    [2.0 * n / (r - l), 0.0, 0.0, 0.0,
     0.0, 2.0 * n / (t - b), 0.0, 0.0,
     2.0 * ((r + l) / (r - l)), (t + b) / (t - b), -(f + n) / (f - n), -1.0,
     0.0, 0.0, -(2.0 * f * n) / (f - n), 0.0]
  }

  /** The angle perspective passes to tan: half of fovy degrees, in radians. */
  function HalfAngle(fovy: real): real {
    fovy * PI / 180.0 / 2.0
  }

  /** The matrix perspective writes. */
  function PerspectiveMatrix(tan: real -> real, fovy: real, aspect: real, n: real, f: real): Mat
    requires f != n && aspect != 0.0 && tan(HalfAngle(fovy)) != 0.0
  {
    var d := f - n;
    var a := 1.0 / tan(HalfAngle(fovy));
    [a / aspect, 0.0, 0.0, 0.0,
     0.0, a, 0.0, 0.0,
     0.0, 0.0, (n - f) / d, -1.0,
     0.0, 0.0, -2.0 * f * n / d, 0.0]
  }

  /** The matrix frustum2 writes: glFrustum's matrix, except that the depth
      entry 10 is (n - f) / (f - n), which is always -1. */
  function Frustum2Matrix(l: real, r: real, b: real, t: real, n: real, f: real): (m: Mat)
    requires r != l && t != b && f != n
    ensures m == GlFrustum(l, r, b, t, n, f)[10 := -1.0]
  {
    var d1 := r - l;
    var d2 := t - b;
    var d3 := f - n;
    MinusOneQuotient(n, f);
    [2.0 * n / d1, 0.0, 0.0, 0.0,
     0.0, 2.0 * n / d2, 0.0, 0.0,
     (r + l) / d1, (t + b) / d2, (n - f) / d3, -1.0,
     0.0, 0.0, -2.0 * f * n / d3, 0.0]
  }

  lemma MinusOneQuotient(n: real, f: real)
    requires f != n
    ensures (n - f) / (f - n) == -1.0
  {
  }

  /** The depth entry of frustum2 agrees with glFrustum's only when the near
      plane is at distance 0: for every usable frustum it differs. */
  lemma Frustum2DepthEntry(l: real, r: real, b: real, t: real, n: real, f: real)
    requires r != l && t != b && f != n
    ensures Frustum2Matrix(l, r, b, t, n, f)[10] == GlFrustum(l, r, b, t, n, f)[10] <==> n == 0.0
  {
    var g := GlFrustum(l, r, b, t, n, f)[10];
    assert g == -(f + n) / (f - n);
    if g == -1.0 {
      QuotientOne(f + n, f - n);
    }
  }

  lemma QuotientOne(x: real, y: real)
    requires y != 0.0 && -x / y == -1.0
    ensures x == y
  {
    assert -x == -1.0 * y;
  }

  /** A frustum symmetric about the view axis has no skew terms. */
  lemma SymmetricFrustum2(r: real, t: real, n: real, f: real)
    requires r != 0.0 && t != 0.0 && f != n
    ensures Frustum2Matrix(-r, r, -t, t, n, f)[8] == 0.0
    ensures Frustum2Matrix(-r, r, -t, t, n, f)[9] == 0.0
    ensures Frustum2Matrix(-r, r, -t, t, n, f)[0] == n / r
    ensures Frustum2Matrix(-r, r, -t, t, n, f)[5] == n / t
  {
    HalveQuotient(n, r);
    HalveQuotient(n, t);
  }

  lemma HalveQuotient(n: real, r: real)
    requires r != 0.0
    ensures 2.0 * n / (r - -r) == n / r
  {
  }

  /** The half height perspective2 gives its frustum at the near plane. */
  function HalfHeight(tan: real -> real, fovy: real, n: real): real {
    tan(fovy / 360.0 * PI) * n
  }

  /** The half width perspective2 gives its frustum at the near plane. */
  function HalfWidth(tan: real -> real, fovy: real, aspect: real, n: real): real {
    HalfHeight(tan, fovy, n) * aspect
  }

  /** perspective builds the frustum2 matrix of the symmetric frustum that
      perspective2 derives from the same field of view and aspect ratio. */
  lemma PerspectiveIsSymmetricFrustum(tan: real -> real, fovy: real, aspect: real, n: real, f: real)
    requires f != n && aspect != 0.0 && n != 0.0 && tan(HalfAngle(fovy)) != 0.0
    ensures HalfWidth(tan, fovy, aspect, n) != 0.0 && HalfHeight(tan, fovy, n) != 0.0
    ensures PerspectiveMatrix(tan, fovy, aspect, n, f) ==
            Frustum2Matrix(-HalfWidth(tan, fovy, aspect, n), HalfWidth(tan, fovy, aspect, n),
                           -HalfHeight(tan, fovy, n), HalfHeight(tan, fovy, n), n, f)
  {
    var c := tan(HalfAngle(fovy));
    assert fovy / 360.0 * PI == HalfAngle(fovy);
    var h := HalfHeight(tan, fovy, n);
    var w := HalfWidth(tan, fovy, aspect, n);
    assert h == c * n;
    assert w == h * aspect;
    Orientation.NonZeroProduct(c, n);
    Orientation.NonZeroProduct(h, aspect);
    SymmetricFrustum2(w, h, n, f);
    Reciprocal(c, n, h);
    ReciprocalScaled(c, n, aspect, h, w);
  }

  lemma Reciprocal(c: real, n: real, h: real)
    requires c != 0.0 && n != 0.0 && h == c * n
    ensures n / h == 1.0 / c
  {
  }

  lemma ReciprocalScaled(c: real, n: real, aspect: real, h: real, w: real)
    requires c != 0.0 && n != 0.0 && aspect != 0.0 && h == c * n && w == h * aspect
    ensures n / w == 1.0 / c / aspect
  {
    assert w == c * (n * aspect);
    assert n / w == 1.0 / (c * aspect);
  }

  /** The array after frustum: frustumM's matrix F written at offset, then
      entry 8 of the array (not entry 8 of the block) halved. */
  function FrustumWritten(s: seq<real>, offset: int, F: Mat): (w: seq<real>)
    requires 0 <= offset && offset + 16 <= |s|
    ensures |w| == |s|
  {
    var written := s[..offset] + F + s[offset + 16..];
    written[8 := written[8] / 2.0]
  }

  /** At offset 0, frustum keeps all of frustumM's entries but entry 8, which
      it halves, and leaves the rest of the array alone. */
  lemma FrustumAtStart(s: seq<real>, F: Mat)
    requires 16 <= |s|
    ensures FrustumWritten(s, 0, F)[..16] == F[8 := F[8] / 2.0]
    ensures FrustumWritten(s, 0, F)[16..] == s[16..]
  {
  }

  /** At an offset of 9 or more the halving misses the block frustumM wrote:
      the block keeps frustumM's matrix unchanged and the caller's own entry
      8 is halved instead. */
  lemma FrustumAtLaterOffset(s: seq<real>, offset: int, F: Mat)
    requires 9 <= offset && offset + 16 <= |s|
    ensures FrustumWritten(s, offset, F)[offset..offset + 16] == F
    ensures FrustumWritten(s, offset, F)[8] == s[8] / 2.0
    ensures forall i :: 0 <= i < |s| && i != 8 && !(offset <= i < offset + 16) ==>
      FrustumWritten(s, offset, F)[i] == s[i]
  {
    var w := FrustumWritten(s, offset, F);
    forall i | 0 <= i < 16
      ensures w[offset + i] == F[i]
    {
    }
  }

  /** With the frustumM of older Android releases, frustum at offset 0 yields
      exactly the glFrustum matrix: halving entry 8 undoes the defect. */
  lemma FrustumCorrectsAndroid(s: seq<real>, l: real, r: real, b: real, t: real, n: real, f: real)
    requires r != l && t != b && f != n && 16 <= |s|
    ensures FrustumWritten(s, 0, AndroidFrustum(l, r, b, t, n, f))[..16] == GlFrustum(l, r, b, t, n, f)
  {
    var A := AndroidFrustum(l, r, b, t, n, f);
    FrustumAtStart(s, A);
    assert A[8] / 2.0 == (r + l) / (r - l);
  }

  /** For symmetric bounds entry 8 is 0, so the frustumM defect cannot be
      seen: the defective matrix equals glFrustum's. */
  lemma SymmetricAndroidFrustum(w: real, h: real, n: real, f: real)
    requires w != 0.0 && h != 0.0 && f != n
    ensures AndroidFrustum(-w, w, -h, h, n, f) == GlFrustum(-w, w, -h, h, n, f)
  {
    assert (w + -w) / (w - -w) == 0.0;
  }

  /** At offset 0, perspective2 over the frustumM of older Android releases
      agrees with perspective on every entry except the depth entry 10, where
      it has glFrustum's value instead of -1. At a later offset the two write
      different parts of the array (FrustumAtLaterOffset). */
  lemma Perspective2AgreesWithPerspective(s: seq<real>, tan: real -> real, fovy: real, aspect: real, n: real, f: real)
    requires 16 <= |s| && f != n && aspect != 0.0 && n != 0.0 && tan(HalfAngle(fovy)) != 0.0
    ensures HalfWidth(tan, fovy, aspect, n) != 0.0 && HalfHeight(tan, fovy, n) != 0.0
    ensures FrustumWritten(s, 0, AndroidFrustum(-HalfWidth(tan, fovy, aspect, n), HalfWidth(tan, fovy, aspect, n),
                                                -HalfHeight(tan, fovy, n), HalfHeight(tan, fovy, n), n, f))[..16]
            == PerspectiveMatrix(tan, fovy, aspect, n, f)[10 := -(f + n) / (f - n)]
  {
    var w := HalfWidth(tan, fovy, aspect, n);
    var h := HalfHeight(tan, fovy, n);
    PerspectiveIsSymmetricFrustum(tan, fovy, aspect, n, f);
    FrustumCorrectsAndroid(s, -w, w, -h, h, n, f);
  }

  /** perspective: fills entries 0..15 of m; the offset argument is not used. */
  method Perspective(m: array<real>, offset: int, fovy: real, aspect: real, n: real, f: real, tan: real -> real)
    requires m.Length >= 16
    requires f != n && aspect != 0.0 && tan(HalfAngle(fovy)) != 0.0
    modifies m
    ensures m[..16] == PerspectiveMatrix(tan, fovy, aspect, n, f)
    ensures m[16..] == old(m[16..])
  {
    var d := f - n;
    var angleInRadians := fovy * PI / 180.0;
    var a := 1.0 / tan(angleInRadians / 2.0);
    assert angleInRadians / 2.0 == HalfAngle(fovy);

    m[0] := a / aspect;
    m[1] := 0.0;
    m[2] := 0.0;
    m[3] := 0.0;

    m[4] := 0.0;
    m[5] := a;
    m[6] := 0.0;
    m[7] := 0.0;

    m[8] := 0.0;
    m[9] := 0.0;
    m[10] := (n - f) / d;
    m[11] := -1.0;

    m[12] := 0.0;
    m[13] := 0.0;
    m[14] := -2.0 * f * n / d;
    m[15] := 0.0;
  }

  /** frustum2: fills entries 0..15 of m; the offset argument is not used. */
  method Frustum2(m: array<real>, offset: int, l: real, r: real, b: real, t: real, n: real, f: real)
    requires m.Length >= 16
    requires r != l && t != b && f != n
    modifies m
    ensures m[..16] == Frustum2Matrix(l, r, b, t, n, f)
    ensures m[16..] == old(m[16..])
  {
    var d1 := r - l;
    var d2 := t - b;
    var d3 := f - n;
    MinusOneQuotient(n, f);

    m[0] := 2.0 * n / d1;
    m[1] := 0.0;
    m[2] := 0.0;
    m[3] := 0.0;

    m[4] := 0.0;
    m[5] := 2.0 * n / d2;
    m[6] := 0.0;
    m[7] := 0.0;

    m[8] := (r + l) / d1;
    m[9] := (t + b) / d2;
    m[10] := (n - f) / d3;
    m[11] := -1.0;

    m[12] := 0.0;
    m[13] := 0.0;
    m[14] := -2.0 * f * n / d3;
    m[15] := 0.0;
  }

  /** frustum: the library frustumM writes its matrix at offset, then
      entry 8 of m is halved. */
  method Frustum(m: array<real>, offset: int, l: real, r: real, b: real, t: real, n: real, f: real,
                 frustumM: (real, real, real, real, real, real) -> Mat)
    requires 0 <= offset && offset + 16 <= m.Length
    modifies m
    ensures m[..] == FrustumWritten(old(m[..]), offset, frustumM(l, r, b, t, n, f))
  {
    var F := frustumM(l, r, b, t, n, f);
    forall i | 0 <= i < 16 {
      m[offset + i] := F[i];
    }
    assert m[..] == old(m[..])[..offset] + F + old(m[..])[offset + 16..];
    m[8] := m[8] / 2.0;
  }

  /** perspective2: the symmetric frustum of the given field of view and
      aspect ratio, built with frustum. */
  method Perspective2(m: array<real>, offset: int, fovy: real, aspect: real, n: real, f: real,
                      tan: real -> real, frustumM: (real, real, real, real, real, real) -> Mat)
    requires 0 <= offset && offset + 16 <= m.Length
    modifies m
    ensures m[..] == FrustumWritten(old(m[..]), offset,
      frustumM(-HalfWidth(tan, fovy, aspect, n), HalfWidth(tan, fovy, aspect, n),
               -HalfHeight(tan, fovy, n), HalfHeight(tan, fovy, n), n, f))
  {
    var fH, fW;
    fH := tan(fovy / 360.0 * PI) * n;
    fW := fH * aspect;
    assert fH == HalfHeight(tan, fovy, n) && fW == HalfWidth(tan, fovy, aspect, n);
    Frustum(m, offset, -fW, fW, -fH, fH, n, f, frustumM);
  }
}
