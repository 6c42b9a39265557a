// Vector and 4x4 matrix helpers of src/common.h.
//
// A Mat_4 is sixteen scalars stored column-major: the entry in column `col`
// and row `row` lives at index col * 4 + row. Scalars are modelled as `real`.
// The helpers build a local matrix by writing its entries one at a time; the
// methods below do the same on a local `array<real>` and hand back its
// contents as a value, as the C functions return their struct by value.
module Common {

  /** Vec_2: a pair of scalars. */
  datatype Vec2 = Vec2(x: real, y: real)

  /** vec2_sub: the difference a - b, component by component. */
  function Vec2Sub(a: Vec2, b: Vec2): (r: Vec2)
    ensures r.x + b.x == a.x && r.y + b.y == a.y
  {
    Vec2(a.x - b.x, a.y - b.y)
  }

  /** Mat_4: sixteen scalars, column-major. */
  type Mat4 = m: seq<real> | |m| == 16 witness seq(16, _ => 0.0)

  /** A homogeneous point (x, y, z, w) as a column vector. */
  type Vec4 = p: seq<real> | |p| == 4 witness [0.0, 0.0, 0.0, 0.0]

  // ---------------------------------------------------------------------
  // Specification functions

  /** The identity: 1 where the column equals the row, 0 elsewhere. */
  function IdentityMatrix(): Mat4
  {
    seq(16, i => if i / 4 == i % 4 then 1.0 else 0.0)
  }

  /** Sum over k < n of a(column k, row) * b(column col, row k), added up in
      increasing k, as the innermost loop of mat4_mul accumulates it. */
  function PartialDot(a: Mat4, b: Mat4, col: int, row: int, n: nat): real
    requires 0 <= col < 4 && 0 <= row < 4 && n <= 4
  {
    if n == 0 then 0.0
    else PartialDot(a, b, col, row, n - 1) + a[(n - 1) * 4 + row] * b[col * 4 + (n - 1)]
  }

  /** The matrix product a * b of two column-major matrices. */
  function Product(a: Mat4, b: Mat4): Mat4
  {
    seq(16, i requires 0 <= i < 16 => PartialDot(a, b, i / 4, i % 4, 4))
  }

  /** Row `row` of m applied to the column vector p. */
  function RowTimes(m: Mat4, row: int, p: Vec4): real
    requires 0 <= row < 4
  {
    m[row] * p[0] + m[4 + row] * p[1] + m[8 + row] * p[2] + m[12 + row] * p[3]
  }

  /** m applied to the column vector p. */
  function Transform(m: Mat4, p: Vec4): Vec4
  {
    [RowTimes(m, 0, p), RowTimes(m, 1, p), RowTimes(m, 2, p), RowTimes(m, 3, p)]
  }

  /** Column `col` of m. */
  function Column(m: Mat4, col: int): Vec4
    requires 0 <= col < 4
  {
    [m[col * 4], m[col * 4 + 1], m[col * 4 + 2], m[col * 4 + 3]]
  }

  /** The translation by (x, y, z): the identity with the last column's
      first three entries replaced. */
  function Translation(x: real, y: real, z: real): Mat4
  {
    [1.0, 0.0, 0.0, 0.0,
     0.0, 1.0, 0.0, 0.0,
     0.0, 0.0, 1.0, 0.0,
     x,   y,   z,   1.0]
  }

  /** The scaling by (x, y, z): the identity with its first three diagonal
      entries replaced. */
  function Scaling(x: real, y: real, z: real): Mat4
  {
    [x,   0.0, 0.0, 0.0,
     0.0, y,   0.0, 0.0,
     0.0, 0.0, z,   0.0,
     0.0, 0.0, 0.0, 1.0]
  }

  // ---------------------------------------------------------------------
  // The helpers

  /** mat4_identity */
  method Identity() returns (r: Mat4)
    ensures forall i :: 0 <= i < 16 ==>
      r[i] == (if i == 0 || i == 5 || i == 10 || i == 15 then 1.0 else 0.0)
    ensures r == IdentityMatrix()
  {
    var m := new real[16];
    m[0] := 1.0; m[4] := 0.0; m[ 8] := 0.0; m[12] := 0.0;
    m[1] := 0.0; m[5] := 1.0; m[ 9] := 0.0; m[13] := 0.0;
    m[2] := 0.0; m[6] := 0.0; m[10] := 1.0; m[14] := 0.0;
    m[3] := 0.0; m[7] := 0.0; m[11] := 0.0; m[15] := 1.0;
    r := m[..];
    IdentityEntries();
  }

  /** mat4_mul: every entry (col, row) of the result is written, and it is
      the sum over k of a(k, row) * b(col, k). */
  method Mul(a: Mat4, b: Mat4) returns (r: Mat4)
    ensures r == Product(a, b)
  {
    var m := new real[16];
    for col := 0 to 4
      invariant forall i :: 0 <= i < col * 4 ==> m[i] == Product(a, b)[i]
    {
      for row := 0 to 4
        invariant forall i :: 0 <= i < col * 4 + row ==> m[i] == Product(a, b)[i]
      {
        m[col * 4 + row] := 0.0;
        for k := 0 to 4
          invariant forall i :: 0 <= i < col * 4 + row ==> m[i] == Product(a, b)[i]
          invariant m[col * 4 + row] == PartialDot(a, b, col, row, k)
        {
          m[col * 4 + row] := m[col * 4 + row] + a[k * 4 + row] * b[col * 4 + k];
        }
        ProductIndex(a, b, col, row);
      }
    }
    r := m[..];
  }

  /** mat4_translate: the identity, except that entries 12, 13 and 14 (the
      last column) hold x, y and z. */
  method Translate(x: real, y: real, z: real) returns (r: Mat4)
    ensures r[12] == x && r[13] == y && r[14] == z
    ensures forall i :: 0 <= i < 16 && i != 12 && i != 13 && i != 14 ==> r[i] == IdentityMatrix()[i]
    ensures r == Translation(x, y, z)
  {
    var m := Identity();
    IdentityEntries();
    m := m[12 := x];
    m := m[13 := y];
    m := m[14 := z];
    r := m;
  }

  /** mat4_scale: the identity, except that entries 0, 5 and 10 (the first
      three diagonal entries) hold x, y and z. */
  method Scale(x: real, y: real, z: real) returns (r: Mat4)
    ensures r[0] == x && r[5] == y && r[10] == z
    ensures forall i :: 0 <= i < 16 && i != 0 && i != 5 && i != 10 ==> r[i] == IdentityMatrix()[i]
    ensures r == Scaling(x, y, z)
  {
    var m := Identity();
    IdentityEntries();
    m := m[0 := x];
    m := m[5 := y];
    m := m[10 := z];
    r := m;
  }

  /** mat4_proj_ortho: the orthographic projection of glOrtho (section 2.11.2
      of the OpenGL 2.1 specification). Its bottom row is (0, 0, 0, 1), and it
      sends the corner (left, bottom, -near) of the view box to the corner
      (-1, -1, -1) of the clip cube and (right, top, -far) to (1, 1, 1). */
  method ProjOrtho(left: real, right: real, bottom: real, top: real, near: real, far: real)
    returns (r: Mat4)
    requires right != left && top != bottom && far != near
    ensures r[1] == 0.0 && r[2] == 0.0 && r[4] == 0.0 && r[6] == 0.0 && r[8] == 0.0 && r[9] == 0.0
    ensures r[3] == 0.0 && r[7] == 0.0 && r[11] == 0.0 && r[15] == 1.0
    ensures Transform(r, [left, bottom, -near, 1.0]) == [-1.0, -1.0, -1.0, 1.0]
    ensures Transform(r, [right, top, -far, 1.0]) == [1.0, 1.0, 1.0, 1.0]
  {
    var m := new real[16];
    var rl := right - left;
    var tb := top - bottom;
    var fn := far - near;

    m[0]  := 2.0 / rl;
    m[1]  := 0.0;
    m[2]  := 0.0;
    m[3]  := 0.0;

    m[4]  := 0.0;
    m[5]  := 2.0 / tb;
    m[6]  := 0.0;
    m[7]  := 0.0;

    m[8]  := 0.0;
    m[9]  := 0.0;
    m[10] := -2.0 / fn;
    m[11] := 0.0;

    m[12] := -(right + left) / rl;
    m[13] := -(top + bottom) / tb;
    m[14] := -(far + near) / fn;
    m[15] := 1.0;

    r := m[..];
    assert r == OrthoEntries(left, right, bottom, top, near, far);
    OrthoCorners(left, right, bottom, top, near, far);
  }

  /** The sixteen values mat4_proj_ortho writes. */
  function OrthoEntries(left: real, right: real, bottom: real, top: real, near: real, far: real): Mat4
    requires right != left && top != bottom && far != near
  {
    [2.0 / (right - left), 0.0, 0.0, 0.0,
     0.0, 2.0 / (top - bottom), 0.0, 0.0,
     0.0, 0.0, -2.0 / (far - near), 0.0,
     -(right + left) / (right - left), -(top + bottom) / (top - bottom), -(far + near) / (far - near), 1.0]
  }

  /** glOrtho's matrix sends the near lower-left corner of the view box to
      (-1, -1, -1) and the far upper-right corner to (1, 1, 1). */
  lemma {:induction false} OrthoCorners(left: real, right: real, bottom: real, top: real, near: real, far: real)
    requires right != left && top != bottom && far != near
    ensures Transform(OrthoEntries(left, right, bottom, top, near, far), [left, bottom, -near, 1.0]) == [-1.0, -1.0, -1.0, 1.0]
    ensures Transform(OrthoEntries(left, right, bottom, top, near, far), [right, top, -far, 1.0]) == [1.0, 1.0, 1.0, 1.0]
  {
    var r := OrthoEntries(left, right, bottom, top, near, far);
    var sx, sy, sz := 2.0 / (right - left), 2.0 / (top - bottom), -2.0 / (far - near);
    var tx, ty, tz := -(right + left) / (right - left), -(top + bottom) / (top - bottom), -(far + near) / (far - near);
    OrthoAxis(left, right, sx, tx);
    OrthoAxis(bottom, top, sy, ty);
    OrthoDepth(near, far, sz, tz);
    AffineTransform(r, sx, sy, sz, tx, ty, tz, left, bottom, -near, -1.0, -1.0, -1.0);
    AffineTransform(r, sx, sy, sz, tx, ty, tz, right, top, -far, 1.0, 1.0, 1.0);
  }

  /** A matrix that scales each axis by (sx, sy, sz) and then translates by
      (tx, ty, tz) sends the point (x, y, z, 1) to (sx x + tx, sy y + ty,
      sz z + tz, 1). */
  lemma AffineTransform(r: Mat4, sx: real, sy: real, sz: real, tx: real, ty: real, tz: real,
                        x: real, y: real, z: real, x': real, y': real, z': real)
    requires r == [sx, 0.0, 0.0, 0.0, 0.0, sy, 0.0, 0.0, 0.0, 0.0, sz, 0.0, tx, ty, tz, 1.0]
    requires sx * x + tx == x' && sy * y + ty == y' && sz * z + tz == z'
    ensures Transform(r, [x, y, z, 1.0]) == [x', y', z', 1.0]
  {
    var p: Vec4 := [x, y, z, 1.0];
    assert RowTimes(r, 0, p) == x';
    assert RowTimes(r, 1, p) == y';
    assert RowTimes(r, 2, p) == z';
    assert RowTimes(r, 3, p) == 1.0;
  }

  /** One axis of glOrtho: the scale s = 2 / (hi - lo) and the offset
      t = -(hi + lo) / (hi - lo) send lo to -1 and hi to 1. */
  lemma OrthoAxis(lo: real, hi: real, s: real, t: real)
    requires hi != lo
    requires s == 2.0 / (hi - lo) && t == -(hi + lo) / (hi - lo)
    ensures s * lo + t == -1.0
    ensures s * hi + t == 1.0
  {
    var d := hi - lo;
    assert s * lo == 2.0 * lo / d;
    assert s * hi == 2.0 * hi / d;
    assert 2.0 * lo / d + -(hi + lo) / d == (lo - hi) / d;
    assert 2.0 * hi / d + -(hi + lo) / d == (hi - lo) / d;
  }

  /** The depth axis of glOrtho: the scale s = -2 / (far - near) and the
      offset t = -(far + near) / (far - near) send the eye-space depth -near
      to -1 and -far to 1. */
  lemma OrthoDepth(near: real, far: real, s: real, t: real)
    requires far != near
    requires s == -2.0 / (far - near) && t == -(far + near) / (far - near)
    ensures s * -near + t == -1.0
    ensures s * -far + t == 1.0
  {
    OrthoAxis(near, far, -s, t);
    assert s * -near == -s * near;
    assert s * -far == -s * far;
  }

  /** The converse of OrthoAxis: a scale and offset that send lo to -1 and
      hi to 1 are the ones glOrtho uses. */
  lemma {:induction false} AxisDetermined(lo: real, hi: real, s: real, t: real)
    requires hi != lo
    requires s * lo + t == -1.0 && s * hi + t == 1.0
    ensures s == 2.0 / (hi - lo) && t == -(hi + lo) / (hi - lo)
  {
    var d := hi - lo;
    assert s * d == 2.0;
    assert t == -1.0 - s * lo;
    assert t * d == -(hi + lo) by {
      calc {
        t * d;
        (-1.0 - s * lo) * d;
        -d - lo * (s * d);
        -(hi + lo);
      }
    }
  }

  /** The sixteen entries of glOrtho's matrix are the only ones with zero
      off-diagonal entries in the upper 3×3 block and bottom row (0, 0, 0, 1)
      that send (l, b, -n, 1) to (-1, -1, -1, 1) and (r, t, -f, 1) to
      (1, 1, 1, 1): the contract of ProjOrtho fixes its result. */
  lemma {:induction false} OrthoDetermined(m: Mat4, left: real, right: real, bottom: real, top: real, near: real, far: real)
    requires right != left && top != bottom && far != near
    requires m[1] == 0.0 && m[2] == 0.0 && m[4] == 0.0 && m[6] == 0.0 && m[8] == 0.0 && m[9] == 0.0
    requires m[3] == 0.0 && m[7] == 0.0 && m[11] == 0.0 && m[15] == 1.0
    requires Transform(m, [left, bottom, -near, 1.0]) == [-1.0, -1.0, -1.0, 1.0]
    requires Transform(m, [right, top, -far, 1.0]) == [1.0, 1.0, 1.0, 1.0]
    ensures m == OrthoEntries(left, right, bottom, top, near, far)
  {
    var p: Vec4 := [left, bottom, -near, 1.0];
    var q: Vec4 := [right, top, -far, 1.0];
    assert RowTimes(m, 0, p) == -1.0 && RowTimes(m, 0, q) == 1.0;
    assert RowTimes(m, 1, p) == -1.0 && RowTimes(m, 1, q) == 1.0;
    assert RowTimes(m, 2, p) == -1.0 && RowTimes(m, 2, q) == 1.0;
    AxisDetermined(left, right, m[0], m[12]);
    AxisDetermined(bottom, top, m[5], m[13]);
    assert -m[10] * near + m[14] == -1.0 && -m[10] * far + m[14] == 1.0;
    AxisDetermined(near, far, -m[10], m[14]);
    assert m[10] == -2.0 / (far - near);
    assert m == [m[0], m[1], m[2], m[3], m[4], m[5], m[6], m[7],
                 m[8], m[9], m[10], m[11], m[12], m[13], m[14], m[15]];
  }

  /** The identity written out, column by column. */
  lemma IdentityEntries()
    ensures IdentityMatrix() == [1.0, 0.0, 0.0, 0.0,
                                 0.0, 1.0, 0.0, 0.0,
                                 0.0, 0.0, 1.0, 0.0,
                                 0.0, 0.0, 0.0, 1.0]
  {
  }

  /** Two points with the same four coordinates are equal. */
  lemma SameEntries(p: Vec4, q: Vec4)
    requires p[0] == q[0] && p[1] == q[1] && p[2] == q[2] && p[3] == q[3]
    ensures p == q
  {
  }

  /** Two matrices with the same four columns are equal. */
  lemma ColumnsDetermine(m: Mat4, n: Mat4)
    requires Column(m, 0) == Column(n, 0) && Column(m, 1) == Column(n, 1)
    requires Column(m, 2) == Column(n, 2) && Column(m, 3) == Column(n, 3)
    ensures m == n
  {
    forall i | 0 <= i < 16 ensures m[i] == n[i] {
      if i < 4 {
        assert m[i] == Column(m, 0)[i] && n[i] == Column(n, 0)[i];
      } else if i < 8 {
        assert m[i] == Column(m, 1)[i - 4] && n[i] == Column(n, 1)[i - 4];
      } else if i < 12 {
        assert m[i] == Column(m, 2)[i - 8] && n[i] == Column(n, 2)[i - 8];
      } else {
        assert m[i] == Column(m, 3)[i - 12] && n[i] == Column(n, 3)[i - 12];
      }
    }
  }

  /** Entry (col, row) of a * b is the full sum the loop of mat4_mul adds up. */
  lemma ProductIndex(a: Mat4, b: Mat4, col: int, row: int)
    requires 0 <= col < 4 && 0 <= row < 4
    ensures Product(a, b)[col * 4 + row] == PartialDot(a, b, col, row, 4)
  {
    var i := col * 4 + row;
    assert i / 4 == col && i % 4 == row;
  }

  /** Entry (col, row) of a * b is row `row` of a applied to column `col`
      of b. */
  lemma {:induction false} ProductAt(a: Mat4, b: Mat4, col: int, row: int)
    requires 0 <= col < 4 && 0 <= row < 4
    ensures Product(a, b)[col * 4 + row] == RowTimes(a, row, Column(b, col))
  {
    ProductIndex(a, b, col, row);
    assert PartialDot(a, b, col, row, 1) == a[row] * b[col * 4];
    assert PartialDot(a, b, col, row, 2) == PartialDot(a, b, col, row, 1) + a[4 + row] * b[col * 4 + 1];
    assert PartialDot(a, b, col, row, 3) == PartialDot(a, b, col, row, 2) + a[8 + row] * b[col * 4 + 2];
    assert PartialDot(a, b, col, row, 4) == PartialDot(a, b, col, row, 3) + a[12 + row] * b[col * 4 + 3];
  }

  /** The result of mat4_mul at index col * 4 + row is the sum over k of
      a[k * 4 + row] * b[col * 4 + k]. */
  lemma {:induction false} ProductEntry(a: Mat4, b: Mat4, col: int, row: int)
    requires 0 <= col < 4 && 0 <= row < 4
    ensures Product(a, b)[col * 4 + row]
         == a[row] * b[col * 4] + a[4 + row] * b[col * 4 + 1]
          + a[8 + row] * b[col * 4 + 2] + a[12 + row] * b[col * 4 + 3]
  {
    ProductAt(a, b, col, row);
  }

  /** Column `col` of a * b is a applied to column `col` of b. */
  lemma {:induction false} ColumnOfProduct(a: Mat4, b: Mat4, col: int)
    requires 0 <= col < 4
    ensures Column(Product(a, b), col) == Transform(a, Column(b, col))
  {
    ProductAt(a, b, col, 0);
    ProductAt(a, b, col, 1);
    ProductAt(a, b, col, 2);
    ProductAt(a, b, col, 3);
  }

  /** Two terms of the double sum over j and k of a_j b_kj p_k, taken in
      either order: with s_k = sum_j a_j b_kj for k = 0, 1,
      s_0 p_0 + s_1 p_1 == sum_j a_j (b_0j p_0 + b_1j p_1). */
  lemma HalfSwap(s0: real, s1: real, a0: real, a1: real, a2: real, a3: real,
                 b00: real, b01: real, b02: real, b03: real,
                 b10: real, b11: real, b12: real, b13: real, p0: real, p1: real)
    requires s0 == a0 * b00 + a1 * b01 + a2 * b02 + a3 * b03
    requires s1 == a0 * b10 + a1 * b11 + a2 * b12 + a3 * b13
    ensures s0 * p0 + s1 * p1
         == a0 * (b00 * p0 + b10 * p1) + a1 * (b01 * p0 + b11 * p1)
          + a2 * (b02 * p0 + b12 * p1) + a3 * (b03 * p0 + b13 * p1)
  {
  }

  /** sum_j a_j t_j splits over t_j = u_j + v_j. */
  lemma SplitDot(a0: real, a1: real, a2: real, a3: real,
                 t0: real, t1: real, t2: real, t3: real,
                 u0: real, u1: real, u2: real, u3: real,
                 v0: real, v1: real, v2: real, v3: real)
    requires t0 == u0 + v0 && t1 == u1 + v1 && t2 == u2 + v2 && t3 == u3 + v3
    ensures a0 * t0 + a1 * t1 + a2 * t2 + a3 * t3
         == (a0 * u0 + a1 * u1 + a2 * u2 + a3 * u3) + (a0 * v0 + a1 * v1 + a2 * v2 + a3 * v3)
  {
  }

  /** The identity leaves every point where it is. */
  lemma TransformIdentity(p: Vec4)
    ensures Transform(IdentityMatrix(), p) == p
  {
    IdentityEntries();
    var e := IdentityMatrix();
    assert RowTimes(e, 0, p) == p[0];
    assert RowTimes(e, 1, p) == p[1];
    assert RowTimes(e, 2, p) == p[2];
    assert RowTimes(e, 3, p) == p[3];
  }

  /** A matrix applied to the k-th unit vector (column k of the identity)
      gives its k-th column. */
  lemma TransformUnit(m: Mat4, k: int)
    requires 0 <= k < 4
    ensures Transform(m, Column(IdentityMatrix(), k)) == Column(m, k)
  {
    IdentityEntries();
    var e := Column(IdentityMatrix(), k);
    assert RowTimes(m, 0, e) == m[k * 4];
    assert RowTimes(m, 1, e) == m[k * 4 + 1];
    assert RowTimes(m, 2, e) == m[k * 4 + 2];
    assert RowTimes(m, 3, e) == m[k * 4 + 3];
  }

  /** mat4_mul(mat4_identity(), a) == a */
  lemma {:induction false} MulIdentityLeft(a: Mat4)
    ensures Product(IdentityMatrix(), a) == a
  {
    forall col | 0 <= col < 4
      ensures Column(Product(IdentityMatrix(), a), col) == Column(a, col)
    {
      ColumnOfProduct(IdentityMatrix(), a, col);
      TransformIdentity(Column(a, col));
    }
    ColumnsDetermine(Product(IdentityMatrix(), a), a);
  }

  /** mat4_mul(a, mat4_identity()) == a */
  lemma {:induction false} MulIdentityRight(a: Mat4)
    ensures Product(a, IdentityMatrix()) == a
  {
    forall col | 0 <= col < 4
      ensures Column(Product(a, IdentityMatrix()), col) == Column(a, col)
    {
      ColumnOfProduct(a, IdentityMatrix(), col);
      TransformUnit(a, col);
    }
    ColumnsDetermine(Product(a, IdentityMatrix()), a);
  }

  /** The entries of row `row` of a * b, written out. */
  lemma ProductRow(a: Mat4, b: Mat4, row: int)
    requires 0 <= row < 4
    ensures Product(a, b)[row] == a[row] * b[0] + a[4 + row] * b[1] + a[8 + row] * b[2] + a[12 + row] * b[3]
    ensures Product(a, b)[4 + row] == a[row] * b[4] + a[4 + row] * b[5] + a[8 + row] * b[6] + a[12 + row] * b[7]
    ensures Product(a, b)[8 + row] == a[row] * b[8] + a[4 + row] * b[9] + a[8 + row] * b[10] + a[12 + row] * b[11]
    ensures Product(a, b)[12 + row] == a[row] * b[12] + a[4 + row] * b[13] + a[8 + row] * b[14] + a[12 + row] * b[15]
  {
    ProductAt(a, b, 0, row);
    ProductAt(a, b, 1, row);
    ProductAt(a, b, 2, row);
    ProductAt(a, b, 3, row);
  }

  /** The four coordinates of m p, written out. */
  lemma TransformRows(m: Mat4, p: Vec4)
    ensures Transform(m, p)[0] == m[0] * p[0] + m[4] * p[1] + m[8] * p[2] + m[12] * p[3]
    ensures Transform(m, p)[1] == m[1] * p[0] + m[5] * p[1] + m[9] * p[2] + m[13] * p[3]
    ensures Transform(m, p)[2] == m[2] * p[0] + m[6] * p[1] + m[10] * p[2] + m[14] * p[3]
    ensures Transform(m, p)[3] == m[3] * p[0] + m[7] * p[1] + m[11] * p[2] + m[15] * p[3]
  {
  }

  /** The exchange of summation behind TransformProductAt, for any matrix
      ab whose row `row` is row `row` of a times b and any q that is b p. */
  lemma RowSwap(a: Mat4, b: Mat4, ab: Mat4, p: Vec4, q: Vec4, row: int)
    requires 0 <= row < 4
    requires ab[row] == a[row] * b[0] + a[4 + row] * b[1] + a[8 + row] * b[2] + a[12 + row] * b[3]
    requires ab[4 + row] == a[row] * b[4] + a[4 + row] * b[5] + a[8 + row] * b[6] + a[12 + row] * b[7]
    requires ab[8 + row] == a[row] * b[8] + a[4 + row] * b[9] + a[8 + row] * b[10] + a[12 + row] * b[11]
    requires ab[12 + row] == a[row] * b[12] + a[4 + row] * b[13] + a[8 + row] * b[14] + a[12 + row] * b[15]
    requires q[0] == b[0] * p[0] + b[4] * p[1] + b[8] * p[2] + b[12] * p[3]
    requires q[1] == b[1] * p[0] + b[5] * p[1] + b[9] * p[2] + b[13] * p[3]
    requires q[2] == b[2] * p[0] + b[6] * p[1] + b[10] * p[2] + b[14] * p[3]
    requires q[3] == b[3] * p[0] + b[7] * p[1] + b[11] * p[2] + b[15] * p[3]
    ensures RowTimes(ab, row, p) == RowTimes(a, row, q)
  {
    // Both sides multiply out to the same sixteen terms a_j b_kj p_k.
    HalfSwap(ab[row], ab[4 + row], a[row], a[4 + row], a[8 + row], a[12 + row],
             b[0], b[1], b[2], b[3], b[4], b[5], b[6], b[7], p[0], p[1]);
    HalfSwap(ab[8 + row], ab[12 + row], a[row], a[4 + row], a[8 + row], a[12 + row],
             b[8], b[9], b[10], b[11], b[12], b[13], b[14], b[15], p[2], p[3]);
    SplitDot(a[row], a[4 + row], a[8 + row], a[12 + row], q[0], q[1], q[2], q[3],
             b[0] * p[0] + b[4] * p[1], b[1] * p[0] + b[5] * p[1],
             b[2] * p[0] + b[6] * p[1], b[3] * p[0] + b[7] * p[1],
             b[8] * p[2] + b[12] * p[3], b[9] * p[2] + b[13] * p[3],
             b[10] * p[2] + b[14] * p[3], b[11] * p[2] + b[15] * p[3]);
  }

  /** Row `row` of (a * b) p equals row `row` of a (b p). */
  lemma {:induction false} TransformProductAt(a: Mat4, b: Mat4, p: Vec4, row: int)
    requires 0 <= row < 4
    ensures RowTimes(Product(a, b), row, p) == RowTimes(a, row, Transform(b, p))
  {
    ProductRow(a, b, row);
    TransformRows(b, p);
    RowSwap(a, b, Product(a, b), p, Transform(b, p), row);
  }

  /** Applying a product to a point applies the right factor first:
      (a * b) p == a (b p), the order in which mat4_mul(mat4_mul(proj, view), model)
      acts on a vertex. */
  lemma {:induction false} TransformProduct(a: Mat4, b: Mat4, p: Vec4)
    ensures Transform(Product(a, b), p) == Transform(a, Transform(b, p))
  {
    TransformProductAt(a, b, p, 0);
    TransformProductAt(a, b, p, 1);
    TransformProductAt(a, b, p, 2);
    TransformProductAt(a, b, p, 3);
  }

  /** Over the reals, mat4_mul is associative. */
  lemma {:induction false} MulAssociative(a: Mat4, b: Mat4, c: Mat4)
    ensures Product(Product(a, b), c) == Product(a, Product(b, c))
  {
    forall col | 0 <= col < 4
      ensures Column(Product(Product(a, b), c), col) == Column(Product(a, Product(b, c)), col)
    {
      ColumnOfProduct(Product(a, b), c, col);
      TransformProduct(a, b, Column(c, col));
      ColumnOfProduct(b, c, col);
      ColumnOfProduct(a, Product(b, c), col);
    }
    ColumnsDetermine(Product(Product(a, b), c), Product(a, Product(b, c)));
  }

  /** A translation moves a point with w = 1 by (x, y, z); one with w = 0 (a
      direction) stays where it is. */
  lemma TranslationMovesPoint(x: real, y: real, z: real, p: Vec4)
    ensures Transform(Translation(x, y, z), p) ==
      [p[0] + x * p[3], p[1] + y * p[3], p[2] + z * p[3], p[3]]
  {
    var m := Translation(x, y, z);
    assert RowTimes(m, 0, p) == p[0] + x * p[3];
    assert RowTimes(m, 1, p) == p[1] + y * p[3];
    assert RowTimes(m, 2, p) == p[2] + z * p[3];
    assert RowTimes(m, 3, p) == p[3];
  }

  /** A scaling multiplies each coordinate by its factor and keeps w. */
  lemma ScalingScalesPoint(x: real, y: real, z: real, p: Vec4)
    ensures Transform(Scaling(x, y, z), p) == [x * p[0], y * p[1], z * p[2], p[3]]
  {
    var m := Scaling(x, y, z);
    assert RowTimes(m, 0, p) == x * p[0];
    assert RowTimes(m, 1, p) == y * p[1];
    assert RowTimes(m, 2, p) == z * p[2];
    assert RowTimes(m, 3, p) == p[3];
  }

  /** Over the reals, mat4_mul(mat4_translate(a), mat4_translate(b))
      == mat4_translate(a + b). */
  lemma {:induction false} TranslationsCompose(x1: real, y1: real, z1: real, x2: real, y2: real, z2: real)
    ensures Product(Translation(x1, y1, z1), Translation(x2, y2, z2)) == Translation(x1 + x2, y1 + y2, z1 + z2)
  {
    var t, u := Translation(x1, y1, z1), Translation(x2, y2, z2);
    ColumnOfProduct(t, u, 0);
    TranslationMovesPoint(x1, y1, z1, Column(u, 0));
    ColumnOfProduct(t, u, 1);
    TranslationMovesPoint(x1, y1, z1, Column(u, 1));
    ColumnOfProduct(t, u, 2);
    TranslationMovesPoint(x1, y1, z1, Column(u, 2));
    ColumnOfProduct(t, u, 3);
    TranslationMovesPoint(x1, y1, z1, Column(u, 3));
    ColumnsDetermine(Product(t, u), Translation(x1 + x2, y1 + y2, z1 + z2));
  }

  /** Column `col` of the product of two scalings. */
  lemma ScalingsComposeColumn(x1: real, y1: real, z1: real, x2: real, y2: real, z2: real, col: int)
    requires 0 <= col < 4
    ensures Column(Product(Scaling(x1, y1, z1), Scaling(x2, y2, z2)), col)
         == Column(Scaling(x1 * x2, y1 * y2, z1 * z2), col)
  {
    var s, u := Scaling(x1, y1, z1), Scaling(x2, y2, z2);
    var c, d := Column(u, col), Column(Scaling(x1 * x2, y1 * y2, z1 * z2), col);
    ColumnOfProduct(s, u, col);
    ScalingScalesPoint(x1, y1, z1, c);
    assert x1 * c[0] == d[0] && y1 * c[1] == d[1] && z1 * c[2] == d[2] && c[3] == d[3] by {
      assert col == 0 || col == 1 || col == 2 || col == 3;
    }
    SameEntries(Transform(s, c), d);
  }

  /** Two scalings compose into the scaling by the products of their factors. */
  lemma {:induction false} ScalingsCompose(x1: real, y1: real, z1: real, x2: real, y2: real, z2: real)
    ensures Product(Scaling(x1, y1, z1), Scaling(x2, y2, z2)) == Scaling(x1 * x2, y1 * y2, z1 * z2)
  {
    ScalingsComposeColumn(x1, y1, z1, x2, y2, z2, 0);
    ScalingsComposeColumn(x1, y1, z1, x2, y2, z2, 1);
    ScalingsComposeColumn(x1, y1, z1, x2, y2, z2, 2);
    ScalingsComposeColumn(x1, y1, z1, x2, y2, z2, 3);
    ColumnsDetermine(Product(Scaling(x1, y1, z1), Scaling(x2, y2, z2)), Scaling(x1 * x2, y1 * y2, z1 * z2));
  }
}
