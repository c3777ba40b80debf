/** The head transform (`HeadTransform`): a 4x4 column-major camera-to-head matrix and
    the read-outs derived from it (the matrix itself, the forward, up and right unit
    vectors, the translation, a quaternion and Euler angles), each written into a
    caller's array at an offset after a space check. */
module HeadTransforms {
  import opened JavaSemantics

  const MATRIX_SIZE: int := 16
  /** Smallest pitch cosine for which yaw and roll are computed separately. */
  const GIMBAL_LOCK_EPSILON: real := 0.01

  /** The 4x4 identity in column-major order: ones where row equals column. */
  function Identity(): (m: seq<real>)
    ensures |m| == MATRIX_SIZE
  {
    seq(MATRIX_SIZE, i => if i % 5 == 0 then 1.0 else 0.0)
  }

  /** The product of a column-major 4x4 matrix with a 4-vector. */
  function MatVec(m: seq<real>, v: seq<real>): (r: seq<real>)
    requires |m| == MATRIX_SIZE && |v| == 4
    ensures |r| == 4
  {
    seq(4, row requires 0 <= row < 4 =>
      m[row] * v[0] + m[4 + row] * v[1] + m[8 + row] * v[2] + m[12 + row] * v[3])
  }

  /** The identity matrix leaves every vector as it is. */
  lemma IdentityFixesVectors(v: seq<real>)
    requires |v| == 4
    ensures MatVec(Identity(), v) == v
  {
    var m := Identity();
    assert m[0] == 1.0 && m[5] == 1.0 && m[10] == 1.0 && m[15] == 1.0;
    assert m[1] == 0.0 && m[2] == 0.0 && m[3] == 0.0 && m[4] == 0.0;
    assert m[6] == 0.0 && m[7] == 0.0 && m[8] == 0.0 && m[9] == 0.0;
    assert m[11] == 0.0 && m[12] == 0.0 && m[13] == 0.0 && m[14] == 0.0;
  }

  /** Three consecutive matrix entries from `base`, negated when `negate` holds. */
  function Column(m: seq<real>, base: int, negate: bool): seq<real>
    requires 0 <= base && base + 3 <= |m|
  {
    seq(3, i requires 0 <= i < 3 => if negate then -m[base + i] else m[base + i])
  }

  /** `a` after the first `n` of the writes `a[offset + i] = ±a[base + i]`, i = 0, 1, 2,
      made one after another in the same array, so that a later read sees an earlier
      write: what a vector read-out does when its target is the matrix's own array. */
  function ColumnWrites(a: seq<real>, offset: int, base: int, negate: bool, n: nat): (r: seq<real>)
    requires 0 <= offset && offset + 3 <= |a| && 0 <= base && base + 3 <= |a| && n <= 3
    ensures |r| == |a|
  {
    if n == 0 then a
    else
      var prev := ColumnWrites(a, offset, base, negate, n - 1);
      prev[offset + n - 1 := if negate then -prev[base + n - 1] else prev[base + n - 1]]
  }

  /** No read follows a write to the same place when the target starts at or before the
      source or lies wholly after it; then the in-place writes copy the column. */
  lemma {:induction false} ColumnWritesCopy(a: seq<real>, offset: int, base: int, negate: bool, n: nat)
    requires 0 <= offset && offset + 3 <= |a| && 0 <= base && base + 3 <= |a| && n <= 3
    requires offset <= base || base + 3 <= offset
    ensures forall k :: 0 <= k < |a| ==>
      ColumnWrites(a, offset, base, negate, n)[k] ==
        if offset <= k < offset + n then Column(a, base, negate)[k - offset] else a[k]
  {
    if n > 0 {
      ColumnWritesCopy(a, offset, base, negate, n - 1);
    }
  }

  /** When the target starts one place after the source, every write reads the entry
      the previous write made: the first source entry fills all three places. */
  lemma ColumnWritesSmear(a: seq<real>, base: int)
    requires 0 <= base && base + 4 <= |a|
    ensures ColumnWrites(a, base + 1, base, false, 3)[base + 1..base + 4] == [a[base], a[base], a[base]]
  {
    var r0 := ColumnWrites(a, base + 1, base, false, 0);
    var r1 := ColumnWrites(a, base + 1, base, false, 1);
    var r2 := ColumnWrites(a, base + 1, base, false, 2);
    assert r1 == r0[base + 1 := r0[base]];
    assert r2 == r1[base + 2 := r1[base + 1]];
  }

  /** The direction the head looks towards: the matrix applied to (0, 0, -1, 0). */
  function ForwardVector(m: seq<real>): (f: seq<real>)
    requires |m| == MATRIX_SIZE
    ensures f == MatVec(m, [0.0, 0.0, -1.0, 0.0])[..3]
  {
    Column(m, 8, true)
  }

  /** The head's upward direction: the matrix applied to (0, 1, 0, 0). */
  function UpVector(m: seq<real>): (u: seq<real>)
    requires |m| == MATRIX_SIZE
    ensures u == MatVec(m, [0.0, 1.0, 0.0, 0.0])[..3]
  {
    Column(m, 4, false)
  }

  /** The head's rightward direction: the matrix applied to (1, 0, 0, 0). */
  function RightVector(m: seq<real>): (r: seq<real>)
    requires |m| == MATRIX_SIZE
    ensures r == MatVec(m, [1.0, 0.0, 0.0, 0.0])[..3]
  {
    Column(m, 0, false)
  }

  /** The head's translation: the matrix applied to (0, 0, 0, 1). */
  function Translation(m: seq<real>): (t: seq<real>)
    requires |m| == MATRIX_SIZE
    ensures t == MatVec(m, [0.0, 0.0, 0.0, 1.0])[..3]
  {
    Column(m, 12, false)
  }

  /** A quaternion (x, y, z, w). */
  datatype Quaternion = Quaternion(x: real, y: real, z: real, w: real)

  /** Which diagonal term the quaternion extraction pivots on. */
  datatype QuaternionBranch = TracePivot | XPivot | YPivot | ZPivot

  function Trace(m: seq<real>): real
    requires |m| == MATRIX_SIZE
  {
    m[0] + m[5] + m[10]
  }

  /** The trace is used while it is non-negative; otherwise the largest diagonal entry,
      ties going to the later one. */
  function BranchOf(m: seq<real>): (b: QuaternionBranch)
    requires |m| == MATRIX_SIZE
    ensures b == TracePivot <==> Trace(m) >= 0.0
    ensures b == XPivot ==> m[0] > m[5] && m[0] > m[10]
    ensures b == YPivot ==> m[5] >= m[0] && m[5] > m[10]
    ensures b == ZPivot ==> m[10] >= m[0] && m[10] >= m[5]
  {
    if Trace(m) >= 0.0 then TracePivot
    else if m[0] > m[5] && m[0] > m[10] then XPivot
    else if m[5] > m[10] then YPivot
    else ZPivot
  }

  /** The value whose square root gives twice the pivot component. It is at least one
      in every branch, so the divisions that follow never divide by zero. */
  function Radicand(m: seq<real>): (r: real)
    requires |m| == MATRIX_SIZE
    ensures r >= 1.0
  {
    match BranchOf(m)
    case TracePivot => Trace(m) + 1.0
    case XPivot => 1.0 + m[0] - m[5] - m[10]
    case YPivot => 1.0 + m[5] - m[0] - m[10]
    case ZPivot => 1.0 + m[10] - m[0] - m[5]
  }

  /** The pivoting extraction, given the square root `s` of the radicand. */
  function Extract(m: seq<real>, s: real): Quaternion
    requires |m| == MATRIX_SIZE && s != 0.0
  {
    var h := 0.5 / s;
    match BranchOf(m)
    case TracePivot => Quaternion((m[9] - m[6]) * h, (m[2] - m[8]) * h, (m[4] - m[1]) * h, 0.5 * s)
    case XPivot => Quaternion(0.5 * s, (m[4] + m[1]) * h, (m[2] + m[8]) * h, (m[9] - m[6]) * h)
    case YPivot => Quaternion((m[4] + m[1]) * h, 0.5 * s, (m[9] + m[6]) * h, (m[2] - m[8]) * h)
    case ZPivot => Quaternion((m[2] + m[8]) * h, (m[9] + m[6]) * h, 0.5 * s, (m[4] - m[1]) * h)
  }

  /** The quaternion of the rotation held in `m`. */
  function QuaternionOf(m: seq<real>, math: MathLibrary): Quaternion
    requires |m| == MATRIX_SIZE && SqrtPositiveFromOne(math)
  {
    Extract(m, math.sqrt(Radicand(m)))
  }

  /** The pivot `p = s/2` and the scale `h = 1/(2s)`: four times `p` squared is `s^2`,
      and four times `p` times `a * h` gives back `a`. */
  lemma PivotProducts(s: real, a: real, b: real, c: real)
    requires s > 0.0
    ensures var p, h := 0.5 * s, 0.5 / s;
      4.0 * p * p == s * s && 4.0 * p * (a * h) == a && 4.0 * p * (b * h) == b && 4.0 * p * (c * h) == c
  {
    var p, h := 0.5 * s, 0.5 / s;
    assert p * h == 0.25 by {
      assert s * h == 0.5;
    }
    assert 4.0 * p * (a * h) == 4.0 * (p * h) * a;
    assert 4.0 * p * (b * h) == 4.0 * (p * h) * b;
    assert 4.0 * p * (c * h) == 4.0 * (p * h) * c;
  }

  /** The pivot products of the extraction: four times the square of the pivot
      component is the radicand, and four times its products with the other components
      are the matching sums and differences of off-diagonal entries, the relations a
      unit quaternion (x, y, z, w) has with its rotation matrix. */
  lemma ExtractPivotProducts(m: seq<real>, s: real)
    requires |m| == MATRIX_SIZE && s > 0.0 && s * s == Radicand(m)
    ensures var q := Extract(m, s);
      match BranchOf(m)
      case TracePivot =>
        4.0 * q.w * q.w == 1.0 + m[0] + m[5] + m[10] && 4.0 * q.w * q.x == m[9] - m[6]
        && 4.0 * q.w * q.y == m[2] - m[8] && 4.0 * q.w * q.z == m[4] - m[1]
      case XPivot =>
        4.0 * q.x * q.x == 1.0 + m[0] - m[5] - m[10] && 4.0 * q.x * q.y == m[4] + m[1]
        && 4.0 * q.x * q.z == m[2] + m[8] && 4.0 * q.x * q.w == m[9] - m[6]
      case YPivot =>
        4.0 * q.y * q.y == 1.0 + m[5] - m[0] - m[10] && 4.0 * q.y * q.x == m[4] + m[1]
        && 4.0 * q.y * q.z == m[9] + m[6] && 4.0 * q.y * q.w == m[2] - m[8]
      case ZPivot =>
        4.0 * q.z * q.z == 1.0 + m[10] - m[0] - m[5] && 4.0 * q.z * q.x == m[2] + m[8]
        && 4.0 * q.z * q.y == m[9] + m[6] && 4.0 * q.z * q.w == m[4] - m[1]
  {
    match BranchOf(m)
    case TracePivot => TracePivotIdentities(m, s);
    case XPivot => XPivotIdentities(m, s);
    case YPivot => YPivotIdentities(m, s);
    case ZPivot => ZPivotIdentities(m, s);
  }

  lemma TracePivotIdentities(m: seq<real>, s: real)
    requires |m| == MATRIX_SIZE && s > 0.0 && s * s == Radicand(m) && BranchOf(m) == TracePivot
    ensures var q := Extract(m, s);
      4.0 * q.w * q.w == 1.0 + m[0] + m[5] + m[10] && 4.0 * q.w * q.x == m[9] - m[6]
      && 4.0 * q.w * q.y == m[2] - m[8] && 4.0 * q.w * q.z == m[4] - m[1]
  {
    var h := 0.5 / s;
    assert Extract(m, s) == Quaternion((m[9] - m[6]) * h, (m[2] - m[8]) * h, (m[4] - m[1]) * h, 0.5 * s);
    PivotProducts(s, m[9] - m[6], m[2] - m[8], m[4] - m[1]);
  }

  lemma XPivotIdentities(m: seq<real>, s: real)
    requires |m| == MATRIX_SIZE && s > 0.0 && s * s == Radicand(m) && BranchOf(m) == XPivot
    ensures var q := Extract(m, s);
      4.0 * q.x * q.x == 1.0 + m[0] - m[5] - m[10] && 4.0 * q.x * q.y == m[4] + m[1]
      && 4.0 * q.x * q.z == m[2] + m[8] && 4.0 * q.x * q.w == m[9] - m[6]
  {
    var h := 0.5 / s;
    assert Extract(m, s) == Quaternion(0.5 * s, (m[4] + m[1]) * h, (m[2] + m[8]) * h, (m[9] - m[6]) * h);
    PivotProducts(s, m[4] + m[1], m[2] + m[8], m[9] - m[6]);
  }

  lemma YPivotIdentities(m: seq<real>, s: real)
    requires |m| == MATRIX_SIZE && s > 0.0 && s * s == Radicand(m) && BranchOf(m) == YPivot
    ensures var q := Extract(m, s);
      4.0 * q.y * q.y == 1.0 + m[5] - m[0] - m[10] && 4.0 * q.y * q.x == m[4] + m[1]
      && 4.0 * q.y * q.z == m[9] + m[6] && 4.0 * q.y * q.w == m[2] - m[8]
  {
    var h := 0.5 / s;
    assert Extract(m, s) == Quaternion((m[4] + m[1]) * h, 0.5 * s, (m[9] + m[6]) * h, (m[2] - m[8]) * h);
    PivotProducts(s, m[4] + m[1], m[9] + m[6], m[2] - m[8]);
  }

  lemma ZPivotIdentities(m: seq<real>, s: real)
    requires |m| == MATRIX_SIZE && s > 0.0 && s * s == Radicand(m) && BranchOf(m) == ZPivot
    ensures var q := Extract(m, s);
      4.0 * q.z * q.z == 1.0 + m[10] - m[0] - m[5] && 4.0 * q.z * q.x == m[2] + m[8]
      && 4.0 * q.z * q.y == m[9] + m[6] && 4.0 * q.z * q.w == m[4] - m[1]
  {
    var h := 0.5 / s;
    assert Extract(m, s) == Quaternion((m[2] + m[8]) * h, (m[9] + m[6]) * h, 0.5 * s, (m[4] - m[1]) * h);
    PivotProducts(s, m[2] + m[8], m[9] + m[6], m[4] - m[1]);
  }

  /** With an exact square root, the extraction's root is positive and squares to the
      radicand, so the pivot products satisfy `ExtractPivotProducts`. */
  lemma QuaternionRoot(m: seq<real>, math: MathLibrary)
    requires |m| == MATRIX_SIZE && SqrtExact(math)
    ensures var s := math.sqrt(Radicand(m)); s > 0.0 && s * s == Radicand(m)
  {
  }

  /** Gimbal lock: the pitch cosine `sqrt(1 - m[6]^2)` falls below the epsilon. A
      negative radicand makes `Math.sqrt` NaN, which compares false, so it counts as lock. */
  predicate GimbalLocked(m: seq<real>, math: MathLibrary)
    requires |m| == MATRIX_SIZE
  {
    var c := 1.0 - m[6] * m[6];
    !(c >= 0.0 && math.sqrt(c) >= GIMBAL_LOCK_EPSILON)
  }

  /** The written angles: negated pitch, yaw and roll; yaw is forced to zero in lock. */
  function EulerAngles(m: seq<real>, math: MathLibrary): (e: seq<real>)
    requires |m| == MATRIX_SIZE
    ensures |e| == 3
    ensures e[0] == -math.asin(m[6])
    ensures GimbalLocked(m, math) ==> e[1] == 0.0 && e[2] == -math.atan2(m[1], m[0])
    ensures !GimbalLocked(m, math) ==>
              e[1] == -math.atan2(-m[2], m[10]) && e[2] == -math.atan2(-m[4], m[5])
  {
    var pitch := math.asin(m[6]);
    var yaw := if GimbalLocked(m, math) then 0.0 else math.atan2(-m[2], m[10]);
    var roll := if GimbalLocked(m, math) then math.atan2(m[1], m[0]) else math.atan2(-m[4], m[5]);
    [-pitch, -yaw, -roll]
  }

  lemma SquareStrict(s: real, e: real)
    requires 0.0 <= s < e
    ensures s * s < e * e
  {
    calc {
      s * s;
    <= s * e;
      e * s;
    <  e * e;
    }
  }

  /** Between non-negative reals, comparing squares is comparing the values. */
  lemma SquaresOrdered(s: real, e: real)
    requires s >= 0.0 && e > 0.0
    ensures s >= e <==> s * s >= e * e
  {
    if s < e {
      SquareStrict(s, e);
    }
  }

  /** With an exact square root, gimbal lock is exactly `m[6]^2 > 1 - epsilon^2`. */
  lemma GimbalLockedIff(m: seq<real>, math: MathLibrary)
    requires |m| == MATRIX_SIZE && SqrtExact(math)
    ensures GimbalLocked(m, math) <==> m[6] * m[6] > 1.0 - GIMBAL_LOCK_EPSILON * GIMBAL_LOCK_EPSILON
  {
    var c := 1.0 - m[6] * m[6];
    if c >= 0.0 {
      SquaresOrdered(math.sqrt(c), GIMBAL_LOCK_EPSILON);
    }
  }

  class HeadTransform {
    const headView: array<real>

    ghost predicate Valid()
      reads this
    {
      headView.Length == MATRIX_SIZE
    }

    constructor ()
      ensures Valid() && fresh(headView)
      ensures headView[..] == Identity()
    {
      headView := new real[MATRIX_SIZE](i => if i % 5 == 0 then 1.0 else 0.0);
    }

    /** The array the matrix is stored in, shared rather than copied. */
    method GetHeadViewArray() returns (a: array<real>)
      ensures a == headView
    {
      a := headView;
    }

    /** Copies the matrix into `out` at `offset`, as one `System.arraycopy`. */
    method GetHeadView(out: array<real>, offset: int) returns (status: Status)
      requires Valid()
      modifies out
      ensures status == IllegalArgument <==> offset + MATRIX_SIZE > out.Length
      ensures status == IndexOutOfBounds <==> offset + MATRIX_SIZE <= out.Length && offset < 0
      ensures status != Ok ==> unchanged(out)
      ensures status == Ok ==>
        out[..] == old(out[..offset]) + old(headView[..]) + old(out[offset + MATRIX_SIZE..])
    {
      if offset + MATRIX_SIZE > out.Length {
        return IllegalArgument;
      }
      if offset < 0 {
        return IndexOutOfBounds;
      }
      var source := headView[..];
      forall k | 0 <= k < MATRIX_SIZE {
        out[offset + k] := source[k];
      }
      assert out[..] == old(out[..offset]) + source + old(out[offset + MATRIX_SIZE..]);
      status := Ok;
    }

    /** The loop shared by the vector read-outs: `out[offset + i]` receives entry
        `base + i`, negated when `negate` holds. A negative offset fails on the first
        write. When `out` is the matrix's own array the loop reads its own writes; that
        is still a copy of the column unless the target starts inside the source. */
    method WriteColumn(out: array<real>, offset: int, base: int, negate: bool) returns (status: Status)
      requires Valid() && 0 <= base && base + 3 <= MATRIX_SIZE
      modifies out
      ensures status == IllegalArgument <==> offset + 3 > out.Length
      ensures status == IndexOutOfBounds <==> offset + 3 <= out.Length && offset < 0
      ensures status != Ok ==> unchanged(out)
      ensures status == Ok && out == headView ==>
        out[..] == ColumnWrites(old(headView[..]), offset, base, negate, 3)
      ensures status == Ok && (out != headView || offset <= base || base + 3 <= offset) ==>
        out[..] == old(out[..offset]) + Column(old(headView[..]), base, negate) + old(out[offset + 3..])
    {
      if offset + 3 > out.Length {
        return IllegalArgument;
      }
      if offset < 0 {
        return IndexOutOfBounds;
      }
      for i := 0 to 3
        invariant out != headView ==> forall k :: 0 <= k < out.Length ==>
          out[k] == if offset <= k < offset + i then Column(old(headView[..]), base, negate)[k - offset] else old(out[k])
        invariant out == headView ==> out[..] == ColumnWrites(old(headView[..]), offset, base, negate, i)
      {
        out[i + offset] := if negate then -headView[base + i] else headView[base + i];
      }
      if out != headView {
        assert out[..] == old(out[..offset]) + Column(old(headView[..]), base, negate) + old(out[offset + 3..]);
      } else if offset <= base || base + 3 <= offset {
        ColumnWritesCopy(old(headView[..]), offset, base, negate, 3);
        assert out[..] == old(out[..offset]) + Column(old(headView[..]), base, negate) + old(out[offset + 3..]);
      }
      status := Ok;
    }

    method GetForwardVector(out: array<real>, offset: int) returns (status: Status)
      requires Valid()
      modifies out
      ensures status == IllegalArgument <==> offset + 3 > out.Length
      ensures status == IndexOutOfBounds <==> offset + 3 <= out.Length && offset < 0
      ensures status != Ok ==> unchanged(out)
      ensures status == Ok && (out != headView || offset <= 8 || offset >= 11) ==>
        out[..] == old(out[..offset]) + ForwardVector(old(headView[..])) + old(out[offset + 3..])
      ensures status == Ok && out == headView ==>
        out[..] == ColumnWrites(old(headView[..]), offset, 8, true, 3)
    {
      status := WriteColumn(out, offset, 8, true);
    }

    method GetUpVector(out: array<real>, offset: int) returns (status: Status)
      requires Valid()
      modifies out
      ensures status == IllegalArgument <==> offset + 3 > out.Length
      ensures status == IndexOutOfBounds <==> offset + 3 <= out.Length && offset < 0
      ensures status != Ok ==> unchanged(out)
      ensures status == Ok && (out != headView || offset <= 4 || offset >= 7) ==>
        out[..] == old(out[..offset]) + UpVector(old(headView[..])) + old(out[offset + 3..])
      ensures status == Ok && out == headView ==>
        out[..] == ColumnWrites(old(headView[..]), offset, 4, false, 3)
    {
      status := WriteColumn(out, offset, 4, false);
    }

    method GetRightVector(out: array<real>, offset: int) returns (status: Status)
      requires Valid()
      modifies out
      ensures status == IllegalArgument <==> offset + 3 > out.Length
      ensures status == IndexOutOfBounds <==> offset + 3 <= out.Length && offset < 0
      ensures status != Ok ==> unchanged(out)
      ensures status == Ok && (out != headView || offset == 0 || offset >= 3) ==>
        out[..] == old(out[..offset]) + RightVector(old(headView[..])) + old(out[offset + 3..])
      ensures status == Ok && out == headView ==>
        out[..] == ColumnWrites(old(headView[..]), offset, 0, false, 3)
    {
      status := WriteColumn(out, offset, 0, false);
    }

    method GetTranslation(out: array<real>, offset: int) returns (status: Status)
      requires Valid()
      modifies out
      ensures status == IllegalArgument <==> offset + 3 > out.Length
      ensures status == IndexOutOfBounds <==> offset + 3 <= out.Length && offset < 0
      ensures status != Ok ==> unchanged(out)
      ensures status == Ok && (out != headView || offset <= 12 || offset >= 15) ==>
        out[..] == old(out[..offset]) + Translation(old(headView[..])) + old(out[offset + 3..])
      ensures status == Ok && out == headView ==>
        out[..] == ColumnWrites(old(headView[..]), offset, 12, false, 3)
    {
      status := WriteColumn(out, offset, 12, false);
    }

    /** Writes (x, y, z, w) at `offset`. The components are computed before the first
        write, so `out` may be the matrix's own array. */
    method GetQuaternion(out: array<real>, offset: int, math: MathLibrary) returns (status: Status)
      requires Valid() && SqrtPositiveFromOne(math)
      modifies out
      ensures status == IllegalArgument <==> offset + 4 > out.Length
      ensures status == IndexOutOfBounds <==> offset + 4 <= out.Length && offset < 0
      ensures status != Ok ==> unchanged(out)
      ensures status == Ok ==>
        var q := QuaternionOf(old(headView[..]), math);
        out[..] == old(out[..offset]) + [q.x, q.y, q.z, q.w] + old(out[offset + 4..])
    {
      if offset + 4 > out.Length {
        return IllegalArgument;
      }
      if offset < 0 {
        return IndexOutOfBounds;
      }
      var q := QuaternionOf(headView[..], math);
      out[offset + 0] := q.x;
      out[offset + 1] := q.y;
      out[offset + 2] := q.z;
      out[offset + 3] := q.w;
      assert out[..] == old(out[..offset]) + [q.x, q.y, q.z, q.w] + old(out[offset + 4..]);
      status := Ok;
    }

    /** Writes the negated pitch, yaw and roll at `offset`, all computed before the
        first write. */
    method GetEulerAngles(out: array<real>, offset: int, math: MathLibrary) returns (status: Status)
      requires Valid()
      modifies out
      ensures status == IllegalArgument <==> offset + 3 > out.Length
      ensures status == IndexOutOfBounds <==> offset + 3 <= out.Length && offset < 0
      ensures status != Ok ==> unchanged(out)
      ensures status == Ok ==>
        out[..] == old(out[..offset]) + EulerAngles(old(headView[..]), math) + old(out[offset + 3..])
    {
      if offset + 3 > out.Length {
        return IllegalArgument;
      }
      if offset < 0 {
        return IndexOutOfBounds;
      }
      var e := EulerAngles(headView[..], math);
      out[offset + 0] := e[0];
      out[offset + 1] := e[1];
      out[offset + 2] := e[2];
      assert out[..] == old(out[..offset]) + e + old(out[offset + 3..]);
      status := Ok;
    }
  }
}
