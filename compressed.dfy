/** The compressed vector and quaternion formats: a little-endian word of 4,
    6 or 8 bytes split into bit fields, each field centred and scaled.  The
    components are exact reals; the square root that completes a unit
    quaternion is a parameter, and the lemmas that need it ask that it be one. */
module Compressed {
  import opened Bytes
  import opened Wrappers
  import opened Cursors

  datatype Vec3 = Vec3(x: real, y: real, z: real)
  datatype Quat = Quat(x: real, y: real, z: real, w: real)

  /** (v >> k) & (2^n - 1), with the shift given as 2^k and the field width as 2^n. */
  function Field(v: nat, shift: nat, width: nat): (f: nat)
    requires shift > 0 && width > 0
    ensures f < width
  {
    v / shift % width
  }

  // ---- the word ----

  lemma {:induction false} Pow256Monotone(m: nat, n: nat)
    requires m <= n
    ensures Pow256(m) <= Pow256(n)
    decreases n
  {
    if m < n {
      Pow256Monotone(m, n - 1);
    }
  }

  /** int.from_bytes(buf.read(n), 'little') at p: a short read gives the value of the bytes that are there. */
  function WordAt(data: seq<byte>, p: nat, n: nat): (v: nat)
    ensures v < Pow256(n)
  {
    var b := ReadAt(data, p, n);
    Pow256Monotone(|b|, n);
    LittleEndian(b)
  }

  /** Reads n bytes (fewer at the end of the data) and returns their little-endian value. */
  method ReadWord(n: nat, buf: Cursor) returns (v: nat)
    modifies buf
    ensures v == WordAt(buf.data, old(buf.pos), n)
    ensures buf.pos == old(buf.pos) + |ReadAt(buf.data, old(buf.pos), n)|
  {
    var b := buf.Read(n);
    Pow256Monotone(|b|, n);
    v := LittleEndian(b);
  }

  // ---- vec32: x, y, z at bits 0, 10, 20 (10 bits each), exponent at bit 30 (2 bits) ----

  datatype Vec32Fields = Vec32Fields(x: nat, y: nat, z: nat, e: nat)

  predicate Vec32FieldsValid(f: Vec32Fields)
  {
    f.x < 0x400 && f.y < 0x400 && f.z < 0x400 && f.e < 4
  }

  function SplitVec32(v: nat): (f: Vec32Fields)
    ensures Vec32FieldsValid(f)
  {
    Vec32Fields(Field(v, 1, 0x400), Field(v, 0x400, 0x400), Field(v, 0x10_0000, 0x400), Field(v, 0x4000_0000, 4))
  }

  /** The word whose fields are f: the reference layout of a vec32. */
  function JoinVec32(f: Vec32Fields): nat
  {
    f.x + 0x400 * f.y + 0x10_0000 * f.z + 0x4000_0000 * f.e
  }

  /** Every 32-bit word is its four fields. */
  lemma JoinSplitVec32(v: nat)
    requires v < 0x1_0000_0000
    ensures JoinVec32(SplitVec32(v)) == v
  {
    var q1 := v / 0x400;
    var q2 := q1 / 0x400;
    var q3 := q2 / 0x400;
    ShiftTwice(v);
    ShiftTwice(q1);
    assert v / 0x4000_0000 == q3 by { ShiftThrice(v); }
    assert v == v % 0x400 + 0x400 * q1;
    assert q1 == q1 % 0x400 + 0x400 * q2;
    assert q2 == q2 % 0x400 + 0x400 * q3;
  }

  /** Two 10-bit shifts are one 20-bit shift. */
  lemma ShiftTwice(v: nat)
    ensures v / 0x10_0000 == v / 0x400 / 0x400
  {
    var q, r := v / 0x400, v / 0x400 / 0x400;
    assert v == 0x400 * q + v % 0x400;
    assert q == 0x400 * r + q % 0x400;
  }

  /** Three 10-bit shifts are one 30-bit shift. */
  lemma ShiftThrice(v: nat)
    ensures v / 0x4000_0000 == v / 0x400 / 0x400 / 0x400
  {
    var q := v / 0x10_0000;
    ShiftTwice(v);
    assert v == 0x10_0000 * q + v % 0x10_0000;
    assert q == 0x400 * (q / 0x400) + q % 0x400;
  }

  /** Every choice of four in-range fields is read back from the word that holds it. */
  lemma SplitJoinVec32(f: Vec32Fields)
    requires Vec32FieldsValid(f)
    ensures JoinVec32(f) < 0x1_0000_0000
    ensures SplitVec32(JoinVec32(f)) == f
  {
    var v := JoinVec32(f);
    assert v / 0x400 == f.y + 0x400 * f.z + 0x10_0000 * f.e;
    assert v / 0x10_0000 == f.z + 0x400 * f.e;
    assert v / 0x4000_0000 == f.e;
  }

  /** [4.0, 16.0, 32.0, 64.0][e] / 512.0 */
  function Vec32Scale(e: nat): (s: real)
    requires e < 4
    ensures 0.0 < s <= 0.125
  {
    (if e == 0 then 4.0 else if e == 1 then 16.0 else if e == 2 then 32.0 else 64.0) / 512.0
  }

  /** (field - 512) * scale */
  function Vec32Component(field: nat, s: real): real
  {
    (field as real - 512.0) * s
  }

  /** vec32 of the word v: every component lies in [-64, 63.875]. */
  function Vec32(v: nat): (r: Vec3)
    ensures -64.0 <= r.x <= 63.875 && -64.0 <= r.y <= 63.875 && -64.0 <= r.z <= 63.875
  {
    var f := SplitVec32(v);
    var s := Vec32Scale(f.e);
    Vec32ComponentBounds(f.x, f.e);
    Vec32ComponentBounds(f.y, f.e);
    Vec32ComponentBounds(f.z, f.e);
    Vec3(Vec32Component(f.x, s), Vec32Component(f.y, s), Vec32Component(f.z, s))
  }

  /** A 10-bit field centred at 512 and scaled by the exponent's scale s lies
      in [-512 s, 511 s] within [-64, 63.875], and the field is recovered from
      the component. */
  lemma Vec32ComponentBounds(field: nat, e: nat)
    requires field < 0x400 && e < 4
    ensures var s, c := Vec32Scale(e), Vec32Component(field, Vec32Scale(e));
            -512.0 * s <= c <= 511.0 * s && -64.0 <= c <= 63.875 && c / s + 512.0 == field as real
  {
    var f := field as real - 512.0;
    assert -512.0 <= f <= 511.0;
    if e == 0 {
      assert Vec32Scale(e) == 1.0 / 128.0;
    } else if e == 1 {
      assert Vec32Scale(e) == 1.0 / 32.0;
    } else if e == 2 {
      assert Vec32Scale(e) == 1.0 / 16.0;
    } else {
      assert Vec32Scale(e) == 1.0 / 8.0;
    }
  }

  /** Every vec32 component lies in [-64, 63.875]; each is (field - 512) times
      the exponent's scale, so the field is recovered by dividing back. */
  lemma Vec32Bounds(v: nat)
    ensures var r, f := Vec32(v), SplitVec32(v);
            var s := Vec32Scale(f.e);
            -64.0 <= r.x <= 63.875 && -64.0 <= r.y <= 63.875 && -64.0 <= r.z <= 63.875 &&
            r.x / s + 512.0 == f.x as real && r.y / s + 512.0 == f.y as real && r.z / s + 512.0 == f.z as real
  {
    var f := SplitVec32(v);
    Vec32ComponentBounds(f.x, f.e);
    Vec32ComponentBounds(f.y, f.e);
    Vec32ComponentBounds(f.z, f.e);
  }

  /** vec32: reads 4 bytes. */
  method ReadVec32(buf: Cursor) returns (r: Vec3)
    modifies buf
    ensures r == Vec32(WordAt(buf.data, old(buf.pos), 4))
    ensures buf.pos == old(buf.pos) + |ReadAt(buf.data, old(buf.pos), 4)|
  {
    var v := ReadWord(4, buf);
    r := Vec32(v);
  }

  // ---- completing a unit quaternion ----

  /** sqrt returns the non-negative root of every non-negative argument. */
  ghost predicate IsSqrt(sqrt: real -> real)
  {
    forall r: real :: r >= 0.0 ==> sqrt(r) >= 0.0 && sqrt(r) * sqrt(r) == r
  }

  /** x^2 + y^2 + z^2 */
  function SquaredLength(x: real, y: real, z: real): real
  {
    x * x + y * y + z * z
  }

  /** x^2 + y^2 + z^2 + w^2 */
  function Norm(q: Quat): real
  {
    SquaredLength(q.x, q.y, q.z) + q.w * q.w
  }

  /** w = sqrt(1 - x^2 - y^2 - z^2), negated when the sign bit is set; a
      negative radicand is the ValueError of math.sqrt (no clamping). */
  function Complete(x: real, y: real, z: real, negative: bool, sqrt: real -> real): (r: Result<Quat>)
    ensures r.Ok? ==> r.value.x == x && r.value.y == y && r.value.z == z
    ensures r.Err? ==> r.error == NegativeRadicand
  {
    var radicand := 1.0 - x * x - y * y - z * z;
    if radicand < 0.0 then Err(NegativeRadicand)
    else
      var w := sqrt(radicand);
      Ok(Quat(x, y, z, if negative then -w else w))
  }

  /** The quaternion is completed exactly when (x, y, z) lies in the unit ball;
      then it has norm 1 and w takes the sign bit's sign. */
  lemma CompleteUnit(x: real, y: real, z: real, negative: bool, sqrt: real -> real)
    requires IsSqrt(sqrt)
    ensures var r := Complete(x, y, z, negative, sqrt);
            (r.Ok? <==> SquaredLength(x, y, z) <= 1.0) &&
            (r.Ok? ==> var q := r.value;
                       Norm(q) == 1.0 &&
                       (q.w > 0.0 ==> !negative) && (q.w < 0.0 ==> negative))
  {
    var radicand := 1.0 - x * x - y * y - z * z;
    if radicand >= 0.0 {
      var w := sqrt(radicand);
      assert w >= 0.0 && w * w == radicand;
      assert (-w) * (-w) == w * w;
    }
  }

  // ---- quat48: x, y at bits 0 and 16 (16 bits), z at bit 32 (15 bits), sign at bit 47 ----

  datatype QuatFields = QuatFields(x: nat, y: nat, z: nat, negative: bool)

  predicate Quat48FieldsValid(f: QuatFields)
  {
    f.x < 0x1_0000 && f.y < 0x1_0000 && f.z < 0x8000
  }

  function SplitQuat48(v: nat): (f: QuatFields)
    ensures Quat48FieldsValid(f)
  {
    QuatFields(Field(v, 1, 0x1_0000), Field(v, 0x1_0000, 0x1_0000), Field(v, 0x1_0000_0000, 0x8000),
               Field(v, 0x8000_0000_0000, 2) == 1)
  }

  function JoinQuat48(f: QuatFields): nat
  {
    f.x + 0x1_0000 * f.y + 0x1_0000_0000 * f.z + 0x8000_0000_0000 * (if f.negative then 1 else 0)
  }

  /** Every 48-bit word is its four fields. */
  lemma JoinSplitQuat48(v: nat)
    requires v < 0x1_0000_0000_0000
    ensures JoinQuat48(SplitQuat48(v)) == v
  {
    var q1, q2, q3 := v / 0x1_0000, v / 0x1_0000_0000, v / 0x8000_0000_0000;
    assert v == v % 0x1_0000 + 0x1_0000 * q1;
    assert q1 == q1 % 0x1_0000 + 0x1_0000 * q2;
    assert q2 == q2 % 0x8000 + 0x8000 * q3;
    assert q3 < 2;
  }

  lemma SplitJoinQuat48(f: QuatFields)
    requires Quat48FieldsValid(f)
    ensures JoinQuat48(f) < 0x1_0000_0000_0000
    ensures SplitQuat48(JoinQuat48(f)) == f
  {
    var v, s := JoinQuat48(f), if f.negative then 1 else 0;
    assert v / 0x1_0000 == f.y + 0x1_0000 * f.z + 0x8000_0000 * s;
    assert v / 0x1_0000_0000 == f.z + 0x8000 * s;
    assert v / 0x8000_0000_0000 == s;
  }

  /** x, y = (f - 32768) / 32768 and z = (f - 16384) / 16384. */
  function Quat48Xyz(v: nat): (r: (real, real, real))
    ensures -1.0 <= r.0 <= 32767.0 / 32768.0 && -1.0 <= r.1 <= 32767.0 / 32768.0
    ensures -1.0 <= r.2 <= 16383.0 / 16384.0
  {
    var f := SplitQuat48(v);
    ((f.x as real - 32768.0) / 32768.0, (f.y as real - 32768.0) / 32768.0, (f.z as real - 16384.0) / 16384.0)
  }

  /** quat48 of the word v: it fails exactly when the stored x, y, z lie
      outside the unit ball, and otherwise keeps them. */
  function Quat48(v: nat, sqrt: real -> real): (r: Result<Quat>)
    ensures var xyz := Quat48Xyz(v);
            (r.Ok? <==> SquaredLength(xyz.0, xyz.1, xyz.2) <= 1.0) &&
            (r.Err? ==> r.error == NegativeRadicand) &&
            (r.Ok? ==> (r.value.x, r.value.y, r.value.z) == xyz)
  {
    var xyz := Quat48Xyz(v);
    Complete(xyz.0, xyz.1, xyz.2, SplitQuat48(v).negative, sqrt)
  }

  /** quat48 yields a unit quaternion exactly when the stored x, y, z lie in the
      unit ball, with w negative only when bit 47 is set and positive only when
      it is clear. */
  lemma Quat48Unit(v: nat, sqrt: real -> real)
    requires IsSqrt(sqrt)
    ensures var r, xyz := Quat48(v, sqrt), Quat48Xyz(v);
            (r.Ok? <==> SquaredLength(xyz.0, xyz.1, xyz.2) <= 1.0) &&
            (r.Err? ==> r.error == NegativeRadicand) &&
            (r.Ok? ==> var q := r.value;
                       (q.x, q.y, q.z) == xyz &&
                       Norm(q) == 1.0 &&
                       (q.w < 0.0 ==> SplitQuat48(v).negative) &&
                       (q.w > 0.0 ==> !SplitQuat48(v).negative))
  {
    var xyz, negative := Quat48Xyz(v), SplitQuat48(v).negative;
    assert Quat48(v, sqrt) == Complete(xyz.0, xyz.1, xyz.2, negative, sqrt);
    CompleteUnit(xyz.0, xyz.1, xyz.2, negative, sqrt);
  }

  /** The all-zero word stores x = y = z = -1, whose radicand is -2: quat48 fails on it. */
  lemma Quat48OfZero(sqrt: real -> real)
    ensures Quat48(0, sqrt) == Err(NegativeRadicand)
  {
    assert Quat48Xyz(0) == (-1.0, -1.0, -1.0);
  }

  /** quat48: reads 6 bytes; the bytes are consumed even when the square root fails. */
  method ReadQuat48(buf: Cursor, sqrt: real -> real) returns (r: Result<Quat>)
    modifies buf
    ensures r == Quat48(WordAt(buf.data, old(buf.pos), 6), sqrt)
    ensures buf.pos == old(buf.pos) + |ReadAt(buf.data, old(buf.pos), 6)|
  {
    var v := ReadWord(6, buf);
    r := Quat48(v, sqrt);
  }

  // ---- quat64: x, y, z at bits 0, 21, 42 (21 bits each), sign at bit 63 ----

  predicate Quat64FieldsValid(f: QuatFields)
  {
    f.x < 0x20_0000 && f.y < 0x20_0000 && f.z < 0x20_0000
  }

  function SplitQuat64(v: nat): (f: QuatFields)
    ensures Quat64FieldsValid(f)
  {
    QuatFields(Field(v, 1, 0x20_0000), Field(v, 0x20_0000, 0x20_0000), Field(v, 0x400_0000_0000, 0x20_0000),
               Field(v, 0x8000_0000_0000_0000, 2) == 1)
  }

  function JoinQuat64(f: QuatFields): nat
  {
    f.x + 0x20_0000 * f.y + 0x400_0000_0000 * f.z + 0x8000_0000_0000_0000 * (if f.negative then 1 else 0)
  }

  /** Every 64-bit word is its four fields. */
  lemma JoinSplitQuat64(v: nat)
    requires v < 0x1_0000_0000_0000_0000
    ensures JoinQuat64(SplitQuat64(v)) == v
  {
    var q1, q2, q3 := v / 0x20_0000, v / 0x400_0000_0000, v / 0x8000_0000_0000_0000;
    assert v == v % 0x20_0000 + 0x20_0000 * q1;
    assert q1 == q1 % 0x20_0000 + 0x20_0000 * q2;
    assert q2 == q2 % 0x20_0000 + 0x20_0000 * q3;
    assert q3 < 2;
  }

  lemma SplitJoinQuat64(f: QuatFields)
    requires Quat64FieldsValid(f)
    ensures JoinQuat64(f) < 0x1_0000_0000_0000_0000
    ensures SplitQuat64(JoinQuat64(f)) == f
  {
    var v, s := JoinQuat64(f), if f.negative then 1 else 0;
    assert v / 0x20_0000 == f.y + 0x20_0000 * f.z + 0x400_0000_0000 * s;
    assert v / 0x400_0000_0000 == f.z + 0x20_0000 * s;
    assert v / 0x8000_0000_0000_0000 == s;
  }

  /** x, y, z = (f - 1048576) / 1048576.5, each strictly inside (-1, 1). */
  function Quat64Xyz(v: nat): (r: (real, real, real))
    ensures -1.0 < r.0 < 1.0 && -1.0 < r.1 < 1.0 && -1.0 < r.2 < 1.0
  {
    var f := SplitQuat64(v);
    ((f.x as real - 1048576.0) / 1048576.5, (f.y as real - 1048576.0) / 1048576.5,
     (f.z as real - 1048576.0) / 1048576.5)
  }

  /** quat64 of the word v: it fails exactly when the stored x, y, z lie
      outside the unit ball, and otherwise keeps them. */
  function Quat64(v: nat, sqrt: real -> real): (r: Result<Quat>)
    ensures var xyz := Quat64Xyz(v);
            (r.Ok? <==> SquaredLength(xyz.0, xyz.1, xyz.2) <= 1.0) &&
            (r.Err? ==> r.error == NegativeRadicand) &&
            (r.Ok? ==> (r.value.x, r.value.y, r.value.z) == xyz)
  {
    var xyz := Quat64Xyz(v);
    Complete(xyz.0, xyz.1, xyz.2, SplitQuat64(v).negative, sqrt)
  }

  /** quat64 yields a unit quaternion exactly when the stored x, y, z lie in the
      unit ball, with w's sign taken from bit 63. */
  lemma Quat64Unit(v: nat, sqrt: real -> real)
    requires IsSqrt(sqrt)
    ensures var r, xyz := Quat64(v, sqrt), Quat64Xyz(v);
            (r.Ok? <==> SquaredLength(xyz.0, xyz.1, xyz.2) <= 1.0) &&
            (r.Err? ==> r.error == NegativeRadicand) &&
            (r.Ok? ==> var q := r.value;
                       (q.x, q.y, q.z) == xyz &&
                       Norm(q) == 1.0 &&
                       (q.w < 0.0 ==> SplitQuat64(v).negative) &&
                       (q.w > 0.0 ==> !SplitQuat64(v).negative))
  {
    var xyz, negative := Quat64Xyz(v), SplitQuat64(v).negative;
    assert Quat64(v, sqrt) == Complete(xyz.0, xyz.1, xyz.2, negative, sqrt);
    CompleteUnit(xyz.0, xyz.1, xyz.2, negative, sqrt);
  }

  /** quat64: reads 8 bytes; the bytes are consumed even when the square root fails. */
  method ReadQuat64(buf: Cursor, sqrt: real -> real) returns (r: Result<Quat>)
    modifies buf
    ensures r == Quat64(WordAt(buf.data, old(buf.pos), 8), sqrt)
    ensures buf.pos == old(buf.pos) + |ReadAt(buf.data, old(buf.pos), 8)|
  {
    var v := ReadWord(8, buf);
    r := Quat64(v, sqrt);
  }
}
