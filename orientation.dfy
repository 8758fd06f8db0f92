/**
 * `COrientationDevice`: which sensors it accepts, how it copies the
 * rotation matrix and timestamp of a report into `OrientationData`, and
 * the identity matrix it writes when there is no report.
 */
module OrientationDevice {
  import opened Guids
  import opened Wrappers
  import opened Sensors

  /**
   * `COrientationDevice::ValidateOutput`: the rotation matrix must be
   * supported; TIMESTAMP support is asked for, but only a failure of that
   * query matters, never its answer.
   */
  function ValidateOutput(s: FieldSupport): (hr: HResult)
    ensures hr == S_OK <==> Supports(s.rotationMatrix) && s.timestamp.hr == S_OK
    ensures Failed(s.rotationMatrix.hr) ==> hr == s.rotationMatrix.hr
    ensures !Failed(s.rotationMatrix.hr) && !s.rotationMatrix.supported ==> hr == E_FAIL
    ensures Supports(s.rotationMatrix) ==> hr == s.timestamp.hr
  {
    if Failed(s.rotationMatrix.hr) then s.rotationMatrix.hr
    else if !s.rotationMatrix.supported then E_FAIL
    else s.timestamp.hr
  }

  /** Whether the timestamp is supported never changes the verdict. */
  lemma TimestampSupportNotRequired(s: FieldSupport, flag: bool)
    ensures ValidateOutput(s) == ValidateOutput(s.(timestamp := Answer(s.timestamp.hr, flag)))
  {
  }

  /** `memcpy(Matrix, pElems, cElems)` stays inside the 36 bytes of the matrix. */
  predicate FitsMatrix(report: Report)
  {
    (report.rotationMatrix.Value? && report.rotationMatrix.value.ByteVector?) ==>
      |report.rotationMatrix.value.elems| <= MATRIX_BYTES
  }

  /** The matrix bytes after the rotation read: a byte vector overwrites its own length of prefix. */
  function MatrixAfter(m: seq<byte>, r: Reading<Variant>): seq<byte>
    requires |m| == MATRIX_BYTES
    requires r.Value? && r.value.ByteVector? ==> |r.value.elems| <= MATRIX_BYTES
  {
    if r.Value? && r.value.ByteVector? then r.value.elems + m[|r.value.elems|..] else m
  }

  /** The structure after a report is decoded into it. */
  function Decoded(v: Orientation, report: Report): Orientation
    requires |v.matrix| == MATRIX_BYTES && FitsMatrix(report)
  {
    Orientation(MatrixAfter(v.matrix, report.rotationMatrix), TimeAfter(v.time, report.timestamp))
  }

  /** The bytes a report's rotation vector writes, and the ones it leaves. */
  lemma DecodeOverwritesPrefix(v: Orientation, report: Report)
    requires |v.matrix| == MATRIX_BYTES && FitsMatrix(report)
    ensures |Decoded(v, report).matrix| == MATRIX_BYTES
    ensures report.rotationMatrix.Value? && report.rotationMatrix.value.ByteVector? ==>
      var e := report.rotationMatrix.value.elems;
      Decoded(v, report).matrix[..|e|] == e && Decoded(v, report).matrix[|e|..] == v.matrix[|e|..]
    ensures !(report.rotationMatrix.Value? && report.rotationMatrix.value.ByteVector?) ==>
      Decoded(v, report).matrix == v.matrix
  {
  }

  /** A report carrying a full 36-byte vector and a timestamp. */
  function ReportOf(v: Orientation): Report
    requires IsInt64(v.time)
  {
    Report(ReadFailed(E_FAIL), ReadFailed(E_FAIL), ReadFailed(E_FAIL), Value(SplitTime(v.time)), Value(ByteVector(v.matrix)))
  }

  /** Decoding a report with a full matrix and a timestamp gives back exactly those values. */
  lemma DecodeRoundTrip(before: Orientation, v: Orientation)
    requires |before.matrix| == MATRIX_BYTES && |v.matrix| == MATRIX_BYTES && IsInt64(v.time)
    ensures Decoded(before, ReportOf(v)) == v
  {
    SplitTimeRoundTrip(v.time);
  }

  /** IEEE-754 single precision 1.0f and 0.0f. */
  const FLOAT_ONE: uint32 := 0x3F80_0000
  const FLOAT_ZERO: uint32 := 0

  /** The 3x3 identity, row-major, as float bit patterns. */
  const IDENTITY: seq<uint32> :=
    [FLOAT_ONE, FLOAT_ZERO, FLOAT_ZERO,
     FLOAT_ZERO, FLOAT_ONE, FLOAT_ZERO,
     FLOAT_ZERO, FLOAT_ZERO, FLOAT_ONE]

  /** The memory image of a float array: each element's four bytes, little-endian. */
  function EncodeFloats(ws: seq<uint32>): (bs: seq<byte>)
    ensures |bs| == 4 * |ws|
  {
    if ws == [] then [] else Le32(ws[0]) + EncodeFloats(ws[1..])
  }

  /** Encoding one more element appends its four bytes. */
  lemma {:induction false} EncodeFloatsAppend(ws: seq<uint32>, w: uint32)
    ensures EncodeFloats(ws + [w]) == EncodeFloats(ws) + Le32(w)
  {
    if ws != [] {
      assert (ws + [w])[1..] == ws[1..] + [w];
      EncodeFloatsAppend(ws[1..], w);
    } else {
      assert ws + [w] == [w];
    }
  }

  /** The bit pattern of float number `k` in a byte image. */
  function FloatAt(bs: seq<byte>, k: nat): uint32
    requires 4 * k + 4 <= |bs|
  {
    bs[4 * k] as int + 0x100 * bs[4 * k + 1] as int + 0x1_0000 * bs[4 * k + 2] as int + 0x100_0000 * bs[4 * k + 3] as int
  }

  /** Reading float `k` back out of an encoded array gives element `k`. */
  lemma {:induction false} EncodeFloatsAt(ws: seq<uint32>, k: nat)
    requires k < |ws|
    ensures FloatAt(EncodeFloats(ws), k) == ws[k]
  {
    var bs := EncodeFloats(ws);
    assert bs == Le32(ws[0]) + EncodeFloats(ws[1..]);
    if k > 0 {
      EncodeFloatsAt(ws[1..], k - 1);
      var rest := EncodeFloats(ws[1..]);
      assert bs[4 * k .. 4 * k + 4] == rest[4 * (k - 1) .. 4 * (k - 1) + 4];
    }
  }

  /** The bytes `SetDefaultData` leaves in the matrix decode to the identity. */
  lemma DefaultMatrixIsIdentity(k: nat)
    requires k < 9
    ensures FloatAt(EncodeFloats(IDENTITY), k) == if k % 4 == 0 then FLOAT_ONE else FLOAT_ZERO
  {
    EncodeFloatsAt(IDENTITY, k);
  }

  /**
   * `COrientationDevice::OnDataUpdated`: with a sensor and a report, and
   * once the sensor's id can be read, copies a VT_UI1|VT_VECTOR rotation
   * value byte for byte over the matrix and overwrites the time when the
   * timestamp read succeeds; returns the code of the timestamp read.
   */
  method OnDataUpdated(sensor: Option<Sensor>, report: Option<Report>, data: OrientationData)
    returns (hr: HResult)
    requires data.Valid()
    requires report.Some? ==> FitsMatrix(report.value)
    modifies data, data.matrix
    ensures sensor.None? || report.None? ==> hr == E_INVALIDARG && data.Value() == old(data.Value())
    ensures sensor.Some? && report.Some? && Failed(sensor.value.idHr)
      ==> hr == sensor.value.idHr && data.Value() == old(data.Value())
    ensures sensor.Some? && report.Some? && !Failed(sensor.value.idHr)
      ==> hr == ReadCode(report.value.timestamp) && data.Value() == Decoded(old(data.Value()), report.value)
  {
    if sensor.Some? && report.Some? {
      hr := sensor.value.idHr;
      if !Failed(hr) {
        var r := report.value;
        if r.rotationMatrix.Value? && r.rotationMatrix.value.ByteVector? {
          var e := r.rotationMatrix.value.elems;
          forall i | 0 <= i < |e| {
            data.matrix[i] := e[i];
          }
          assert data.matrix[..] == e + old(data.matrix[..])[|e|..];
        }
        hr := ReadCode(r.timestamp);
        if r.timestamp.Value? {
          data.time := FileTimeToInt64(r.timestamp.value);
        }
      }
    } else {
      hr := E_INVALIDARG;
    }
  }

  /** The image of the first `k + 1` identity entries extends that of the first `k`. */
  lemma IdentityPrefix(k: nat)
    requires k < 9
    ensures EncodeFloats(IDENTITY[..k + 1]) == EncodeFloats(IDENTITY[..k]) + Le32(IDENTITY[k])
  {
    assert IDENTITY[..k + 1] == IDENTITY[..k] + [IDENTITY[k]];
    EncodeFloatsAppend(IDENTITY[..k], IDENTITY[k]);
  }

  /**
   * `OrientData->Matrix[k] = f` in `SetDefaultData`: with the first `k`
   * floats already those of the identity, the four bytes of float `k` take
   * the bit pattern `bits` of the identity's element `k`.
   */
  method StoreFloat(data: OrientationData, k: nat, bits: uint32)
    requires data.Valid() && k < 9 && bits == IDENTITY[k]
    requires data.matrix[..4 * k] == EncodeFloats(IDENTITY[..k])
    modifies data.matrix
    ensures data.matrix[..4 * k + 4] == EncodeFloats(IDENTITY[..k + 1])
  {
    var b := Le32(bits);
    data.matrix[4 * k] := b[0];
    data.matrix[4 * k + 1] := b[1];
    data.matrix[4 * k + 2] := b[2];
    data.matrix[4 * k + 3] := b[3];
    IdentityPrefix(k);
    assert data.matrix[..4 * k + 4] == old(data.matrix[..4 * k]) + b;
  }

  /** `COrientationDevice::SetDefaultData`: the identity matrix, row-major; the time is left alone. */
  method SetDefaultData(data: OrientationData) returns (hr: HResult)
    requires data.Valid()
    modifies data.matrix
    ensures hr == S_OK && data.Value() == Orientation(EncodeFloats(IDENTITY), old(data.time))
  {
    assert data.matrix[..0] == EncodeFloats(IDENTITY[..0]);
    StoreFloat(data, 0, FLOAT_ONE);
    StoreFloat(data, 1, FLOAT_ZERO);
    StoreFloat(data, 2, FLOAT_ZERO);

    StoreFloat(data, 3, FLOAT_ZERO);
    StoreFloat(data, 4, FLOAT_ONE);
    StoreFloat(data, 5, FLOAT_ZERO);

    StoreFloat(data, 6, FLOAT_ZERO);
    StoreFloat(data, 7, FLOAT_ZERO);
    StoreFloat(data, 8, FLOAT_ONE);
    assert IDENTITY[..9] == IDENTITY && data.matrix[..] == data.matrix[..36];
    hr := S_OK;
  }
}
