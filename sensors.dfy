/**
 * The vendor objects the sensor code talks to, as values: HRESULT codes,
 * an `ISensor` as a record of what it answers, a data report as the values
 * it yields, and the two output structures of BaseSensor.h.
 */
module Sensors {
  import opened Guids
  import opened Wrappers

  /** A COM HRESULT: a signed 32-bit code, negative on failure. */
  type HResult = x: int | -0x8000_0000 <= x < 0x8000_0000

  const S_OK: HResult := 0
  const E_FAIL: HResult := 0x8000_4005 - 0x1_0000_0000
  const E_POINTER: HResult := 0x8000_4003 - 0x1_0000_0000
  const E_INVALIDARG: HResult := 0x8007_0057 - 0x1_0000_0000
  /** HRESULT_FROM_WIN32(ERROR_NOT_FOUND), ERROR_NOT_FOUND being 1168. */
  const E_NOT_FOUND: HResult := 0x8007_0490 - 0x1_0000_0000

  /** The FAILED() macro. */
  predicate Failed(hr: HResult)
  {
    hr < 0
  }

  /** `SensorState` of the Sensor API. */
  datatype SensorState = Ready | NotAvailable | NoData | Initializing | AccessDenied | Error

  /**
   * The answer of `ISensor::SupportsDataField`: its return code, and the
   * flag it stores in the out parameter, which it writes only when it
   * succeeds.
   */
  datatype Answer = Answer(hr: HResult, supported: bool)

  /** The out flag after a `SupportsDataField` call, given its value before. */
  function FlagAfter(before: bool, a: Answer): (after: bool)
    ensures Failed(a.hr) ==> after == before
    ensures !Failed(a.hr) ==> after == a.supported
  {
    if Failed(a.hr) then before else a.supported
  }

  /** What a sensor answers for each data field the decoders ask about. */
  datatype FieldSupport = FieldSupport(
    tiltX: Answer, tiltY: Answer, tiltZ: Answer, timestamp: Answer, rotationMatrix: Answer)

  /** An HRESULT for which FAILED() holds. */
  type FailureCode = hr: HResult | hr < 0 witness -1

  /** A read such as `GetSensorValue`: the value (with S_OK), or the failure code. */
  datatype Reading<T> = Value(value: T) | ReadFailed(hr: FailureCode)

  /** The return code of a read. */
  function ReadCode<T>(r: Reading<T>): (hr: HResult)
    ensures Failed(hr) <==> r.ReadFailed?
    ensures r.Value? ==> hr == S_OK
  {
    match r
    case Value(_) => S_OK
    case ReadFailed(code) => code
  }

  /** A FILETIME as the report carries it: two 32-bit words. */
  datatype FileTime = FileTime(high: uint32, low: uint32)

  /** A PROPVARIANT holding the rotation matrix: a VT_UI1|VT_VECTOR byte vector or anything else. */
  datatype Variant = ByteVector(elems: seq<byte>) | OtherVariant

  /** An `ISensorDataReport`: what `GetSensorValue` yields for each field the decoders read. */
  datatype Report = Report(
    tiltX: Reading<real>, tiltY: Reading<real>, tiltZ: Reading<real>,
    timestamp: Reading<FileTime>, rotationMatrix: Reading<Variant>)

  /**
   * An `ISensor`, as the answers it gives: its id and type (each with the
   * code of the call that returns it), its state, the data fields it
   * supports, its friendly name when that property reads as a string, the
   * code of `SetEventInterest`, and the code and report of `GetData`.
   */
  datatype Sensor = Sensor(
    idHr: HResult, id: Guid,
    typeHr: HResult, typeId: Guid,
    state: SensorState,
    support: FieldSupport,
    friendlyName: Option<string>,
    eventInterestHr: HResult,
    data: Reading<Report>)


  /** `__int64` range. */
  predicate IsInt64(x: int)
  {
    -0x8000_0000_0000_0000 <= x < 0x8000_0000_0000_0000
  }

  /**
   * `((unsigned __int64)high << 32) | low` stored into an `__int64`: the
   * shift and the OR of non-overlapping bits build `high * 2^32 + low`, and
   * the store reinterprets values from 2^63 up as negative.
   */
  function FileTimeToInt64(ft: FileTime): (t: int)
    ensures IsInt64(t)
    ensures t == ft.high * 0x1_0000_0000 + ft.low
         || t == ft.high * 0x1_0000_0000 + ft.low - 0x1_0000_0000_0000_0000
  {
    var u := ft.high * 0x1_0000_0000 + ft.low;
    if u < 0x8000_0000_0000_0000 then u else u - 0x1_0000_0000_0000_0000
  }

  /** The 64-bit pattern of an `__int64`, read as unsigned. */
  function Unsigned64(t: int): (u: nat)
    requires IsInt64(t)
    ensures u < 0x1_0000_0000_0000_0000
    ensures u % 0x1_0000_0000_0000_0000 == t % 0x1_0000_0000_0000_0000
  {
    if t < 0 then t + 0x1_0000_0000_0000_0000 else t
  }

  /** The two 32-bit words of an `__int64` time, high word first. */
  function SplitTime(t: int): (ft: FileTime)
    requires IsInt64(t)
  {
    FileTime(Unsigned64(t) / 0x1_0000_0000, Unsigned64(t) % 0x1_0000_0000)
  }

  /** The two words of a FILETIME come back out of the stored time: high = t div 2^32, low = t mod 2^32. */
  lemma FileTimeRoundTrip(ft: FileTime)
    ensures SplitTime(FileTimeToInt64(ft)) == ft
  {
    var u := ft.high * 0x1_0000_0000 + ft.low;
    assert Unsigned64(FileTimeToInt64(ft)) == u;
  }

  /** Every `__int64` time is the stored form of the FILETIME its two words make. */
  lemma SplitTimeRoundTrip(t: int)
    requires IsInt64(t)
    ensures FileTimeToInt64(SplitTime(t)) == t
  {
    var u := Unsigned64(t);
    assert u == (u / 0x1_0000_0000) * 0x1_0000_0000 + u % 0x1_0000_0000;
  }

  /** Distinct FILETIMEs give distinct stored times. */
  lemma FileTimeInjective(a: FileTime, b: FileTime)
    ensures FileTimeToInt64(a) == FileTimeToInt64(b) ==> a == b
  {
    FileTimeRoundTrip(a);
    FileTimeRoundTrip(b);
  }

  /** A time field after a timestamp read: overwritten only when the read succeeds. */
  function TimeAfter(before: int, r: Reading<FileTime>): (after: int)
    ensures r.ReadFailed? ==> after == before
    ensures r.Value? ==> IsInt64(after) && SplitTime(after) == r.value
  {
    if r.Value? then (FileTimeRoundTrip(r.value); FileTimeToInt64(r.value)) else before
  }

  /** A field after a value read: overwritten only when the read succeeds. */
  function FieldAfter<T>(before: T, r: Reading<T>): T
  {
    if r.Value? then r.value else before
  }

  /** A data field the sensor answers, without error, that it supports. */
  predicate Supports(a: Answer)
  {
    !Failed(a.hr) && a.supported
  }

  /** The value of an `InclinometerData` structure. */
  datatype Tilt = Tilt(x: real, y: real, z: real, time: int)

  /** `InclinometerData` of BaseSensor.h: three tilts in degrees and a timestamp. */
  class InclinometerData {
    var xTilt: real
    var yTilt: real
    var zTilt: real
    var time: int

    function Value(): Tilt
      reads this
    {
      Tilt(xTilt, yTilt, zTilt, time)
    }

    /** `InclinometerData sensorData = {0};` */
    constructor Zeroed()
      ensures Value() == Tilt(0.0, 0.0, 0.0, 0)
    {
      xTilt, yTilt, zTilt, time := 0.0, 0.0, 0.0, 0;
    }
  }

  /** The number of bytes of `float Matrix[9]`. */
  const MATRIX_BYTES: nat := 36

  /** The value of an `OrientationData` structure: the matrix bytes and a timestamp. */
  datatype Orientation = Orientation(matrix: seq<byte>, time: int)

  /**
   * `OrientationData` of BaseSensor.h. `float Matrix[9]` is kept as its 36
   * bytes, because the decoder fills it with a byte copy.
   */
  class OrientationData {
    const matrix: array<byte>
    var time: int

    ghost predicate Valid()
      reads this
    {
      matrix.Length == MATRIX_BYTES
    }

    function Value(): Orientation
      reads this, matrix
    {
      Orientation(matrix[..], time)
    }

    /** A zero-filled structure. */
    constructor Zeroed()
      ensures Valid() && fresh(matrix)
      ensures Value() == Orientation(seq(MATRIX_BYTES, _ => 0), 0)
    {
      matrix := new byte[MATRIX_BYTES](_ => 0);
      time := 0;
    }
  }
}
