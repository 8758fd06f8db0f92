/**
 * `CInclinometer`: which sensors it accepts, how it decodes a report into
 * `InclinometerData`, and the defaults it writes when there is no report.
 */
module Inclinometer {
  import opened Guids
  import opened Wrappers
  import opened Sensors

  /**
   * `CInclinometer::ValidateOutput`: asks in turn whether TILT_X, TILT_Y,
   * TILT_Z and TIMESTAMP are supported. The code of the TILT_X query is
   * never looked at, so a failed TILT_X query leaves the flag at its
   * initial VARIANT_FALSE; every later failed query returns its own code.
   */
  function ValidateOutput(s: FieldSupport): (hr: HResult)
    // accepted exactly when all four fields are supported and the last query returned S_OK
    ensures hr == S_OK <==>
      Supports(s.tiltX) && Supports(s.tiltY) && Supports(s.tiltZ) && s.timestamp == Answer(S_OK, true)
    // an unanswered or unsupported TILT_X rejects with E_FAIL
    ensures !Supports(s.tiltX) ==> hr == E_FAIL
    // the first failing query among Y, Z, TIMESTAMP gives its own code
    ensures Supports(s.tiltX) && Failed(s.tiltY.hr) ==> hr == s.tiltY.hr
    ensures Supports(s.tiltX) && Supports(s.tiltY) && Failed(s.tiltZ.hr) ==> hr == s.tiltZ.hr
    ensures Supports(s.tiltX) && Supports(s.tiltY) && Supports(s.tiltZ) && Failed(s.timestamp.hr)
      ==> hr == s.timestamp.hr
    // an answered "not supported" rejects with E_FAIL
    ensures !Failed(s.tiltY.hr) && !s.tiltY.supported && Supports(s.tiltX) ==> hr == E_FAIL
    ensures Supports(s.tiltX) && Supports(s.tiltY) && !Failed(s.tiltZ.hr) && !s.tiltZ.supported ==> hr == E_FAIL
    ensures Supports(s.tiltX) && Supports(s.tiltY) && Supports(s.tiltZ) && !Failed(s.timestamp.hr) && !s.timestamp.supported
      ==> hr == E_FAIL
    // any success code is the TIMESTAMP query's own
    ensures !Failed(hr) ==> hr == s.timestamp.hr
  {
    if !FlagAfter(false, s.tiltX) then E_FAIL
    else if Failed(s.tiltY.hr) then s.tiltY.hr
    else if !s.tiltY.supported then E_FAIL
    else if Failed(s.tiltZ.hr) then s.tiltZ.hr
    else if !s.tiltZ.supported then E_FAIL
    else if Failed(s.timestamp.hr) then s.timestamp.hr
    else if !s.timestamp.supported then E_FAIL
    else s.timestamp.hr
  }

  /** The structure after a report is decoded into it: each field overwritten only by a successful read. */
  function Decoded(v: Tilt, report: Report): Tilt
  {
    Tilt(FieldAfter(v.x, report.tiltX), FieldAfter(v.y, report.tiltY), FieldAfter(v.z, report.tiltZ),
         TimeAfter(v.time, report.timestamp))
  }

  /** The defaults `SetDefaultData` writes: every tilt -1, the time kept. */
  function Defaulted(v: Tilt): Tilt
  {
    Tilt(-1.0, -1.0, -1.0, v.time)
  }

  /** A report whose reads all succeed, carrying the values of `v`. */
  function ReportOf(v: Tilt): Report
    requires IsInt64(v.time)
  {
    Report(Value(v.x), Value(v.y), Value(v.z), Value(SplitTime(v.time)), ReadFailed(E_FAIL))
  }

  /** Decoding a complete report gives back the values it carries, whatever was there before. */
  lemma DecodeRoundTrip(before: Tilt, v: Tilt)
    requires IsInt64(v.time)
    ensures Decoded(before, ReportOf(v)) == v
  {
    SplitTimeRoundTrip(v.time);
  }

  /** A field whose read fails keeps its previous value; decoding the same report twice changes nothing more. */
  lemma DecodeKeepsUnread(v: Tilt, report: Report)
    ensures report.tiltX.ReadFailed? ==> Decoded(v, report).x == v.x
    ensures report.tiltY.ReadFailed? ==> Decoded(v, report).y == v.y
    ensures report.tiltZ.ReadFailed? ==> Decoded(v, report).z == v.z
    ensures report.timestamp.ReadFailed? ==> Decoded(v, report).time == v.time
    ensures Decoded(Decoded(v, report), report) == Decoded(v, report)
  {
  }

  /**
   * `CInclinometer::OnDataUpdated`: with a sensor and a report, and once the
   * sensor's id can be read, overwrites each tilt whose value read succeeds
   * and the time when the timestamp read succeeds; returns the code of the
   * last read, the timestamp's.
   */
  method OnDataUpdated(sensor: Option<Sensor>, report: Option<Report>, data: InclinometerData)
    returns (hr: HResult)
    modifies data
    ensures sensor.None? || report.None? ==> hr == E_INVALIDARG && data.Value() == old(data.Value())
    ensures sensor.Some? && report.Some? && Failed(sensor.value.idHr)
      ==> hr == sensor.value.idHr && data.Value() == old(data.Value())
    ensures sensor.Some? && report.Some? && !Failed(sensor.value.idHr)
      ==> hr == ReadCode(report.value.timestamp) && data.Value() == Decoded(old(data.Value()), report.value)
  {
    if sensor.Some? && report.Some? {
      hr := sensor.value.idHr;
      if !Failed(hr) {
        var r := report.value;
        if r.tiltX.Value? {
          data.xTilt := r.tiltX.value;
        }
        if r.tiltY.Value? {
          data.yTilt := r.tiltY.value;
        }
        if r.tiltZ.Value? {
          data.zTilt := r.tiltZ.value;
        }
        hr := ReadCode(r.timestamp);
        if r.timestamp.Value? {
          data.time := FileTimeToInt64(r.timestamp.value);
        }
      }
    } else {
      hr := E_INVALIDARG;
    }
  }

  /** `CInclinometer::SetDefaultData`: every tilt becomes -1, the time is left alone. */
  method SetDefaultData(data: InclinometerData) returns (hr: HResult)
    modifies data
    ensures hr == S_OK && data.Value() == Defaulted(old(data.Value()))
  {
    data.xTilt := -1.0;
    data.yTilt := -1.0;
    data.zTilt := -1.0;
    hr := S_OK;
  }
}
