/**
 * `CSensorManagerEvents`: the registry of sensors the application has
 * seen. A map from sensor id to its recorded properties (kept, ordered by
 * the GUID `operator<`), the ids in the order they became available, the
 * sensor types the application asked for, and a global status used while
 * the map is empty.
 */
module SensorManager {
  import opened Guids
  import opened Wrappers
  import opened Sensors
  import Inclinometer
  import OrientationDevice

  /** `SENSORTYPE`. */
  datatype SensorType = SensorNone | SensorInclinometer3D | SensorOrientation

  /** `SENSORSTATUS`. */
  datatype Status = Disabled | NotFound | Active | Lost | Unknown

  /** `m_SensorProcessor`: null, or one of the two decoders the registry owns. */
  datatype Processor = NoProcessor | InclinometerProcessor | OrientationProcessor

  /** `SensorProporties`: status, type, friendly name (None for a null pointer), sensor (None for null) and decoder. */
  datatype Props = Props(status: Status, kind: SensorType, name: Option<string>, sensor: Option<Sensor>, processor: Processor)

  /** The value-initialised entry `operator[]` inserts for a missing key. */
  const DEFAULT_PROPS: Props := Props(Disabled, SensorNone, None, None, NoProcessor)

  /** "No Device Found", the name reported while no sensor is registered. */
  const NO_DEVICE: string := "No Device Found"

  /** The entry `m_Properties[id]` reads: the stored one, or a default one. */
  function Entry(m: map<Guid, Props>, id: Guid): Props
  {
    if id in m then m[id] else DEFAULT_PROPS
  }

  /** The `SENSORTYPE` recorded for a sensor type GUID. */
  function KindOf(typeId: Guid): SensorType
  {
    if typeId == SENSOR_TYPE_INCLINOMETER_3D then SensorInclinometer3D
    else if typeId == SENSOR_TYPE_AGGREGATED_DEVICE_ORIENTATION then SensorOrientation
    else SensorNone
  }

  /** The decoder recorded beside each `SENSORTYPE`. */
  function ProcessorFor(kind: SensorType): Processor
  {
    match kind
    case SensorNone => NoProcessor
    case SensorInclinometer3D => InclinometerProcessor
    case SensorOrientation => OrientationProcessor
  }

  /** The data-field check of the decoder for the sensor's type; other types pass. */
  predicate Validates(s: Sensor)
  {
    if s.typeId == SENSOR_TYPE_INCLINOMETER_3D then Inclinometer.ValidateOutput(s.support) == S_OK
    else if s.typeId == SENSOR_TYPE_AGGREGATED_DEVICE_ORIENTATION then OrientationDevice.ValidateOutput(s.support) == S_OK
    else true
  }

  /** The three filters of `AddSensor`: a requested type, access not denied, the fields validated. */
  predicate Admissible(requested: seq<Guid>, s: Sensor)
  {
    s.typeId in requested && s.state != AccessDenied && Validates(s)
  }

  /** The entry a sensor id gets when `AddSensor` meets it for the first time, before the sensor and status are stored. */
  function FreshEntry(s: Sensor): Props
  {
    Props(Disabled, KindOf(s.typeId), s.friendlyName, None, ProcessorFor(KindOf(s.typeId)))
  }

  /**
   * The entry of an admitted sensor: an existing entry keeps its type,
   * name and decoder, a new one gets them from the sensor; either way it
   * holds the sensor and becomes ACTIVE, except under the GUID_NULL id,
   * whose status write goes to the global status instead.
   */
  function AdmittedEntry(before: map<Guid, Props>, s: Sensor): Props
  {
    var stored := StoredEntry(before, s);
    stored.(status := if s.id == GUID_NULL then stored.status else Active)
  }

  /** The entry of an admitted sensor once the sensor is stored, before its status is written. */
  function StoredEntry(before: map<Guid, Props>, s: Sensor): Props
  {
    (if s.id in before then before[s.id] else FreshEntry(s)).(sensor := Some(s))
  }

  predicate Distinct(s: seq<Guid>)
  {
    forall i, j :: 0 <= i < j < |s| ==> s[i] != s[j]
  }

  /** Whether `GetSensor` counts id `x` when asked for type `t`. */
  function Selects(props: map<Guid, Props>, t: SensorType, x: Guid): bool
  {
    Entry(props, x).kind == t || t == SensorNone
  }

  /** The ids of `s`, in order, that `GetSensor` counts for type `t`. */
  function Matching(s: seq<Guid>, props: map<Guid, Props>, t: SensorType): (r: seq<Guid>)
    ensures |r| <= |s|
  {
    if s == [] then []
    else Matching(s[..|s| - 1], props, t) + (if Selects(props, t, s[|s| - 1]) then [s[|s| - 1]] else [])
  }

  /** The keys whose entry has type `t`. */
  function OfKind(props: map<Guid, Props>, t: SensorType): set<Guid>
  {
    set k | k in props && props[k].kind == t
  }

  lemma {:induction false} MatchingMembers(s: seq<Guid>, props: map<Guid, Props>, t: SensorType)
    ensures forall x :: x in Matching(s, props, t) <==> x in s && Selects(props, t, x)
    decreases |s|
  {
    if s != [] {
      MatchingMembers(s[..|s| - 1], props, t);
      assert s == s[..|s| - 1] + [s[|s| - 1]];
    }
  }

  lemma {:induction false} MatchingDistinct(s: seq<Guid>, props: map<Guid, Props>, t: SensorType)
    requires Distinct(s)
    ensures Distinct(Matching(s, props, t))
    decreases |s|
  {
    if s != [] {
      var init := s[..|s| - 1];
      MatchingDistinct(init, props, t);
      MatchingMembers(init, props, t);
      assert s[|s| - 1] !in init;
    }
  }

  /** With no type asked for, every available id counts, in list order. */
  lemma {:induction false} MatchingNoneIsAll(s: seq<Guid>, props: map<Guid, Props>)
    ensures Matching(s, props, SensorNone) == s
    decreases |s|
  {
    if s != [] {
      MatchingNoneIsAll(s[..|s| - 1], props);
      assert s == s[..|s| - 1] + [s[|s| - 1]];
    }
  }

  /** The matches among a prefix are a prefix of the matches of the whole list. */
  lemma {:induction false} MatchingPrefix(s: seq<Guid>, i: nat, props: map<Guid, Props>, t: SensorType)
    requires i <= |s|
    ensures |Matching(s[..i], props, t)| <= |Matching(s, props, t)|
    ensures Matching(s[..i], props, t) == Matching(s, props, t)[..|Matching(s[..i], props, t)|]
    decreases |s| - i
  {
    if i < |s| {
      var init := s[..|s| - 1];
      assert init[..i] == s[..i];
      MatchingPrefix(init, i, props, t);
    } else {
      assert s[..i] == s;
    }
  }

  /** The `n`-th match among a prefix is the `n`-th match of the whole list. */
  lemma MatchingPrefixAt(s: seq<Guid>, i: nat, props: map<Guid, Props>, t: SensorType, n: nat)
    requires i <= |s| && n < |Matching(s[..i], props, t)|
    ensures n < |Matching(s, props, t)| && Matching(s[..i], props, t)[n] == Matching(s, props, t)[n]
  {
    MatchingPrefix(s, i, props, t);
  }

  /** One more element of the list adds itself to the matches when it is selected. */
  lemma MatchingStep(s: seq<Guid>, i: nat, props: map<Guid, Props>, t: SensorType)
    requires i < |s|
    ensures Matching(s[..i + 1], props, t)
      == Matching(s[..i], props, t) + (if Selects(props, t, s[i]) then [s[i]] else [])
  {
    assert s[..i + 1][..i] == s[..i];
  }

  /** A list without repetitions has as many distinct elements as it is long. */
  lemma {:induction false} DistinctCard(s: seq<Guid>)
    requires Distinct(s)
    ensures |set x | x in s| == |s|
    decreases |s|
  {
    if s != [] {
      var init := s[..|s| - 1];
      DistinctCard(init);
      assert (set x | x in s) == (set x | x in init) + {s[|s| - 1]};
      assert s[|s| - 1] !in init;
    }
  }

  /** When GUID_NULL is a key, the first-key lookup for GUID_NULL lands on its own entry. */
  lemma NullKeyIsFirst(keys: set<Guid>)
    requires GUID_NULL in keys
    ensures First(keys) == GUID_NULL
  {
    forall j | j in keys && j != GUID_NULL
      ensures Less(GUID_NULL, j)
    {
      NullIsLeast(j);
    }
    FirstUnique(GUID_NULL, First(keys), keys);
  }

  /**
   * No id is available twice, the available ids are exactly the keys of
   * the map, and every entry's decoder is the one for its type.
   */
  ghost predicate Registry(properties: map<Guid, Props>, available: seq<Guid>)
  {
    Distinct(available)
    && (forall i :: 0 <= i < |available| ==> available[i] in properties)
    && (forall k :: k in properties ==> k in available)
    && (forall k :: k in properties ==> properties[k].processor == ProcessorFor(properties[k].kind))
  }

  /** A new status for an id already registered keeps the registry well formed. */
  lemma RestatusKeepsRegistry(properties: map<Guid, Props>, available: seq<Guid>, id: Guid, st: Status)
    requires Registry(properties, available) && id in properties
    ensures Registry(properties[id := properties[id].(status := st)], available)
  {
  }

  /** Storing the sensor and then writing ACTIVE through `Setstatus` yields the admitted entry. */
  lemma StoredThenActive(before: map<Guid, Props>, s: Sensor, entered: map<Guid, Props>)
    requires entered == before[s.id := StoredEntry(before, s)]
    ensures s.id != GUID_NULL ==>
      entered[s.id := Entry(entered, s.id).(status := Active)] == before[s.id := AdmittedEntry(before, s)]
    ensures s.id == GUID_NULL ==> entered == before[s.id := AdmittedEntry(before, s)]
  {
  }

  /** Taking one more key out of the unscanned ones counts it when it is in `kinded`. */
  lemma UncountedStep(kinded: set<Guid>, rest: set<Guid>, k: Guid)
    requires k in rest
    ensures k in kinded ==> |kinded - (rest - {k})| == |kinded - rest| + 1
    ensures k !in kinded ==> kinded - (rest - {k}) == kinded - rest
  {
    if k in kinded {
      assert kinded - (rest - {k}) == (kinded - rest) + {k};
    }
  }

  /** `CSensorManagerEvents` without its COM plumbing. */
  class SensorManagerEvents {
    var statusGlobal: Status
    var properties: map<Guid, Props>
    var available: seq<Guid>
    var requested: seq<Guid>

    /** The map and the available list form a well-formed registry. */
    ghost predicate Valid()
      reads this
    {
      Registry(properties, available)
    }

    constructor ()
      ensures Valid()
      ensures statusGlobal == NotFound && properties == map[] && available == [] && requested == []
    {
      statusGlobal := NotFound;
      properties := map[];
      available := [];
      requested := [];
    }

    /** `Setstatus`: GUID_NULL addresses the global status, any other id its entry, created if absent. */
    method Setstatus(id: Guid, st: Status)
      modifies this`statusGlobal, this`properties
      ensures id == GUID_NULL ==> statusGlobal == st && properties == old(properties)
      ensures id != GUID_NULL ==>
        statusGlobal == old(statusGlobal) && properties == old(properties)[id := Entry(old(properties), id).(status := st)]
    {
      if id == GUID_NULL {
        statusGlobal := st;
      } else {
        properties := properties[id := Entry(properties, id).(status := st)];
      }
    }

    /** `AddRequestedSensor`: one more sensor type the application wants. */
    method AddRequestedSensor(typeId: Guid)
      requires Valid()
      modifies this`requested
      ensures Valid()
      ensures requested == old(requested) + [typeId]
    {
      requested := requested + [typeId];
    }

    /** The scan of `RequestedSensors` for a sensor type. */
    method IsRequested(typeId: Guid) returns (found: bool)
      ensures found <==> typeId in requested
    {
      var i := 0;
      while i < |requested| && requested[i] != typeId
        invariant 0 <= i <= |requested|
        invariant forall j :: 0 <= j < i ==> requested[j] != typeId
      {
        i := i + 1;
      }
      found := i < |requested|;
    }

    /** The scan of `m_AvailableSensors` for a sensor id. */
    method IsAvailable(id: Guid) returns (found: bool)
      ensures found <==> id in available
    {
      var i := 0;
      while i < |available| && available[i] != id
        invariant 0 <= i <= |available|
        invariant forall j :: 0 <= j < i ==> available[j] != id
      {
        i := i + 1;
      }
      found := i < |available|;
    }

    /** The filters of `AddSensor`, in the order it applies them. */
    method Admits(s: Sensor) returns (ok: bool)
      ensures ok == Admissible(requested, s)
    {
      ok := IsRequested(s.typeId);
      if !ok || s.state == AccessDenied {
        return false;
      }
      if s.typeId == SENSOR_TYPE_INCLINOMETER_3D {
        ok := Inclinometer.ValidateOutput(s.support) == S_OK;
      } else if s.typeId == SENSOR_TYPE_AGGREGATED_DEVICE_ORIENTATION {
        ok := OrientationDevice.ValidateOutput(s.support) == S_OK;
      }
    }

    /**
     * The bookkeeping of `AddSensor` for an admitted sensor: a new id gets
     * its friendly name, type and decoder; the id joins the available list
     * unless it is on it already; the entry takes the sensor.
     */
    method Enter(s: Sensor)
      requires Valid()
      modifies this`properties, this`available
      ensures Valid()
      ensures properties == old(properties)[s.id := StoredEntry(old(properties), s)]
      ensures available == (if s.id in old(available) then old(available) else old(available) + [s.id])
    {
      var id := s.id;
      if id !in properties {
        RecordNew(s);
      }
      var listed := IsAvailable(id);
      if !listed {
        available := available + [id];
      }
      properties := properties[id := Entry(properties, id).(sensor := Some(s))];
      assert properties[id].processor == ProcessorFor(properties[id].kind);
    }

    /**
     * The entry of an id new to the map: its friendly name, if it reads as
     * a string, then its type and decoder. With neither to record, no
     * entry is made yet.
     */
    method RecordNew(s: Sensor)
      requires s.id !in properties
      modifies this`properties
      ensures properties == old(properties)[s.id := FreshEntry(s)]
        || (properties == old(properties) && FreshEntry(s) == DEFAULT_PROPS)
    {
      var id := s.id;
      if s.friendlyName.Some? {
        properties := properties[id := Entry(properties, id).(name := s.friendlyName)];
      }
      if s.typeId == SENSOR_TYPE_INCLINOMETER_3D {
        properties := properties[id := Entry(properties, id).(kind := SensorInclinometer3D, processor := InclinometerProcessor)];
      } else if s.typeId == SENSOR_TYPE_AGGREGATED_DEVICE_ORIENTATION {
        properties := properties[id := Entry(properties, id).(kind := SensorOrientation, processor := OrientationProcessor)];
      }
    }

    /**
     * `AddSensor`. A sensor whose type or id cannot be read is not
     * registered (with no id, the ACTIVE status goes to the global one);
     * one that is not admissible is refused with E_FAIL and changes
     * nothing; an admitted one is entered or updated, appended to the
     * available list if new to it, and the code of `SetEventInterest` is
     * returned.
     */
    method AddSensor(sensor: Option<Sensor>) returns (hr: HResult)
      requires Valid()
      modifies this`statusGlobal, this`properties, this`available
      ensures Valid()
      ensures sensor.None? ==> hr == E_POINTER && unchanged(this)
      ensures sensor.Some? && Failed(sensor.value.typeHr) ==> hr == sensor.value.typeHr && unchanged(this)
      ensures sensor.Some? && !Failed(sensor.value.typeHr) && Failed(sensor.value.idHr) ==>
        hr == sensor.value.idHr && statusGlobal == Active
        && properties == old(properties) && available == old(available)
      ensures (sensor.Some? && !Failed(sensor.value.typeHr) && !Failed(sensor.value.idHr)
        && !Admissible(old(requested), sensor.value)) ==> hr == E_FAIL && unchanged(this)
      ensures (sensor.Some? && !Failed(sensor.value.typeHr) && !Failed(sensor.value.idHr)
        && Admissible(old(requested), sensor.value)) ==>
        var s := sensor.value;
        hr == s.eventInterestHr
        && properties == old(properties)[s.id := AdmittedEntry(old(properties), s)]
        && available == (if s.id in old(available) then old(available) else old(available) + [s.id])
        && statusGlobal == (if s.id == GUID_NULL then Active else old(statusGlobal))
    {
      if sensor.None? {
        return E_POINTER;
      }
      var s := sensor.value;
      hr := s.typeHr;
      if Failed(hr) {
        return;
      }
      hr := AddTyped(s);
    }

    /** `AddSensor` once the sensor's type has been read: the id read, the filters, and the bookkeeping. */
    method AddTyped(s: Sensor) returns (hr: HResult)
      requires Valid()
      modifies this`statusGlobal, this`properties, this`available
      ensures Valid()
      ensures Failed(s.idHr) ==>
        hr == s.idHr && statusGlobal == Active && properties == old(properties) && available == old(available)
      ensures !Failed(s.idHr) && !Admissible(old(requested), s) ==> hr == E_FAIL && unchanged(this)
      ensures !Failed(s.idHr) && Admissible(old(requested), s) ==>
        hr == s.eventInterestHr
        && properties == old(properties)[s.id := AdmittedEntry(old(properties), s)]
        && available == (if s.id in old(available) then old(available) else old(available) + [s.id])
        && statusGlobal == (if s.id == GUID_NULL then Active else old(statusGlobal))
    {
      hr := s.idHr;
      if Failed(hr) {
        Setstatus(GUID_NULL, Active);
        return;
      }
      var admitted := Admits(s);
      if !admitted {
        return E_FAIL;
      }
      hr := Admit(s);
    }

    /** The bookkeeping for an admitted sensor: its entry, its place on the available list, and ACTIVE. */
    method Admit(s: Sensor) returns (hr: HResult)
      requires Valid()
      modifies this`statusGlobal, this`properties, this`available
      ensures Valid() && hr == s.eventInterestHr
      ensures properties == old(properties)[s.id := AdmittedEntry(old(properties), s)]
      ensures available == (if s.id in old(available) then old(available) else old(available) + [s.id])
      ensures statusGlobal == (if s.id == GUID_NULL then Active else old(statusGlobal))
    {
      Enter(s);
      ghost var entered := properties;
      StoredThenActive(old(properties), s, entered);
      hr := s.eventInterestHr;
      Setstatus(s.id, Active);
      if s.id != GUID_NULL {
        RestatusKeepsRegistry(entered, available, s.id, Active);
      }
    }

    /**
     * `RemoveSensor(REFSENSOR_ID)`: the entry is kept, marked LOST (the
     * global status instead, for GUID_NULL) and loses its sensor; the
     * available list is untouched. On an empty map nothing happens.
     */
    method RemoveSensor(id: Guid) returns (hr: HResult)
      requires Valid()
      requires properties != map[] ==> id in properties
      modifies this`statusGlobal, this`properties
      ensures Valid() && hr == S_OK
      ensures old(properties) == map[] ==> unchanged(this)
      ensures old(properties) != map[] ==>
        properties == old(properties)[id := old(properties)[id].(
          sensor := None, status := if id == GUID_NULL then old(properties)[id].status else Lost)]
        && statusGlobal == (if id == GUID_NULL then Lost else old(statusGlobal))
    {
      hr := S_OK;
      if properties != map[] {
        Setstatus(id, Lost);
        if properties[id].sensor.Some? {
          properties := properties[id := properties[id].(sensor := None)];
        }
      }
    }

    /** `m_Properties.begin()`: the entry with the least key. */
    method Begin() returns (k: Guid)
      requires properties != map[]
      ensures k in properties && forall j :: j in properties && j != k ==> Less(k, j)
      ensures k == First(properties.Keys)
    {
      FirstExists(properties.Keys);
      k :| k in properties.Keys && IsFirst(k, properties.Keys);
      FirstUnique(k, First(properties.Keys), properties.Keys);
    }

    /** The entry the three lookups read: the first one for GUID_NULL, otherwise the one found by id. */
    method Lookup(id: Guid) returns (p: Props)
      requires properties != map[]
      requires id != GUID_NULL ==> id in properties
      ensures id == GUID_NULL ==> p == properties[First(properties.Keys)]
      ensures id != GUID_NULL ==> p == properties[id]
    {
      var k := id;
      if id == GUID_NULL {
        k := Begin();
      }
      p := properties[k];
    }

    /** `GetStatus`: the global status while the map is empty, else the looked-up entry's status. */
    method GetStatus(id: Guid) returns (st: Status)
      requires properties != map[] && id != GUID_NULL ==> id in properties
      ensures properties == map[] ==> st == statusGlobal
      ensures properties != map[] && id == GUID_NULL ==> st == properties[First(properties.Keys)].status
      ensures properties != map[] && id != GUID_NULL ==> st == properties[id].status
    {
      if properties != map[] {
        var p := Lookup(id);
        st := p.status;
      } else {
        st := statusGlobal;
      }
    }

    /** `GetDeviceName`: "No Device Found" while the map is empty, else the looked-up entry's name (None for null). */
    method GetDeviceName(id: Guid) returns (name: Option<string>)
      requires properties != map[] && id != GUID_NULL ==> id in properties
      ensures properties == map[] ==> name == Some(NO_DEVICE)
      ensures properties != map[] && id == GUID_NULL ==> name == properties[First(properties.Keys)].name
      ensures properties != map[] && id != GUID_NULL ==> name == properties[id].name
    {
      if properties != map[] {
        var p := Lookup(id);
        name := p.name;
      } else {
        name := Some(NO_DEVICE);
      }
    }

    /** `GetDeviceType`: SENSOR_NONE while the map is empty, else the looked-up entry's type. */
    method GetDeviceType(id: Guid) returns (kind: SensorType)
      requires properties != map[] && id != GUID_NULL ==> id in properties
      ensures properties == map[] ==> kind == SensorNone
      ensures properties != map[] && id == GUID_NULL ==> kind == properties[First(properties.Keys)].kind
      ensures properties != map[] && id != GUID_NULL ==> kind == properties[id].kind
    {
      if properties != map[] {
        var p := Lookup(id);
        kind := p.kind;
      } else {
        kind := SensorNone;
      }
    }

    /** `GetNumSensors`: the map's size for SENSOR_NONE, else the number of entries of that type. */
    method GetNumSensors(t: SensorType) returns (n: int)
      ensures t == SensorNone ==> n == |properties|
      ensures t != SensorNone ==> n == |OfKind(properties, t)|
    {
      if t == SensorNone {
        return |properties|;
      }
      n := 0;
      var rest := properties.Keys;
      while rest != {}
        invariant rest <= properties.Keys
        invariant n == |OfKind(properties, t) - rest|
        decreases |rest|
      {
        var k :| k in rest;
        UncountedStep(OfKind(properties, t), rest, k);
        if properties[k].kind == t {
          n := n + 1;
        }
        rest := rest - {k};
      }
      assert OfKind(properties, t) - rest == OfKind(properties, t);
    }

    /**
     * `GetSensor(num, t)`: the id at 0-based position `num` among the
     * available ids, in list order, whose type is `t` (any type for
     * SENSOR_NONE); GUID_NULL when nothing is available.
     */
    method GetSensor(num: int, t: SensorType) returns (id: Guid)
      requires forall i :: 0 <= i < |available| ==> available[i] in properties
      requires available != [] ==> 0 <= num < |Matching(available, properties, t)|
      ensures available == [] ==> id == GUID_NULL
      ensures available != [] ==> id == Matching(available, properties, t)[num]
    {
      id := GUID_NULL;
      if available != [] {
        var found := false;
        var n := num;
        var i := 0;
        while i < |available| && !found
          invariant 0 <= i <= |available|
          invariant !found ==> n == num - |Matching(available[..i], properties, t)|
          invariant !found ==> |Matching(available[..i], properties, t)| <= num
          invariant found ==>
            num < |Matching(available[..i], properties, t)| && id == Matching(available[..i], properties, t)[num]
        {
          var x := available[i];
          MatchingStep(available, i, properties, t);
          if Entry(properties, x).kind == t || t == SensorNone {
            if n == 0 {
              id := x;
              found := true;
            }
            n := n - 1;
          }
          i := i + 1;
        }
        assert available[..|available|] == available;
        MatchingPrefixAt(available, i, properties, t, num);
      }
    }

    /**
     * `GetData`, with the untyped output pointer split into the two
     * structures a decoder can fill. An unknown id gives
     * HRESULT_FROM_WIN32(ERROR_NOT_FOUND) and writes nothing. Otherwise the
     * entry's sensor is read: with no sensor (E_FAIL) or a failed read
     * (its code) the decoder writes its defaults; after a good read
     * (S_OK) the decoder decodes the report, and its own result is
     * dropped. Only the structure of the entry's decoder is written.
     */
    method GetData(id: Guid, incl: InclinometerData, orient: OrientationData) returns (hr: HResult)
      requires Valid() && orient.Valid()
      requires id in properties ==> properties[id].processor != NoProcessor
      requires id in properties && properties[id].processor == OrientationProcessor
        && properties[id].sensor.Some? && properties[id].sensor.value.data.Value?
        ==> OrientationDevice.FitsMatrix(properties[id].sensor.value.data.value)
      modifies incl, orient, orient.matrix
      ensures id !in properties ==>
        hr == E_NOT_FOUND && incl.Value() == old(incl.Value()) && orient.Value() == old(orient.Value())
      ensures id in properties && properties[id].sensor.None? ==> hr == E_FAIL
      ensures id in properties && properties[id].sensor.Some? ==> hr == ReadCode(properties[id].sensor.value.data)
      ensures id in properties && properties[id].processor == InclinometerProcessor ==>
        orient.Value() == old(orient.Value())
        && var p := properties[id];
        incl.Value() == (
          if p.sensor.None? || p.sensor.value.data.ReadFailed? then Inclinometer.Defaulted(old(incl.Value()))
          else if Failed(p.sensor.value.idHr) then old(incl.Value())
          else Inclinometer.Decoded(old(incl.Value()), p.sensor.value.data.value))
      ensures id in properties && properties[id].processor == OrientationProcessor ==>
        incl.Value() == old(incl.Value())
        && var p := properties[id];
        orient.Value() == (
          if p.sensor.None? || p.sensor.value.data.ReadFailed? then Sensors.Orientation(OrientationDevice.EncodeFloats(OrientationDevice.IDENTITY), old(orient.time))
          else if Failed(p.sensor.value.idHr) then old(orient.Value())
          else OrientationDevice.Decoded(old(orient.Value()), p.sensor.value.data.value))
    {
      if id !in properties {
        return E_NOT_FOUND;
      }
      var p := properties[id];
      hr := E_FAIL;
      if p.sensor.Some? {
        hr := ReadCode(p.sensor.value.data);
      }
      if Failed(hr) {
        if p.processor == InclinometerProcessor {
          var _ := Inclinometer.SetDefaultData(incl);
        } else {
          var _ := OrientationDevice.SetDefaultData(orient);
        }
      } else {
        var report := p.sensor.value.data.value;
        if p.processor == InclinometerProcessor {
          var _ := Inclinometer.OnDataUpdated(p.sensor, Some(report), incl);
        } else {
          var _ := OrientationDevice.OnDataUpdated(p.sensor, Some(report), orient);
        }
      }
    }
  }

  /**
   * With the registry valid, the positions `GetSensor` accepts for a type
   * are exactly those below `GetNumSensors` of that type: the count of
   * matching entries equals the number of matching available ids.
   */
  lemma MatchingCountsKind(r: SensorManagerEvents, t: SensorType)
    requires r.Valid()
    ensures t == SensorNone ==> |Matching(r.available, r.properties, t)| == |r.properties|
    ensures t != SensorNone ==> |Matching(r.available, r.properties, t)| == |OfKind(r.properties, t)|
  {
    var m := Matching(r.available, r.properties, t);
    MatchingMembers(r.available, r.properties, t);
    MatchingDistinct(r.available, r.properties, t);
    DistinctCard(m);
    if t == SensorNone {
      assert (set x | x in m) == r.properties.Keys;
    } else {
      assert (set x | x in m) == OfKind(r.properties, t);
    }
  }
}
