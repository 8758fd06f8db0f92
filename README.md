# Windows Desktop Sensors: a verified model of the sensor registry and the material binder

This project models the core of the Windows Desktop Sensors sample in Dafny and proves its behaviour:

- **Sensor registry** (`CSensorManagerEvents`): a map from sensor ids to their properties, plus the list of available ids and the list of requested sensor types.
- **Decoders**: the inclinometer and orientation decoders (`CInclinometer`, `COrientationDevice`).
- **GUID order**: the `operator<` that orders the map's GUID keys.
- **Material binder**: the part of `CPUTMaterialDX11` that reads each shader stage's bind descriptors into parameter lists, fills the stage's bind slots from the material's configuration, clones parameter lists and releases the slots.
- **The application**: the small rules of `WindowsSensors.cpp`, namely the asset-path stripping, the F1/Escape keys, and the sensor zero.

Modules:

- `Guids`: a GUID as its 16 bytes in memory order, the `memcmp` order on them, and the DEFINE_GUID layout.
- `Sensors`: HRESULT codes, an `ISensor` and a data report as values, and the `InclinometerData` / `OrientationData` structures (classes whose fields the decoders overwrite).
- `Inclinometer`, `OrientationDevice`: `ValidateOutput`, `OnDataUpdated` and `SetDefaultData`. Each decoder is specified by a pure decode function, and a round-trip lemma is proved about it.
- `SensorManager`: the class `SensorManagerEvents`. Its fields are the global status, the property map, the available list and the requested list. It keeps a registry invariant: the available ids are distinct and are exactly the map's keys, and every entry's decoder matches its type.
- `Material`: the classes `ShaderParameters` and `MaterialDX11`. Their arrays are updated in place, and each operation is proved against a specification function on sequences (`Selected`, `Tally`, `AcquiredAll`, `Filled`, `Cleared`, `ReleasedViews`).
- `WindowsSensorsApp`: the path stripping, the keyboard handler, and the capture and reset of the sensor zero.

Undefined behaviour in the source becomes a precondition: a dereference of `end()`, an unsigned loop that runs off the front of a string, a failed debug `ASSERT`. Outside calls become parameters or recorded answers: the Sensor API, Direct3D reflection, the asset library, the GUI and the camera controller.

## Model

| member | source | states |
|---|---|---|
| Guids.Le16 | SensorManager/MyGuids.h:6 | the two bytes are the little-endian digits of the 16-bit value |
| Guids.Le32 | SensorManager/MyGuids.h:6 | the four bytes are the little-endian digits of the 32-bit value |
| Guids.DefineGuid | SensorManager/MyGuids.h:6 | a DEFINE_GUID image is Data1 and Data2/Data3 little-endian followed by the eight Data4 bytes |
| Guids.SensorTypesAsDefined | SensorManager/MyGuids.h:6 | the orientation type GUID's bytes are DEFINE_GUID's layout of its declared fields (likewise the inclinometer type), and the two types differ |
| Guids.LexLess | SensorManager/BaseSensorEvents.h:46-49 | definition: the byte-wise lexicographic order of equal-length byte strings, which `memcmp(...) < 0` computes |
| Guids.Less | SensorManager/BaseSensorEvents.h:46-49 | definition: the GUID `operator<`, LexLess on the 16 bytes in memory order |
| Guids.LexLessIsFirstDifference | SensorManager/BaseSensorEvents.h:46-49 | the recursive lexicographic order holds exactly when the first differing byte is smaller in the left operand, which is what memcmp < 0 means |
| Guids.LexLessIrreflexive | SensorManager/BaseSensorEvents.h:46-49 | no byte string is less than itself |
| Guids.LexLessAsymmetric | SensorManager/BaseSensorEvents.h:46-49 | a < b excludes b < a |
| Guids.LexLessTransitive | SensorManager/BaseSensorEvents.h:46-49 | a < b and b < c give a < c |
| Guids.LexLessTotal | SensorManager/BaseSensorEvents.h:46-49 | two different strings of equal length are ordered one way or the other |
| Guids.ZerosLexLeast | SensorManager/BaseSensorEvents.h:46-49 | the all-zero string is below every other string of its length |
| Guids.GuidOrderIsStrictTotal | SensorManager/BaseSensorEvents.h:46-49 | the GUID operator< is irreflexive, asymmetric, transitive and total on distinct GUIDs, as std::map needs of its key order |
| Guids.NullIsLeast | SensorManager/BaseSensorEvents.h:46-49 | GUID_NULL is below every other GUID |
| Guids.FirstExists | SensorManager/SensorManagerEvents.cpp:668 | a non-empty key set has a key below all the others (the one begin() points at) |
| Guids.FirstUnique | SensorManager/SensorManagerEvents.cpp:668 | that least key is unique |
| Guids.First | SensorManager/SensorManagerEvents.cpp:668 | the chosen key is in the set and below every other key |
| Sensors.FlagAfter | SensorManager/CInclinometer.cpp:26-33 | a failed SupportsDataField leaves the out flag as it was; a successful one stores the answer |
| Sensors.ReadCode | SensorManager/SensorManagerEvents.cpp:970-975 | a read's code fails exactly when the read failed, and is S_OK when it yielded a value |
| Sensors.FileTimeToInt64 | SensorManager/CInclinometer.cpp:134 | the stored time is high * 2^32 + low, reinterpreted as a signed 64-bit value |
| Sensors.Unsigned64 | SensorManager/CInclinometer.cpp:134 | the unsigned reading of a signed 64-bit value agrees with it modulo 2^64 and is below 2^64 |
| Sensors.SplitTime | SensorManager/COrientationDevice.cpp:111 | definition: the low and high 32-bit words of a signed 64-bit time, as a FILETIME |
| Sensors.FileTimeRoundTrip | SensorManager/CInclinometer.cpp:134 | splitting the stored time gives back both FILETIME words |
| Sensors.SplitTimeRoundTrip | SensorManager/COrientationDevice.cpp:111 | every signed 64-bit time is the stored form of the words it splits into |
| Sensors.FileTimeInjective | SensorManager/COrientationDevice.cpp:111 | distinct FILETIMEs are stored as distinct times |
| Sensors.FieldAfter | SensorManager/CInclinometer.cpp:107-128 | definition: a field is overwritten by a successful GetSensorValue read and kept after a failed one |
| Sensors.TimeAfter | SensorManager/CInclinometer.cpp:131-135 | a failed timestamp read keeps the time; a successful one stores a time that splits back into the FILETIME read |
| Sensors.InclinometerData.Zeroed | WindowsSensors.cpp:563 | `InclinometerData sensorData = {0}` is all zero |
| Sensors.OrientationData.Zeroed | SensorManager/BaseSensor.h:16-20 | a zero-filled orientation structure with its 36 matrix bytes |
| Inclinometer.ValidateOutput | SensorManager/CInclinometer.cpp:21-71 | accepted (S_OK) exactly when TILT_X, Y, Z and TIMESTAMP are supported and the last query returned S_OK. An unsupported or unanswered TILT_X gives E_FAIL, because its code is never checked. The first failing later query gives its own code, and an answered "not supported" for TILT_Y, TILT_Z or TIMESTAMP gives E_FAIL |
| Inclinometer.Decoded | SensorManager/CInclinometer.cpp:107-135 | definition: the tilts and time after a report is decoded, field by field; its properties are DecodeRoundTrip and DecodeKeepsUnread |
| Inclinometer.Defaulted | SensorManager/CInclinometer.cpp:166-168 | definition: every tilt -1 and the time kept; used by SetDefaultData |
| Inclinometer.DecodeRoundTrip | SensorManager/CInclinometer.cpp:91-145 | decoding the report built from any tilt value gives back that value |
| Inclinometer.DecodeKeepsUnread | SensorManager/CInclinometer.cpp:107-135 | a field whose read fails keeps its old value, and decoding the same report twice changes nothing more |
| Inclinometer.OnDataUpdated | SensorManager/CInclinometer.cpp:91-145 | a null sensor or report gives E_INVALIDARG and writes nothing. A failed GetID returns its code and writes nothing. Otherwise the structure becomes the decode of the report, and the code is the timestamp read's |
| Inclinometer.SetDefaultData | SensorManager/CInclinometer.cpp:161-171 | S_OK; the three tilts become -1 and the time is kept |
| OrientationDevice.ValidateOutput | SensorManager/COrientationDevice.cpp:35-59 | S_OK exactly when the rotation matrix is supported and the TIMESTAMP query returns S_OK. A failing matrix query gives its code and an unsupported matrix gives E_FAIL. After that, the TIMESTAMP query's code is returned |
| OrientationDevice.TimestampSupportNotRequired | SensorManager/COrientationDevice.cpp:52-58 | the TIMESTAMP support flag never changes the verdict, only its query's code does |
| OrientationDevice.MatrixAfter | SensorManager/COrientationDevice.cpp:97-106 | definition: the 36 matrix bytes after a rotation-matrix read; its property is DecodeOverwritesPrefix |
| OrientationDevice.Decoded | SensorManager/COrientationDevice.cpp:97-112 | definition: the matrix and time after a report is decoded; its property is DecodeRoundTrip |
| OrientationDevice.DecodeOverwritesPrefix | SensorManager/COrientationDevice.cpp:97-106 | a byte-vector matrix overwrites exactly its own length of the 36 matrix bytes and keeps the rest; any other variant keeps the matrix |
| OrientationDevice.DecodeRoundTrip | SensorManager/COrientationDevice.cpp:80-124 | decoding the report built from any orientation value gives back that value |
| OrientationDevice.EncodeFloats | SensorManager/COrientationDevice.cpp:145-157 | nine 32-bit float patterns take four bytes each |
| OrientationDevice.EncodeFloatsAppend | SensorManager/COrientationDevice.cpp:145-157 | encoding one more float appends its four little-endian bytes |
| OrientationDevice.EncodeFloatsAt | SensorManager/COrientationDevice.cpp:145-157 | the float read back at position k of an encoding is the k-th float encoded |
| OrientationDevice.DefaultMatrixIsIdentity | SensorManager/COrientationDevice.cpp:145-157 | the default matrix holds 1.0 at elements 0, 4 and 8 and 0.0 elsewhere: the identity |
| OrientationDevice.OnDataUpdated | SensorManager/COrientationDevice.cpp:80-124 | a null sensor or report gives E_INVALIDARG and writes nothing. A failed GetID returns its code and writes nothing. Otherwise the matrix and the time become the decode of the report |
| OrientationDevice.IdentityPrefix | SensorManager/COrientationDevice.cpp:145-157 | the encoding of the first k + 1 identity floats extends that of the first k by float k |
| OrientationDevice.StoreFloat | SensorManager/COrientationDevice.cpp:145-157 | one element write extends the identity prefix in the matrix bytes by one float |
| OrientationDevice.SetDefaultData | SensorManager/COrientationDevice.cpp:140-160 | S_OK; the matrix becomes the identity and the time is kept |
| SensorManager.Entry | SensorManager/SensorManagerEvents.cpp:529-534 | definition: the entry `m_Properties[id]` reads, a value-initialised one for an absent id |
| SensorManager.KindOf | SensorManager/SensorManagerEvents.cpp:441-450 | definition: SENSOR_INCLINOMETER_3D and SENSOR_ORIENTATION for their type GUIDs, SENSOR_NONE otherwise |
| SensorManager.ProcessorFor | SensorManager/SensorManagerEvents.cpp:441-450 | definition: the decoder recorded beside each SENSORTYPE; the registry invariant keeps every entry's decoder equal to it |
| SensorManager.Validates | SensorManager/SensorManagerEvents.cpp:427-436 | definition: the ValidateOutput of the decoder for the sensor's type must give S_OK; other types pass |
| SensorManager.Admissible | SensorManager/SensorManagerEvents.cpp:406-436 | definition: a requested type, access not denied, and the fields validated; Admits returns exactly this |
| SensorManager.StoredEntry | SensorManager/SensorManagerEvents.cpp:439-481 | definition: the existing entry, or a fresh one with name, type and decoder, holding the sensor; used by StoredThenActive and Admit |
| SensorManager.Matching | SensorManager/SensorManagerEvents.cpp:925-937 | the ids GetSensor walks through, in list order: those whose entry has the asked type, or all for SENSOR_NONE |
| SensorManager.MatchingMembers | SensorManager/SensorManagerEvents.cpp:925-937 | an id is matched exactly when it is in the list and selected by the type |
| SensorManager.MatchingDistinct | SensorManager/SensorManagerEvents.cpp:925-937 | a list without duplicates gives matches without duplicates |
| SensorManager.MatchingNoneIsAll | SensorManager/SensorManagerEvents.cpp:927 | for SENSOR_NONE every id matches |
| SensorManager.MatchingPrefix | SensorManager/SensorManagerEvents.cpp:925-937 | the matches of a prefix are a prefix of the matches of the whole list |
| SensorManager.MatchingPrefixAt | SensorManager/SensorManagerEvents.cpp:925-937 | a match inside the prefix is the same match in the whole list |
| SensorManager.MatchingStep | SensorManager/SensorManagerEvents.cpp:925-937 | one more id adds itself to the matches exactly when it is selected |
| SensorManager.DistinctCard | SensorManager/SensorManagerEvents.cpp:455-463 | a list without duplicates is as long as the set of its elements |
| SensorManager.NullKeyIsFirst | SensorManager/SensorManagerEvents.cpp:666-668 | when GUID_NULL is a key, begin() lands on GUID_NULL's own entry |
| SensorManager.RestatusKeepsRegistry | SensorManager/SensorManagerEvents.cpp:632-642 | rewriting the status of a registered id keeps the registry invariant |
| SensorManager.StoredThenActive | SensorManager/SensorManagerEvents.cpp:481-484 | storing the sensor and then setting ACTIVE yields the admitted entry (for GUID_NULL the status write goes to the global status instead) |
| SensorManager.UncountedStep | SensorManager/SensorManagerEvents.cpp:889-894 | scanning one more key adds one to the count exactly when the key has the type |
| SensorManager.SensorManagerEvents.constructor | SensorManager/SensorManagerEvents.cpp:19-30 | global status NOTFOUND; empty map and empty lists; the invariant holds |
| SensorManager.SensorManagerEvents.Setstatus | SensorManager/SensorManagerEvents.cpp:632-642 | GUID_NULL writes the global status. Any other id writes its entry's status, creating a default entry when absent; nothing else changes |
| SensorManager.SensorManagerEvents.AddRequestedSensor | SensorManager/SensorManagerEvents.cpp:699-702 | the type is appended to the requested list; the invariant holds |
| SensorManager.SensorManagerEvents.IsRequested | SensorManager/SensorManagerEvents.cpp:408-417 | found exactly when the type is in the requested list |
| SensorManager.SensorManagerEvents.IsAvailable | SensorManager/SensorManagerEvents.cpp:455-464 | found exactly when the id is in the available list |
| SensorManager.SensorManagerEvents.Admits | SensorManager/SensorManagerEvents.cpp:406-436 | the result equals the admission predicate: the type is requested, access is not denied, and the type's decoder validates the output |
| SensorManager.SensorManagerEvents.Enter | SensorManager/SensorManagerEvents.cpp:439-481 | the id's entry stores the sensor. A new id first gets its name, type and decoder. The id is appended to the available list unless already on it, and the invariant holds |
| SensorManager.SensorManagerEvents.RecordNew | SensorManager/SensorManagerEvents.cpp:439-451 | a new id gets the entry built from its friendly name and type, or none when there is nothing to record |
| SensorManager.SensorManagerEvents.AddSensor | SensorManager/SensorManagerEvents.cpp:384-495 | null gives E_POINTER and a failed GetType gives its code, both changing nothing. A failed GetID returns its code and sets the global status ACTIVE. A refused sensor gives E_FAIL and changes nothing. An admitted sensor gets its entry and its place on the available list, becomes ACTIVE, and the SetEventInterest code is returned. The invariant is preserved |
| SensorManager.SensorManagerEvents.AddTyped | SensorManager/SensorManagerEvents.cpp:401-485 | the AddSensor cases once the type has been read |
| SensorManager.SensorManagerEvents.Admit | SensorManager/SensorManagerEvents.cpp:439-484 | the admitted case of AddSensor: entry, available list, status and return code |
| SensorManager.SensorManagerEvents.RemoveSensor | SensorManager/SensorManagerEvents.cpp:719-740 | S_OK. On an empty map nothing changes. Otherwise the entry is kept, marked LOST (the global status instead, for GUID_NULL), and loses its sensor; the invariant holds |
| SensorManager.SensorManagerEvents.Begin | SensorManager/SensorManagerEvents.cpp:668 | begin() yields the least key of the non-empty map |
| SensorManager.SensorManagerEvents.Lookup | SensorManager/SensorManagerEvents.cpp:664-675 | GUID_NULL reads the first entry, any other id its own entry |
| SensorManager.SensorManagerEvents.GetStatus | SensorManager/SensorManagerEvents.cpp:658-683 | the global status while the map is empty; otherwise the status of the first entry (GUID_NULL) or of the id's entry |
| SensorManager.SensorManagerEvents.GetDeviceName | SensorManager/SensorManagerEvents.cpp:794-820 | "No Device Found" while the map is empty; otherwise the name of the first entry (GUID_NULL) or of the id's entry |
| SensorManager.SensorManagerEvents.GetDeviceType | SensorManager/SensorManagerEvents.cpp:837-862 | SENSOR_NONE while the map is empty; otherwise the type of the first entry (GUID_NULL) or of the id's entry |
| SensorManager.SensorManagerEvents.GetNumSensors | SensorManager/SensorManagerEvents.cpp:878-898 | the map's size for SENSOR_NONE, otherwise the number of entries of that type |
| SensorManager.SensorManagerEvents.GetSensor | SensorManager/SensorManagerEvents.cpp:914-944 | GUID_NULL when nothing is available; otherwise the num-th (0-based) available id of the asked type, in list order |
| SensorManager.SensorManagerEvents.GetData | SensorManager/SensorManagerEvents.cpp:960-992 | an unknown id gives HRESULT_FROM_WIN32(ERROR_NOT_FOUND) and writes nothing. A missing sensor (E_FAIL) or a failed read (its code) makes the entry's decoder write its defaults. A good read decodes the report. Only the structure of the entry's decoder changes |
| SensorManager.MatchingCountsKind | SensorManager/SensorManagerEvents.cpp:878-944 | under the invariant, the positions GetSensor accepts for a type are exactly those below GetNumSensors of that type |
| Material.CategoryOf | CPUT/CPUT/CPUTMaterialDX11.cpp:166-192 | definition: the category the switch gives each shader input type (samplers, textures, buffers, UAVs, constant buffers), none for the rest; its properties are SelectedMembers and SelectedPartition |
| Material.Selected | CPUT/CPUT/CPUTMaterialDX11.cpp:216-254 | the descriptors of one category in reflection order, no more than the input |
| Material.SelectedStep | CPUT/CPUT/CPUTMaterialDX11.cpp:218-252 | one more descriptor joins its own category's list and no other |
| Material.SelectedSteps | CPUT/CPUT/CPUTMaterialDX11.cpp:218-252 | the same, for all five categories at once |
| Material.SelectedMembers | CPUT/CPUT/CPUTMaterialDX11.cpp:166-192 | a descriptor is selected for a category exactly when it is in the input and the switch maps its type to that category |
| Material.SelectedPartition | CPUT/CPUT/CPUTMaterialDX11.cpp:166-192 | the five counts add up to the number of descriptors the switch classifies |
| Material.Unclassified | CPUT/CPUT/CPUTMaterialDX11.cpp:166-192 | the descriptors no case of the switch takes |
| Material.SelectedPrefixLength | CPUT/CPUT/CPUTMaterialDX11.cpp:196-254 | the second pass never selects more descriptors of a category than the first pass counted |
| Material.Resolve | CPUT/CPUT/CPUTMaterialDX11.cpp:267-273 | definition: the tag looked up in the material's own block, then the global block; its property is ResolveLocalFirst |
| Material.ResolveLocalFirst | CPUT/CPUT/CPUTMaterialDX11.cpp:267-273 | a tag is found exactly when one of the two blocks holds it; the material's own block shadows the global one |
| Material.Decorate | CPUT/CPUT/CPUTMaterialDX11.cpp:281-289 | a leading '@' appends the model and mesh suffixes and a leading '#' the model suffix; any other name, the empty one included, is kept |
| Material.DecorateAgain | CPUT/CPUT/CPUTMaterialDX11.cpp:281-289 | decoration keeps the first character, so a second decoration appends the same suffix again (decoration is not idempotent) |
| Material.SrgbFlag | CPUT/CPUT/CPUTMaterialDX11.cpp:292-294 | definition: the `tag + "sRGB"` value of the local block, true when absent; used by RequestFor |
| Material.RequestFor | CPUT/CPUT/CPUTMaterialDX11.cpp:264-298 | the request has the pass's category and names the resolved value, with an empty texture value replaced by "default.dds", then decorated; for textures the sRGB flag is taken from `tag + "sRGB"` in the local block (true when absent) |
| Material.RequestedName | CPUT/CPUT/CPUTMaterialDX11.cpp:274-289 | an empty texture value asks for "default.dds" undecorated, an empty value of the other passes asks for "", and any other value is the prefix of the name asked for |
| Material.Requests | CPUT/CPUT/CPUTMaterialDX11.cpp:262-300 | one request per parameter, in list order |
| Material.Acquire | CPUT/CPUT/CPUTMaterialDX11.cpp:296-300 | definition: a loaded resource is kept, an empty slot takes the library's asset for the request; its properties are AcquiredAll and BoundResources |
| Material.AcquiredAll | CPUT/CPUT/CPUTMaterialDX11.cpp:296-300 | each parameter's resource slot is kept when loaded and fetched from the library otherwise; later slots are untouched |
| Material.AcquiredStep | CPUT/CPUT/CPUTMaterialDX11.cpp:296-300 | binding one more parameter loads its own slot only |
| Material.ViewOf | CPUT/CPUT/CPUTMaterialDX11.cpp:305 | definition: the view a pass writes into a bind slot: the SRV for textures and buffers (also line 348), the UAV for UAVs (line 394), the native buffer for constant buffers (line 437) |
| Material.Views | CPUT/CPUT/CPUTMaterialDX11.cpp:305 | each loaded resource yields the view its pass uses: the SRV for textures and buffers, the UAV for UAVs, the native buffer for constant buffers |
| Material.Filled | CPUT/CPUT/CPUTMaterialDX11.cpp:305 | the slot writes at the parameters' bind points, in parameter order; the slot count is unchanged |
| Material.LastIndex | CPUT/CPUT/CPUTMaterialDX11.cpp:305 | the last parameter position whose bind point is the given slot |
| Material.FilledSlot | CPUT/CPUT/CPUTMaterialDX11.cpp:305 | a slot named by some bind point ends up with the view of the last parameter bound there; any other slot keeps its content |
| Material.FilledStep | CPUT/CPUT/CPUTMaterialDX11.cpp:305 | one more write extends the sequence of writes |
| Material.FilledViewsStep | CPUT/CPUT/CPUTMaterialDX11.cpp:305 | one more bind writes resource i's view at bind point i |
| Material.BindEntry | CPUT/CPUT/CPUTMaterialDX11.cpp:264-306 | the bind of parameter i: its resource slot becomes the acquired resource and its bind-point slot that resource's view |
| Material.BindList | CPUT/CPUT/CPUTMaterialDX11.cpp:262-307 | the resource slots and bind slots after a pass are exactly AcquiredAll and Filled of the parameter list |
| Material.BoundResources | CPUT/CPUT/CPUTMaterialDX11.cpp:296-300 | after a pass every parameter's resource is loaded. An already loaded one is kept, an empty one holds the library's asset for the request, and slots past the list are untouched |
| Material.BoundSlot | CPUT/CPUT/CPUTMaterialDX11.cpp:305 | after a pass a bound slot holds the view of the last parameter bound there, and an unbound slot is unchanged |
| Material.Cleared | CPUT/CPUT/CPUTMaterialDX11.cpp:632-642 | definition: the slots below the limit nulled and the rest kept; the content is in ReleasedSlot and BindUAVs |
| Material.Srvs | CPUT/CPUT/CPUTMaterialDX11.cpp:646 | definition: each constant buffer's shader resource view; used by ReleasedViews |
| Material.Loaded | CPUT/CPUT/CPUTMaterialDX11.cpp:646 | definition: the resources of slots that are all loaded; used by ReleasedViews |
| Material.ReleasedViews | CPUT/CPUT/CPUTMaterialDX11.cpp:632-647 | the view slots after a release: cleared below the limit, then each constant buffer's SRV written at its bind point |
| Material.ReleasedSlot | CPUT/CPUT/CPUTMaterialDX11.cpp:632-647 | after a release, a view slot below the limit is null unless a constant buffer is bound there, where it holds the last such buffer's SRV; slots above the limit keep their content |
| Material.ShaderParameters.ParsedLists | CPUT/CPUT/CPUTMaterialDX11.cpp:221-251 | the parsed lists, category by category |
| Material.ShaderParameters.AddParameter | CPUT/CPUT/CPUTMaterialDX11.cpp:166-192 | the count of the category goes up by one and the other four are kept |
| Material.ShaderParameters.Adopt | CPUT/CPUT/CPUTMaterialDX11.cpp:196-205 | the ten list fields take the new arrays |
| Material.ShaderParameters.SetBoundCount | CPUT/CPUT/CPUTMaterialDX11.cpp:262 | the pass's bound count takes the new value, the others and the lists are kept |
| Material.ShaderParameters.CopyLists | CPUT/CPUT/CPUTMaterialDX11.cpp:654-691 | fresh arrays with the contents of the five name and bind-point lists |
| Material.ShaderParameters.CloneShaderParameters | CPUT/CPUT/CPUTMaterialDX11.cpp:652-692 | the destination gets fresh arrays holding copies of all ten lists, and this stage's mTextureCount; its parameter counts are not copied |
| Material.CategoryIndex | CPUT/CPUT/CPUTMaterialDX11.cpp:166-192 | each category has its own place among the five counts |
| Material.Bumped | CPUT/CPUT/CPUTMaterialDX11.cpp:169-190 | one count goes up by one, the others are kept |
| Material.Tally | CPUT/CPUT/CPUTMaterialDX11.cpp:162-194 | after the counting pass each count has grown by the number of descriptors of its category |
| Material.TallyStep | CPUT/CPUT/CPUTMaterialDX11.cpp:164-193 | one more descriptor bumps its category's count, if it has a category |
| Material.WithBound | CPUT/CPUT/CPUTMaterialDX11.cpp:262 | the bound count a pass drives takes the new value; the sampler list has none |
| Material.NewLists | CPUT/CPUT/CPUTMaterialDX11.cpp:196-205 | ten fresh, pairwise distinct arrays of the counted lengths |
| Material.CopyList | CPUT/CPUT/CPUTMaterialDX11.cpp:667-671 | a fresh copy of one name list and its bind-point list |
| Material.Record | CPUT/CPUT/CPUTMaterialDX11.cpp:221-223 | writing the k-th descriptor of a category extends that category's filled prefix by one |
| Material.SelectedAppend | CPUT/CPUT/CPUTMaterialDX11.cpp:223 | a descriptor of the category adds one to the running index |
| Material.Place | CPUT/CPUT/CPUTMaterialDX11.cpp:218-252 | a descriptor is entered in its own category's lists and leaves every other list unchanged |
| Material.Skip | CPUT/CPUT/CPUTMaterialDX11.cpp:218-252 | a descriptor of another category leaves a category's filled prefix as it was |
| Material.ReleaseStage | CPUT/CPUT/CPUTMaterialDX11.cpp:632-647 | the UAV slots become Cleared and the view slots become ReleasedViews of their old contents |
| Material.NewStages | CPUT/CPUT/CPUTMaterialDX11.cpp:42-47 | six fresh, valid, empty stages whose slot arrays are pairwise distinct |
| Material.MaterialDX11.constructor | CPUT/CPUT/CPUTMaterialDX11.cpp:33-49 | empty resource slots of each limit, six disjoint empty stages, and the given configuration |
| Material.MaterialDX11.ReadShaderSamplersAndTextures | CPUT/CPUT/CPUTMaterialDX11.cpp:150-255 | each parameter count grows by the number of descriptors of its category. Fresh lists of those lengths are allocated, and entry k of each list is the name and bind point of the category's k-th descriptor |
| Material.MaterialDX11.CountDescriptors | CPUT/CPUT/CPUTMaterialDX11.cpp:162-194 | the counting pass: the counts become Tally of the old counts |
| Material.MaterialDX11.FillDescriptors | CPUT/CPUT/CPUTMaterialDX11.cpp:208-254 | the filling pass: every list holds its category's descriptors in reflection order |
| Material.MaterialDX11.FillOne | CPUT/CPUT/CPUTMaterialDX11.cpp:218-252 | one switch step keeps all five lists filled up to the descriptors seen |
| Material.MaterialDX11.BindParameters | CPUT/CPUT/CPUTMaterialDX11.cpp:258-307 | the pass's resource slots and bind slots are Bound for its list. Its bound count equals the parameter count, and the lists are unchanged |
| Material.MaterialDX11.BindTextures | CPUT/CPUT/CPUTMaterialDX11.cpp:258-308 | textures and view slots are Bound for the texture list; mTextureCount becomes the texture count and the other counts are kept |
| Material.MaterialDX11.BindBuffers | CPUT/CPUT/CPUTMaterialDX11.cpp:311-351 | buffers and view slots are Bound for the buffer list; mBufferCount becomes the buffer count |
| Material.MaterialDX11.BindUAVs | CPUT/CPUT/CPUTMaterialDX11.cpp:354-397 | every UAV slot is nulled first, then the UAVs and UAV slots are Bound for the UAV list; mUAVCount becomes the UAV count |
| Material.MaterialDX11.BindConstantBuffers | CPUT/CPUT/CPUTMaterialDX11.cpp:400-440 | constant buffers and constant-buffer slots are Bound for the constant-buffer list; mConstantBufferCount becomes its count |
| Material.MaterialDX11.ReleaseTexturesAndBuffers | CPUT/CPUT/CPUTMaterialDX11.cpp:628-649 | every stage is released from its old slots, as ReleaseStage states |
| WindowsSensorsApp.LastSeparator | WindowsSensors.cpp:126-135 | the backward scan stops at the last separator at or before its start |
| WindowsSensorsApp.StripAssetPath | WindowsSensors.cpp:116-146 | the asset path is the drive plus the directory cut just after the last separator at or before the search start, so no separator lies between the cut and the search start. The shader path is that path plus `\Shader\` |
| WindowsSensorsApp.PanelFor | WindowsSensors.h:28-29 | definition: toggle on shows ID_SECONDARY_PANEL (20), off shows ID_MAIN_PANEL (10); the content is in HandleKeyboardEvent |
| WindowsSensorsApp.Captured | WindowsSensors.cpp:564-574 | definition: the zero becomes the reading when the sensor is active, else unchanged; the content is in ZeroThenUpdateIsLevel and InactiveClearsZero |
| WindowsSensorsApp.Offset | WindowsSensors.cpp:389-414 | an active sensor's tilts plus the zero give the reading; otherwise the tilts are zero |
| WindowsSensorsApp.Kept | WindowsSensors.cpp:405-414 | definition: the zero survives an update of an active sensor and is reset otherwise; the content is in InactiveClearsZero |
| WindowsSensorsApp.ZeroThenUpdateIsLevel | WindowsSensors.cpp:389-414 | zeroing on a reading and then updating with it gives level tilts |
| WindowsSensorsApp.InactiveClearsZero | WindowsSensors.cpp:405-414 | an inactive sensor's update clears the zero, so the next active update reports the raw reading |
| WindowsSensorsApp.WindowsSensors.constructor | WindowsSensors.cpp:495 | toggle off with the main panel shown, no shutdown, zero sensor zero |
| WindowsSensorsApp.WindowsSensors.HandleKeyboardEvent | WindowsSensors.cpp:493-526 | F1 flips the toggle and shows its panel; Escape asks for shutdown; both are handled. Any other key returns the camera controller's answer and changes nothing. The shown panel always matches the toggle |
| WindowsSensorsApp.WindowsSensors.ZeroSensor | WindowsSensors.cpp:561-575 | the zero becomes Captured of the old zero |
| WindowsSensorsApp.WindowsSensors.PollSensor | WindowsSensors.cpp:389-414 | the tilts are Offset and the new zero is Kept of the old zero |

## Left out

- COM plumbing is not modelled: reference counts, `QueryInterface`/`AddRef`/`Release`, the event sink, `SetEventSink`, `Initialize`/`Uninitialize`, `OnSensorEnter`, `OnLeave` and the destructors. They are lifetime bookkeeping with no effect on the registry's contents.
- `ChangeSensitivity` and the numeric and compound branches of `GetSensorProperty` are left out. They only talk to the device or print. The friendly name is recorded as the `Sensor` value's `friendlyName`.
- `RemoveSensor(ISensor*)` is left out. It is a COM-facing wrapper that reads the id and calls the modelled `RemoveSensor(REFSENSOR_ID)`.
- The SDK's GUID values are not part of this model, except SENSOR_TYPE_INCLINOMETER_3D, which is written out from the Windows SDK definition. Windows' `guiddef.h` is not part of this model either.
- SensorManager.SensorManagerEvents.GetData: `pData` is untyped in the source; the model passes both output structures and writes only the one belonging to the entry's decoder.
- Calls into the Sensor API are not modelled; the answers they give are recorded in the `Sensor` and `Report` values. Decoder results that the source drops are dropped here too.
- Floating point is not modelled. Tilts are `real`; the orientation matrix is kept as its 36 bytes, and 1.0 and 0.0 are their IEEE-754 bit patterns. `DegToRad` in `Update` is left out, so `PollSensor` returns degrees.
- Direct3D is not modelled: shader reflection is a sequence of bind descriptors, loaded assets are opaque `Resource` values, and the asset library is a map.
- `LoadMaterial`, `SetRenderStates`, `MaterialRequiresPerModelPayload` and the shader creation calls are left out. They parse files or issue device calls.
- `CloneMaterial` is left out. It copies this material's `mpShaderParametersList` pointers and then runs the bind passes on this material, and those passes are modelled. `CloneShaderParameters` is modelled.
- `RebindTexturesAndBuffers` is left out. It re-issues the view writes that the bind passes already model.
- The `CPUT_MATERIAL_MAX_*` slot limits are declared in a header that is not part of this model. They are constructor parameters of `MaterialDX11`, and so are the sizes of the stage slot arrays.
- The `CPUTShaderParameters` constructor and header are not part of this model. A new stage has shared empty name and bind-point arrays and null slots, where the source has null list pointers. The `memset` of `mppBindUAVs` is modelled as clearing the whole UAV slot array, on the reading that the member is a fixed-size array.
- Material.MaterialDX11.ReleaseTexturesAndBuffers: the model follows the code, not the "release every slot" reading. After nulling the views and UAVs, the code writes each constant buffer's shader resource view back into the view slot at that buffer's bind point, and the contract states exactly that. The view-slot loop runs to the texture slot limit.
- Material.Request: the asset library is keyed by category and name, so the model does not tie the buffer and UAV passes together. In the source both call `GetBuffer(name)` (CPUT/CPUT/CPUTMaterialDX11.cpp:344 and 389), so one decorated name yields the same asset in both passes.
- Reference counting on views (`AddRef`/`SAFE_RELEASE`) is not modelled; a released slot becomes null.
- Debug `ASSERT`s, null dereferences and out-of-range writes are preconditions:
  - a tag must be found in one of the blocks;
  - bind points must be below the slot limit;
  - an asset must be in the library;
  - a texture must have a view;
  - an orientation byte vector must fit the 36-byte matrix.
- SensorManager.SensorManagerEvents.GetData requires the entry of a known id to have a decoder. The source dereferences a null `m_SensorProcessor` otherwise (SensorManagerEvents.cpp:978 and 982): that happens for an admitted sensor of a requested type that is neither of the two decoders, whose entry has type SENSOR_NONE and no decoder.
- The registry lookups (`GetStatus`, `GetDeviceName`, `GetDeviceType`) dereference `find()`, and `RemoveSensor` dereferences `find()` too. Each requires the id to be present when the map is not empty.
- GetSensor's preconditions:
  - `num` must be a valid position (the source returns an uninitialised id otherwise);
  - the available ids must be in the map (the source's `operator[]` would insert them, which the invariant rules out).
- The path block requires a directory with a separator at or before the search start. The source's unsigned loop index never fails its `>= 0` test and reads before the string otherwise. `SplitPathAndFilename` is a parameter: the drive and directory are inputs.
- The function-static `panelToggle` of `HandleKeyboardEvent` is a field of the application object. `Shutdown` is modelled as a flag, and the GUI's active panel as a field.
- The camera controller's answer to a key and the sensor manager's status and reading are parameters.
- The text written to the GUI labels is not modelled.
