/*
 * The small rules of the `WindowsSensors` sample application: deriving the
 * asset and shader directories from the command-line asset path, the F1 /
 * Escape keyboard handling, and the capture and reset of the sensor zero.
 * The sensor manager's answers (a status, a tilt reading) and the camera
 * controller's answer to a key are parameters.
 */
module WindowsSensorsApp {
  import opened SensorManager

  /** A path separator, either spelling. */
  predicate IsSeparator(ch: char)
  {
    ch == '\\' || ch == '/'
  }

  /** Where the backward search for a separator starts: the last index, or the one before a trailing separator. */
  function SearchStart(dir: string): int
    requires |dir| > 0
  {
    if IsSeparator(dir[|dir| - 1]) then |dir| - 2 else |dir| - 1
  }

  /**
   * The directory part can be stripped: it is not empty and holds a separator
   * at or before the search start (otherwise the unsigned backward loop runs
   * off the front of the string).
   */
  predicate Strippable(dir: string)
  {
    |dir| > 0 && exists k :: 0 <= k <= SearchStart(dir) && IsSeparator(dir[k])
  }

  const SHADER_DIR: string := "\\Shader\\"

  /**
   * One backward scan of `wWinMain`: from `start` down to the first
   * separator met. The loop test `ii >= 0` on an unsigned index never fails,
   * so the scan ends only on a separator.
   */
  method LastSeparator(dir: string, start: int) returns (found: int)
    requires start < |dir| && exists k :: 0 <= k <= start && IsSeparator(dir[k])
    ensures 0 <= found <= start && IsSeparator(dir[found])
    ensures forall j :: found < j <= start ==> !IsSeparator(dir[j])
  {
    var ii := start;
    while true
      invariant 0 <= ii <= start
      invariant exists k :: 0 <= k <= ii && IsSeparator(dir[k])
      invariant forall j :: ii < j <= start ==> !IsSeparator(dir[j])
      decreases ii
    {
      if IsSeparator(dir[ii]) {
        break;
      }
      ii := ii - 1;
    }
    found := ii;
  }

  /**
   * The path block of `wWinMain`: the asset path is `drive` followed by `dir`
   * cut just after the last separator at or before the search start; the
   * shader path is that same directory followed by `\Shader\` (the second
   * backward scan starts on the separator the first one found, so it stops
   * at once and strips nothing more).
   */
  method StripAssetPath(drive: string, dir: string) returns (openFilePath: string, openShaderPath: string)
    requires Strippable(dir)
    ensures |drive| < |openFilePath| <= |drive| + SearchStart(dir) + 1
    ensures openFilePath == drive + dir[..|openFilePath| - |drive|]
    ensures IsSeparator(openFilePath[|openFilePath| - 1])
    ensures forall j :: |openFilePath| - |drive| <= j <= SearchStart(dir) ==> !IsSeparator(dir[j])
    ensures openShaderPath == openFilePath + SHADER_DIR
  {
    var d := dir;
    var index := |d| - 1;
    if IsSeparator(d[index]) {
      index := index - 1;
    }
    // strip off the asset directory
    var ii := LastSeparator(d, index);
    d := d[..ii + 1];
    openFilePath := drive + d;
    index := ii;
    // strip off the set directory: the scan starts on the separator just kept
    ii := LastSeparator(d, index);
    d := d[..ii + 1];
    openShaderPath := drive + d + SHADER_DIR;
  }

  /** The keys the sample handles itself; every other key goes to the camera controller. */
  datatype Key = KeyF1 | KeyEscape | OtherKey(code: nat)

  /** `CPUTEventHandledCode`. */
  datatype EventHandled = Handled | Unhandled

  const ID_MAIN_PANEL: int := 10
  const ID_SECONDARY_PANEL: int := 20

  /** The panel shown for a value of the F1 toggle. */
  function PanelFor(toggle: bool): (id: int)
    ensures toggle <==> id == ID_SECONDARY_PANEL
    ensures !toggle <==> id == ID_MAIN_PANEL
  {
    if toggle then ID_SECONDARY_PANEL else ID_MAIN_PANEL
  }

  /** A tilt triple `(x, y, z)`, in degrees. */
  datatype Tilts = Tilts(x: real, y: real, z: real)

  /** The sensor zero after the Zero Sensor button: the reading when the sensor is active, else unchanged. */
  function Captured(zero: Tilts, status: Status, reading: Tilts): (z: Tilts)
    ensures status == Active ==> z == reading
    ensures status != Active ==> z == zero
  {
    if status == Active then reading else zero
  }

  /** The tilts `Update` uses: the reading less the zero when the sensor is active, else all zero. */
  function Offset(zero: Tilts, status: Status, reading: Tilts): (t: Tilts)
    ensures status != Active ==> t == Tilts(0.0, 0.0, 0.0)
    ensures status == Active ==> t.x + zero.x == reading.x && t.y + zero.y == reading.y && t.z + zero.z == reading.z
  {
    if status == Active then Tilts(reading.x - zero.x, reading.y - zero.y, reading.z - zero.z) else Tilts(0.0, 0.0, 0.0)
  }

  /** The sensor zero after `Update`: reset to zero when the sensor is not active. */
  function Kept(zero: Tilts, status: Status): (z: Tilts)
    ensures status == Active ==> z == zero
    ensures status != Active ==> z == Tilts(0.0, 0.0, 0.0)
  {
    if status == Active then zero else Tilts(0.0, 0.0, 0.0)
  }

  /** Zeroing on a reading and then updating with that same reading gives level tilts, whatever the zero was. */
  lemma ZeroThenUpdateIsLevel(zero: Tilts, reading: Tilts)
    ensures Offset(Captured(zero, Active, reading), Active, reading) == Tilts(0.0, 0.0, 0.0)
  {
  }

  /** Zeroing an inactive sensor changes nothing, and the next update clears the zero. */
  lemma InactiveClearsZero(zero: Tilts, status: Status, reading: Tilts, next: Tilts)
    requires status != Active
    ensures Kept(Captured(zero, status, reading), status) == Tilts(0.0, 0.0, 0.0)
    ensures Offset(Kept(Captured(zero, status, reading), status), Active, next) == next
  {
  }

  /** The parts of the `WindowsSensors` sample these rules touch. */
  class WindowsSensors {
    /** The function-static `panelToggle` of `HandleKeyboardEvent`. */
    var panelToggle: bool
    /** The GUI's active panel. */
    var activePanel: int
    var shutdownRequested: bool
    /** `mSensorZero`. */
    var sensorZero: Tilts

    /** The panel shown matches the toggle. */
    predicate Valid()
      reads this
    {
      activePanel == PanelFor(panelToggle)
    }

    /** The sample at start-up: toggle off, main panel, zero sensor zero. */
    constructor ()
      ensures Valid() && !panelToggle && activePanel == ID_MAIN_PANEL && !shutdownRequested
      ensures sensorZero == Tilts(0.0, 0.0, 0.0)
    {
      panelToggle, activePanel, shutdownRequested := false, ID_MAIN_PANEL, false;
      sensorZero := Tilts(0.0, 0.0, 0.0);
    }

    /**
     * `HandleKeyboardEvent`: F1 flips the toggle and shows the panel it
     * selects; Escape asks for shutdown; both are handled here. Any other
     * key is the camera controller's, and its answer is returned.
     */
    method HandleKeyboardEvent(key: Key, camera: Key -> EventHandled) returns (handled: EventHandled)
      requires Valid()
      modifies this`panelToggle, this`activePanel, this`shutdownRequested
      ensures Valid()
      ensures key == KeyF1 ==> handled == Handled && panelToggle == !old(panelToggle) && shutdownRequested == old(shutdownRequested)
      ensures key == KeyF1 ==> (activePanel == ID_SECONDARY_PANEL <==> panelToggle)
      ensures key == KeyEscape ==> handled == Handled && shutdownRequested && panelToggle == old(panelToggle)
      ensures key.OtherKey? ==> handled == camera(key) && unchanged(this)
    {
      handled := Unhandled;
      match key {
        case KeyF1 =>
          panelToggle := !panelToggle;
          if panelToggle {
            activePanel := ID_SECONDARY_PANEL;
          } else {
            activePanel := ID_MAIN_PANEL;
          }
          handled := Handled;
        case KeyEscape =>
          handled := Handled;
          shutdownRequested := true;
        case OtherKey(_) =>
      }
      if handled == Unhandled {
        handled := camera(key);
      }
    }

    /** The Zero Sensor button: the reading becomes the zero only while the sensor is active. */
    method ZeroSensor(status: Status, reading: Tilts)
      modifies this`sensorZero
      ensures sensorZero == Captured(old(sensorZero), status, reading)
    {
      if status == Active {
        sensorZero := Tilts(reading.x, reading.y, reading.z);
      }
    }

    /**
     * The polling part of `Update`: an active sensor's reading less the zero;
     * otherwise the tilts and the zero are reset to zero.
     */
    method PollSensor(status: Status, reading: Tilts) returns (tilts: Tilts)
      modifies this`sensorZero
      ensures tilts == Offset(old(sensorZero), status, reading)
      ensures sensorZero == Kept(old(sensorZero), status)
    {
      if status == Active {
        tilts := Tilts(reading.x - sensorZero.x, reading.y - sensorZero.y, reading.z - sensorZero.z);
      } else {
        tilts := Tilts(0.0, 0.0, 0.0);
        sensorZero := Tilts(0.0, 0.0, 0.0);
      }
    }
  }
}
