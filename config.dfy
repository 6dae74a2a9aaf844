// The system configuration: the per-camera settings, the alarm settings,
// the validator run at start-up and the language preference setter.

module Config {
  import opened Common

  /** A region of interest: top-left corner and size, in pixels. */
  datatype Rect = Rect(x: int, y: int, w: int, h: int)

  /** The settings of one camera. `resolution` is (width, height). */
  datatype CameraConfig = CameraConfig(
    source: int, roi: Rect, minConfidence: real, resolution: (int, int),
    enabled: bool, bufferSize: int, autoReconnect: bool, reconnectDelay: real)

  /** A camera with the defaults of the fields the constructor may leave out. */
  function NewCamera(source: int, roi: Rect, minConfidence: real, resolution: (int, int)): (c: CameraConfig)
    ensures c.source == source && c.roi == roi && c.minConfidence == minConfidence && c.resolution == resolution
    ensures c.enabled && c.bufferSize == 3 && c.autoReconnect && c.reconnectDelay == 1.0
  {
    CameraConfig(source, roi, minConfidence, resolution, true, 3, true, 1.0)
  }

  const DefaultRoi := Rect(200, 100, 800, 600)

  const DefaultCameras: seq<CameraConfig> := [
    NewCamera(0, DefaultRoi, 0.8, (1280, 720)),
    NewCamera(1, DefaultRoi, 0.5, (1280, 720)),
    NewCamera(2, DefaultRoi, 0.6, (1280, 720))
  ]

  const DefaultTriggers: seq<int> := [5, 10, 15, 30]

  /** The language codes the system supports. */
  const Languages: seq<string> := ["zh_CN", "en_US"]

  /** Why validate refused a configuration; cameras are named by their source. */
  datatype ConfigError =
    | RoiOutOfRange(source: int)
    | ConfidenceOutOfRange(source: int)
    | GestureThresholdOutOfRange
    | VolumeOutOfRange

  /** The sound file for an alarm tier: tiers below 30 seconds have their own
      recording, every other tier shares the general alarm. */
  function SoundPath(t: int): string
  {
    if t < 30 then "sounds/" + IntToString(t) + "S报警音.wav" else "sounds/alarm.wav"
  }

  /** Two different tiers below 30 seconds never share a sound file. */
  lemma SoundPathsDistinct(a: nat, b: nat)
    requires a < 30 && b < 30 && a != b
    ensures SoundPath(a) != SoundPath(b)
  {
    var sa, sb := NatToString(a), NatToString(b);
    if SoundPath(a) == SoundPath(b) {
      var pa, pb := "sounds/" + sa + "S报警音.wav", "sounds/" + sb + "S报警音.wav";
      assert |sa| == |sb|;
      assert sa == pa[7..7 + |sa|] == pb[7..7 + |sb|] == sb;
      NatToStringValue(a);
      NatToStringValue(b);
    }
  }

  /** The alarm_sounds table built from the trigger list: one entry per trigger. */
  function AlarmSounds(triggers: seq<int>): (m: map<int, string>)
    ensures m.Keys == set t | t in triggers
    ensures forall t :: t in m ==> m[t] == SoundPath(t)
  {
    map t | t in triggers :: SoundPath(t)
  }

  /** The ROI origin lies inside the camera's resolution. Only the origin is
      checked: a region reaching past the right or bottom edge passes. */
  predicate RoiOriginInside(c: CameraConfig)
  {
    0 <= c.roi.x < c.resolution.0 && 0 <= c.roi.y < c.resolution.1
  }

  predicate ConfidenceInRange(c: CameraConfig)
  {
    0.0 < c.minConfidence <= 1.0
  }

  /** The first camera check that fails, scanning the cameras in order and,
      within a camera, the region before the confidence. */
  function CameraError(cameras: seq<CameraConfig>): (e: Option<ConfigError>)
    ensures e.None? <==> forall i :: 0 <= i < |cameras| ==> RoiOriginInside(cameras[i]) && ConfidenceInRange(cameras[i])
    ensures e.Some? ==> exists i :: 0 <= i < |cameras| && (e.value == RoiOutOfRange(cameras[i].source) || e.value == ConfidenceOutOfRange(cameras[i].source))
  {
    if cameras == [] then None
    else if !RoiOriginInside(cameras[0]) then Some(RoiOutOfRange(cameras[0].source))
    else if !ConfidenceInRange(cameras[0]) then Some(ConfidenceOutOfRange(cameras[0].source))
    else
      var rest := CameraError(cameras[1..]);
      assert rest.Some? ==> cameras[1..][0] == cameras[1];
      rest
  }

  /** The outcome of validate for the given settings. */
  function Validation(cameras: seq<CameraConfig>, gestureThreshold: real, alarmVolume: real): Result<(), ConfigError>
  {
    match CameraError(cameras)
    case Some(e) => Err(e)
    case None =>
      if !(0.0 < gestureThreshold <= 1.0) then Err(GestureThresholdOutOfRange)
      else if !(0.0 < alarmVolume <= 1.0) then Err(VolumeOutOfRange)
      else Ok(())
  }

  /** validate accepts exactly the settings whose every camera has its ROI
      origin inside its resolution and a confidence in (0, 1], and whose
      gesture threshold and volume are in (0, 1]. */
  lemma ValidationIff(cameras: seq<CameraConfig>, gestureThreshold: real, alarmVolume: real)
    ensures Validation(cameras, gestureThreshold, alarmVolume).Ok? <==>
      && (forall i :: 0 <= i < |cameras| ==> RoiOriginInside(cameras[i]) && ConfidenceInRange(cameras[i]))
      && 0.0 < gestureThreshold <= 1.0
      && 0.0 < alarmVolume <= 1.0
  {
  }

  /** The shipped configuration passes validate. */
  lemma DefaultValidates()
    ensures Validation(DefaultCameras, 0.8, 1.0) == Ok(())
  {
    assert forall i :: 0 <= i < |DefaultCameras| ==> RoiOriginInside(DefaultCameras[i]) && ConfidenceInRange(DefaultCameras[i]);
  }

  /** The global configuration object. */
  class SystemConfig {
    var cameras: seq<CameraConfig>
    var showFps: bool
    var showRoi: bool
    var showGrid: bool
    var gridSpacingX: int
    var gridSpacingY: int
    var statusUpdateInterval: real
    var languagePreference: string
    var gestureThreshold: real
    var detectionInterval: real
    var smoothFactor: real
    var alarmTriggers: seq<int>
    var alarmSounds: map<int, string>
    var alarmVolume: real
    var frameBufferSize: int
    var maxFps: Option<int>

    /** The shipped settings. */
    constructor()
      ensures cameras == DefaultCameras && |cameras| == 3
      ensures showFps && showRoi && showGrid && gridSpacingX == 50 && gridSpacingY == 50
      ensures statusUpdateInterval == 1.0 && languagePreference == "zh_CN"
      ensures gestureThreshold == 0.8 && detectionInterval == 0.1 && smoothFactor == 0.3
      ensures alarmTriggers == DefaultTriggers && alarmSounds == AlarmSounds(DefaultTriggers)
      ensures alarmVolume == 1.0 && frameBufferSize == 3 && maxFps == Some(30)
    {
      cameras := DefaultCameras;
      showFps, showRoi, showGrid := true, true, true;
      gridSpacingX, gridSpacingY := 50, 50;
      statusUpdateInterval := 1.0;
      languagePreference := "zh_CN";
      gestureThreshold, detectionInterval, smoothFactor := 0.8, 0.1, 0.3;
      alarmTriggers := DefaultTriggers;
      alarmSounds := AlarmSounds(DefaultTriggers);
      alarmVolume := 1.0;
      frameBufferSize := 3;
      maxFps := Some(30);
    }

    /** validate: checks the cameras in order, then the gesture threshold and
        the volume, stopping at the first failure with nothing changed; a
        configuration that passes has an unsupported language preference
        reset to "zh_CN". */
    method Validate() returns (r: Result<(), ConfigError>)
      modifies this`languagePreference
      ensures r == Validation(cameras, gestureThreshold, alarmVolume)
      ensures r.Err? ==> languagePreference == old(languagePreference)
      ensures r.Ok? ==> languagePreference == (if old(languagePreference) in Languages then old(languagePreference) else "zh_CN")
      ensures r.Ok? ==> languagePreference in Languages
    {
      var i := 0;
      while i < |cameras|
        invariant 0 <= i <= |cameras|
        invariant CameraError(cameras) == CameraError(cameras[i..])
      {
        assert cameras[i..][1..] == cameras[i + 1..];
        var cam := cameras[i];
        if !(0 <= cam.roi.x < cam.resolution.0 && 0 <= cam.roi.y < cam.resolution.1) {
          return Err(RoiOutOfRange(cam.source));
        }
        if !(0.0 < cam.minConfidence <= 1.0) {
          return Err(ConfidenceOutOfRange(cam.source));
        }
        i := i + 1;
      }
      if !(0.0 < gestureThreshold <= 1.0) {
        return Err(GestureThresholdOutOfRange);
      }
      if !(0.0 < alarmVolume <= 1.0) {
        return Err(VolumeOutOfRange);
      }
      if languagePreference !in Languages {
        languagePreference := "zh_CN";
      }
      return Ok(());
    }

    /** save_language_preference: a supported code is stored and the call
        answers true; any other code is refused and nothing changes. */
    method SaveLanguagePreference(code: string) returns (ok: bool)
      modifies this`languagePreference
      ensures ok <==> code in Languages
      ensures languagePreference == if ok then code else old(languagePreference)
    {
      if code in Languages {
        languagePreference := code;
        return true;
      }
      return false;
    }
  }
}
