/**
 * Classification of the available camera hardware into one operating mode
 * (CameraModeSelector.java): the platform SDK level and the hardware level that
 * each camera reports are reduced to a CameraMode and a multi-camera flag, from
 * which fixed tables derive the recommended camera count, resolution and fps.
 */
module ModeSelection {
  import opened Optional

  /** Build.VERSION_CODES.LOLLIPOP: the first level with the Camera2 API. */
  const LOLLIPOP := 21
  /** Build.VERSION_CODES.M: the first level at which FULL devices are trusted. */
  const M := 23

  /** INFO_SUPPORTED_HARDWARE_LEVEL as a camera reports it; `Other` covers LEVEL_3, EXTERNAL and any future value. */
  datatype Level = Full | Limited | Legacy | Other(code: int)

  /** The three buckets of the tally. */
  datatype Tier = FullTier | LimitedTier | LegacyTier

  datatype CameraMode = Camera2Full | Camera2Limited | Camera2Legacy | Camera1Only

  /** The outcome of one classification pass. */
  datatype Selection = Selection(mode: CameraMode, multiCamera: bool)

  /** The four counters of the enumeration loop. */
  datatype Tally = Tally(full: nat, limited: nat, legacy: nat, total: nat)

  /** The bucket a reported level falls into: a missing (null) level and every unrecognised one count as legacy. */
  function TierOf(level: Option<Level>): (t: Tier)
    ensures t == FullTier <==> level == Some(Full)
    ensures t == LimitedTier <==> level == Some(Limited)
    ensures t == LegacyTier <==> level != Some(Full) && level != Some(Limited)
  {
    match level
    case None => LegacyTier
    case Some(Full) => FullTier
    case Some(Limited) => LimitedTier
    case Some(_) => LegacyTier
  }

  /** How many of the reported levels fall into bucket `t`. */
  function Count(levels: seq<Option<Level>>, t: Tier): (n: nat)
    ensures n <= |levels|
  {
    if |levels| == 0 then 0
    else Count(levels[..|levels| - 1], t) + (if TierOf(levels[|levels| - 1]) == t then 1 else 0)
  }

  /** The three buckets partition the camera list. */
  lemma {:induction false} CountPartition(levels: seq<Option<Level>>)
    ensures Count(levels, FullTier) + Count(levels, LimitedTier) + Count(levels, LegacyTier) == |levels|
  {
    if |levels| > 0 {
      CountPartition(levels[..|levels| - 1]);
    }
  }

  /** A bucket is non-empty exactly when some camera falls into it. */
  lemma {:induction false} CountPositive(levels: seq<Option<Level>>, t: Tier)
    ensures Count(levels, t) > 0 <==> exists i :: 0 <= i < |levels| && TierOf(levels[i]) == t
  {
    if |levels| > 0 {
      var init := levels[..|levels| - 1];
      CountPositive(init, t);
      if exists i :: 0 <= i < |init| && TierOf(init[i]) == t {
        var i :| 0 <= i < |init| && TierOf(init[i]) == t;
        assert levels[i] == init[i];
      }
      if exists i :: 0 <= i < |levels| && TierOf(levels[i]) == t {
        var i :| 0 <= i < |levels| && TierOf(levels[i]) == t;
        if i < |init| {
          assert init[i] == levels[i];
        }
      }
    }
  }

  /** A bucket holds two or more cameras exactly when two distinct cameras fall into it. */
  lemma {:induction false} CountAtLeastTwo(levels: seq<Option<Level>>, t: Tier)
    ensures Count(levels, t) >= 2 <==>
      exists i, j :: 0 <= i < j < |levels| && TierOf(levels[i]) == t && TierOf(levels[j]) == t
  {
    if |levels| > 0 {
      var init := levels[..|levels| - 1];
      var last := |levels| - 1;
      CountAtLeastTwo(init, t);
      CountPositive(init, t);
      if Count(levels, t) >= 2 {
        if Count(init, t) >= 2 {
          var i, j :| 0 <= i < j < |init| && TierOf(init[i]) == t && TierOf(init[j]) == t;
          assert levels[i] == init[i] && levels[j] == init[j];
        } else {
          var i :| 0 <= i < |init| && TierOf(init[i]) == t;
          assert levels[i] == init[i];
          assert TierOf(levels[last]) == t;
        }
      }
      if exists i, j :: 0 <= i < j < |levels| && TierOf(levels[i]) == t && TierOf(levels[j]) == t {
        var i, j :| 0 <= i < j < |levels| && TierOf(levels[i]) == t && TierOf(levels[j]) == t;
        assert init[i] == levels[i];
        if j < last {
          assert init[j] == levels[j];
        }
      }
    }
  }

  /** The enumeration loop of selectMode: one pass over the camera list, bumping one counter per camera. */
  method TallyLevels(levels: seq<Option<Level>>) returns (tally: Tally)
    ensures tally.total == |levels|
    ensures tally.full == Count(levels, FullTier)
    ensures tally.limited == Count(levels, LimitedTier)
    ensures tally.legacy == Count(levels, LegacyTier)
    ensures tally.full + tally.limited + tally.legacy == tally.total
  {
    var fullCount, limitedCount, legacyCount := 0, 0, 0;
    var totalCount := |levels|;
    for i := 0 to |levels|
      invariant fullCount == Count(levels[..i], FullTier)
      invariant limitedCount == Count(levels[..i], LimitedTier)
      invariant legacyCount == Count(levels[..i], LegacyTier)
      invariant fullCount + limitedCount + legacyCount == i
    {
      assert levels[..i + 1][..i] == levels[..i];
      match levels[i]
      case None =>
        legacyCount := legacyCount + 1;
      case Some(Full) =>
        fullCount := fullCount + 1;
      case Some(Limited) =>
        limitedCount := limitedCount + 1;
      case Some(_) =>
        legacyCount := legacyCount + 1;
    }
    assert levels[..|levels|] == levels;
    tally := Tally(fullCount, limitedCount, legacyCount, totalCount);
  }

  /**
   * The decision cascade on the tallied counts, in the source's order (first match wins).
   * Its last branch is kept as written; it cannot be taken once the SDK level is at
   * least LOLLIPOP, which is the only way selectMode reaches it.
   */
  function Decide(sdk: int, fullCount: nat, limitedCount: nat): (s: Selection)
    ensures s.multiCamera <==> sdk >= M && fullCount >= 2
    ensures s.mode == Camera2Full <==> sdk >= M && fullCount >= 1
    ensures sdk >= LOLLIPOP ==> s.mode != Camera1Only
    ensures s.multiCamera ==> s.mode == Camera2Full
  {
    if sdk >= M && fullCount >= 2 then Selection(Camera2Full, true)
    else if sdk >= M && fullCount >= 1 then Selection(Camera2Full, false)
    else if limitedCount > 0 && sdk >= LOLLIPOP then Selection(Camera2Limited, false)
    else if sdk >= LOLLIPOP then Selection(Camera2Legacy, false)
    else Selection(Camera1Only, false)
  }

  /**
   * selectMode as a value: `ids` is the list of reported levels, or None when the
   * camera service raised CameraAccessException during enumeration.
   */
  function SelectMode(sdk: int, ids: Option<seq<Option<Level>>>): (s: Selection)
    ensures sdk < LOLLIPOP ==> s == Selection(Camera1Only, false)
    ensures ids.None? ==> s == Selection(Camera1Only, false)
    ensures s.mode == Camera1Only <==> sdk < LOLLIPOP || ids.None?
    ensures s.multiCamera ==> s.mode == Camera2Full
  {
    if sdk < LOLLIPOP then Selection(Camera1Only, false)
    else match ids
      case None => Selection(Camera1Only, false)
      case Some(levels) => Decide(sdk, Count(levels, FullTier), Count(levels, LimitedTier))
  }

  /** Multi-camera support is reported exactly when SDK >= 23 and two distinct cameras report FULL. */
  lemma MultiCameraExactly(sdk: int, levels: seq<Option<Level>>)
    ensures SelectMode(sdk, Some(levels)).multiCamera <==>
      sdk >= M && exists i, j :: 0 <= i < j < |levels| && levels[i] == Some(Full) && levels[j] == Some(Full)
  {
    CountAtLeastTwo(levels, FullTier);
  }

  /** CAMERA2_FULL is chosen exactly when SDK >= 23 and some camera reports FULL. */
  lemma FullModeExactly(sdk: int, levels: seq<Option<Level>>)
    ensures SelectMode(sdk, Some(levels)).mode == Camera2Full <==>
      sdk >= M && exists i :: 0 <= i < |levels| && levels[i] == Some(Full)
  {
    CountPositive(levels, FullTier);
  }

  /** CAMERA2_LIMITED is chosen exactly when SDK >= 21, FULL did not win, and some camera reports LIMITED. */
  lemma LimitedModeExactly(sdk: int, levels: seq<Option<Level>>)
    ensures SelectMode(sdk, Some(levels)).mode == Camera2Limited <==>
      sdk >= LOLLIPOP
      && !(sdk >= M && exists i :: 0 <= i < |levels| && levels[i] == Some(Full))
      && exists i :: 0 <= i < |levels| && levels[i] == Some(Limited)
  {
    CountPositive(levels, FullTier);
    CountPositive(levels, LimitedTier);
  }

  /**
   * CAMERA2_LEGACY is chosen exactly when SDK >= 21, FULL did not win and no camera
   * reports LIMITED: so also for an empty list, and for FULL cameras on SDK 21-22.
   */
  lemma LegacyModeExactly(sdk: int, levels: seq<Option<Level>>)
    ensures SelectMode(sdk, Some(levels)).mode == Camera2Legacy <==>
      sdk >= LOLLIPOP
      && !(sdk >= M && exists i :: 0 <= i < |levels| && levels[i] == Some(Full))
      && forall i :: 0 <= i < |levels| ==> levels[i] != Some(Limited)
  {
    CountPositive(levels, FullTier);
    CountPositive(levels, LimitedTier);
  }

  /** useCamera2: every mode but CAMERA1_ONLY goes through the Camera2 API. */
  function UsesCamera2(mode: CameraMode): (b: bool)
    ensures b <==> mode != Camera1Only
  {
    !mode.Camera1Only?
  }

  /** isLegacyMode: CAMERA2_LEGACY and CAMERA1_ONLY are the legacy modes. */
  function IsLegacy(mode: CameraMode): (b: bool)
    ensures b <==> mode == Camera2Legacy || mode == Camera1Only
    ensures !b <==> mode == Camera2Full || mode == Camera2Limited
  {
    mode.Camera2Legacy? || mode.Camera1Only?
  }

  /** getRecommendedCameraCount: four cameras with multi-camera support, one otherwise. */
  function RecommendedCameraCount(multiCamera: bool): (n: int)
    ensures n == 4 <==> multiCamera
    ensures n == 1 <==> !multiCamera
  {
    if multiCamera then 4 else 1
  }

  /** getRecommendedResolution: 1080p for CAMERA2_FULL, the conservative 720p for every other mode. */
  function RecommendedResolution(mode: CameraMode): (r: string)
    ensures r == "1920x1080" <==> mode == Camera2Full
    ensures r == "1280x720" <==> mode != Camera2Full
  {
    match mode
    case Camera2Full => "1920x1080"
    case Camera2Limited => "1280x720"
    case _ => "1280x720"
  }

  /** getRecommendedFps: 30 for CAMERA2_FULL, 20 for CAMERA2_LIMITED, the conservative 15 for the legacy modes. */
  function RecommendedFps(mode: CameraMode): (fps: int)
    ensures fps == 30 <==> mode == Camera2Full
    ensures fps == 20 <==> mode == Camera2Limited
    ensures fps == 15 <==> IsLegacy(mode)
  {
    match mode
    case Camera2Full => 30
    case Camera2Limited => 20
    case _ => 15
  }

  /**
   * The derived policy is consistent: four cameras are recommended only together with
   * the FULL-tier 1080p / 30 fps ceilings, and without the Camera2 API the policy is
   * always the most conservative one.
   */
  lemma PolicyConsistent(sdk: int, ids: Option<seq<Option<Level>>>)
    ensures var s := SelectMode(sdk, ids);
      RecommendedCameraCount(s.multiCamera) == 4 ==>
        RecommendedResolution(s.mode) == "1920x1080" && RecommendedFps(s.mode) == 30
    ensures var s := SelectMode(sdk, ids);
      !UsesCamera2(s.mode) ==>
        RecommendedCameraCount(s.multiCamera) == 1 && RecommendedResolution(s.mode) == "1280x720"
        && RecommendedFps(s.mode) == 15
  {
  }

  /** The selector object: its constructor classifies once and stores the mode and the multi-camera flag. */
  class CameraModeSelector {
    var selectedMode: CameraMode
    var multiCameraSupported: bool
    /** The inputs of the classification pass, kept for the specification only. */
    ghost var sdkVersion: int
    ghost var cameras: Option<seq<Option<Level>>>

    ghost predicate Valid()
      reads this
    {
      Selection(selectedMode, multiCameraSupported) == SelectMode(sdkVersion, cameras)
    }

    /** selectMode, run by the constructor; `ids` is None when enumeration raised CameraAccessException. */
    constructor (sdk: int, ids: Option<seq<Option<Level>>>)
      ensures Valid()
      ensures sdkVersion == sdk && cameras == ids
    {
      sdkVersion, cameras := sdk, ids;
      if sdk < LOLLIPOP {
        selectedMode, multiCameraSupported := Camera1Only, false;
      } else if ids.None? {
        selectedMode, multiCameraSupported := Camera1Only, false;
      } else {
        var tally := TallyLevels(ids.value);
        if sdk >= M && tally.full >= 2 {
          selectedMode, multiCameraSupported := Camera2Full, true;
        } else if sdk >= M && tally.full >= 1 {
          selectedMode, multiCameraSupported := Camera2Full, false;
        } else if tally.limited > 0 && sdk >= LOLLIPOP {
          selectedMode, multiCameraSupported := Camera2Limited, false;
        } else if sdk >= LOLLIPOP {
          selectedMode, multiCameraSupported := Camera2Legacy, false;
        } else {
          selectedMode, multiCameraSupported := Camera1Only, false;
        }
      }
    }

    function GetMode(): (mode: CameraMode)
      reads this
      requires Valid()
      ensures mode == SelectMode(sdkVersion, cameras).mode
    {
      selectedMode
    }

    function IsMultiCameraSupported(): (b: bool)
      reads this
      requires Valid()
      ensures b <==> sdkVersion >= M && cameras.Some? && Count(cameras.value, FullTier) >= 2
    {
      multiCameraSupported
    }

    /** The Camera2 API is used exactly when the SDK has it and enumeration succeeded. */
    function UseCamera2(): (b: bool)
      reads this
      requires Valid()
      ensures b <==> sdkVersion >= LOLLIPOP && cameras.Some?
    {
      UsesCamera2(selectedMode)
    }

    /** Legacy mode: no Camera2 API, or neither a trusted FULL camera nor any LIMITED one. */
    function IsLegacyMode(): (b: bool)
      reads this
      requires Valid()
      ensures b <==> (sdkVersion < LOLLIPOP || cameras.None?
        || (!(sdkVersion >= M && Count(cameras.value, FullTier) >= 1) && Count(cameras.value, LimitedTier) == 0))
    {
      IsLegacy(selectedMode)
    }

    function GetRecommendedCameraCount(): (n: int)
      reads this
      requires Valid()
      ensures n == 4 <==> sdkVersion >= M && cameras.Some? && Count(cameras.value, FullTier) >= 2
      ensures n == 1 <==> !(sdkVersion >= M && cameras.Some? && Count(cameras.value, FullTier) >= 2)
      ensures n == 4 ==> selectedMode == Camera2Full
    {
      RecommendedCameraCount(multiCameraSupported)
    }

    function GetRecommendedResolution(): (r: string)
      reads this
      requires Valid()
      ensures r == "1920x1080" <==> sdkVersion >= M && cameras.Some? && Count(cameras.value, FullTier) >= 1
    {
      RecommendedResolution(selectedMode)
    }

    function GetRecommendedFps(): (fps: int)
      reads this
      requires Valid()
      ensures fps == 30 <==> sdkVersion >= M && cameras.Some? && Count(cameras.value, FullTier) >= 1
      ensures fps == 15 <==> IsLegacyMode()
    {
      RecommendedFps(selectedMode)
    }
  }
}
