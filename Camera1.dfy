/**
 * The Camera1 recording session (Camera1Recorder.java): a camera handle, a
 * MediaRecorder handle, the recording flag, the output file and the callback,
 * driven by prepare / start / stop / release. Every call into the Android
 * Camera, MediaRecorder and CamcorderProfile classes is replaced by a parameter
 * saying how that call turned out.
 */
module Camera1 {
  import opened Optional
  import opened FormatNegotiation

  /** The conservative ceilings the recorder negotiates against. */
  const MAX_WIDTH := 1280
  const MAX_HEIGHT := 720
  const MAX_FPS := 30

  /** How Camera.open(id) turned out: a handle, a null handle, or a RuntimeException (busy or absent). */
  datatype OpenResult = Opened | OpenedNull | OpenThrew

  datatype FocusMode = ContinuousVideo | AutoFocus | OtherFocus(name: string)

  /** The parameters prepare asks the camera for. */
  datatype Settings = Settings(previewSize: Option<Size>, fpsRange: Option<FpsRange>, focusMode: Option<FocusMode>)

  /**
   * An open Camera handle: the settings requested, whether the preview runs, and
   * whether it has been unlocked, that is handed over to the MediaRecorder.
   */
  datatype CameraState = CameraState(settings: Settings, previewing: bool, unlocked: bool)

  datatype Quality = Quality720P | Quality480P | QualityLow

  /**
   * What CamcorderProfile offers this camera: the frame rate of each profile it has,
   * None where hasProfile is false (for 720P and 480P) or get returns null (for LOW).
   */
  datatype Profiles = Profiles(p720: Option<int>, p480: Option<int>, low: Option<int>)

  /** How the MediaRecorder is configured: from a profile with its frame rate, or by hand (MPEG-4, H.264, 1280x720). */
  datatype RecorderConfig = FromProfile(quality: Quality, frameRate: int) | Manual

  /** An open MediaRecorder handle: its configuration and its output file. */
  datatype RecorderState = RecorderState(config: RecorderConfig, output: string)

  /** The steps of start that can throw, in order; the camera is unlocked after UnlockCamera. */
  datatype StartStep = CreateRecorder | UnlockCamera | ConfigureRecorder | PrepareRecorder | StartRecorder

  /** The callbacks fired, in order. */
  datatype Event = RecordStarted | RecordStopped(file: string)

  datatype RecorderError = CameraUnavailable | ConfigurationFailed | NotPrepared | StartFailed

  /** How a call ended: normally, or with the exception it throws. */
  datatype Status = Ok | Failed(error: RecorderError)

  /** The focus preference of prepare: continuous video over auto; nothing when neither is offered. */
  function ChooseFocus(supported: Option<seq<FocusMode>>): (f: Option<FocusMode>)
    ensures f == Some(ContinuousVideo) <==> supported.Some? && ContinuousVideo in supported.value
    ensures f == Some(AutoFocus) <==>
      supported.Some? && ContinuousVideo !in supported.value && AutoFocus in supported.value
    ensures f.None? <==>
      supported.None? || (ContinuousVideo !in supported.value && AutoFocus !in supported.value)
  {
    if supported.None? then None
    else if ContinuousVideo in supported.value then Some(ContinuousVideo)
    else if AutoFocus in supported.value then Some(AutoFocus)
    else None
  }

  function Min(a: int, b: int): int
  {
    if a < b then a else b
  }

  /**
   * The recorder configuration of start: 720P if the camera has it, else 480P, else LOW,
   * the chosen profile's frame rate capped at MAX_FPS; by hand when no profile is available.
   */
  function ChooseConfig(profiles: Profiles): (c: RecorderConfig)
    ensures c.FromProfile? ==> c.frameRate <= MAX_FPS
    ensures c.FromProfile? && c.quality == Quality720P <==> profiles.p720.Some?
    ensures c.FromProfile? && c.quality == Quality720P ==> c.frameRate == Min(profiles.p720.value, MAX_FPS)
    ensures c.FromProfile? && c.quality == Quality480P <==> profiles.p720.None? && profiles.p480.Some?
    ensures c.FromProfile? && c.quality == QualityLow <==>
      profiles.p720.None? && profiles.p480.None? && profiles.low.Some?
    ensures c.FromProfile? && c.quality == Quality480P ==> c.frameRate == Min(profiles.p480.value, MAX_FPS)
    ensures c.FromProfile? && c.quality == QualityLow ==> c.frameRate == Min(profiles.low.value, MAX_FPS)
    ensures c.Manual? <==> profiles.p720.None? && profiles.p480.None? && profiles.low.None?
  {
    if profiles.p720.Some? then FromProfile(Quality720P, Min(profiles.p720.value, MAX_FPS))
    else if profiles.p480.Some? then FromProfile(Quality480P, Min(profiles.p480.value, MAX_FPS))
    else if profiles.low.Some? then FromProfile(QualityLow, Min(profiles.low.value, MAX_FPS))
    else Manual
  }

  /** Whether a throw at `step` happens after the camera has been unlocked for the recorder. */
  predicate AfterUnlock(step: StartStep)
  {
    step != CreateRecorder && step != UnlockCamera
  }

  /** What prepare settles on for the fps range: the scan's pick, or nothing when the list is null or empty. */
  ghost predicate IsChosenFps(ranges: Option<seq<FpsRange>>, cap: int, r: Option<FpsRange>)
  {
    if ranges.None? || ranges.value == [] then r.None?
    else exists k :: IsBestFps(ranges.value, cap, k) && r == Some(ranges.value[k])
  }

  class Camera1Recorder {
    const cameraId: int
    var camera: Option<CameraState>
    var recorder: Option<RecorderState>
    var isRecording: bool
    var outputFile: string
    /** Whether the output file exists on disk. */
    var fileExists: bool
    /** Whether a (non-null) RecordCallback was given to prepare. */
    var hasCallback: bool
    /** The callbacks fired so far. */
    var events: seq<Event>

    /** A recorder handle is held exactly while recording. */
    ghost predicate Valid()
      reads this
    {
      recorder.Some? <==> isRecording
    }

    constructor (id: int)
      ensures Valid()
      ensures cameraId == id && camera.None? && recorder.None? && !isRecording
      ensures !hasCallback && !fileExists && events == []
    {
      cameraId := id;
      camera, recorder, isRecording := None, None, false;
      outputFile, fileExists, hasCallback, events := "", false, false, [];
    }

    /** isRecording. */
    function IsRecording(): (b: bool)
      reads this
      requires Valid()
      ensures b <==> recorder.Some?
    {
      isRecording
    }

    /**
     * prepare: remembers the output file and the callback, opens the camera and, once
     * it is open, negotiates preview size, fps range and focus mode and starts the
     * preview. `outputExists` says whether the file is already on disk; `configFault`
     * says whether setParameters, setPreviewDisplay or startPreview threw, which
     * propagates with the camera left open.
     */
    method Prepare(output: string, outputExists: bool, callback: bool, open: OpenResult,
                   previewSizes: seq<Size>, fpsRanges: Option<seq<FpsRange>>,
                   focusModes: Option<seq<FocusMode>>, configFault: bool)
      returns (status: Status)
      requires Valid()
      modifies this
      ensures Valid()
      ensures outputFile == output && fileExists == outputExists && hasCallback == callback
      ensures recorder == old(recorder) && isRecording == old(isRecording) && events == old(events)
      ensures open == OpenThrew ==> status == Failed(CameraUnavailable) && camera == old(camera)
      ensures open == OpenedNull ==> status == Failed(CameraUnavailable) && camera.None?
      ensures open == Opened ==> status == (if configFault then Failed(ConfigurationFailed) else Ok)
      ensures open == Opened ==>
        camera.Some? && camera.value.previewing == !configFault && !camera.value.unlocked
      ensures open == Opened ==> IsOptimalSize(previewSizes, MAX_WIDTH, MAX_HEIGHT, camera.value.settings.previewSize)
      ensures open == Opened ==> IsChosenFps(fpsRanges, MAX_FPS * 1000, camera.value.settings.fpsRange)
      ensures open == Opened ==> camera.value.settings.focusMode == ChooseFocus(focusModes)
    {
      outputFile, fileExists, hasCallback := output, outputExists, callback;
      if open == OpenThrew {
        return Failed(CameraUnavailable);
      }
      if open == OpenedNull {
        camera := None;
        return Failed(CameraUnavailable);
      }
      var previewSize := GetOptimalSize(previewSizes, MAX_WIDTH, MAX_HEIGHT);
      var fpsRange: Option<FpsRange> := None;
      if fpsRanges.Some? && |fpsRanges.value| > 0 {
        var best := BestFpsRange(fpsRanges.value, MAX_FPS * 1000);
        fpsRange := Some(best);
      }
      var settings := Settings(previewSize, fpsRange, ChooseFocus(focusModes));
      camera := Some(CameraState(settings, !configFault, false));
      status := if configFault then Failed(ConfigurationFailed) else Ok;
    }

    /**
     * start: a no-op while recording; "Camera not prepared" without a camera; otherwise
     * creates the recorder, hands the camera over to it, configures it from a profile
     * and starts it. `fault` names the first step that throws, if any: the recorder is
     * then released and the failure rethrown.
     */
    method Start(profiles: Profiles, fault: Option<StartStep>) returns (status: Status)
      requires Valid()
      modifies this
      ensures Valid()
      ensures outputFile == old(outputFile) && hasCallback == old(hasCallback)
      ensures old(isRecording) ==> status == Ok && unchanged(this)
      ensures !old(isRecording) && old(camera).None? ==> status == Failed(NotPrepared) && unchanged(this)
      ensures !old(isRecording) && old(camera).Some? && fault.None? ==>
        status == Ok && isRecording && fileExists
        && recorder == Some(RecorderState(ChooseConfig(profiles), outputFile))
        && camera == Some(old(camera).value.(unlocked := true))
        && events == old(events) + (if hasCallback then [RecordStarted] else [])
      ensures !old(isRecording) && old(camera).Some? && fault.Some? ==>
        status == Failed(StartFailed) && !isRecording && recorder.None?
        && fileExists == old(fileExists) && events == old(events)
        && camera == Some(old(camera).value.(unlocked := old(camera).value.unlocked || AfterUnlock(fault.value)))
    {
      if isRecording {
        return Ok;
      }
      if camera.None? {
        return Failed(NotPrepared);
      }
      if fault == Some(CreateRecorder) {
        ReleaseMediaRecorder();
        return Failed(StartFailed);
      }
      var config := ChooseConfig(profiles);
      recorder := Some(RecorderState(config, outputFile));
      if fault == Some(UnlockCamera) {
        ReleaseMediaRecorder();
        return Failed(StartFailed);
      }
      camera := Some(camera.value.(unlocked := true));
      if fault.Some? {
        ReleaseMediaRecorder();
        return Failed(StartFailed);
      }
      isRecording := true;
      fileExists := true;
      if hasCallback {
        events := events + [RecordStarted];
      }
      status := Ok;
    }

    /**
     * stop: nothing when not recording. Otherwise stops the recorder (`stopFails`: its
     * stop threw, and the possibly corrupt file is deleted), always tears down recorder
     * and camera, and reports the file only if it still exists.
     */
    method Stop(stopFails: bool)
      requires Valid()
      modifies this
      ensures Valid()
      ensures !old(isRecording) ==> unchanged(this)
      ensures outputFile == old(outputFile) && hasCallback == old(hasCallback)
      ensures old(isRecording) ==> camera.None? && recorder.None? && !isRecording
      ensures old(isRecording) ==> fileExists == (old(fileExists) && !stopFails)
      ensures old(isRecording) ==>
        events == old(events) + (if hasCallback && fileExists then [RecordStopped(outputFile)] else [])
    {
      if !isRecording {
        return;
      }
      if stopFails && fileExists {
        fileExists := false;
      }
      ReleaseMediaRecorder();
      ReleaseCamera();
      isRecording := false;
      if hasCallback && fileExists {
        events := events + [RecordStopped(outputFile)];
      }
    }

    /** release: stop, then tear down both handles whatever state they are in. */
    method Release(stopFails: bool)
      requires Valid()
      modifies this
      ensures Valid()
      ensures camera.None? && recorder.None? && !isRecording
      ensures outputFile == old(outputFile) && hasCallback == old(hasCallback)
      ensures old(isRecording) ==> fileExists == (old(fileExists) && !stopFails)
      ensures old(isRecording) ==>
        events == old(events) + (if hasCallback && fileExists then [RecordStopped(outputFile)] else [])
      ensures !old(isRecording) ==> fileExists == old(fileExists) && events == old(events)
      ensures !old(isRecording) && old(camera).None? ==> unchanged(this)
    {
      Stop(stopFails);
      ReleaseMediaRecorder();
      ReleaseCamera();
    }

    /** releaseMediaRecorder: resets and releases the recorder if there is one (errors are swallowed). */
    method ReleaseMediaRecorder()
      modifies this
      ensures recorder.None?
      ensures camera == old(camera) && isRecording == old(isRecording) && outputFile == old(outputFile)
      ensures fileExists == old(fileExists) && hasCallback == old(hasCallback) && events == old(events)
      ensures old(recorder).None? ==> unchanged(this)
    {
      if recorder.Some? {
        recorder := None;
      }
    }

    /** releaseCamera: locks, stops the preview of and releases the camera if there is one (errors are swallowed). */
    method ReleaseCamera()
      modifies this
      ensures camera.None?
      ensures recorder == old(recorder) && isRecording == old(isRecording) && outputFile == old(outputFile)
      ensures fileExists == old(fileExists) && hasCallback == old(hasCallback) && events == old(events)
      ensures old(camera).None? ==> unchanged(this)
    {
      if camera.Some? {
        camera := None;
      }
    }
  }

  /** A healthy prepare, start and stop fire one onRecordStarted and one onRecordStopped for a file that exists. */
  method RecordOnce(id: int, path: string, sizes: seq<Size>, profiles: Profiles)
    returns (events: seq<Event>, fileExists: bool)
    ensures events == [RecordStarted, RecordStopped(path)]
    ensures fileExists
  {
    var r := new Camera1Recorder(id);
    var status := r.Prepare(path, false, true, Opened, sizes, None, None, false);
    status := r.Start(profiles, None);
    r.Stop(false);
    events, fileExists := r.events, r.fileExists;
  }

  /** A recorder whose stop throws leaves no file behind and fires no onRecordStopped. */
  method FailedStopDeletesFile(id: int, path: string, sizes: seq<Size>, profiles: Profiles)
    returns (events: seq<Event>, fileExists: bool, recording: bool)
    ensures events == [RecordStarted]
    ensures !fileExists && !recording
  {
    var r := new Camera1Recorder(id);
    var status := r.Prepare(path, false, true, Opened, sizes, None, None, false);
    status := r.Start(profiles, None);
    r.Stop(true);
    events, fileExists, recording := r.events, r.fileExists, r.IsRecording();
  }

  /** A second stop after a stop is a no-op: no callback, no state change. */
  method StopTwice(id: int, path: string, sizes: seq<Size>, profiles: Profiles, secondFails: bool)
    returns (eventsAfterFirst: seq<Event>, eventsAfterSecond: seq<Event>, existsAfterFirst: bool, existsAfterSecond: bool)
    ensures eventsAfterSecond == eventsAfterFirst == [RecordStarted, RecordStopped(path)]
    ensures existsAfterSecond == existsAfterFirst
  {
    var r := new Camera1Recorder(id);
    var status := r.Prepare(path, false, true, Opened, sizes, None, None, false);
    status := r.Start(profiles, None);
    r.Stop(false);
    eventsAfterFirst, existsAfterFirst := r.events, r.fileExists;
    r.Stop(secondFails);
    eventsAfterSecond, existsAfterSecond := r.events, r.fileExists;
  }

  /** start on a recorder that was never prepared fails with "Camera not prepared" and opens nothing. */
  method StartUnprepared(id: int, profiles: Profiles, fault: Option<StartStep>)
    returns (status: Status, hasCamera: bool, hasRecorder: bool)
    ensures status == Failed(NotPrepared) && !hasCamera && !hasRecorder
  {
    var r := new Camera1Recorder(id);
    status := r.Start(profiles, fault);
    hasCamera, hasRecorder := r.camera.Some?, r.recorder.Some?;
  }

  /** Releasing twice is safe: both handles are gone after the first, and the second changes nothing. */
  method ReleaseTwice(id: int, path: string, sizes: seq<Size>, profiles: Profiles, firstFails: bool, secondFails: bool)
    returns (same: bool, hasCamera: bool, hasRecorder: bool)
    ensures same && !hasCamera && !hasRecorder
  {
    var r := new Camera1Recorder(id);
    var status := r.Prepare(path, false, true, Opened, sizes, None, None, false);
    status := r.Start(profiles, None);
    r.Release(firstFails);
    var events, fileExists := r.events, r.fileExists;
    r.Release(secondFails);
    same := r.events == events && r.fileExists == fileExists && !r.isRecording;
    hasCamera, hasRecorder := r.camera.Some?, r.recorder.Some?;
  }
}
