# EVCam camera core in Dafny

A model of the two decision components of the EVCam vehicle camera recorder:

- **Camera-mode classification** (`CameraModeSelector.java`, module `ModeSelection`).
  The platform SDK level and the hardware level that each camera reports are reduced
  to one `CameraMode` (CAMERA2_FULL, CAMERA2_LIMITED, CAMERA2_LEGACY, CAMERA1_ONLY)
  and a multi-camera flag. Fixed tables then give the recommended camera count,
  resolution and fps. `SelectMode` is the classification as a function. `TallyLevels`
  is the enumeration loop, proved against the `Count` function. The class
  `CameraModeSelector` runs the cascade in its constructor and keeps the result in two
  fields. Its getters are stated in terms of the classification's inputs: the SDK level and the camera list.
- **Camera1 recorder** (`Camera1Recorder.java`, modules `FormatNegotiation` and `Camera1`).
  - `GetOptimalSize` is the three-pass preview-size choice: exact match, then aspect
    ratio within 0.1 under the width ceiling, then the width ceiling alone, then the
    first element.
  - `BestFpsRange` is the best-so-far scan over fps ranges, seeded with the first range.
  - Both are loops proved against declarative selection rules,
    `IsOptimalSize` and `IsBestFps`. Lemmas show that each rule picks exactly one result.
  - The class `Camera1Recorder` is the lifecycle. Its fields are the camera handle, the
    recorder handle, the recording flag, the output file and whether it exists, the
    callback, and the log of callbacks fired.
  - Every Android `Camera`, `MediaRecorder` and `CamcorderProfile` call is a
    parameter saying how the call turned out:
    - `OpenResult` for `Camera.open`;
    - `configFault` for the parameter and preview calls of prepare;
    - `Profiles` for which camcorder profiles exist;
    - `fault` for the first step of start that throws;
    - `stopFails` for `MediaRecorder.stop`.

The aspect test `|w/h - tw/th| <= 0.1` is stated exactly over the integers, as
`10*|w*th - tw*h| <= |h*th|`, with both heights non-zero.

Points where the code's behaviour may surprise:

- The fps scan is seeded with the first range. When the first range is over the 30000
  cap, the scan keeps it, even if later ranges are under the cap.
- A failure of `setParameters`, `setPreviewDisplay` or `startPreview` in prepare
  propagates, and the camera handle stays open.
- start checks only for a camera handle, not for a completed prepare.
- The code has no invariant tying the camera handle to a prepared or recording state:
  a handle can outlive a failed prepare, and a failed start can leave the camera unlocked.
- The invariant kept by every public method (`Prepare`, `Start`, `Stop`, `Release`) is
  `Valid()`: a recorder handle is held exactly while recording. The private cleanup
  methods need not keep it on their own; `Start` and `Stop` restore it.

## Model

| member | source | states |
|---|---|---|
| ModeSelection.TierOf | app/src/main/java/com/kooo/evcam/CameraModeSelector.java:55-73 | FULL and LIMITED are the only recognised levels; null and every other value fall into the legacy bucket |
| ModeSelection.Count | app/src/main/java/com/kooo/evcam/CameraModeSelector.java:53-74 | a bucket never holds more cameras than the list |
| ModeSelection.CountPartition | app/src/main/java/com/kooo/evcam/CameraModeSelector.java:50-74 | full + limited + legacy counts add up to the number of cameras |
| ModeSelection.CountPositive | app/src/main/java/com/kooo/evcam/CameraModeSelector.java:53-74 | a count is positive exactly when some camera falls into that bucket |
| ModeSelection.CountAtLeastTwo | app/src/main/java/com/kooo/evcam/CameraModeSelector.java:53-74 | a count is at least 2 exactly when two distinct cameras fall into that bucket |
| ModeSelection.TallyLevels | app/src/main/java/com/kooo/evcam/CameraModeSelector.java:44-74 | the loop's counters equal the bucket counts of the list, the total is its length, and the counters partition it |
| ModeSelection.Decide | app/src/main/java/com/kooo/evcam/CameraModeSelector.java:85-105 | multi-camera iff sdk >= 23 and two FULL; CAMERA2_FULL iff sdk >= 23 and one FULL; from sdk 21 on the final CAMERA1_ONLY branch is unreachable; multi-camera only with CAMERA2_FULL |
| ModeSelection.SelectMode | app/src/main/java/com/kooo/evcam/CameraModeSelector.java:31-105 | below SDK 21, whatever the list, and on a camera-access failure, the result is CAMERA1_ONLY without multi-camera; CAMERA1_ONLY arises on no other path |
| ModeSelection.MultiCameraExactly | app/src/main/java/com/kooo/evcam/CameraModeSelector.java:86-89 | multi-camera iff sdk >= 23 and two distinct cameras report FULL |
| ModeSelection.FullModeExactly | app/src/main/java/com/kooo/evcam/CameraModeSelector.java:86-93 | CAMERA2_FULL iff sdk >= 23 and some camera reports FULL |
| ModeSelection.LimitedModeExactly | app/src/main/java/com/kooo/evcam/CameraModeSelector.java:94-97 | CAMERA2_LIMITED iff sdk >= 21, FULL did not win, and some camera reports LIMITED |
| ModeSelection.LegacyModeExactly | app/src/main/java/com/kooo/evcam/CameraModeSelector.java:98-101 | CAMERA2_LEGACY iff sdk >= 21, FULL did not win and no camera reports LIMITED; this includes the empty list and FULL cameras on SDK 21-22 |
| ModeSelection.UsesCamera2 | app/src/main/java/com/kooo/evcam/CameraModeSelector.java:118-120 | true iff the mode is not CAMERA1_ONLY |
| ModeSelection.IsLegacy | app/src/main/java/com/kooo/evcam/CameraModeSelector.java:122-124 | true iff the mode is CAMERA2_LEGACY or CAMERA1_ONLY |
| ModeSelection.RecommendedCameraCount | app/src/main/java/com/kooo/evcam/CameraModeSelector.java:129-135 | 4 iff multi-camera, 1 otherwise |
| ModeSelection.RecommendedResolution | app/src/main/java/com/kooo/evcam/CameraModeSelector.java:140-151 | "1920x1080" iff CAMERA2_FULL, "1280x720" for every other mode |
| ModeSelection.RecommendedFps | app/src/main/java/com/kooo/evcam/CameraModeSelector.java:156-167 | 30 iff CAMERA2_FULL, 20 iff CAMERA2_LIMITED, 15 iff a legacy mode |
| ModeSelection.PolicyConsistent | app/src/main/java/com/kooo/evcam/CameraModeSelector.java:129-167 | 4 cameras are recommended only with 1920x1080 at 30 fps; without Camera2 the policy is 1 camera, 1280x720, 15 fps |
| ModeSelection.CameraModeSelector.constructor | app/src/main/java/com/kooo/evcam/CameraModeSelector.java:27-108 | the imperative selectMode stores exactly SelectMode's mode and flag |
| ModeSelection.CameraModeSelector.GetMode | app/src/main/java/com/kooo/evcam/CameraModeSelector.java:110-112 | the stored mode is the classification of the constructor's inputs |
| ModeSelection.CameraModeSelector.IsMultiCameraSupported | app/src/main/java/com/kooo/evcam/CameraModeSelector.java:114-116 | true iff sdk >= 23, enumeration succeeded and at least two cameras are FULL |
| ModeSelection.CameraModeSelector.UseCamera2 | app/src/main/java/com/kooo/evcam/CameraModeSelector.java:118-120 | true iff sdk >= 21 and enumeration succeeded |
| ModeSelection.CameraModeSelector.IsLegacyMode | app/src/main/java/com/kooo/evcam/CameraModeSelector.java:122-124 | true iff no Camera2, or neither a FULL camera on sdk >= 23 nor any LIMITED camera |
| ModeSelection.CameraModeSelector.GetRecommendedCameraCount | app/src/main/java/com/kooo/evcam/CameraModeSelector.java:129-135 | 4 iff sdk >= 23, enumeration succeeded and at least two cameras are FULL, else 1; 4 only in CAMERA2_FULL |
| ModeSelection.CameraModeSelector.GetRecommendedResolution | app/src/main/java/com/kooo/evcam/CameraModeSelector.java:140-151 | "1920x1080" iff sdk >= 23, enumeration succeeded and some camera is FULL |
| ModeSelection.CameraModeSelector.GetRecommendedFps | app/src/main/java/com/kooo/evcam/CameraModeSelector.java:156-167 | 30 iff a trusted FULL camera exists; 15 iff legacy mode |
| FormatNegotiation.WithinAspectIsRatioTest | app/src/main/java/com/kooo/evcam/Camera1Recorder.java:270-286 | for non-zero heights, the integer aspect test WithinAspect (ten times the absolute cross difference w*th - tw*h is at most the absolute product h*th) holds exactly when w/h and tw/th differ by at most 0.1 over the reals |
| FormatNegotiation.ClosestHeight | app/src/main/java/com/kooo/evcam/Camera1Recorder.java:284-303 | one relaxed pass: None iff no size fits, else the index of the earliest fitting size with minimal height difference |
| FormatNegotiation.GetOptimalSize | app/src/main/java/com/kooo/evcam/Camera1Recorder.java:265-311 | the result follows IsOptimalSize: none for an empty list, then the exact match, the aspect pass, the width pass and the first element; a non-empty list always yields one of its elements |
| FormatNegotiation.ClosestUnique | app/src/main/java/com/kooo/evcam/Camera1Recorder.java:288-301 | the strict-`<` tie-break gives each pass a single winner |
| FormatNegotiation.OptimalSizeUnique | app/src/main/java/com/kooo/evcam/Camera1Recorder.java:265-311 | the selection rule determines the result uniquely |
| FormatNegotiation.OptimalSizeWithinCeiling | app/src/main/java/com/kooo/evcam/Camera1Recorder.java:295-308 | a result wider than the target can only be the first element, and then every size is wider than the target |
| FormatNegotiation.BestFpsRange | app/src/main/java/com/kooo/evcam/Camera1Recorder.java:78-88 | the range follows IsBestFps: with the first upper bound <= cap it is the earliest range with the highest upper bound <= cap; otherwise it is the first range |
| FormatNegotiation.BestFpsUnique | app/src/main/java/com/kooo/evcam/Camera1Recorder.java:80-85 | the fps rule determines the chosen range uniquely |
| Camera1.ChooseFocus | app/src/main/java/com/kooo/evcam/Camera1Recorder.java:91-98 | continuous-video focus if offered, else auto if offered, else none |
| Camera1.ChooseConfig | app/src/main/java/com/kooo/evcam/Camera1Recorder.java:147-171 | 720P if present, else 480P, else LOW, with the frame rate capped at 30; manual configuration exactly when no profile exists |
| Camera1.Camera1Recorder.constructor | app/src/main/java/com/kooo/evcam/Camera1Recorder.java:21-36 | a new recorder holds no handle, is not recording and has fired nothing |
| Camera1.Camera1Recorder.IsRecording | app/src/main/java/com/kooo/evcam/Camera1Recorder.java:225-228 | recording iff a recorder handle is held |
| Camera1.Camera1Recorder.Prepare | app/src/main/java/com/kooo/evcam/Camera1Recorder.java:39-122 | output file and callback are stored; a throwing open keeps the old camera, a null open clears it, both fail; an open camera gets the optimal 1280x720 preview size, the best fps range under 30000 and the focus preference; recorder, flag and log are untouched |
| Camera1.Camera1Recorder.Start | app/src/main/java/com/kooo/evcam/Camera1Recorder.java:125-197 | a no-op while recording; "not prepared" without a camera, changing nothing; success sets recording with the chosen configuration, unlocks the camera, makes the output file exist and logs one onRecordStarted; any failure leaves no recorder, not recording, no callback |
| Camera1.Camera1Recorder.Stop | app/src/main/java/com/kooo/evcam/Camera1Recorder.java:200-223 | a no-op when not recording; otherwise both handles are gone and recording is off; a failed stop deletes the file; onRecordStopped fires only if the file still exists |
| Camera1.Camera1Recorder.Release | app/src/main/java/com/kooo/evcam/Camera1Recorder.java:231-235 | from any state both handles are gone and recording is off; from an idle recorder without a camera nothing changes |
| Camera1.Camera1Recorder.ReleaseMediaRecorder | app/src/main/java/com/kooo/evcam/Camera1Recorder.java:237-247 | the recorder handle is gone and nothing else changes |
| Camera1.Camera1Recorder.ReleaseCamera | app/src/main/java/com/kooo/evcam/Camera1Recorder.java:249-260 | the camera handle is gone and nothing else changes |
| Camera1.RecordOnce | app/src/main/java/com/kooo/evcam/Camera1Recorder.java:125-223 | healthy prepare, start and stop log exactly onRecordStarted then onRecordStopped(path), and the file exists |
| Camera1.FailedStopDeletesFile | app/src/main/java/com/kooo/evcam/Camera1Recorder.java:205-222 | when the recorder's stop throws, the file is gone, recording is off and no onRecordStopped fires |
| Camera1.StopTwice | app/src/main/java/com/kooo/evcam/Camera1Recorder.java:200-203 | a second stop fires nothing and leaves the file as it was |
| Camera1.StartUnprepared | app/src/main/java/com/kooo/evcam/Camera1Recorder.java:131-133 | start before prepare fails with "not prepared" and holds no camera and no recorder |
| Camera1.ReleaseTwice | app/src/main/java/com/kooo/evcam/Camera1Recorder.java:231-260 | after a release the second release changes nothing and both handles stay gone |

## Left out

- Logging (`Log.*`) is left out; it is transport only.
- The Android `Camera`, `MediaRecorder`, `CamcorderProfile`, `CameraManager` and `SurfaceHolder` internals are left out. Their outcomes are method parameters.
- `Build.VERSION.SDK_INT` and the camera service are parameters too: the SDK level, and the camera list or `None` for CameraAccessException.
- The manual recorder configuration (container, codecs, 1280x720, bitrate) is collapsed into the one value `Manual`. Those settings are passed straight to the platform.
- Scene-mode selection, display orientation and the preview surface are left out. They are platform side effects; a failing orientation call is swallowed anyway.
- The video size that prepare computes but never applies is left out. It has no effect beyond logging.
- A null size list is treated as an empty one; `getOptimalSize` treats both the same.
- The aspect test is exact rational arithmetic, not double precision, so rounding at the 0.1 boundary is out of scope. A 0x0 size is treated as outside tolerance; in Java its NaN ratio passes the test.
- `Math.abs` on a height difference is unbounded here. With a target height of 720, Java's `size.height - targetHeight` overflows only for heights below Integer.MIN_VALUE + 720, near -2^31; positive heights never overflow.
- Camera1.Camera1Recorder.Start: a callback whose onRecordStarted throws is not modelled. In the source, that path leaves the recording flag set after the recorder is released. Callbacks are assumed to return normally.
- Camera1.Camera1Recorder.Start: a successful start is assumed to create the output file (`fileExists` becomes true). Creating the file is MediaRecorder's behaviour, not the class's; the onRecordStopped of a later healthy stop, and `RecordOnce`, rest on this assumption.
- Camera1.Camera1Recorder.Start: a start that fails partway leaves `fileExists` unchanged. Whether the platform created a partial file is not modelled.
- Camera1.Camera1Recorder.Prepare: a camera that is already open is overwritten when a new one opens. The old handle is not modelled as leaked.
- Camera1.Camera1Recorder.Prepare: after a `configFault`, the camera records the requested settings. How much of them the platform applied before throwing is not modelled.
- Camera1.Camera1Recorder.Stop: deleting the file is assumed to succeed.
- There is no concurrency in the code; calls on one recorder are sequential.
