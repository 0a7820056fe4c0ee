# Gaze and EEG decision loops of the VR RSVP experiment

This project models, in Dafny, the two per-frame decision loops of a VR
Rapid Serial Visual Presentation (RSVP) experiment and proves their
properties.

- **The gaze-target / EEG gate** (`RSVPController` in
  `Assets/Scripts/CameraCapture.cs`). Each frame casts a ray from the headset
  camera. A hit on an object tagged "Target" marks the target as detected and
  spawns a label at its position. It then pulls one EEG sample; if a sample
  arrived, the EEG flag becomes "the peak channel value is above 0.5". The
  object is destroyed only when the flag is set and the object is also tagged
  "Robot". A Unity object carries exactly one tag and this one was just found
  to be "Target", so the destroy branch is never taken. The model proves that.
- **The gaze-window classifier** (`Eyetracking/FixationDetection.py`). Each
  pass of the image loop decodes a 4-byte gaze payload into two signed 16-bit
  integers and flips y against the image extent. It appends the point to a
  10-slot history. Once the history is full it tests for a fixation (every
  point equals the oldest) and for a saccade (some point differs from the
  newest). The source compares `sqrt(S)` with 0.7, where `S` is a natural
  number, so these are exact integer predicates. On a full window exactly one
  of them fires.

Files:

- `common.dfy`: module `Common` (`Option`, `Result`, `Vec3`).
- `gaze_target.dfy`: module `GazeTarget`. The frame rule is written on values
  (`EEGCheck`, `Step`, `Run`). The class `RSVPController` has the source's
  fields; its methods `CheckEEGSignal` and `Update` are proved to follow
  `EEGCheck` and `Step`.
- `gaze_payload.dfy`: module `GazePayload` (decoding of the `'hh'` payload and
  its inverse).
- `gaze_window.dfy`: module `GazeWindow` (the bounded history, the
  displacement sums, the fixation and saccade tests).
- `fixation_detection.dfy`: module `FixationDetection`. The class
  `EyeEventLoop` holds the loop's state (history, gaze object position, pushed
  samples). `Iterate` is one pass of the loop; `Run` is the loop over a finite
  message stream.

Engine and library calls are inputs and outputs:

- `Physics.Raycast` becomes a `Raycast` input.
- `pull_sample` becomes a `Pull` input: the integer the source reads back and
  the channel values the library writes into the buffer.
- `Instantiate` and `Destroy` become the `Effects` of a frame.
- The ZeroMQ message becomes a `Frame`: its gaze bytes plus the position that
  the scene lookup of the "Gaze" object returns.
- LSL `push_sample` calls are appended to an event list.
- `image_shape[1]`, which `Eyetracking/configs.py` does not define, is the
  constructor parameter `height`.

Two behaviours of the code that are easy to miss:

- **No EEG sample.** A pull that returns 0 leaves `isEEGSignalDetected` at
  its previous value; it is not reset to false (`CameraCapture.cs:75-87`).
- **Destroy condition.** The destroy test asks for the tag "Robot" on an
  object just found to carry the single tag "Target"
  (`CameraCapture.cs:39, 52`), so it never fires.

## Model

| member | source | states |
|---|---|---|
| `GazeTarget.Max` | Assets/Scripts/CameraCapture.cs:95 | `Mathf.Max`: 0 on an empty buffer, otherwise an element of the buffer that no element exceeds |
| `GazeTarget.IsEEGSignalDetected` | Assets/Scripts/CameraCapture.cs:90-97 | detected iff some channel value is strictly above 0.5 |
| `GazeTarget.EEGCheck` | Assets/Scripts/CameraCapture.cs:72-88 | a pull with count > 0 overwrites the buffer and sets the flag to "some value > 0.5". A count <= 0 changes nothing: the flag is kept, not cleared. The target fields never change |
| `GazeTarget.Step` | Assets/Scripts/CameraCapture.cs:33-70 | a miss or a non-"Target" hit resets `isTargetDetected`/`currentTarget`, spawns and destroys nothing, and leaves the EEG flag and buffer unchanged. A "Target" hit records the object and spawns exactly one label at its position; its buffer is overwritten by a delivered sample and its flag follows that sample; without a sample both are kept. No frame destroys anything |
| `GazeTarget.RunNeverDestroys` | Assets/Scripts/CameraCapture.cs:39-55 | over any sequence of frames, no frame destroys an object |
| `GazeTarget.FlagKeptWithoutTargetHit` | Assets/Scripts/CameraCapture.cs:36-69 | over frames with no "Target" hit, the EEG flag and the sample buffer end as they started |
| `GazeTarget.FlagKeptWithoutSample` | Assets/Scripts/CameraCapture.cs:75-87 | over frames whose pulls deliver no sample, the EEG flag ends as it started |
| `GazeTarget.RSVPController.constructor` | Assets/Scripts/CameraCapture.cs:24-31 | the buffer is fresh, has one slot per stream channel, and both flags start false with no target |
| `GazeTarget.RSVPController.CheckEEGSignal` | Assets/Scripts/CameraCapture.cs:72-88 | the fields and the in-place buffer end as `EEGCheck` prescribes |
| `GazeTarget.RSVPController.Update` | Assets/Scripts/CameraCapture.cs:33-70 | fields, buffer and effects follow `Step`. The buffer array is the one allocated in `Start`. "`isTargetDetected` iff there is a current target, always tagged Target" is preserved. Nothing is destroyed |
| `GazePayload.DecodeGaze` | Eyetracking/FixationDetection.py:56-60 | succeeds iff the payload has exactly 4 bytes, else reports the length; both values lie in [-32768, 32767] |
| `GazePayload.EncodeInt16` | Eyetracking/FixationDetection.py:60 | the two's-complement little-endian bytes of a 16-bit value decode back to it |
| `GazePayload.DecodeEncode` | Eyetracking/FixationDetection.py:60 | decoding an encoded coordinate pair returns the pair |
| `GazePayload.EncodeDecode` | Eyetracking/FixationDetection.py:60 | every 4-byte payload is re-encoded exactly from what it decodes to |
| `GazeWindow.FlipYInvolution` | Eyetracking/FixationDetection.py:61 | the y-flip keeps x, the new y plus the old y equals the image extent, and flipping twice restores the point |
| `GazeWindow.Append` | Eyetracking/FixationDetection.py:42-65 | the history never exceeds 10 points and ends with the new point. A non-full history grows by one; a full one drops its oldest point. The result is the 10 most recent points in arrival order |
| `GazeWindow.AppendAllKeepsMostRecent` | Eyetracking/FixationDetection.py:18-65 | after any number of appends the history is the 10 most recent points of everything appended, in order |
| `GazeWindow.Displacement` | Eyetracking/FixationDetection.py:70 | the sum of squared distances to an anchor is non-negative and is 0 iff every point equals the anchor |
| `GazeWindow.Fixation` | Eyetracking/FixationDetection.py:70-71 | fires iff the displacement from the oldest point is below 0.7 squared, iff every point equals the oldest point |
| `GazeWindow.Saccade` | Eyetracking/FixationDetection.py:80-81 | fires iff the displacement from the newest point is above 0.7 squared, iff some point differs from the newest point |
| `GazeWindow.RootAgainstThreshold` | Eyetracking/FixationDetection.py:70-81 | for the square root of a whole-number displacement, being below 0.7 means the displacement is 0 and being above 0.7 means it is not |
| `GazeWindow.FixationByRoot` | Eyetracking/FixationDetection.py:70-71 | `sqrt(displacement from the oldest point) < 0.7` holds exactly when `Fixation` fires |
| `GazeWindow.SaccadeByRoot` | Eyetracking/FixationDetection.py:80-81 | `sqrt(displacement from the newest point) > 0.7` holds exactly when `Saccade` fires |
| `GazeWindow.FixationXorSaccade` | Eyetracking/FixationDetection.py:68-87 | on a non-empty window exactly one of fixation and saccade fires |
| `FixationDetection.GazePoint` | Eyetracking/FixationDetection.py:60-61 | the gaze point keeps the decoded x, and its y plus the decoded y equals the image extent |
| `FixationDetection.DetectEvents` | Eyetracking/FixationDetection.py:49-87 | no test runs before the history holds 10 points. Each sample array is all -1 unless its event fired, in which case it holds the looked-up gaze position and is pushed. With a full history exactly one event is pushed, never to the gaze outlet |
| `FixationDetection.GazeTrailOfPass` | Eyetracking/FixationDetection.py:100-103 | a pass adds exactly one sample to the gaze outlet's stream, whatever events it pushes first |
| `FixationDetection.PassPushes` | Eyetracking/FixationDetection.py:65-103 | a completed pass pushes two samples once the history is full and one before, the last of them always the gaze coordinate `(x, y, 0)` on the gaze outlet and none before it on that outlet |
| `FixationDetection.PassPushesGazeTrail` | Eyetracking/FixationDetection.py:100-103 | of everything a pass pushes, the gaze outlet receives exactly its `(x, y, 0)` |
| `FixationDetection.RunPushes` | Eyetracking/FixationDetection.py:47-103 | the passes together push between one and two samples per pass |
| `FixationDetection.RunPushesGazeTrail` | Eyetracking/FixationDetection.py:47-103 | over any number of completed passes, the gaze outlet receives one `(x, y, 0)` per pass, in pass order |
| `FixationDetection.EyeEventLoop.constructor` | Eyetracking/FixationDetection.py:38-42 | the history and the pushed events start empty; the gaze object starts at (0, 0, 0) |
| `FixationDetection.EyeEventLoop.Iterate` | Eyetracking/FixationDetection.py:47-103 | a payload that is not 4 bytes fails with nothing changed. Otherwise the flipped point is appended and the gaze object moves to `(x, y, 0)`. Fixation and saccade samples are pushed as `DetectEvents` states, then `(x, y, 0)` on the gaze outlet. Together these are `PassPushes` of the old history. A full history pushes exactly two samples, a non-full one exactly one |
| `FixationDetection.EyeEventLoop.Run` | Eyetracking/FixationDetection.py:47-110 | the loop runs until the stream ends or a payload fails to decode, and reports that failure. It stops only at a payload that is not 4 bytes, and every earlier payload is 4 bytes. The history is then the 10 most recent points of all completed passes. Every push of the run, fixation and saccade samples included, is `RunPushes`: each completed pass pushes `PassPushes` of the history it started from, in order. The gaze object stands where the last completed pass put it, or where it was if no pass completed. The gaze outlet received one `(x, y, 0)` per completed pass, in order |

## Left out

- The real square root itself: the model has none. `FixationByRoot` and
  `SaccadeByRoot` hold for any non-negative root of the displacement.
- Floating point: EEG samples and scene positions are exact `real`s, not
  IEEE `float`/`float64`, and NaN is not modelled. The `float32` format of the
  LSL outlets is not modelled either.
- `np.sum` over `int64`: overflow is not modelled (coordinates are unbounded
  integers). It cannot occur for 16-bit coordinates and a realistic image
  extent.
- Byte order: `'hh'` uses the host's byte order. The model fixes it to
  little-endian.
- `pull_sample` returns a `double` timestamp, and the source casts it to
  `int`. The model takes the cast result as the input `available`; the cast
  itself is not modelled. The model also assumes that the library leaves the
  buffer untouched when no sample arrives.
- `resolve_stream("type=EEG")[0]` and the stream inlet: the resolved stream's
  channel count is the constructor parameter. The failure when no stream
  exists is not modelled. The unused `timestamps` buffer is left out.
- `Physics.Raycast` (ray geometry, layer mask), `Instantiate`, `Destroy` and
  object lifetimes are engine calls. They are inputs and outputs here; object
  identity is a value, not a reference.
- Blink detection (`FixationDetection.py:89-94`). It uses float `np.std` over
  image means and an `img_patch` name that `Eyetracking/configs.py` does not
  define.
- Image decoding, drawing and display (`cv2`), the ZeroMQ subscription, and
  `KeyboardInterrupt` handling are I/O.
- The scene lookup of the "Gaze" object (`unity_sdk`): the position it returns
  is an opaque input of each pass.
- The RSVP block/trial controller and stimulus fading (`Event Marker/`) are
  not part of this model. They only call into a session script
  (`InsertEventMarkers`) and an item manager (`StartBlock`); the marker
  channel and the item catalog behind those calls are not in these files. Neither are the EEG
  classifier in `SVMModel/OpenBCISVMModel.py` and the constants in
  `Eyetracking/configs.py`.
