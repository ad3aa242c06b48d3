# CameraKit `CameraView`, modelled in Dafny

This project models the control core of CameraKit's `CameraView` widget.
`CameraView` holds three settings: the facing (back or front camera), the
flash mode (off, on or auto) and the picture mode (quality or speed). It owns
a capture backend and forwards every facing and flash change to it. It cycles
facing and flash with two toggles. It sends a capture request to the backend
as a full capture or a still capture, depending on the picture mode. It
forwards display orientation changes from its orientation detector to the
backend. It saves facing and flash into a `SavedState` and restores them by
replaying the two setters. The `SavedState` travels through a parcel as two
ints: facing, then flash.

Layout:

- `camera_constants.dfy` (module `CameraConstants`): the facing, flash and
  picture-mode codes. Also the pure toggle functions `ToggledFacing` and
  `ToggledFlash`, and lemmas about repeated toggling.
- `capture_backend.dfy` (module `CaptureBackend`): the backend and the
  orientation detector as recorder classes. Each keeps a ghost log of the
  calls made on it. `LastConfigured` gives the facing or flash value that the
  log last configured.
- `saved_state.dfy` (module `SavedStateCodec`): `SavedState`, and the parcel
  write and read as functions over `seq<int>` with a read cursor.
- `camera_view.dfy` (module `CameraViewFacade`): the `CameraView` class.
  Its invariant `Valid()` says that the facing and flash the view holds are
  the values the backend was last configured with. Every method keeps it.
- `optional.dfy` (module `Optional`): `Option`, which stands for Java's `null`.

`CameraView.java` re-exports the codes from `Constants.java`, which is not
part of this model. The model assumes `FACING_BACK` 0, `FACING_FRONT` 1,
`FLASH_OFF` 0, `FLASH_ON` 1, `FLASH_AUTO` 2, `PICTURE_MODE_QUALITY` 0 and
`PICTURE_MODE_SPEED` 1. Only two readings depend on these values; every other
contract needs only that the codes within each group are distinct. The fields
stay plain `int`, as in the source, so a field can hold a value outside its
group. The toggles and the capture dispatch then take their silent `switch`
default.

The two-argument constructor forwards the fields' Java default 0 to the
backend. Whether 0 is a legal facing, flash or picture-mode code depends on
the assumed values above.

The code keeps no session state: `start` and `stop` are forwarded in every
state, and detaching disables the detector without stopping the backend.

## Model

| member | source | states |
|---|---|---|
| `CameraConstants.ToggledFacing` | camerakit/src/main/java/com/wonderkiln/camerakit/CameraView.java:133-146 | a facing code moves to the next code of the cycle Back, Front, so the result is the other facing code; any other value is returned unchanged |
| `CameraConstants.ToggleFacingTwice` | camerakit/src/main/java/com/wonderkiln/camerakit/CameraView.java:133-146 | toggling the facing twice gives back the starting value, legal or not |
| `CameraConstants.FacingAfterParity` | camerakit/src/main/java/com/wonderkiln/camerakit/CameraView.java:133-146 | after n toggles the facing is the start value when n is even and the toggled value when n is odd |
| `CameraConstants.ToggledFlash` | camerakit/src/main/java/com/wonderkiln/camerakit/CameraView.java:153-170 | a flash code moves to the next code of the cycle Off, On, Auto, Off, and the result is a different flash code; any other value is returned unchanged |
| `CameraConstants.FlashAfterThree` | camerakit/src/main/java/com/wonderkiln/camerakit/CameraView.java:153-170 | three flash toggles return to the starting value |
| `CameraConstants.FlashAfterPeriod` | camerakit/src/main/java/com/wonderkiln/camerakit/CameraView.java:153-170 | the flash mode after n toggles depends only on n mod 3 |
| `CameraConstants.FlashOrbit` | camerakit/src/main/java/com/wonderkiln/camerakit/CameraView.java:153-170 | from a flash code, any number of toggles stays among the flash codes; from any other value it never moves |
| `CameraConstants.FlashCycleCovered` | camerakit/src/main/java/com/wonderkiln/camerakit/CameraView.java:153-170 | from any flash code, the start value and the values after one and two toggles are exactly Off, On and Auto, so every flash code is reachable |
| `CaptureBackend.LastConfigured` | camerakit/src/main/java/com/wonderkiln/camerakit/CameraView.java:128-151 | the backend's current facing or flash is the argument of the last call in its log that sets it; there is none exactly when no call sets it |
| `CaptureBackend.LastConfiguredAppend` | camerakit/src/main/java/com/wonderkiln/camerakit/CameraView.java:128-151 | after more calls, the current setting comes from the new calls if they set it, and otherwise it is unchanged |
| `SavedStateCodec.WriteToParcel` | camerakit/src/main/java/com/wonderkiln/camerakit/CameraView.java:219-224 | writing keeps everything already in the parcel and adds exactly two ints: the facing, then the flash |
| `SavedStateCodec.ReadFromParcel` | camerakit/src/main/java/com/wonderkiln/camerakit/CameraView.java:209-213 | a read succeeds exactly when two ints remain at the cursor; the first becomes the facing and the second the flash, and the cursor moves past both |
| `SavedStateCodec.ReadAfterWrite` | camerakit/src/main/java/com/wonderkiln/camerakit/CameraView.java:209-224 | reading at the place where a state was written gives back that facing and flash, whatever comes before or after them |
| `SavedStateCodec.WriteAfterRead` | camerakit/src/main/java/com/wonderkiln/camerakit/CameraView.java:209-224 | a successful read consumed exactly the two ints that writing the state it returned would add |
| `CameraViewFacade.CaptureDispatch` | camerakit/src/main/java/com/wonderkiln/camerakit/CameraView.java:181-190 | Quality maps to exactly one full capture and Speed to exactly one still capture; every other mode maps to no call |
| `CameraViewFacade.CameraView.constructor` | camerakit/src/main/java/com/wonderkiln/camerakit/CameraView.java:66-81 | a fresh backend receives the default facing and then the default flash (both Java's 0), the invariant holds, and the detector has not been called |
| `CameraViewFacade.CameraView.OnAttachedToWindow` | camerakit/src/main/java/com/wonderkiln/camerakit/CameraView.java:83-91 | the detector is enabled once, with the default display when the view is attached to a window and with null otherwise; the invariant is kept |
| `CameraViewFacade.CameraView.OnDetachedFromWindow` | camerakit/src/main/java/com/wonderkiln/camerakit/CameraView.java:93-97 | the detector is disabled once; the backend gets no call and the invariant is kept |
| `CameraViewFacade.CameraView.OnDisplayOrientationChanged` | camerakit/src/main/java/com/wonderkiln/camerakit/CameraView.java:75-80 | the orientation goes to the backend unchanged as one call; the invariant is kept |
| `CameraViewFacade.CameraView.OnSaveInstanceState` | camerakit/src/main/java/com/wonderkiln/camerakit/CameraView.java:99-105 | the saved state is a view state holding the current facing and flash |
| `CameraViewFacade.CameraView.OnRestoreInstanceState` | camerakit/src/main/java/com/wonderkiln/camerakit/CameraView.java:107-118 | a view state sets facing and flash and forwards exactly SetFacing then SetFlash; any other state changes no field and makes no call |
| `CameraViewFacade.CameraView.SaveThenRestore` | camerakit/src/main/java/com/wonderkiln/camerakit/CameraView.java:99-118 | restoring what was just saved keeps facing and flash and forwards the same two values again, facing first |
| `CameraViewFacade.CameraView.Start` | camerakit/src/main/java/com/wonderkiln/camerakit/CameraView.java:120-122 | exactly one start call is forwarded; no field of the view changes |
| `CameraViewFacade.CameraView.Stop` | camerakit/src/main/java/com/wonderkiln/camerakit/CameraView.java:124-126 | exactly one stop call is forwarded; no field of the view changes |
| `CameraViewFacade.CameraView.SetFacing` | camerakit/src/main/java/com/wonderkiln/camerakit/CameraView.java:128-131 | the facing becomes f and exactly one SetFacing(f) is forwarded; flash, picture mode and listener are unchanged, and the backend's flash stays in sync |
| `CameraViewFacade.CameraView.ToggleFacing` | camerakit/src/main/java/com/wonderkiln/camerakit/CameraView.java:133-146 | the facing becomes its toggle and is returned; one SetFacing of the new value is forwarded for a facing code and nothing for any other value |
| `CameraViewFacade.CameraView.SetFlash` | camerakit/src/main/java/com/wonderkiln/camerakit/CameraView.java:148-151 | the flash becomes f and exactly one SetFlash(f) is forwarded; facing, picture mode and listener are unchanged, and the backend's facing stays in sync |
| `CameraViewFacade.CameraView.ToggleFlash` | camerakit/src/main/java/com/wonderkiln/camerakit/CameraView.java:153-170 | the flash becomes its toggle and is returned; one SetFlash of the new value is forwarded for a flash code and nothing for any other value |
| `CameraViewFacade.CameraView.SetPictureMode` | camerakit/src/main/java/com/wonderkiln/camerakit/CameraView.java:172-174 | only the picture mode changes, the backend gets no call, and the invariant is kept |
| `CameraViewFacade.CameraView.SetCameraListener` | camerakit/src/main/java/com/wonderkiln/camerakit/CameraView.java:176-179 | the listener is held and registered with the backend by one call; facing, flash and picture mode are unchanged |
| `CameraViewFacade.CameraView.CapturePicture` | camerakit/src/main/java/com/wonderkiln/camerakit/CameraView.java:181-190 | the backend receives exactly the dispatch for the current picture mode; no field of the view changes |
| `CameraViewFacade.CameraView.ToggleFacingTwice` | camerakit/src/main/java/com/wonderkiln/camerakit/CameraView.java:133-146 | on the view, two facing toggles in a row restore the facing and return it; from a facing code they forward the other code and then the original one, otherwise nothing; flash, picture mode and listener are kept |
| `CameraViewFacade.CameraView.ToggleFlashThrice` | camerakit/src/main/java/com/wonderkiln/camerakit/CameraView.java:153-170 | on the view, three flash toggles in a row restore the flash mode and return it; from a flash code they forward the next two codes of the cycle and then the original one, otherwise nothing; facing, picture mode and listener are kept |
| `CameraViewFacade.DefaultSessionScenario` | camerakit/src/main/java/com/wonderkiln/camerakit/CameraView.java:66-170 | construct, attach, start, toggle the flash once, detach and save: the toggle returns On, the backend sees SetFacing(Back), SetFlash(Off), Start, SetFlash(On), the detector sees Enable(display) then Disable, and the save holds Back and On (under the assumed code values) |

## Left out

- CameraViewFacade.CameraView.constructor: reading its forwarded 0 as Back and Off, and its picture mode 0 as Quality, rests on the assumed code values, because `Constants.java` is not part of this model.
- CameraViewFacade.DefaultSessionScenario: its expected Back, Off and On values rest on the same assumed code values.

- Android view plumbing: the `FrameLayout` superclass calls, the preview surface and the display lookup in `onAttachedToWindow`. The lookup's result and `isAttachedToWindow` are parameters of `OnAttachedToWindow`.
- `DisplayOrientationDetector` internals: sensor callbacks on a platform thread, and when it notifies. The detector is a recorder of `enable` and `disable` calls. The callback the view installs is `OnDisplayOrientationChanged`.
- The `Camera2` backend and the asynchronous delivery of capture results to the `CameraListener`. Both are platform code outside this model. The backend is a recorder of the calls the view makes. Listeners are opaque identities.
- The listener passed to the `Camera2` constructor: `mCameraListener` is always null at that point, and the recorder does not log constructor arguments.
- The `Parcelable` `CREATOR`, the `ClassLoader`, the superclass state saved and restored beside `SavedState`, and `Parcel` internals. The superclass state is the part of the parcel before the read cursor.
- `ReadFromParcel`: returns None when fewer than two ints remain. An Android `Parcel` would return 0 instead; that is `Parcel` behaviour, not part of this model.
- The empty video stubs `startRecordingVideo` and `stopRecordingVideo`, and the unused fields `mDefaultFacing`, `mDefaultFlash` and `mAdjustViewBounds`.
- The one-argument constructor. It leaves the backend and the detector null. Attaching the view, and every call that reaches the backend (`setFacing`, `setFlash`, `setCameraListener`, `start`, `stop`, the toggles, and `capturePicture` in a recognised mode), would fail with a null dereference. `setPictureMode` alone would not fail.
- 32-bit integer width: the view only stores and compares its ints and does no arithmetic on them, so Dafny's unbounded `int` behaves the same.
- Concurrency between the detector's callback thread and the caller's thread: the model is sequential.
