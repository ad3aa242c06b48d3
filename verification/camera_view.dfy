/** CameraView: the widget that holds the facing, flash and picture mode,
    forwards configuration to the capture backend it owns, forwards display
    orientation changes to it, dispatches captures by picture mode, and
    saves and restores facing and flash. */
module CameraViewFacade {
  import opened Optional
  import opened CameraConstants
  import opened CaptureBackend
  import opened SavedStateCodec

  /** The backend calls capturePicture makes for a picture mode: the full
      capture for Quality, the still capture for Speed, none otherwise. */
  function CaptureDispatch(mode: int): (r: seq<BackendCall>)
    ensures r == [BackendCall.CapturePicture] <==> mode == PictureModeQuality
    ensures r == [BackendCall.CaptureStill] <==> mode == PictureModeSpeed
    ensures r == [] <==> !IsPictureMode(mode)
  {
    if mode == PictureModeQuality then [BackendCall.CapturePicture]
    else if mode == PictureModeSpeed then [BackendCall.CaptureStill]
    else []
  }

  class CameraView {
    var facing: int
    var flash: int
    var pictureMode: int
    var cameraListener: Option<ListenerRef>

    /** The capture backend; assigned once, by the constructor. */
    const cameraImpl: RecordingBackend
    /** The display orientation detector; assigned once, by the constructor. */
    const detector: RecordingDetector

    /** The backend was last told the facing this view holds. */
    ghost predicate FacingInSync()
      reads this, cameraImpl
    {
      LastConfigured(cameraImpl.calls, FacingSetting) == Some(facing)
    }

    /** The backend was last told the flash mode this view holds. */
    ghost predicate FlashInSync()
      reads this, cameraImpl
    {
      LastConfigured(cameraImpl.calls, FlashSetting) == Some(flash)
    }

    /** The view's facing and flash are the values the backend is
        configured with. */
    ghost predicate Valid()
      reads this, cameraImpl
    {
      FacingInSync() && FlashInSync()
    }

    /** The two-argument constructor: a fresh backend, then the facing and
        flash fields (still at Java's default 0) forwarded to it. */
    constructor ()
      ensures Valid()
      ensures facing == 0 && flash == 0 && pictureMode == 0 && cameraListener == None
      ensures fresh(cameraImpl) && fresh(detector)
      ensures cameraImpl.calls == [BackendCall.SetFacing(0), BackendCall.SetFlash(0)]
      ensures detector.calls == []
    {
      cameraImpl := new RecordingBackend();
      detector := new RecordingDetector();
      facing, flash, pictureMode, cameraListener := 0, 0, 0, None;
      new;
      SetFacing(facing);
      SetFlash(flash);
    }

    /** Attaching enables the detector with the default display when the
        view is attached to a window, and with null otherwise. */
    method OnAttachedToWindow(attachedToWindow: bool, defaultDisplay: Option<DisplayRef>)
      requires Valid()
      modifies detector
      ensures Valid()
      ensures detector.calls == old(detector.calls) + [DetectorCall.Enable(if attachedToWindow then defaultDisplay else None)]
    {
      detector.Enable(if attachedToWindow then defaultDisplay else None);
    }

    /** Detaching disables the detector; the backend is not stopped. */
    method OnDetachedFromWindow()
      requires Valid()
      modifies detector
      ensures Valid()
      ensures detector.calls == old(detector.calls) + [DetectorCall.Disable]
    {
      detector.Disable();
    }

    /** The detector's callback passes the new orientation to the backend
        unchanged. */
    method OnDisplayOrientationChanged(displayOrientation: int)
      requires Valid()
      modifies cameraImpl
      ensures Valid()
      ensures cameraImpl.calls == old(cameraImpl.calls) + [BackendCall.SetDisplayOrientation(displayOrientation)]
    {
      AppendOther(cameraImpl.calls, BackendCall.SetDisplayOrientation(displayOrientation));
      cameraImpl.SetDisplayOrientation(displayOrientation);
    }

    /** The state saved for a later restore: the current facing and flash. */
    method OnSaveInstanceState() returns (state: Parcelable)
      ensures state.ViewState? && state.saved.facing == facing && state.saved.flash == flash
    {
      state := ViewState(SavedState(facing, flash));
    }

    /** Restoring replays setFacing and then setFlash with the saved values;
        a state of any other kind changes nothing. */
    method OnRestoreInstanceState(state: Parcelable)
      requires Valid()
      modifies this, cameraImpl
      ensures Valid()
      ensures pictureMode == old(pictureMode) && cameraListener == old(cameraListener)
      ensures state.ViewState? ==> facing == state.saved.facing && flash == state.saved.flash
      ensures state.ViewState? ==>
                cameraImpl.calls == old(cameraImpl.calls)
                  + [BackendCall.SetFacing(state.saved.facing), BackendCall.SetFlash(state.saved.flash)]
      ensures state.OtherState? ==>
                facing == old(facing) && flash == old(flash) && cameraImpl.calls == old(cameraImpl.calls)
    {
      if !state.ViewState? {
        return;
      }
      var ss := state.saved;
      SetFacing(ss.facing);
      SetFlash(ss.flash);
    }

    method Start()
      requires Valid()
      modifies cameraImpl
      ensures Valid()
      ensures cameraImpl.calls == old(cameraImpl.calls) + [BackendCall.Start]
    {
      AppendOther(cameraImpl.calls, BackendCall.Start);
      cameraImpl.Start();
    }

    method Stop()
      requires Valid()
      modifies cameraImpl
      ensures Valid()
      ensures cameraImpl.calls == old(cameraImpl.calls) + [BackendCall.Stop]
    {
      AppendOther(cameraImpl.calls, BackendCall.Stop);
      cameraImpl.Stop();
    }

    /** Holds the facing and forwards it once; the flash setting the backend
        last received is untouched. */
    method SetFacing(f: int)
      modifies this, cameraImpl
      ensures facing == f && FacingInSync()
      ensures old(FlashInSync()) ==> FlashInSync()
      ensures flash == old(flash) && pictureMode == old(pictureMode) && cameraListener == old(cameraListener)
      ensures cameraImpl.calls == old(cameraImpl.calls) + [BackendCall.SetFacing(f)]
    {
      LastConfiguredAppend(cameraImpl.calls, [BackendCall.SetFacing(f)], FacingSetting);
      LastConfiguredAppend(cameraImpl.calls, [BackendCall.SetFacing(f)], FlashSetting);
      facing := f;
      cameraImpl.SetFacing(f);
    }

    /** Switches Back to Front and Front to Back through setFacing, and
        returns the facing now held; any other value is left alone and
        nothing is forwarded. */
    method ToggleFacing() returns (r: int)
      requires Valid()
      modifies this, cameraImpl
      ensures Valid()
      ensures facing == ToggledFacing(old(facing)) && r == facing
      ensures cameraImpl.calls == old(cameraImpl.calls)
                + if IsFacing(old(facing)) then [BackendCall.SetFacing(facing)] else []
      ensures flash == old(flash) && pictureMode == old(pictureMode) && cameraListener == old(cameraListener)
    {
      if facing == FacingBack {
        SetFacing(FacingFront);
      } else if facing == FacingFront {
        SetFacing(FacingBack);
      }
      r := facing;
    }

    /** Holds the flash mode and forwards it once; the facing the backend
        last received is untouched. */
    method SetFlash(f: int)
      modifies this, cameraImpl
      ensures flash == f && FlashInSync()
      ensures old(FacingInSync()) ==> FacingInSync()
      ensures facing == old(facing) && pictureMode == old(pictureMode) && cameraListener == old(cameraListener)
      ensures cameraImpl.calls == old(cameraImpl.calls) + [BackendCall.SetFlash(f)]
    {
      LastConfiguredAppend(cameraImpl.calls, [BackendCall.SetFlash(f)], FacingSetting);
      LastConfiguredAppend(cameraImpl.calls, [BackendCall.SetFlash(f)], FlashSetting);
      flash := f;
      cameraImpl.SetFlash(f);
    }

    /** Moves Off to On, On to Auto and Auto to Off through setFlash, and
        returns the flash mode now held; any other value is left alone and
        nothing is forwarded. */
    method ToggleFlash() returns (r: int)
      requires Valid()
      modifies this, cameraImpl
      ensures Valid()
      ensures flash == ToggledFlash(old(flash)) && r == flash
      ensures cameraImpl.calls == old(cameraImpl.calls)
                + if IsFlash(old(flash)) then [BackendCall.SetFlash(flash)] else []
      ensures facing == old(facing) && pictureMode == old(pictureMode) && cameraListener == old(cameraListener)
    {
      if flash == FlashOff {
        SetFlash(FlashOn);
      } else if flash == FlashOn {
        SetFlash(FlashAuto);
      } else if flash == FlashAuto {
        SetFlash(FlashOff);
      }
      r := flash;
    }

    /** Holds the picture mode; the backend is not told. */
    method SetPictureMode(mode: int)
      requires Valid()
      modifies this
      ensures Valid()
      ensures pictureMode == mode
      ensures facing == old(facing) && flash == old(flash) && cameraListener == old(cameraListener)
    {
      pictureMode := mode;
    }

    /** Holds the listener and registers it with the backend. */
    method SetCameraListener(listener: Option<ListenerRef>)
      requires Valid()
      modifies this, cameraImpl
      ensures Valid()
      ensures cameraListener == listener
      ensures facing == old(facing) && flash == old(flash) && pictureMode == old(pictureMode)
      ensures cameraImpl.calls == old(cameraImpl.calls) + [BackendCall.SetCameraListener(listener)]
    {
      AppendOther(cameraImpl.calls, BackendCall.SetCameraListener(listener));
      cameraListener := listener;
      cameraImpl.SetCameraListener(listener);
    }

    /** Full capture in Quality mode, still capture in Speed mode, nothing
        for any other mode; the view's own fields do not change. */
    method CapturePicture()
      requires Valid()
      modifies cameraImpl
      ensures Valid()
      ensures cameraImpl.calls == old(cameraImpl.calls) + CaptureDispatch(pictureMode)
    {
      if pictureMode == PictureModeQuality {
        AppendOther(cameraImpl.calls, BackendCall.CapturePicture);
        cameraImpl.CapturePicture();
      } else if pictureMode == PictureModeSpeed {
        AppendOther(cameraImpl.calls, BackendCall.CaptureStill);
        cameraImpl.CaptureStill();
      }
    }

    /** Saving and then restoring, with nothing in between, keeps facing and
        flash and forwards exactly the same two settings again, facing first. */
    method SaveThenRestore()
      requires Valid()
      modifies this, cameraImpl
      ensures Valid()
      ensures facing == old(facing) && flash == old(flash)
      ensures pictureMode == old(pictureMode) && cameraListener == old(cameraListener)
      ensures cameraImpl.calls == old(cameraImpl.calls)
                + [BackendCall.SetFacing(old(facing)), BackendCall.SetFlash(old(flash))]
    {
      var state := OnSaveInstanceState();
      OnRestoreInstanceState(state);
    }

    /** Two calls of toggleFacing in a row restore the facing. From a facing
        code they forward the other code and then the original one; from any
        other value they forward nothing. */
    method ToggleFacingTwice() returns (r: int)
      requires Valid()
      modifies this, cameraImpl
      ensures Valid()
      ensures r == facing && facing == old(facing)
      ensures flash == old(flash) && pictureMode == old(pictureMode) && cameraListener == old(cameraListener)
      ensures cameraImpl.calls == old(cameraImpl.calls)
                + if IsFacing(old(facing))
                  then [BackendCall.SetFacing(ToggledFacing(old(facing))), BackendCall.SetFacing(old(facing))]
                  else []
    {
      r := ToggleFacing();
      r := ToggleFacing();
    }

    /** Three calls of toggleFlash in a row restore the flash mode. From a
        flash code they forward the next two codes of the cycle and then the
        original one; from any other value they forward nothing. */
    method ToggleFlashThrice() returns (r: int)
      requires Valid()
      modifies this, cameraImpl
      ensures Valid()
      ensures r == flash && flash == old(flash)
      ensures facing == old(facing) && pictureMode == old(pictureMode) && cameraListener == old(cameraListener)
      ensures cameraImpl.calls == old(cameraImpl.calls)
                + if IsFlash(old(flash))
                  then [BackendCall.SetFlash(ToggledFlash(old(flash))),
                        BackendCall.SetFlash(ToggledFlash(ToggledFlash(old(flash)))),
                        BackendCall.SetFlash(old(flash))]
                  else []
    {
      r := ToggleFlash();
      r := ToggleFlash();
      r := ToggleFlash();
    }
  }

  /** A new view, attached to a window with the given display, started and
      given one flash toggle, then detached and saved. With the code values
      of CameraConstants, the defaults 0 are Back and Off, so the toggle
      returns On, the backend has seen the two constructor settings, the
      start and the new flash mode, the detector was enabled with the
      display and then disabled, and the saved state holds Back and On. */
  method DefaultSessionScenario(display: Option<DisplayRef>)
    returns (toggled: int, saved: Parcelable, ghost calls: seq<BackendCall>, ghost detectorCalls: seq<DetectorCall>)
    ensures toggled == FlashOn
    ensures saved == ViewState(SavedState(FacingBack, FlashOn))
    ensures calls == [BackendCall.SetFacing(FacingBack), BackendCall.SetFlash(FlashOff),
                      BackendCall.Start, BackendCall.SetFlash(FlashOn)]
    ensures detectorCalls == [DetectorCall.Enable(display), DetectorCall.Disable]
  {
    var view := new CameraView();
    view.OnAttachedToWindow(true, display);
    view.Start();
    toggled := view.ToggleFlash();
    view.OnDetachedFromWindow();
    saved := view.OnSaveInstanceState();
    calls := view.cameraImpl.calls;
    detectorCalls := view.detector.calls;
  }
}
