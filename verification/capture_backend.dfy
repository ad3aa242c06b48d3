/** The collaborators CameraView owns, seen only through the calls it makes
    on them: the capture backend (a Camera2 in the library) and the display
    orientation detector. Each is a recorder whose ghost log lists, in order,
    every call the view has made on it. */
module CaptureBackend {
  import opened Optional

  /** An opaque identity for a CameraListener object. */
  type ListenerRef = nat

  /** An opaque identity for a Display object. */
  type DisplayRef = nat

  /** One call on the capture backend. */
  datatype BackendCall =
    | Start
    | Stop
    | SetFacing(facing: int)
    | SetFlash(flash: int)
    | SetDisplayOrientation(displayOrientation: int)
    | CapturePicture
    | CaptureStill
    | SetCameraListener(listener: Option<ListenerRef>)

  /** One call on the display orientation detector; Enable carries the
      display it was given, None standing for Java's null. */
  datatype DetectorCall = Enable(display: Option<DisplayRef>) | Disable

  /** The two settings the view forwards to the backend. */
  datatype Setting = FacingSetting | FlashSetting

  /** The value a call configures for a setting, if it configures it. */
  function Configures(c: BackendCall, s: Setting): (r: Option<int>)
  {
    match c
    case SetFacing(f) => if s == FacingSetting then Some(f) else None
    case SetFlash(f) => if s == FlashSetting then Some(f) else None
    case _ => None
  }

  /** The value the backend was last configured with for setting s: the
      argument of the last call in the log that configures s, if any. */
  function LastConfigured(calls: seq<BackendCall>, s: Setting): (r: Option<int>)
    ensures r.None? <==> forall i :: 0 <= i < |calls| ==> Configures(calls[i], s).None?
    ensures r.Some? ==> exists i :: 0 <= i < |calls| && Configures(calls[i], s) == r
                                    && forall j :: i < j < |calls| ==> Configures(calls[j], s).None?
  {
    if calls == [] then None
    else
      var n := |calls| - 1;
      if Configures(calls[n], s).Some? then Configures(calls[n], s)
      else
        assert forall i :: 0 <= i < n ==> calls[..n][i] == calls[i];
        LastConfigured(calls[..n], s)
  }

  /** Appending calls to the log changes the last configured value only when
      the appended calls configure that setting themselves. */
  lemma {:induction false} LastConfiguredAppend(calls: seq<BackendCall>, more: seq<BackendCall>, s: Setting)
    ensures LastConfigured(calls + more, s)
         == if LastConfigured(more, s).Some? then LastConfigured(more, s) else LastConfigured(calls, s)
  {
    if more != [] {
      var n := |more| - 1;
      assert (calls + more)[|calls + more| - 1] == more[n];
      assert (calls + more)[..|calls + more| - 1] == calls + more[..n];
      LastConfiguredAppend(calls, more[..n], s);
    } else {
      assert calls + more == calls;
    }
  }

  /** A call that configures neither facing nor flash leaves both last
      configured values as they were. */
  lemma AppendOther(calls: seq<BackendCall>, c: BackendCall)
    requires !c.SetFacing? && !c.SetFlash?
    ensures LastConfigured(calls + [c], FacingSetting) == LastConfigured(calls, FacingSetting)
    ensures LastConfigured(calls + [c], FlashSetting) == LastConfigured(calls, FlashSetting)
  {
  }

  /** The capture backend, as the sequence of calls made on it. */
  class RecordingBackend {
    ghost var calls: seq<BackendCall>

    constructor ()
      ensures calls == []
    {
      calls := [];
    }

    method Start()
      modifies this
      ensures calls == old(calls) + [BackendCall.Start]
    {
      calls := calls + [BackendCall.Start];
    }

    method Stop()
      modifies this
      ensures calls == old(calls) + [BackendCall.Stop]
    {
      calls := calls + [BackendCall.Stop];
    }

    method SetFacing(facing: int)
      modifies this
      ensures calls == old(calls) + [BackendCall.SetFacing(facing)]
    {
      calls := calls + [BackendCall.SetFacing(facing)];
    }

    method SetFlash(flash: int)
      modifies this
      ensures calls == old(calls) + [BackendCall.SetFlash(flash)]
    {
      calls := calls + [BackendCall.SetFlash(flash)];
    }

    method SetDisplayOrientation(displayOrientation: int)
      modifies this
      ensures calls == old(calls) + [BackendCall.SetDisplayOrientation(displayOrientation)]
    {
      calls := calls + [BackendCall.SetDisplayOrientation(displayOrientation)];
    }

    method CapturePicture()
      modifies this
      ensures calls == old(calls) + [BackendCall.CapturePicture]
    {
      calls := calls + [BackendCall.CapturePicture];
    }

    method CaptureStill()
      modifies this
      ensures calls == old(calls) + [BackendCall.CaptureStill]
    {
      calls := calls + [BackendCall.CaptureStill];
    }

    method SetCameraListener(listener: Option<ListenerRef>)
      modifies this
      ensures calls == old(calls) + [BackendCall.SetCameraListener(listener)]
    {
      calls := calls + [BackendCall.SetCameraListener(listener)];
    }
  }

  /** The display orientation detector, as the sequence of calls made on it. */
  class RecordingDetector {
    ghost var calls: seq<DetectorCall>

    constructor ()
      ensures calls == []
    {
      calls := [];
    }

    method Enable(display: Option<DisplayRef>)
      modifies this
      ensures calls == old(calls) + [DetectorCall.Enable(display)]
    {
      calls := calls + [DetectorCall.Enable(display)];
    }

    method Disable()
      modifies this
      ensures calls == old(calls) + [DetectorCall.Disable]
    {
      calls := calls + [DetectorCall.Disable];
    }
  }
}
