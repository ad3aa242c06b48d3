/** CameraView.SavedState: the facing and flash kept across a destroy and
    recreate cycle, and the order in which they travel through a parcel.
    A parcel is a sequence of ints; a read starts at a cursor position,
    just after whatever the superclass state put before it. */
module SavedStateCodec {
  import opened Optional

  datatype SavedState = SavedState(facing: int, flash: int)

  /** What onRestoreInstanceState may be handed: a SavedState of this view,
      or a state of some other kind. */
  datatype Parcelable = ViewState(saved: SavedState) | OtherState

  /** writeToParcel: the facing, then the flash, after what is already in
      the parcel. */
  function WriteToParcel(s: SavedState, out: seq<int>): (r: seq<int>)
    ensures |r| == |out| + 2 && r[..|out|] == out
    ensures r[|out|] == s.facing && r[|out| + 1] == s.flash
  {
    out + [s.facing, s.flash]
  }

  /** The parcel constructor: read the facing and then the flash at position
      pos, giving the state and the position after it; None when fewer than
      two ints remain. */
  function ReadFromParcel(source: seq<int>, pos: nat): (r: Option<(SavedState, nat)>)
    ensures r.Some? <==> pos + 2 <= |source|
    ensures r.Some? ==> r.value.1 == pos + 2
    ensures r.Some? ==> r.value.0 == SavedState(source[pos], source[pos + 1])
  {
    if pos + 2 <= |source| then Some((SavedState(source[pos], source[pos + 1]), pos + 2))
    else None
  }

  /** Reading back at the position where a state was written yields that
      state, whatever came before it and whatever is written after it. */
  lemma ReadAfterWrite(s: SavedState, out: seq<int>, rest: seq<int>)
    ensures ReadFromParcel(WriteToParcel(s, out) + rest, |out|) == Some((s, |out| + 2))
  {
  }

  /** Conversely, a successful read at pos consumed exactly what writing the
      state it returned would put after the first pos ints. */
  lemma WriteAfterRead(source: seq<int>, pos: nat)
    requires ReadFromParcel(source, pos).Some?
    ensures WriteToParcel(ReadFromParcel(source, pos).value.0, source[..pos]) == source[..pos + 2]
  {
  }
}
