/** The facing, flash and picture-mode codes of CameraView, and the cycles
    that toggleFacing and toggleFlash walk through.

    The codes are plain ints, as in the library; a field holding some other
    int is possible, and the toggles leave such a value alone. */
module CameraConstants {

  const FacingBack: int := 0
  const FacingFront: int := 1

  const FlashOff: int := 0
  const FlashOn: int := 1
  const FlashAuto: int := 2

  const PictureModeQuality: int := 0
  const PictureModeSpeed: int := 1

  /** The order toggleFacing walks: Back, Front, Back, ... */
  const FacingCycle: seq<int> := [FacingBack, FacingFront]

  /** The order toggleFlash walks: Off, On, Auto, Off, ... */
  const FlashCycle: seq<int> := [FlashOff, FlashOn, FlashAuto]

  predicate IsFacing(f: int) { f in FacingCycle }

  predicate IsFlash(f: int) { f in FlashCycle }

  predicate IsPictureMode(m: int) { m == PictureModeQuality || m == PictureModeSpeed }

  /** The facing that toggleFacing switches to: the next one in FacingCycle,
      or the value itself when it is not a facing code. */
  function ToggledFacing(f: int): (r: int)
    ensures IsFacing(f) ==> exists k {:trigger FacingCycle[k]} :: 0 <= k < |FacingCycle| && FacingCycle[k] == f
                                         && r == FacingCycle[(k + 1) % |FacingCycle|]
    ensures IsFacing(f) <==> IsFacing(r) && r != f
    ensures !IsFacing(f) ==> r == f
  {
    if f == FacingBack then FacingFront
    else if f == FacingFront then FacingBack
    else f
  }

  /** The flash mode that toggleFlash switches to: the next one in FlashCycle,
      or the value itself when it is not a flash code. */
  function ToggledFlash(f: int): (r: int)
    ensures IsFlash(f) ==> exists k {:trigger FlashCycle[k]} :: 0 <= k < |FlashCycle| && FlashCycle[k] == f
                                       && r == FlashCycle[(k + 1) % |FlashCycle|]
    ensures IsFlash(f) <==> IsFlash(r) && r != f
    ensures !IsFlash(f) ==> r == f
  {
    if f == FlashOff then FlashOn
    else if f == FlashOn then FlashAuto
    else if f == FlashAuto then FlashOff
    else f
  }

  /** The facing after n calls of toggleFacing starting from f. */
  function FacingAfter(f: int, n: nat): (r: int)
    decreases n
  {
    if n == 0 then f else FacingAfter(ToggledFacing(f), n - 1)
  }

  /** The flash mode after n calls of toggleFlash starting from f. */
  function FlashAfter(f: int, n: nat): (r: int)
    decreases n
  {
    if n == 0 then f else FlashAfter(ToggledFlash(f), n - 1)
  }

  /** Toggling the facing twice gives back the value it started from. */
  lemma ToggleFacingTwice(f: int)
    ensures ToggledFacing(ToggledFacing(f)) == f
  {
  }

  /** An even number of facing toggles is the identity, an odd number is
      one toggle. */
  lemma {:induction false} FacingAfterParity(f: int, n: nat)
    ensures FacingAfter(f, n) == if n % 2 == 0 then f else ToggledFacing(f)
    decreases n
  {
    if n > 0 {
      FacingAfterParity(ToggledFacing(f), n - 1);
      ToggleFacingTwice(f);
    }
  }

  /** n + m toggles are m toggles after n toggles. */
  lemma {:induction false} FlashAfterAdd(f: int, n: nat, m: nat)
    ensures FlashAfter(f, n + m) == FlashAfter(FlashAfter(f, n), m)
    decreases n
  {
    if n > 0 {
      FlashAfterAdd(ToggledFlash(f), n - 1, m);
    }
  }

  /** Three flash toggles return to the starting value, whatever it is. */
  lemma FlashAfterThree(f: int)
    ensures FlashAfter(f, 3) == f
  {
  }

  /** The flash mode is periodic in the number of toggles, with period 3. */
  lemma {:induction false} FlashAfterPeriod(f: int, n: nat)
    ensures FlashAfter(f, n) == FlashAfter(f, n % 3)
  {
    if n >= 3 {
      FlashAfterAdd(f, 3, n - 3);
      FlashAfterThree(f);
      FlashAfterPeriod(f, n - 3);
      assert (n - 3) % 3 == n % 3;
    }
  }

  /** Toggling keeps a flash code among the flash codes, and never moves any
      other value. */
  lemma {:induction false} FlashOrbit(f: int, n: nat)
    ensures IsFlash(f) ==> IsFlash(FlashAfter(f, n))
    ensures !IsFlash(f) ==> FlashAfter(f, n) == f
    decreases n
  {
    if n > 0 {
      FlashOrbit(ToggledFlash(f), n - 1);
    }
  }

  /** From any flash code, the first three toggles visit all three flash
      codes. */
  lemma FlashCycleCovered(f: int)
    requires IsFlash(f)
    ensures {FlashAfter(f, 0), FlashAfter(f, 1), FlashAfter(f, 2)} == {FlashOff, FlashOn, FlashAuto}
  {
  }
}
