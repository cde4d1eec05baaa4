/**
 * The image viewer's zoom: in and out by half a step between 0.5x and 4x,
 * reset to 1x, and closing the full-screen view, which also resets the zoom.
 * The zoom is kept as a count of half-steps (`zoom = halfSteps / 2`), which
 * makes the source's decimal arithmetic exact.
 */
module Infographic {
  const MinHalfSteps: int := 1
  const MaxHalfSteps: int := 8
  const IdentityHalfSteps: int := 2

  /** The zoom factor a count of half-steps stands for. */
  function ZoomOf(halfSteps: int): real {
    halfSteps as real / 2.0
  }

  function RealMin(a: real, b: real): real {
    if a <= b then a else b
  }

  function RealMax(a: real, b: real): real {
    if a >= b then a else b
  }

  /** `Math.min(prev + 0.5, 4)`, on half-steps. */
  function ZoomedIn(halfSteps: int): (r: int)
    ensures ZoomOf(r) == RealMin(ZoomOf(halfSteps) + 0.5, 4.0)
  {
    if halfSteps + 1 <= MaxHalfSteps then halfSteps + 1 else MaxHalfSteps
  }

  /** `Math.max(prev - 0.5, 0.5)`, on half-steps. */
  function ZoomedOut(halfSteps: int): (r: int)
    ensures ZoomOf(r) == RealMax(ZoomOf(halfSteps) - 0.5, 0.5)
  {
    if halfSteps - 1 >= MinHalfSteps then halfSteps - 1 else MinHalfSteps
  }

  /** Zooming in at 4x and out at 0.5x changes nothing. */
  lemma ZoomStopsAtBounds()
    ensures ZoomedIn(MaxHalfSteps) == MaxHalfSteps && ZoomOf(MaxHalfSteps) == 4.0
    ensures ZoomedOut(MinHalfSteps) == MinHalfSteps && ZoomOf(MinHalfSteps) == 0.5
  {
  }

  /** Below the maximum, zooming out undoes zooming in; above the minimum, zooming in undoes zooming out. */
  lemma ZoomInOutUndo(halfSteps: int)
    requires MinHalfSteps <= halfSteps <= MaxHalfSteps
    ensures halfSteps < MaxHalfSteps ==> ZoomedOut(ZoomedIn(halfSteps)) == halfSteps
    ensures halfSteps > MinHalfSteps ==> ZoomedIn(ZoomedOut(halfSteps)) == halfSteps
  {
  }

  /** The viewer's buttons. */
  datatype Action = ZoomIn | ZoomOut | ResetZoom | OpenFullscreen | CloseFullscreen

  datatype View = View(halfSteps: int, isFullscreen: bool)

  /** The view after one button press. */
  function Step(v: View, a: Action): View {
    match a
    case ZoomIn => v.(halfSteps := ZoomedIn(v.halfSteps))
    case ZoomOut => v.(halfSteps := ZoomedOut(v.halfSteps))
    case ResetZoom => v.(halfSteps := IdentityHalfSteps)
    case OpenFullscreen => v.(isFullscreen := true)
    case CloseFullscreen => View(IdentityHalfSteps, false)
  }

  /** The view after a sequence of presses. */
  function Run(v: View, actions: seq<Action>): View {
    if actions == [] then v else Step(Run(v, actions[..|actions| - 1]), actions[|actions| - 1])
  }

  /** The view the component mounts with: 1x, not full screen. */
  const Initial: View := View(IdentityHalfSteps, false)

  /** Whatever the presses, the zoom stays a multiple of 0.5 between 0.5x and 4x. */
  lemma {:induction false} ZoomAlwaysInRange(actions: seq<Action>)
    ensures var v := Run(Initial, actions);
            MinHalfSteps <= v.halfSteps <= MaxHalfSteps && 0.5 <= ZoomOf(v.halfSteps) <= 4.0
    decreases |actions|
  {
    if actions != [] {
      ZoomAlwaysInRange(actions[..|actions| - 1]);
    }
  }

  /** After closing the full-screen view, the next opening starts at 1x whatever came before. */
  lemma {:induction false} CloseForgetsZoom(before: seq<Action>, after: seq<Action>)
    ensures Run(Initial, before + [CloseFullscreen] + after) == Run(Initial, after)
    decreases |after|
  {
    var prefix := before + [CloseFullscreen];
    if after == [] {
      assert prefix + after == prefix;
      assert prefix[..|prefix| - 1] == before;
    } else {
      var all := prefix + after;
      assert all[..|all| - 1] == before + [CloseFullscreen] + after[..|after| - 1];
      CloseForgetsZoom(before, after[..|after| - 1]);
    }
  }

  /** `Math.round(zoomLevel * 100)`: the percentage on the reset button. */
  function ZoomPercent(halfSteps: int): (p: int)
    ensures p as real == ZoomOf(halfSteps) * 100.0
  {
    halfSteps * 50
  }

  /** The viewer's state. */
  class ZoomViewer {
    var halfSteps: int
    var isFullscreen: bool

    ghost predicate Valid()
      reads this
    {
      MinHalfSteps <= halfSteps <= MaxHalfSteps
    }

    function Current(): View
      reads this
    {
      View(halfSteps, isFullscreen)
    }

    constructor()
      ensures Valid() && Current() == Initial
    {
      halfSteps := IdentityHalfSteps;
      isFullscreen := false;
    }

    /** `handleZoomIn`. */
    method HandleZoomIn()
      requires Valid()
      modifies this`halfSteps
      ensures Valid() && Current() == Step(old(Current()), ZoomIn)
      ensures ZoomOf(halfSteps) == RealMin(ZoomOf(old(halfSteps)) + 0.5, 4.0)
    {
      halfSteps := if halfSteps + 1 <= MaxHalfSteps then halfSteps + 1 else MaxHalfSteps;
    }

    /** `handleZoomOut`. */
    method HandleZoomOut()
      requires Valid()
      modifies this`halfSteps
      ensures Valid() && Current() == Step(old(Current()), ZoomOut)
      ensures ZoomOf(halfSteps) == RealMax(ZoomOf(old(halfSteps)) - 0.5, 0.5)
    {
      halfSteps := if halfSteps - 1 >= MinHalfSteps then halfSteps - 1 else MinHalfSteps;
    }

    /** `handleResetZoom`. */
    method HandleResetZoom()
      modifies this`halfSteps
      ensures Valid() && Current() == Step(old(Current()), ResetZoom) && ZoomOf(halfSteps) == 1.0
    {
      halfSteps := IdentityHalfSteps;
    }

    /** Clicking the image or the full-screen button. */
    method Open()
      modifies this`isFullscreen
      ensures Current() == Step(old(Current()), OpenFullscreen)
    {
      isFullscreen := true;
    }

    /** `handleCloseFullscreen`. */
    method HandleCloseFullscreen()
      modifies this`halfSteps, this`isFullscreen
      ensures Valid() && Current() == Step(old(Current()), CloseFullscreen)
      ensures !isFullscreen && ZoomOf(halfSteps) == 1.0
    {
      isFullscreen := false;
      halfSteps := IdentityHalfSteps;
    }
  }
}
