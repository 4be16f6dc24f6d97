/** The signature pad of the delivery form (components/ui/SignatureCanvas.tsx).
    The pad starts locked so that the page scrolls; a double tap on the overlay
    (two taps less than 300 ms apart) or the lock button unlocks it. Each
    finished stroke reports the drawing to the form, clearing reports "". The
    drawing itself is counted in strokes: the pad is empty when it has none. */
module SignatureCanvas {

  const DOUBLE_TAP_DELAY: int := 300

  /** The component's state: the two state hooks, the last-tap ref, the strokes
      on the underlying pad and the last value handed to `onEnd`. */
  datatype PadState = PadState(locked: bool, empty: bool, lastTap: int, strokes: nat, reported: string)

  /** The state after mounting: locked, empty, no tap yet, nothing reported. */
  function Initial(): PadState
  {
    PadState(true, true, 0, 0, "")
  }

  /** The shown emptiness agrees with the pad, and the form never holds a
      drawing while the pad shows empty. */
  predicate Consistent(s: PadState)
  {
    (s.empty <==> s.strokes == 0) && (s.empty ==> s.reported == "")
  }

  /** Drawing is switched on exactly while the pad is unlocked. */
  predicate DrawingEnabled(s: PadState)
  {
    !s.locked
  }

  /** The overlay that takes the double tap covers the pad while locked. */
  predicate OverlayShown(s: PadState)
  {
    s.locked
  }

  /** The eraser button is shown for a non-empty, unlocked pad. */
  predicate ClearOffered(s: PadState)
  {
    !s.empty && !s.locked
  }

  /** A tap at `now`: less than 300 ms after the recorded tap it unlocks and
      forgets the tap; otherwise it records `now`. */
  function AfterTap(s: PadState, now: int): (r: PadState)
    ensures r.strokes == s.strokes && r.empty == s.empty && r.reported == s.reported
    ensures now - s.lastTap < DOUBLE_TAP_DELAY ==> !r.locked && r.lastTap == 0
    ensures now - s.lastTap >= DOUBLE_TAP_DELAY ==> r.locked == s.locked && r.lastTap == now
  {
    if now - s.lastTap < DOUBLE_TAP_DELAY then s.(locked := false, lastTap := 0)
    else s.(lastTap := now)
  }

  function AfterToggle(s: PadState): PadState
  {
    s.(locked := !s.locked)
  }

  /** A finished stroke: only an unlocked pad draws; it then holds one more
      stroke, shows non-empty and reports the new drawing. */
  function AfterStroke(s: PadState, dataUrl: string): PadState
  {
    if s.locked then s
    else s.(strokes := s.strokes + 1, empty := false, reported := dataUrl)
  }

  /** Clearing: once the pad is mounted, it drops its strokes, shows empty and
      reports "". */
  function AfterClear(s: PadState, mounted: bool): PadState
  {
    if mounted then s.(strokes := 0, empty := true, reported := "") else s
  }

  // ------------------------------------------------------------------ the component

  class Pad {
    /** Whether the mount effect found the canvas and created the pad. */
    const mounted: bool
    var isLocked: bool
    var isEmpty: bool
    var lastTap: int
    var strokes: nat
    var reported: string

    ghost function State(): PadState
      reads this
    {
      PadState(isLocked, isEmpty, lastTap, strokes, reported)
    }

    constructor (mounted: bool)
      ensures this.mounted == mounted && State() == Initial()
    {
      this.mounted := mounted;
      isLocked, isEmpty, lastTap, strokes, reported := true, true, 0, 0, "";
    }

    /** A tap on the overlay, which is only shown while the pad is locked. */
    method HandleDoubleTap(now: int)
      requires isLocked
      modifies this`isLocked, this`lastTap
      ensures State() == AfterTap(old(State()), now)
    {
      if now - lastTap < DOUBLE_TAP_DELAY {
        isLocked := false;
        lastTap := 0;
      } else {
        lastTap := now;
      }
    }

    method ToggleLock()
      modifies this`isLocked
      ensures State() == AfterToggle(old(State()))
    {
      isLocked := !isLocked;
    }

    /** The pad's "endStroke" event; a locked pad is switched off and raises none. */
    method EndStroke(dataUrl: string)
      modifies this`strokes, this`isEmpty, this`reported
      ensures State() == AfterStroke(old(State()), dataUrl)
    {
      if !isLocked {
        strokes := strokes + 1;
        isEmpty := strokes == 0;
        reported := dataUrl;
      }
    }

    method ClearSignature()
      modifies this`strokes, this`isEmpty, this`reported
      ensures State() == AfterClear(old(State()), mounted)
    {
      if mounted {
        strokes := 0;
        isEmpty := true;
        reported := "";
      }
    }
  }

  // ------------------------------------------------------------------ properties

  /** Every handler keeps the shown emptiness in step with the pad and never
      leaves a drawing with the form while the pad shows empty. */
  lemma EveryStepConsistent(s: PadState, now: int, dataUrl: string, mounted: bool)
    requires Consistent(s)
    ensures Consistent(AfterTap(s, now)) && Consistent(AfterToggle(s))
    ensures Consistent(AfterClear(s, mounted))
    ensures Consistent(AfterStroke(s, dataUrl))
  {
  }

  lemma InitialConsistent()
    ensures Consistent(Initial()) && OverlayShown(Initial()) && !DrawingEnabled(Initial())
  {
  }

  /** A tap 300 ms or more after the recorded one only records its time; a
      second tap under 300 ms later unlocks the pad and forgets the tap. */
  lemma DoubleTapUnlocks(s: PadState, first: int, second: int)
    requires s.locked && first - s.lastTap >= DOUBLE_TAP_DELAY
    requires first <= second < first + DOUBLE_TAP_DELAY
    ensures AfterTap(s, first).locked
    ensures !AfterTap(AfterTap(s, first), second).locked
    ensures AfterTap(AfterTap(s, first), second).lastTap == 0
  {
  }

  /** The state after a run of taps, in order. */
  function TapAll(s: PadState, taps: seq<int>): PadState
    decreases |taps|
  {
    if |taps| == 0 then s else TapAll(AfterTap(s, taps[0]), taps[1..])
  }

  /** Taps 300 ms or more apart keep the pad locked however many there are. */
  lemma {:induction false} SlowTapsKeepLocked(s: PadState, taps: seq<int>)
    requires s.locked
    requires |taps| > 0 ==> taps[0] - s.lastTap >= DOUBLE_TAP_DELAY
    requires forall i :: 0 < i < |taps| ==> taps[i] - taps[i - 1] >= DOUBLE_TAP_DELAY
    ensures TapAll(s, taps).locked
    ensures |taps| > 0 ==> TapAll(s, taps).lastTap == taps[|taps| - 1]
    decreases |taps|
  {
    if |taps| > 0 {
      var s' := AfterTap(s, taps[0]);
      assert s'.lastTap == taps[0];
      SlowTapsKeepLocked(s', taps[1..]);
    }
  }

  /** Toggling the lock twice restores the state; strokes on a locked pad change nothing. */
  lemma ToggleTwiceRestores(s: PadState, dataUrl: string)
    ensures AfterToggle(AfterToggle(s)) == s
    ensures s.locked ==> AfterStroke(s, dataUrl) == s
  {
  }

  /** After a stroke on an unlocked pad the eraser is offered and the form holds
      exactly that drawing; after clearing it is not offered and the form holds "". */
  lemma StrokeThenClear(s: PadState, dataUrl: string)
    requires Consistent(s) && DrawingEnabled(s)
    ensures var d := AfterStroke(s, dataUrl);
            ClearOffered(d) && d.reported == dataUrl &&
            !ClearOffered(AfterClear(d, true)) && AfterClear(d, true).reported == "" &&
            AfterClear(d, true).strokes == 0
  {
  }
}
