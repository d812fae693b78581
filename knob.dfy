/**
 * A rotary knob (speed, volume): dragging vertically moves a percent in
 * [0, 1], which is mapped piecewise-linearly onto [min, mid, max] and handed
 * to the knob's onChange callback.  The drag state is the component's React
 * state; the class `KnobControl` updates it in place and records the values
 * handed to onChange.
 */
module Knob {

  datatype KnobState = KnobState(percent: real, isDragging: bool, startY: real)

  const Sensitivity: real := 0.02

  const InitialKnob := KnobState(0.5, false, 0.0)

  /** Math.min(Math.max(v, 0), 1). */
  function Clamp01(v: real): real {
    var atLeast := if v > 0.0 then v else 0.0;
    if atLeast < 1.0 then atLeast else 1.0
  }

  /** The percent after the mouse moves from `startY` to `y`; moving up turns
    * the knob right. */
  function NewPercent(percent: real, startY: real, y: real): real {
    Clamp01(-(y - startY) * Sensitivity + percent)
  }

  /** The point a fraction `f` of the way from `lo` to `hi`. */
  function Lerp(lo: real, hi: real, f: real): real {
    lo + f * (hi - lo)
  }

  /** The value the knob reports for a percent: the upper half of the knob
    * spans [mid, max], the lower half [min, mid]. */
  function Value(p: real, min: real, mid: real, max: real): real {
    if p > 0.5 then Lerp(mid, max, (p - 0.5) / 0.5)
    else if p < 0.5 then Lerp(min, mid, p / 0.5)
    else mid
  }

  /** The indicator's rotation, in degrees. */
  function Rotation(p: real): real {
    -120.0 + 240.0 * p
  }

  /** onDrag for a mouse at height `y`; `mounted` says whether the knob's SVG
    * element is rendered. */
  function Drag(k: KnobState, y: real, mounted: bool): KnobState {
    if k.isDragging && mounted then k.(percent := NewPercent(k.percent, k.startY, y), startY := y) else k
  }

  /** The values onDrag hands to onChange. */
  function DragOutput(k: KnobState, y: real, mounted: bool, min: real, mid: real, max: real): seq<real> {
    if k.isDragging && mounted then [Value(NewPercent(k.percent, k.startY, y), min, mid, max)] else []
  }

  predicate ValidPercent(k: KnobState) {
    0.0 <= k.percent <= 1.0
  }

  // ---------------------------------------------------------------------

  lemma NewPercentInRange(percent: real, startY: real, y: real)
    ensures 0.0 <= NewPercent(percent, startY, y) <= 1.0
    ensures var v := -(y - startY) * 0.02 + percent;
            0.0 <= v <= 1.0 ==> NewPercent(percent, startY, y) == v
  {
  }

  /** The knob's ends and middle map to min, max and mid. */
  lemma ValueAtEnds(min: real, mid: real, max: real)
    ensures Value(0.0, min, mid, max) == min
    ensures Value(0.5, min, mid, max) == mid
    ensures Value(1.0, min, mid, max) == max
  {
  }

  /** With min <= mid <= max the value never leaves [min, max]. */
  lemma ValueInRange(p: real, min: real, mid: real, max: real)
    requires 0.0 <= p <= 1.0
    requires min <= mid <= max
    ensures min <= Value(p, min, mid, max) <= max
  {
    if p <= 0.5 { BelowMid(p, min, mid, max); } else { AboveMid(p, min, mid, max); }
  }

  /** The lower half of the knob covers [min, mid] ... */
  lemma BelowMid(p: real, min: real, mid: real, max: real)
    requires 0.0 <= p <= 0.5 && min <= mid
    ensures min <= Value(p, min, mid, max) <= mid
  {
    if p < 0.5 {
      Between(p / 0.5, min, mid);
    }
  }

  /** ... and the upper half covers [mid, max]. */
  lemma AboveMid(q: real, min: real, mid: real, max: real)
    requires 0.5 <= q <= 1.0 && mid <= max
    ensures mid <= Value(q, min, mid, max) <= max
  {
    if q > 0.5 {
      Between((q - 0.5) / 0.5, mid, max);
    }
  }

  /** With min <= mid <= max the value is monotone in the percent. */
  lemma ValueMonotone(p: real, q: real, min: real, mid: real, max: real)
    requires 0.0 <= p <= q <= 1.0
    requires min <= mid <= max
    ensures Value(p, min, mid, max) <= Value(q, min, mid, max)
  {
    if p > 0.5 {
      Interpolate((p - 0.5) / 0.5, (q - 0.5) / 0.5, mid, max);
    } else if q < 0.5 {
      Interpolate(p / 0.5, q / 0.5, min, mid);
    } else {
      BelowMid(p, min, mid, max);
      AboveMid(q, min, mid, max);
    }
  }

  lemma Between(f: real, lo: real, hi: real)
    requires 0.0 <= f <= 1.0 && lo <= hi
    ensures lo <= Lerp(lo, hi, f) <= hi
  {
    MulNonneg(f, hi - lo);
    MulNonneg(1.0 - f, hi - lo);
    assert hi - (lo + f * (hi - lo)) == (1.0 - f) * (hi - lo);
  }

  lemma MulNonneg(x: real, y: real)
    requires x >= 0.0 && y >= 0.0
    ensures x * y >= 0.0
  {
  }

  lemma Interpolate(a: real, b: real, lo: real, hi: real)
    requires a <= b && lo <= hi
    ensures Lerp(lo, hi, a) <= Lerp(lo, hi, b)
  {
    MulNonneg(b - a, hi - lo);
    assert (lo + b * (hi - lo)) - (lo + a * (hi - lo)) == (b - a) * (hi - lo);
  }

  lemma RotationInRange(p: real)
    requires 0.0 <= p <= 1.0
    ensures -120.0 <= Rotation(p) <= 120.0
    ensures Rotation(0.5) == 0.0
  {
  }

  /** Each step re-bases startY on the event's y, so the next step's delta is
    * relative to the last event; a step does nothing while not dragging. */
  lemma DragIsRelative(k: KnobState, y1: real, y2: real, mounted: bool, min: real, mid: real, max: real)
    requires k.isDragging
    ensures Drag(k, y1, true).startY == y1
    ensures Drag(Drag(k, y1, true), y2, true).percent
              == Clamp01(-(y2 - y1) * 0.02 + Clamp01(-(y1 - k.startY) * 0.02 + k.percent))
    ensures Drag(k.(isDragging := false), y1, mounted) == k.(isDragging := false)
    ensures DragOutput(k.(isDragging := false), y1, mounted, min, mid, max) == []
  {
  }

  /** The knob's rendered state and its onChange outputs. */
  class KnobControl {
    const min: real
    const mid: real
    const max: real
    var percent: real
    var isDragging: bool
    var startY: real
    /** Values handed to onChange, in order. */
    ghost var outputs: seq<real>

    function State(): KnobState
      reads this
    {
      KnobState(percent, isDragging, startY)
    }

    ghost predicate Valid()
      reads this
    {
      ValidPercent(State())
    }

    constructor (min: real, mid: real, max: real)
      ensures this.min == min && this.mid == mid && this.max == max
      ensures State() == InitialKnob && outputs == []
      ensures Valid()
    {
      this.min, this.mid, this.max := min, mid, max;
      percent, isDragging, startY := 0.5, false, 0.0;
      outputs := [];
    }

    /** The indicator's rotation: always within [-120, 120] degrees. */
    function RotationAngle(): (degrees: real)
      requires Valid()
      reads this
      ensures -120.0 <= degrees <= 120.0
    {
      RotationInRange(percent);
      Rotation(percent)
    }

    method Reset()
      modifies this
      ensures State() == old(State()).(percent := 0.5)
      ensures outputs == old(outputs) + [mid]
      ensures Valid()
    {
      percent := 0.5;
      outputs := outputs + [mid];
    }

    method StartDrag(y: real)
      modifies this
      ensures State() == old(State()).(isDragging := true, startY := y)
      ensures outputs == old(outputs)
      ensures old(Valid()) ==> Valid()
    {
      isDragging := true;
      startY := y;
    }

    method StopDrag()
      modifies this
      ensures State() == old(State()).(isDragging := false)
      ensures outputs == old(outputs)
      ensures old(Valid()) ==> Valid()
    {
      isDragging := false;
    }

    method OnDrag(y: real, mounted: bool)
      modifies this
      ensures State() == Drag(old(State()), y, mounted)
      ensures outputs == old(outputs) + DragOutput(old(State()), y, mounted, min, mid, max)
      ensures old(Valid()) ==> Valid()
    {
      if isDragging && mounted {
        var deltaY := -(y - startY);
        var v := deltaY * Sensitivity + percent;
        var atLeast := if v > 0.0 then v else 0.0;
        var newPercent := if atLeast < 1.0 then atLeast else 1.0;
        var newValue;
        if newPercent > 0.5 {
          newValue := mid + ((newPercent - 0.5) / 0.5) * (max - mid);
        } else if newPercent < 0.5 {
          newValue := min + (newPercent / 0.5) * (mid - min);
        } else {
          newValue := mid;
        }
        assert newPercent == NewPercent(percent, startY, y);
        assert newValue == Value(newPercent, min, mid, max) by {
          if newPercent > 0.5 {
            assert newValue == Lerp(mid, max, (newPercent - 0.5) / 0.5);
          } else if newPercent < 0.5 {
            assert newValue == Lerp(min, mid, newPercent / 0.5);
          }
        }
        percent := newPercent;
        startY := y;
        outputs := outputs + [newValue];
      }
    }
  }
}
