/**
 * The play bar of a track: a slider with a seek handle and two loop-bound
 * handles.  Dragging a handle turns the mouse position into a time on the
 * track; a bound handle is moved only if the loop window stays non-empty,
 * and the player is told of the new bound.
 *
 * The drag state (which handle, and the three handle times) is the
 * component's React state; its updates are the functions below, and the
 * class `Bar` performs them in place.  The player's `setStart`/`setEnd`
 * are not part of this model: their calls are recorded as `PlayerCall`s.
 */
module PlayBar {
  import opened Wrappers

  /** PlayBarDraggable: START, END, POS. */
  datatype Draggable = StartHandle | EndHandle | PosHandle

  type PositiveReal = r: real | r > 0.0 witness 1.0

  /** The slider's bounding rectangle on screen. */
  datatype Rect = Rect(left: real, width: PositiveReal)

  /** A call the play bar makes on its player. */
  datatype PlayerCall = SetStart(time: real) | SetEnd(time: real)

  datatype BarState = BarState(dragging: Option<Draggable>, playPos: real, startPos: real, endPos: real)

  /** What the mouse can do while the play bar is mounted. */
  datatype Event = Grab(handle: Draggable) | Release | Move(clientX: real, rect: Option<Rect>)

  const PosWidth: real := 16.0
  const BoundWidth: real := 10.0

  /** The state on the first render of a track `totalDuration` seconds long. */
  function InitialBar(totalDuration: real): BarState {
    BarState(None, 0.0, 0.0, totalDuration)
  }

  predicate Ordered(b: BarState) {
    b.startPos < b.endPos
  }

  /** clamp(lo, hi, v) of the frontend's util module. */
  function Clamp(lo: real, hi: real, v: real): real {
    var atLeast := if v > lo then v else lo;
    if atLeast < hi then atLeast else hi
  }

  /** Half the width of the handle being dragged, in pixels. */
  function WidthOffset(handle: Draggable): real {
    (if handle == PosHandle then PosWidth else BoundWidth) / 2.0
  }

  /** The handle's left edge under the mouse, clamped to the slider. */
  function MousePos(handle: Draggable, clientX: real, rect: Rect): real {
    var offset := WidthOffset(handle);
    Clamp(0.0 - offset, rect.width - offset, clientX - rect.left - offset)
  }

  /** The time, in seconds, the handle is dragged to. */
  function Candidate(handle: Draggable, clientX: real, rect: Rect, totalDuration: real): real {
    (MousePos(handle, clientX, rect) / rect.width) * totalDuration
  }

  /** One mouse-move of onDrag. */
  function Drag(b: BarState, totalDuration: real, clientX: real, rect: Option<Rect>): BarState {
    if b.dragging.None? || rect.None? then b
    else
      var t := Candidate(b.dragging.value, clientX, rect.value, totalDuration);
      match b.dragging.value
      case PosHandle => b.(playPos := t)
      case EndHandle => if t > b.startPos then b.(endPos := t) else b
      case StartHandle => if t < b.endPos then b.(startPos := t) else b
  }

  /** The player calls one mouse-move of onDrag makes. */
  function DragCalls(b: BarState, totalDuration: real, clientX: real, rect: Option<Rect>): seq<PlayerCall> {
    if b.dragging.None? || rect.None? then []
    else
      var t := Candidate(b.dragging.value, clientX, rect.value, totalDuration);
      match b.dragging.value
      case PosHandle => []
      case EndHandle => if t > b.startPos then [SetEnd(t)] else []
      case StartHandle => if t < b.endPos then [SetStart(t)] else []
  }

  function Step(b: BarState, totalDuration: real, e: Event): BarState {
    match e
    case Grab(h) => b.(dragging := Some(h))
    case Release => b.(dragging := None)
    case Move(x, r) => Drag(b, totalDuration, x, r)
  }

  function Run(b: BarState, totalDuration: real, events: seq<Event>): BarState
    decreases |events|
  {
    if events == [] then b else Run(Step(b, totalDuration, events[0]), totalDuration, events[1..])
  }

  // ---------------------------------------------------------------------

  /** The mouse position is clamped to [-w/2, sliderWidth - w/2], w being 16
    * for the seek handle and 10 for a bound handle. */
  lemma MousePosClamped(handle: Draggable, clientX: real, rect: Rect)
    ensures var w := if handle == PosHandle then 16.0 else 10.0;
            -w / 2.0 <= MousePos(handle, clientX, rect) <= rect.width - w / 2.0
    ensures var w := if handle == PosHandle then 16.0 else 10.0;
            -w / 2.0 <= clientX - rect.left - w / 2.0 <= rect.width - w / 2.0 ==>
              MousePos(handle, clientX, rect) == clientX - rect.left - w / 2.0
  {
  }

  /** The candidate time lies in [-(w/2)/sliderWidth * total, total): it may
    * be slightly negative, never reaches the end. */
  lemma CandidateRange(handle: Draggable, clientX: real, rect: Rect, totalDuration: real)
    requires totalDuration > 0.0
    ensures var t := Candidate(handle, clientX, rect, totalDuration);
            -(WidthOffset(handle) / rect.width) * totalDuration <= t < totalDuration
  {
    var m := MousePos(handle, clientX, rect);
    var off := WidthOffset(handle);
    MousePosClamped(handle, clientX, rect);
    assert -off <= m < rect.width;
    DivMonotone(-off, m, rect.width);
    assert m / rect.width < 1.0 by {
      assert m / rect.width * rect.width == m;
    }
    MulMonotone(-off / rect.width, m / rect.width, totalDuration);
    assert (m / rect.width) * totalDuration < totalDuration;
    assert -(off / rect.width) == (-off) / rect.width;
  }

  lemma DivMonotone(a: real, b: real, d: real)
    requires a <= b && d > 0.0
    ensures a / d <= b / d
  {
    assert b / d - a / d == (b - a) / d;
  }

  lemma MulMonotone(a: real, b: real, k: real)
    requires a <= b && k >= 0.0
    ensures a * k <= b * k
  {
    assert b * k - a * k == (b - a) * k;
  }

  /** A move changes nothing when no handle is grabbed or the slider has no
    * rectangle. */
  lemma IdleMoveIsNoOp(b: BarState, totalDuration: real, clientX: real, rect: Option<Rect>)
    requires b.dragging.None? || rect.None?
    ensures Drag(b, totalDuration, clientX, rect) == b
    ensures DragCalls(b, totalDuration, clientX, rect) == []
  {
  }

  /** Dragging the seek handle moves only the playhead and calls nothing. */
  lemma SeekDragOnlyMovesPlayhead(b: BarState, totalDuration: real, clientX: real, rect: Rect)
    requires b.dragging == Some(PosHandle)
    ensures Drag(b, totalDuration, clientX, Some(rect))
              == b.(playPos := Candidate(PosHandle, clientX, rect, totalDuration))
    ensures DragCalls(b, totalDuration, clientX, Some(rect)) == []
  {
  }

  /** An end-bound drag is applied, and the player told, exactly when the
    * candidate lies after the start bound; otherwise nothing changes. */
  lemma EndDragGuarded(b: BarState, totalDuration: real, clientX: real, rect: Rect)
    requires b.dragging == Some(EndHandle)
    ensures var t := Candidate(EndHandle, clientX, rect, totalDuration);
            && (t > b.startPos ==> Drag(b, totalDuration, clientX, Some(rect)) == b.(endPos := t)
                                   && DragCalls(b, totalDuration, clientX, Some(rect)) == [SetEnd(t)])
            && (t <= b.startPos ==> Drag(b, totalDuration, clientX, Some(rect)) == b
                                    && DragCalls(b, totalDuration, clientX, Some(rect)) == [])
  {
  }

  /** A start-bound drag is applied, and the player told, exactly when the
    * candidate lies before the end bound; otherwise nothing changes. */
  lemma StartDragGuarded(b: BarState, totalDuration: real, clientX: real, rect: Rect)
    requires b.dragging == Some(StartHandle)
    ensures var t := Candidate(StartHandle, clientX, rect, totalDuration);
            && (t < b.endPos ==> Drag(b, totalDuration, clientX, Some(rect)) == b.(startPos := t)
                                 && DragCalls(b, totalDuration, clientX, Some(rect)) == [SetStart(t)])
            && (t >= b.endPos ==> Drag(b, totalDuration, clientX, Some(rect)) == b
                                  && DragCalls(b, totalDuration, clientX, Some(rect)) == [])
  {
  }

  /** Every event keeps the loop window non-empty. */
  lemma StepKeepsOrdered(b: BarState, totalDuration: real, e: Event)
    requires Ordered(b)
    ensures Ordered(Step(b, totalDuration, e))
  {
  }

  /** From the first render of a track of positive duration, no sequence of
    * grabs, moves and releases ever inverts the loop window. */
  lemma {:induction false} RunKeepsOrdered(b: BarState, totalDuration: real, events: seq<Event>)
    requires Ordered(b)
    ensures Ordered(Run(b, totalDuration, events))
    decreases |events|
  {
    if events != [] {
      StepKeepsOrdered(b, totalDuration, events[0]);
      RunKeepsOrdered(Step(b, totalDuration, events[0]), totalDuration, events[1..]);
    }
  }

  lemma InitialOrderedAlways(totalDuration: real, events: seq<Event>)
    requires totalDuration > 0.0
    ensures Ordered(Run(InitialBar(totalDuration), totalDuration, events))
  {
    RunKeepsOrdered(InitialBar(totalDuration), totalDuration, events);
  }

  /** The play bar's state, updated in place by its handlers. */
  class Bar {
    const totalDuration: real
    var dragging: Option<Draggable>
    var playPos: real
    var startPos: real
    var endPos: real
    /** The calls made on the player, in order. */
    var calls: seq<PlayerCall>

    function State(): BarState
      reads this
    {
      BarState(dragging, playPos, startPos, endPos)
    }

    constructor (totalDuration: real)
      ensures this.totalDuration == totalDuration
      ensures State() == InitialBar(totalDuration) && calls == []
    {
      this.totalDuration := totalDuration;
      dragging := None;
      playPos, startPos, endPos := 0.0, 0.0, totalDuration;
      calls := [];
    }

    method StartDrag(handle: Draggable)
      modifies this
      ensures State() == Step(old(State()), totalDuration, Grab(handle))
      ensures calls == old(calls)
    {
      dragging := Some(handle);
    }

    method StopDrag()
      modifies this
      ensures State() == Step(old(State()), totalDuration, Release)
      ensures calls == old(calls)
    {
      dragging := None;
    }

    /** onDrag for a mouse at `clientX`; `rect` is the slider's bounding
      * rectangle, absent while the slider is not rendered. */
    method OnDrag(clientX: real, rect: Option<Rect>)
      modifies this
      ensures State() == Drag(old(State()), totalDuration, clientX, rect)
      ensures calls == old(calls) + DragCalls(old(State()), totalDuration, clientX, rect)
      ensures old(Ordered(State())) ==> Ordered(State())
    {
      if dragging.Some? {
        var offset := (if dragging.value == PosHandle then PosWidth else BoundWidth) / 2.0;
        if rect.Some? {
          var sliderWidth := rect.value.width;
          var mousePos := Clamp(0.0 - offset, sliderWidth - offset, clientX - rect.value.left - offset);
          var newPosition := (mousePos / sliderWidth) * totalDuration;
          if dragging.value == PosHandle {
            playPos := newPosition;
          } else if dragging.value == EndHandle && newPosition > startPos {
            calls := calls + [SetEnd(newPosition)];
            endPos := newPosition;
          } else if dragging.value == StartHandle && newPosition < endPos {
            calls := calls + [SetStart(newPosition)];
            startPos := newPosition;
          }
        }
      }
    }
  }
}
