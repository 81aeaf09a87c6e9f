/** The scroll-interaction classifier as a state machine on values: the closure state
    of one attached detector, the effect of each handler, and the effect of each input
    (a DOM event routed through the listener table, the debounce timer firing, or
    detach). Each input yields the next state and the callback values it reported. */
module Classifier {
  import opened Listeners

  /** The element's box, read by the mousedown handler: the right and bottom edges of
      its bounding rectangle and its outer (offset) and inner (client) sizes. */
  datatype Box = Box(
    right: int, bottom: int,
    offsetWidth: int, clientWidth: int,
    offsetHeight: int, clientHeight: int)

  /** A DOM event with the data its handlers read: the pointer position and the box
      for mousedown, the key for keydown, the element's offsets for scroll. */
  datatype Event =
    | MouseDown(clientX: int, clientY: int, box: Box)
    | MouseUp
    | MouseLeave
    | KeyDown(key: string)
    | Wheel
    | TouchStart
    | Scroll(scrollTop: int, scrollLeft: int)

  /** Everything that can happen to an attached detector. */
  datatype Input = Dispatch(event: Event) | TimerFires | Detach

  /** The closure state: the two flags, the last recorded offsets, whether
      resetTimeout holds a timer that has not fired yet, and whether the listeners
      are still registered. */
  datatype State = State(
    isUserScrolling: bool,
    isDraggingScrollbar: bool,
    lastScrollTop: int,
    lastScrollLeft: int,
    timerPending: bool,
    attached: bool)

  /** The state after an input and the values passed to the callback, in order. */
  datatype Outcome = Outcome(next: State, calls: seq<bool>)

  function TypeOf(e: Event): EventType
  {
    match e
    case MouseDown(_, _, _) => mousedown
    case MouseUp => mouseup
    case MouseLeave => mouseleave
    case KeyDown(_) => keydown
    case Wheel => wheel
    case TouchStart => touchstart
    case Scroll(_, _) => scroll
  }

  /** The state right after attach, given the element's offsets at that moment. */
  function Attach(scrollTop: int, scrollLeft: int): State
  {
    State(false, false, scrollTop, scrollLeft, false, true)
  }

  /** The keys whose keydown counts as a keyboard scroll. */
  function ScrollKeys(): seq<string>
  {
    ["ArrowUp", "ArrowDown", "ArrowLeft", "ArrowRight", "PageUp", "PageDown", "Home", "End"]
  }

  /** The scrollbar hit-test: the pointer lies past the right edge less the vertical
      scrollbar's thickness, or past the bottom edge less the horizontal one's. */
  predicate OnScrollbar(clientX: int, clientY: int, b: Box)
  {
    clientX > b.right - (b.offsetWidth - b.clientWidth)
    || clientY > b.bottom - (b.offsetHeight - b.clientHeight)
  }

  /** Whether a scroll to (top, left) is a move that onScroll reports as manual. */
  predicate ReportsManual(s: State, top: int, left: int)
  {
    (top != s.lastScrollTop || left != s.lastScrollLeft)
    && (s.isDraggingScrollbar || s.isUserScrolling)
  }

  /** One handler run on one event. A handler only ever receives the event type it is
      registered for. stopDrag, onWheel, onTouchStart and reset take no event and act
      the same for any; the other three read their event and do nothing on one of
      another type. */
  function Apply(s: State, h: Handler, e: Event): (o: Outcome)
    ensures o.next.attached == s.attached
  {
    match h
    case OnMouseDown =>
      if e.MouseDown? && OnScrollbar(e.clientX, e.clientY, e.box)
      then Outcome(s.(isDraggingScrollbar := true), [true])
      else Outcome(s, [])
    case StopDrag =>
      if s.isDraggingScrollbar
      then Outcome(s.(isDraggingScrollbar := false), [false])
      else Outcome(s, [])
    case OnKeyDown =>
      if e.KeyDown? && e.key in ScrollKeys()
      then Outcome(s.(isUserScrolling := true), [true])
      else Outcome(s, [])
    case OnWheel => Outcome(s.(isUserScrolling := true), [true])
    case OnTouchStart => Outcome(s.(isUserScrolling := true), [true])
    case OnScroll =>
      if e.Scroll?
      then Outcome(s.(lastScrollTop := e.scrollTop, lastScrollLeft := e.scrollLeft),
                   if ReportsManual(s, e.scrollTop, e.scrollLeft) then [true] else [])
      else Outcome(s, [])
    case Reset =>
      // clearTimeout of the earlier timer, then setTimeout of a new one
      Outcome(s.(timerPending := true), [])
  }

  /** The handlers `hs` run one after another on the same event. */
  function ApplyAll(s: State, hs: seq<Handler>, e: Event): (o: Outcome)
    ensures o.next.attached == s.attached
    decreases hs
  {
    if hs == [] then Outcome(s, [])
    else
      var first := Apply(s, hs[0], e);
      var rest := ApplyAll(first.next, hs[1..], e);
      Outcome(rest.next, first.calls + rest.calls)
  }

  /** Running a route of one handler. */
  lemma ApplyOne(s: State, h: Handler, e: Event)
    ensures ApplyAll(s, [h], e) == Apply(s, h, e)
  {
    assert [h][1..] == [];
  }

  /** Running a route of two handlers: the second sees the state the first left. */
  lemma ApplyTwo(s: State, h1: Handler, h2: Handler, e: Event)
    ensures var first := Apply(s, h1, e);
            var second := Apply(first.next, h2, e);
            ApplyAll(s, [h1, h2], e) == Outcome(second.next, first.calls + second.calls)
  {
    assert [h1, h2][1..] == [h2];
    ApplyOne(Apply(s, h1, e).next, h2, e);
  }

  /** One input. A DOM event runs, in order, the handlers its type is routed to: those
      the registration table lists for it while attached (RegisteredRoutes), none once
      detach has removed every listener (DetachedRoutesNothing). The timer's
      callback clears isUserScrolling and reports false; detach leaves the timer alone. */
  function Step(s: State, i: Input): (o: Outcome)
    // detached: no DOM event reaches a handler
    ensures i.Dispatch? && !s.attached ==> o == Outcome(s, [])
    ensures o.next.attached == (s.attached && !i.Detach?)
    // the timer fires only if pending; it clears isUserScrolling and reports false
    ensures i == TimerFires ==>
      !o.next.timerPending
      && o.next.isUserScrolling == (s.isUserScrolling && !s.timerPending)
      && o.next.isDraggingScrollbar == s.isDraggingScrollbar
      && o.next.lastScrollTop == s.lastScrollTop && o.next.lastScrollLeft == s.lastScrollLeft
      && o.calls == (if s.timerPending then [false] else [])
    // detach reports nothing, and a pending timer stays pending
    ensures i == Detach ==> o.calls == [] && o.next == s.(attached := false)
  {
    match i
    case Dispatch(e) =>
      if s.attached then ApplyAll(s, Route(TypeOf(e)), e) else Outcome(s, [])
    case TimerFires =>
      if s.timerPending
      then Outcome(s.(isUserScrolling := false, timerPending := false), [false])
      else Outcome(s, [])
    case Detach => Outcome(s.(attached := false), [])
  }

  /** mousedown starts a drag, reported as manual, iff the pointer is on a scrollbar;
      otherwise nothing changes and nothing is reported. */
  lemma MouseDownStep(s: State, clientX: int, clientY: int, box: Box)
    requires s.attached
    ensures var o := Step(s, Dispatch(MouseDown(clientX, clientY, box)));
      (o.calls == [true] <==> OnScrollbar(clientX, clientY, box))
      && (o.next.isDraggingScrollbar <==> s.isDraggingScrollbar || OnScrollbar(clientX, clientY, box))
      && (OnScrollbar(clientX, clientY, box) ==> o.next == s.(isDraggingScrollbar := true))
      && (!OnScrollbar(clientX, clientY, box) ==> o == Outcome(s, []))
  {
    var e := MouseDown(clientX, clientY, box);
    ApplyOne(s, OnMouseDown, e);
  }

  /** mouseup runs stopDrag and then reset: the drag ends, false is reported iff a drag
      was in progress, and the timer is re-armed. */
  lemma MouseUpStep(s: State)
    requires s.attached
    ensures var o := Step(s, Dispatch(MouseUp));
      o.next == s.(isDraggingScrollbar := false, timerPending := true)
      && o.calls == (if s.isDraggingScrollbar then [false] else [])
  {
    ApplyTwo(s, StopDrag, Reset, MouseUp);
  }

  /** mouseleave runs stopDrag only: the drag ends, false is reported iff a drag was in
      progress, and the timer is left as it was. */
  lemma MouseLeaveStep(s: State)
    requires s.attached
    ensures var o := Step(s, Dispatch(MouseLeave));
      o.next == s.(isDraggingScrollbar := false)
      && o.calls == (if s.isDraggingScrollbar then [false] else [])
  {
    ApplyOne(s, StopDrag, MouseLeave);
  }

  /** keydown of a navigation key marks a user scroll and reports manual; any other key
      changes nothing and reports nothing. */
  lemma KeyDownStep(s: State, key: string)
    requires s.attached
    ensures var o := Step(s, Dispatch(KeyDown(key)));
      if key in ScrollKeys()
      then o == Outcome(s.(isUserScrolling := true), [true])
      else o == Outcome(s, [])
  {
    ApplyOne(s, OnKeyDown, KeyDown(key));
  }

  /** wheel and touchstart always mark a user scroll and report manual. */
  lemma WheelOrTouchStep(s: State, e: Event)
    requires s.attached
    requires e == Wheel || e == TouchStart
    ensures Step(s, Dispatch(e)) == Outcome(s.(isUserScrolling := true), [true])
  {
    ApplyOne(s, if e == Wheel then OnWheel else OnTouchStart, e);
  }

  /** scroll runs onScroll and then reset: true is reported iff the offsets moved while
      a flag was set, the offsets are recorded whatever the verdict, neither flag
      changes, and the timer is re-armed. */
  lemma ScrollStep(s: State, top: int, left: int)
    requires s.attached
    ensures var o := Step(s, Dispatch(Scroll(top, left)));
      o.next == s.(lastScrollTop := top, lastScrollLeft := left, timerPending := true)
      && (o.calls == [true] <==> ReportsManual(s, top, left))
      && (o.calls == [] <==> !ReportsManual(s, top, left))
  {
    ApplyTwo(s, OnScroll, Reset, Scroll(top, left));
  }

  /** No input reports more than once. */
  lemma AtMostOneCall(s: State, i: Input)
    ensures |Step(s, i).calls| <= 1
  {
    if i.Dispatch? && s.attached {
      match i.event
      case MouseDown(x, y, b) => MouseDownStep(s, x, y, b);
      case MouseUp => MouseUpStep(s);
      case MouseLeave => MouseLeaveStep(s);
      case KeyDown(k) => KeyDownStep(s, k);
      case Wheel => WheelOrTouchStep(s, Wheel);
      case TouchStart => WheelOrTouchStep(s, TouchStart);
      case Scroll(t, l) => ScrollStep(s, t, l);
    }
  }

  /** stopDrag is idempotent: a second mouseleave or mouseup right after the first
      changes nothing and reports nothing. */
  lemma StopDragIdempotent(s: State)
    requires s.attached
    ensures var left := Step(s, Dispatch(MouseLeave)).next;
      Step(left, Dispatch(MouseLeave)) == Outcome(left, [])
    ensures var up := Step(s, Dispatch(MouseUp)).next;
      Step(up, Dispatch(MouseUp)) == Outcome(up, [])
  {
    MouseLeaveStep(s);
    MouseLeaveStep(Step(s, Dispatch(MouseLeave)).next);
    MouseUpStep(s);
    MouseUpStep(Step(s, Dispatch(MouseUp)).next);
  }

  /** At most one timer is ever pending, and re-arming replaces it: two resets in a row
      leave the same state as one. */
  lemma ResetReplacesTimer(s: State, e: Event)
    ensures Apply(Apply(s, Reset, e).next, Reset, e) == Apply(s, Reset, e)
    ensures Apply(s, Reset, e).next.timerPending
  {
  }
}
