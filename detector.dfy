/** The detector as the source builds it: one object per attached element whose fields
    are the closure variables, one method per registered closure, one method per
    event that reaches the closures its listeners name, and the detach function.
    Each callback invocation is appended to `calls`. */
module ManualScroll {
  import opened Classifier
  import opened Runs

  class ManualScrollDetector {
    var isUserScrolling: bool
    var isDraggingScrollbar: bool
    var lastScrollTop: int
    var lastScrollLeft: int
    /** resetTimeout holds a timer that has not fired yet */
    var timerPending: bool
    /** the listeners are still registered */
    var attached: bool
    /** the values passed to the callback so far, oldest first */
    var calls: seq<bool>

    /** the offsets recorded at attach, and every input delivered since; no event
        changes attachedAt, so Valid() always describes the run from this attach */
    ghost var attachedAt: (int, int)
    ghost var history: seq<Input>

    /** The object is where its history leads: its state and its callback log are
        those of running the history from the state attach produced. */
    ghost predicate Valid()
      reads this
    {
      Run(Attach(attachedAt.0, attachedAt.1), history) == Outcome(Snapshot(), calls)
    }

    /** The closure state as a value of the classifier model. */
    function Snapshot(): State
      reads this
    {
      State(isUserScrolling, isDraggingScrollbar, lastScrollTop, lastScrollLeft,
            timerPending, attached)
    }

    /** attach: both flags clear, the element's current offsets recorded, no timer,
        the listeners registered, nothing reported yet. */
    constructor (scrollTop: int, scrollLeft: int)
      ensures !isUserScrolling && !isDraggingScrollbar
      ensures lastScrollTop == scrollTop && lastScrollLeft == scrollLeft
      ensures !timerPending && attached && calls == []
      ensures Snapshot() == Attach(scrollTop, scrollLeft)
      ensures Valid() && history == [] && attachedAt == (scrollTop, scrollLeft)
    {
      isUserScrolling := false;
      lastScrollTop := scrollTop;
      lastScrollLeft := scrollLeft;
      isDraggingScrollbar := false;
      timerPending := false;
      attached := true;
      calls := [];
      attachedAt := (scrollTop, scrollLeft);
      history := [];
    }

    // ---- the closures registered as listeners ----

    method OnMouseDown(clientX: int, clientY: int, box: Box)
      modifies this`isDraggingScrollbar, this`calls
      ensures Snapshot() == if OnScrollbar(clientX, clientY, box)
        then old(Snapshot()).(isDraggingScrollbar := true) else old(Snapshot())
      ensures calls == old(calls) + if OnScrollbar(clientX, clientY, box) then [true] else []
    {
      var onVerticalScrollbar := clientX > box.right - (box.offsetWidth - box.clientWidth);
      var onHorizontalScrollbar := clientY > box.bottom - (box.offsetHeight - box.clientHeight);
      if onVerticalScrollbar || onHorizontalScrollbar {
        isDraggingScrollbar := true;
        calls := calls + [true];
      }
    }

    method StopDrag()
      modifies this`isDraggingScrollbar, this`calls
      ensures Snapshot() == old(Snapshot()).(isDraggingScrollbar := false)
      ensures calls == old(calls) + if old(isDraggingScrollbar) then [false] else []
    {
      if isDraggingScrollbar {
        isDraggingScrollbar := false;
        calls := calls + [false];
      }
    }

    method OnKeyDown(key: string)
      modifies this`isUserScrolling, this`calls
      ensures Snapshot() == if key in ScrollKeys()
        then old(Snapshot()).(isUserScrolling := true) else old(Snapshot())
      ensures calls == old(calls) + if key in ScrollKeys() then [true] else []
    {
      if key in ScrollKeys() {
        isUserScrolling := true;
        calls := calls + [true];
      }
    }

    method OnWheel()
      modifies this`isUserScrolling, this`calls
      ensures Snapshot() == old(Snapshot()).(isUserScrolling := true)
      ensures calls == old(calls) + [true]
    {
      isUserScrolling := true;
      calls := calls + [true];
    }

    method OnTouchStart()
      modifies this`isUserScrolling, this`calls
      ensures Snapshot() == old(Snapshot()).(isUserScrolling := true)
      ensures calls == old(calls) + [true]
    {
      isUserScrolling := true;
      calls := calls + [true];
    }

    /** `scrollTop` and `scrollLeft` are the element's offsets when the event arrives. */
    method OnScroll(scrollTop: int, scrollLeft: int)
      modifies this`lastScrollTop, this`lastScrollLeft, this`calls
      ensures Snapshot() == old(Snapshot()).(lastScrollTop := scrollTop, lastScrollLeft := scrollLeft)
      ensures calls == old(calls)
        + if ReportsManual(old(Snapshot()), scrollTop, scrollLeft) then [true] else []
    {
      var scrolled := scrollTop != lastScrollTop || scrollLeft != lastScrollLeft;
      if scrolled && (isDraggingScrollbar || isUserScrolling) {
        calls := calls + [true];
      }
      lastScrollTop := scrollTop;
      lastScrollLeft := scrollLeft;
    }

    /** clearTimeout the pending timer, if any, and setTimeout a new one. */
    method Reset()
      modifies this`timerPending
      ensures Snapshot() == old(Snapshot()).(timerPending := true) && calls == old(calls)
    {
      timerPending := true;
    }

    // ---- what the browser delivers ----

    method MouseDown(clientX: int, clientY: int, box: Box)
      requires Valid()
      modifies this
      ensures Valid() && history == old(history) + [Dispatch(Classifier.MouseDown(clientX, clientY, box))]
      ensures attachedAt == old(attachedAt)
      ensures var o := Step(old(Snapshot()), Dispatch(Classifier.MouseDown(clientX, clientY, box)));
        Snapshot() == o.next && calls == old(calls) + o.calls
    {
      ghost var ran := history;
      ghost var before := Snapshot();
      if attached {
        MouseDownStep(before, clientX, clientY, box);
        OnMouseDown(clientX, clientY, box);
      }
      history := ran + [Dispatch(Classifier.MouseDown(clientX, clientY, box))];
      RunSnoc(Attach(attachedAt.0, attachedAt.1), ran, Dispatch(Classifier.MouseDown(clientX, clientY, box)));
    }

    /** mouseup reaches stopDrag, then reset, in registration order. */
    method MouseUp()
      requires Valid()
      modifies this
      ensures Valid() && history == old(history) + [Dispatch(Classifier.MouseUp)]
      ensures attachedAt == old(attachedAt)
      ensures var o := Step(old(Snapshot()), Dispatch(Classifier.MouseUp));
        Snapshot() == o.next && calls == old(calls) + o.calls
    {
      ghost var ran := history;
      ghost var before := Snapshot();
      if attached {
        MouseUpStep(before);
        StopDrag();
        Reset();
      }
      history := ran + [Dispatch(Classifier.MouseUp)];
      RunSnoc(Attach(attachedAt.0, attachedAt.1), ran, Dispatch(Classifier.MouseUp));
    }

    method MouseLeave()
      requires Valid()
      modifies this
      ensures Valid() && history == old(history) + [Dispatch(Classifier.MouseLeave)]
      ensures attachedAt == old(attachedAt)
      ensures var o := Step(old(Snapshot()), Dispatch(Classifier.MouseLeave));
        Snapshot() == o.next && calls == old(calls) + o.calls
    {
      ghost var ran := history;
      ghost var before := Snapshot();
      if attached {
        MouseLeaveStep(before);
        StopDrag();
      }
      history := ran + [Dispatch(Classifier.MouseLeave)];
      RunSnoc(Attach(attachedAt.0, attachedAt.1), ran, Dispatch(Classifier.MouseLeave));
    }

    method KeyDown(key: string)
      requires Valid()
      modifies this
      ensures Valid() && history == old(history) + [Dispatch(Classifier.KeyDown(key))]
      ensures attachedAt == old(attachedAt)
      ensures var o := Step(old(Snapshot()), Dispatch(Classifier.KeyDown(key)));
        Snapshot() == o.next && calls == old(calls) + o.calls
    {
      ghost var ran := history;
      ghost var before := Snapshot();
      if attached {
        KeyDownStep(before, key);
        OnKeyDown(key);
      }
      history := ran + [Dispatch(Classifier.KeyDown(key))];
      RunSnoc(Attach(attachedAt.0, attachedAt.1), ran, Dispatch(Classifier.KeyDown(key)));
    }

    method Wheel()
      requires Valid()
      modifies this
      ensures Valid() && history == old(history) + [Dispatch(Classifier.Wheel)]
      ensures attachedAt == old(attachedAt)
      ensures var o := Step(old(Snapshot()), Dispatch(Classifier.Wheel));
        Snapshot() == o.next && calls == old(calls) + o.calls
    {
      ghost var ran := history;
      ghost var before := Snapshot();
      if attached {
        WheelOrTouchStep(before, Classifier.Wheel);
        OnWheel();
      }
      history := ran + [Dispatch(Classifier.Wheel)];
      RunSnoc(Attach(attachedAt.0, attachedAt.1), ran, Dispatch(Classifier.Wheel));
    }

    method TouchStart()
      requires Valid()
      modifies this
      ensures Valid() && history == old(history) + [Dispatch(Classifier.TouchStart)]
      ensures attachedAt == old(attachedAt)
      ensures var o := Step(old(Snapshot()), Dispatch(Classifier.TouchStart));
        Snapshot() == o.next && calls == old(calls) + o.calls
    {
      ghost var ran := history;
      ghost var before := Snapshot();
      if attached {
        WheelOrTouchStep(before, Classifier.TouchStart);
        OnTouchStart();
      }
      history := ran + [Dispatch(Classifier.TouchStart)];
      RunSnoc(Attach(attachedAt.0, attachedAt.1), ran, Dispatch(Classifier.TouchStart));
    }

    /** scroll reaches onScroll, then reset, in registration order. */
    method Scroll(scrollTop: int, scrollLeft: int)
      requires Valid()
      modifies this
      ensures Valid() && history == old(history) + [Dispatch(Classifier.Scroll(scrollTop, scrollLeft))]
      ensures attachedAt == old(attachedAt)
      ensures var o := Step(old(Snapshot()), Dispatch(Classifier.Scroll(scrollTop, scrollLeft)));
        Snapshot() == o.next && calls == old(calls) + o.calls
    {
      ghost var ran := history;
      ghost var before := Snapshot();
      if attached {
        ScrollStep(before, scrollTop, scrollLeft);
        OnScroll(scrollTop, scrollLeft);
        Reset();
      }
      history := ran + [Dispatch(Classifier.Scroll(scrollTop, scrollLeft))];
      RunSnoc(Attach(attachedAt.0, attachedAt.1), ran, Dispatch(Classifier.Scroll(scrollTop, scrollLeft)));
    }

    /** The pending timer's callback runs: whether or not the detector is still
        attached, it clears isUserScrolling and reports false. */
    method FireTimer()
      requires Valid()
      modifies this
      ensures Valid() && history == old(history) + [TimerFires]
      ensures attachedAt == old(attachedAt)
      ensures var o := Step(old(Snapshot()), TimerFires);
        Snapshot() == o.next && calls == old(calls) + o.calls
    {
      ghost var ran := history;
      if timerPending {
        timerPending := false;
        isUserScrolling := false;
        calls := calls + [false];
      }
      history := ran + [TimerFires];
      RunSnoc(Attach(attachedAt.0, attachedAt.1), ran, TimerFires);
    }

    /** The function attach returns: it removes the nine listeners and does not clear
        the pending timer. */
    method Detach()
      requires Valid()
      modifies this
      ensures Valid() && history == old(history) + [Classifier.Detach]
      ensures attachedAt == old(attachedAt)
      ensures var o := Step(old(Snapshot()), Classifier.Detach);
        Snapshot() == o.next && calls == old(calls) + o.calls
      ensures timerPending == old(timerPending)
    {
      ghost var ran := history;
      attached := false;
      history := ran + [Classifier.Detach];
      RunSnoc(Attach(attachedAt.0, attachedAt.1), ran, Classifier.Detach);
    }
  }
}
