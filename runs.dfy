/** Sequences of inputs fed to one detector, and what the callback sees over them. */
module Runs {
  import opened Classifier

  /** The inputs `ins` applied in order from `s`, with every callback value reported. */
  function Run(s: State, ins: seq<Input>): (o: Outcome)
    // each input reports at most once
    ensures |o.calls| <= |ins|
    // once detached, a detector stays detached
    ensures o.next.attached ==> s.attached
    decreases |ins|
  {
    if ins == [] then Outcome(s, [])
    else
      AtMostOneCall(s, ins[0]);
      var first := Step(s, ins[0]);
      var rest := Run(first.next, ins[1..]);
      Outcome(rest.next, first.calls + rest.calls)
  }

  /** The inputs that mark the start of a manual episode: a mousedown on a scrollbar,
      a navigation keydown, a wheel or a touchstart. */
  predicate ManualSignal(i: Input)
  {
    i.Dispatch? &&
    match i.event
    case MouseDown(x, y, b) => OnScrollbar(x, y, b)
    case KeyDown(k) => k in ScrollKeys()
    case Wheel => true
    case TouchStart => true
    case _ => false
  }

  predicate Quiet(s: State)
  {
    !s.isUserScrolling && !s.isDraggingScrollbar
  }

  /** With both flags clear, an input that is not a manual signal reports no true and
      leaves both flags clear. */
  lemma QuietStep(s: State, i: Input)
    requires Quiet(s)
    requires !ManualSignal(i)
    ensures true !in Step(s, i).calls
    ensures Quiet(Step(s, i).next)
  {
    if i.Dispatch? && s.attached {
      match i.event
      case MouseDown(x, y, b) => MouseDownStep(s, x, y, b);
      case MouseUp => MouseUpStep(s);
      case MouseLeave => MouseLeaveStep(s);
      case KeyDown(k) => KeyDownStep(s, k);
      case Scroll(t, l) => ScrollStep(s, t, l);
    }
  }

  /** Programmatic scrolling stays silent: without a manual signal, no sequence of
      inputs (scrolls, releases, other keys, timer firings, detach) reports manual. */
  lemma {:induction false} NoSignalNoManual(s: State, ins: seq<Input>)
    requires Quiet(s)
    requires forall k :: 0 <= k < |ins| ==> !ManualSignal(ins[k])
    ensures true !in Run(s, ins).calls
    ensures Quiet(Run(s, ins).next)
    decreases |ins|
  {
    if ins != [] {
      QuietStep(s, ins[0]);
      var first := Step(s, ins[0]);
      NoSignalNoManual(first.next, ins[1..]);
    }
  }

  /** The same from attach: a freshly attached detector never reports manual until a
      manual signal arrives. */
  lemma AttachedWithoutSignal(scrollTop: int, scrollLeft: int, ins: seq<Input>)
    requires forall k :: 0 <= k < |ins| ==> !ManualSignal(ins[k])
    ensures true !in Run(Attach(scrollTop, scrollLeft), ins).calls
  {
    NoSignalNoManual(Attach(scrollTop, scrollLeft), ins);
  }

  /** After detach no handler runs: the only callback that can still happen is the one
      pending timer reporting false, once, at the first timer firing. Nothing but
      isUserScrolling and the timer can change. */
  lemma {:induction false} DetachedRun(s: State, ins: seq<Input>)
    requires !s.attached
    ensures var o := Run(s, ins);
      o.calls == (if s.timerPending && TimerFires in ins then [false] else [])
      && !o.next.attached
      && o.next.isDraggingScrollbar == s.isDraggingScrollbar
      && o.next.lastScrollTop == s.lastScrollTop
      && o.next.lastScrollLeft == s.lastScrollLeft
    decreases |ins|
  {
    if ins != [] {
      var first := Step(s, ins[0]);
      DetachedRun(first.next, ins[1..]);
      assert ins == [ins[0]] + ins[1..];
      if ins[0] == TimerFires {
        assert !first.next.timerPending;
      } else {
        assert first.next.timerPending == s.timerPending;
      }
    }
  }

  /** The scroll events for a sequence of (scrollTop, scrollLeft) offsets. */
  function Scrolls(offsets: seq<(int, int)>): (ins: seq<Input>)
    ensures |ins| == |offsets|
  {
    if offsets == [] then []
    else [Dispatch(Scroll(offsets[0].0, offsets[0].1))] + Scrolls(offsets[1..])
  }

  /** How many of `offsets` differ from the position before them, starting at (top, left). */
  function Moves(top: int, left: int, offsets: seq<(int, int)>): nat
    decreases offsets
  {
    if offsets == [] then 0
    else
      var here := if offsets[0] != (top, left) then 1 else 0;
      here + Moves(offsets[0].0, offsets[0].1, offsets[1..])
  }

  /** While a flag is set, a run of scroll events reports manual exactly once per
      position change, and reports nothing for a scroll that did not move. */
  lemma {:induction false} ScrollsReportEachMove(s: State, offsets: seq<(int, int)>)
    requires s.attached
    requires s.isUserScrolling || s.isDraggingScrollbar
    ensures var o := Run(s, Scrolls(offsets));
      |o.calls| == Moves(s.lastScrollTop, s.lastScrollLeft, offsets)
      && false !in o.calls
      && o.next.isUserScrolling == s.isUserScrolling
      && o.next.isDraggingScrollbar == s.isDraggingScrollbar
    decreases |offsets|
  {
    if offsets != [] {
      var (t, l) := offsets[0];
      ScrollStep(s, t, l);
      var first := Step(s, Dispatch(Scroll(t, l)));
      ScrollsReportEachMove(first.next, offsets[1..]);
      assert Scrolls(offsets)[1..] == Scrolls(offsets[1..]);
    }
  }

  /** The offsets of the last scroll event in `ins`, or `initial` when there is none. */
  function LastScroll(initial: (int, int), ins: seq<Input>): (int, int)
  {
    if ins == [] then initial
    else if ins[|ins| - 1].Dispatch? && ins[|ins| - 1].event.Scroll?
    then (ins[|ins| - 1].event.scrollTop, ins[|ins| - 1].event.scrollLeft)
    else LastScroll(initial, ins[..|ins| - 1])
  }

  /** Whatever was reported, the recorded offsets are those of the most recent scroll
      while attached. */
  lemma {:induction false} OffsetsFollowScrolls(s: State, ins: seq<Input>)
    requires s.attached
    requires Detach !in ins
    ensures var o := Run(s, ins);
      (o.next.lastScrollTop, o.next.lastScrollLeft)
        == LastScroll((s.lastScrollTop, s.lastScrollLeft), ins)
    decreases |ins|
  {
    if ins != [] {
      var init := (s.lastScrollTop, s.lastScrollLeft);
      var last := ins[|ins| - 1];
      var front := ins[..|ins| - 1];
      RunAppend(s, front, [last]);
      assert front + [last] == ins;
      OffsetsFollowScrolls(s, front);
      var mid := Run(s, front).next;
      assert mid.attached by {
        AttachedWithoutDetach(s, front);
      }
      OffsetsOfOneStep(mid, last);
    }
  }

  /** One input's effect on the recorded offsets while attached. */
  lemma OffsetsOfOneStep(s: State, i: Input)
    requires s.attached
    ensures var n := Run(s, [i]).next;
      (n.lastScrollTop, n.lastScrollLeft)
        == LastScroll((s.lastScrollTop, s.lastScrollLeft), [i])
  {
    assert [i][1..] == [];
    assert [i][..0] == [];
    if i.Dispatch? {
      match i.event
      case MouseDown(x, y, b) => MouseDownStep(s, x, y, b);
      case MouseUp => MouseUpStep(s);
      case MouseLeave => MouseLeaveStep(s);
      case KeyDown(k) => KeyDownStep(s, k);
      case Wheel => WheelOrTouchStep(s, Wheel);
      case TouchStart => WheelOrTouchStep(s, TouchStart);
      case Scroll(t, l) => ScrollStep(s, t, l);
    }
  }

  /** Only detach detaches. */
  lemma {:induction false} AttachedWithoutDetach(s: State, ins: seq<Input>)
    requires s.attached
    requires Detach !in ins
    ensures Run(s, ins).next.attached
    decreases |ins|
  {
    if ins != [] {
      assert ins[0] != Detach;
      assert forall k :: 1 <= k < |ins| ==> ins[k] in ins;
      AttachedWithoutDetach(Step(s, ins[0]).next, ins[1..]);
    }
  }

  /** Running `a` and then `b` is running `a + b`. */
  lemma {:induction false} RunAppend(s: State, a: seq<Input>, b: seq<Input>)
    ensures var first := Run(s, a);
      var second := Run(first.next, b);
      Run(s, a + b) == Outcome(second.next, first.calls + second.calls)
    decreases |a|
  {
    if a == [] {
      assert a + b == b;
    } else {
      var step := Step(s, a[0]);
      assert (a + b)[0] == a[0];
      assert (a + b)[1..] == a[1..] + b;
      RunAppend(step.next, a[1..], b);
      var rest := Run(step.next, a[1..]);
      var second := Run(rest.next, b);
      calc {
        Run(s, a + b);
        Outcome(Run(step.next, a[1..] + b).next, step.calls + Run(step.next, a[1..] + b).calls);
        Outcome(second.next, step.calls + (rest.calls + second.calls));
        { assert step.calls + (rest.calls + second.calls) == (step.calls + rest.calls) + second.calls; }
        Outcome(second.next, Run(s, a).calls + second.calls);
      }
    }
  }

  /** A single input run on its own. */
  lemma RunOne(s: State, i: Input)
    ensures Run(s, [i]) == Step(s, i)
  {
    assert [i][1..] == [];
  }

  /** Extending a run by one input. */
  lemma RunSnoc(s: State, ins: seq<Input>, i: Input)
    ensures var before := Run(s, ins);
      var last := Step(before.next, i);
      Run(s, ins + [i]) == Outcome(last.next, before.calls + last.calls)
  {
    RunAppend(s, ins, [i]);
    RunOne(Run(s, ins).next, i);
  }

  /** Wheel, then a scroll to 40, then the quiet period: the wheel and the scroll each
      report manual, and the timer reports the end of the episode. */
  lemma WheelScrollThenQuiet()
    ensures Run(Attach(0, 0), [Dispatch(Wheel), Dispatch(Scroll(40, 0)), TimerFires]).calls
      == [true, true, false]
  {
    var s0 := Attach(0, 0);
    WheelOrTouchStep(s0, Wheel);
    var s1 := Step(s0, Dispatch(Wheel)).next;
    ScrollStep(s1, 40, 0);
    var s2 := Step(s1, Dispatch(Scroll(40, 0))).next;
    RunOne(s2, TimerFires);
    RunAppend(s1, [Dispatch(Scroll(40, 0))], [TimerFires]);
    RunOne(s1, Dispatch(Scroll(40, 0)));
    RunAppend(s0, [Dispatch(Wheel)], [Dispatch(Scroll(40, 0)), TimerFires]);
    RunOne(s0, Dispatch(Wheel));
  }

  /** A programmatic scroll reports nothing itself, but it arms the timer, which later
      reports false although no manual episode began. */
  lemma ProgrammaticScrollThenQuiet()
    ensures Run(Attach(0, 0), [Dispatch(Scroll(100, 0))]).calls == []
    ensures Run(Attach(0, 0), [Dispatch(Scroll(100, 0)), TimerFires]).calls == [false]
  {
    var s0 := Attach(0, 0);
    ScrollStep(s0, 100, 0);
    RunOne(s0, Dispatch(Scroll(100, 0)));
    var s1 := Step(s0, Dispatch(Scroll(100, 0))).next;
    RunOne(s1, TimerFires);
    RunAppend(s0, [Dispatch(Scroll(100, 0))], [TimerFires]);
  }

  /** A 15-pixel vertical scrollbar: a mousedown two pixels inside the right edge starts
      a drag and reports manual; the mouseup ends it, reports false and arms the timer. */
  lemma ScrollbarDragThenRelease()
    ensures var box := Box(300, 200, 115, 100, 100, 100);
      var o := Run(Attach(0, 0), [Dispatch(MouseDown(298, 5, box)), Dispatch(MouseUp)]);
      o.calls == [true, false] && !o.next.isDraggingScrollbar && o.next.timerPending
  {
    var box := Box(300, 200, 115, 100, 100, 100);
    var s0 := Attach(0, 0);
    MouseDownStep(s0, 298, 5, box);
    var s1 := Step(s0, Dispatch(MouseDown(298, 5, box))).next;
    MouseUpStep(s1);
    RunOne(s0, Dispatch(MouseDown(298, 5, box)));
    RunOne(s1, Dispatch(MouseUp));
    RunAppend(s0, [Dispatch(MouseDown(298, 5, box))], [Dispatch(MouseUp)]);
  }

  /** Wheel input arms no timer of its own: from attach, where no timer is pending, a
      timer firing after a wheel reports nothing and isUserScrolling stays set. */
  lemma WheelAloneArmsNoTimer()
    ensures var o := Run(Attach(0, 0), [Dispatch(Wheel), TimerFires]);
      o.calls == [true] && o.next.isUserScrolling
  {
    var s0 := Attach(0, 0);
    WheelOrTouchStep(s0, Wheel);
    RunOne(s0, Dispatch(Wheel));
    var s1 := Step(s0, Dispatch(Wheel)).next;
    RunOne(s1, TimerFires);
    RunAppend(s0, [Dispatch(Wheel)], [TimerFires]);
  }

  /** A timer armed before the wheel, here by a programmatic scroll, still fires and
      ends the wheel episode with no scroll or mouseup after it. */
  lemma EarlierTimerEndsWheel()
    ensures var o := Run(Attach(0, 0), [Dispatch(Scroll(10, 0)), Dispatch(Wheel), TimerFires]);
      o.calls == [true, false] && !o.next.isUserScrolling
  {
    var s0 := Attach(0, 0);
    ScrollStep(s0, 10, 0);
    var s1 := Step(s0, Dispatch(Scroll(10, 0))).next;
    WheelOrTouchStep(s1, Wheel);
    var s2 := Step(s1, Dispatch(Wheel)).next;
    RunOne(s0, Dispatch(Scroll(10, 0)));
    RunOne(s1, Dispatch(Wheel));
    RunOne(s2, TimerFires);
    RunAppend(s1, [Dispatch(Wheel)], [TimerFires]);
    assert [Dispatch(Wheel)] + [TimerFires] == [Dispatch(Wheel), TimerFires];
    RunAppend(s0, [Dispatch(Scroll(10, 0))], [Dispatch(Wheel), TimerFires]);
    assert [Dispatch(Scroll(10, 0))] + [Dispatch(Wheel), TimerFires]
      == [Dispatch(Scroll(10, 0)), Dispatch(Wheel), TimerFires];
  }

  /** A mouseup arms the timer too, so it ends a wheel episode without any scroll: the
      timer then reports false and clears isUserScrolling. */
  lemma WheelThenMouseUpEnds()
    ensures var o := Run(Attach(0, 0), [Dispatch(Wheel), Dispatch(MouseUp), TimerFires]);
      o.calls == [true, false] && !o.next.isUserScrolling
  {
    var s0 := Attach(0, 0);
    WheelOrTouchStep(s0, Wheel);
    var s1 := Step(s0, Dispatch(Wheel)).next;
    MouseUpStep(s1);
    var s2 := Step(s1, Dispatch(MouseUp)).next;
    RunOne(s0, Dispatch(Wheel));
    RunOne(s1, Dispatch(MouseUp));
    RunOne(s2, TimerFires);
    RunAppend(s1, [Dispatch(MouseUp)], [TimerFires]);
    assert [Dispatch(MouseUp)] + [TimerFires] == [Dispatch(MouseUp), TimerFires];
    RunAppend(s0, [Dispatch(Wheel)], [Dispatch(MouseUp), TimerFires]);
    assert [Dispatch(Wheel)] + [Dispatch(MouseUp), TimerFires]
      == [Dispatch(Wheel), Dispatch(MouseUp), TimerFires];
  }

  /** Detach does not clear the timer: a timer armed before detach still reports
      false afterwards, once. */
  lemma TimerOutlivesDetach()
    ensures Run(Attach(0, 0), [Dispatch(Scroll(10, 0)), Detach, TimerFires, TimerFires]).calls
      == [false]
  {
    var s0 := Attach(0, 0);
    ScrollStep(s0, 10, 0);
    RunOne(s0, Dispatch(Scroll(10, 0)));
    var s1 := Step(s0, Dispatch(Scroll(10, 0))).next;
    RunAppend(s0, [Dispatch(Scroll(10, 0))], [Detach, TimerFires, TimerFires]);
    RunAppend(s1, [Detach], [TimerFires, TimerFires]);
    RunOne(s1, Detach);
    DetachedRun(s1.(attached := false), [TimerFires, TimerFires]);
  }
}
