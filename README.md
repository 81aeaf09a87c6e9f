# Manual scroll detector, modelled in Dafny

`attachManualScrollDetector(el, callback)` (src/index.ts) watches one scroll
container and decides whether a change of its scroll position came from the
user (wheel, touch, navigation keys, dragging a scrollbar) or from the program.
It keeps five closure variables: `isUserScrolling`, `isDraggingScrollbar`,
`lastScrollTop`, `lastScrollLeft` and `resetTimeout`. It registers nine event
listeners and reports through `callback(true)` / `callback(false)`. The
function it returns removes the listeners.

The model has four modules:

- `Listeners` (listeners.dfy): the nine registrations attach makes, the nine
  removals detach makes, `removeEventListener`, and routing an event to the
  listeners of its type in registration order.
- `Classifier` (classifier.dfy): the closure state as a value (`State`), each
  closure as `Apply`, and one input (`Step`). An input is a DOM event routed
  through the listener table, the debounce timer firing, or detach. `Step`
  returns the next state and the callback values reported, in order. Lemmas
  state what each event does.
- `Runs` (runs.dfy): `Run` feeds a sequence of inputs to a detector. Lemmas
  cover whole runs: programmatic scrolling is never reported as manual, the callback after
  detach, one report per position change, the recorded offsets. Scenario
  lemmas cover concrete interactions.
- `ManualScroll` (detector.dfy): the detector as the source builds it. It is a
  class whose fields are the closure variables, plus `attached` and the
  callback log `calls`. It has one method per closure and one method per
  delivered event. Each event method is proved to do what `Step` says. The
  invariant `Valid()` says the object's state and log are exactly those of
  `Run` over the inputs delivered since attach, from the state attach built
  (no event method changes the recorded attach offsets), so every `Runs` lemma
  applies to the object.

Environment inputs become parameters:

- the pointer position (`clientX`, `clientY`) and the element box
  (`getBoundingClientRect().right/bottom`, `offsetWidth/Height`,
  `clientWidth/Height`) are the parameters of `MouseDown`;
- `el.scrollTop` / `el.scrollLeft` at scroll time are the parameters of
  `Scroll`;
- `e.key` is the parameter of `KeyDown`.

`resetTimeout` is modelled as `timerPending`. `reset` (clearTimeout, then
setTimeout) sets it. The input `TimerFires` / the method `FireTimer` runs the
timer's callback if a timer is pending.

The model follows the code in src/index.ts as written. It has no key-ignore
option and no focus gating: every navigation keydown on the window counts. The
timer reports `false` whether or not a manual episode preceded it, and detach
removes the listeners but keeps the timer:

- the timer reports `false` unconditionally. A purely programmatic scroll arms
  it and so still leads to a `false` report (`ProgrammaticScrollThenQuiet`);
- detach leaves a pending timer to fire once more (`TimerOutlivesDetach`,
  `DetachedRun`);
- wheel, touch and key input arm no timer of their own. Only scroll and
  mouseup do, so unless a timer is already pending, the episode is reported
  over only after a later scroll or mouseup (`WheelAloneArmsNoTimer`). A
  mouseup alone is enough to end it (`WheelThenMouseUpEnds`), and so is a
  timer a scroll armed before the wheel (`EarlierTimerEndsWheel`).

## Model

| member | source | states |
|---|---|---|
| `Listeners.Registered` | src/index.ts:37-96 | the nine (target, event type, closure) registrations attach makes, in the order it makes them |
| `Listeners.Removed` | src/index.ts:100-108 | the nine (target, event type, closure) removals the detach function makes, in its order |
| `Listeners.HandlersFor` | src/index.ts:37-96 | the closures an event type reaches through a listener table, in table order: a closure is among them exactly when some listener in the table is registered for that type with it |
| `Listeners.Route` | src/index.ts:37-96 | the closures each event type reaches while attached: mouseup reaches stopDrag then reset, scroll reaches onScroll then reset, every other type its one closure |
| `Listeners.RemoveListener` | src/index.ts:100-108 | removeEventListener drops one matching registration: the multiset of listeners loses exactly that listener, and nothing if it was not registered |
| `Listeners.RemoveAll` | src/index.ts:99-109 | the listeners left after a sequence of removals are the registered multiset minus the removed multiset |
| `Listeners.RemoveAllOwn` | src/index.ts:99-109 | removing a list's own listeners one by one, in the list's order, leaves none |
| `Listeners.RegisteredOnce` | src/index.ts:37-96 | no listener is registered twice, so each removal undoes exactly one registration |
| `Listeners.DetachedRoutesNothing` | src/index.ts:99-109 | after the detach function's removals, an event of any type reaches no handler |
| `Listeners.SameRemovalsAsRegistrations` | src/index.ts:99-109 | detach removes the same nine (target, type, handler) triples that attach registered, in the same order |
| `Listeners.DetachRemovesEveryListener` | src/index.ts:99-109 | the removals are a permutation of the registrations, and removing them leaves no listener at all |
| `Listeners.RegisteredRoutes` | src/index.ts:37-96 | registration order routes mouseup to stopDrag then reset and scroll to onScroll then reset; each other event type reaches its one handler |
| `Classifier.Attach` | src/index.ts:8-13 | the state attach creates: both flags clear, the element's current offsets recorded, no timer pending, the listeners registered |
| `Classifier.ScrollKeys` | src/index.ts:42-51 | the eight keys whose keydown counts as a keyboard scroll |
| `Classifier.OnScrollbar` | src/index.ts:18-22 | the scrollbar hit-test: the pointer lies past the right edge less the vertical scrollbar's thickness (offsetWidth - clientWidth), or past the bottom edge less the horizontal one's |
| `Classifier.ReportsManual` | src/index.ts:76-78 | a scroll is reported as manual exactly when an offset differs from the recorded one and a flag is set |
| `Classifier.Apply` | src/index.ts:16-94 | no closure adds or removes listeners: every handler leaves the detector attached exactly when it was |
| `Classifier.ApplyAll` | src/index.ts:37-96 | running the handlers of one event in order leaves the attachment unchanged |
| `Classifier.Step` | src/index.ts:88-109 | a detached detector ignores every DOM event; only detach detaches; the timer fires only when pending, clears isUserScrolling, reports false, and touches neither the drag flag nor the offsets; detach reports nothing and keeps a pending timer pending |
| `Classifier.MouseDownStep` | src/index.ts:16-28 | mousedown reports [true] iff the pointer passes `right - (offsetWidth - clientWidth)` or `bottom - (offsetHeight - clientHeight)`, and then only sets the drag flag; otherwise nothing changes and nothing is reported |
| `Classifier.MouseUpStep` | src/index.ts:30-96 | mouseup clears the drag flag, reports [false] exactly when a drag was in progress, and re-arms the timer |
| `Classifier.MouseLeaveStep` | src/index.ts:30-39 | mouseleave clears the drag flag and reports [false] exactly when a drag was in progress; the timer is untouched |
| `Classifier.KeyDownStep` | src/index.ts:42-57 | a keydown of one of the eight navigation keys sets isUserScrolling and reports [true]; any other key changes nothing and reports nothing |
| `Classifier.WheelOrTouchStep` | src/index.ts:61-72 | wheel and touchstart always set isUserScrolling and report [true], changing nothing else |
| `Classifier.ScrollStep` | src/index.ts:75-95 | scroll reports [true] iff the offsets moved while a flag was set, otherwise nothing; it records the new offsets whatever the verdict, changes neither flag, and re-arms the timer |
| `Classifier.AtMostOneCall` | src/index.ts:16-94 | no single input invokes the callback more than once |
| `Classifier.StopDragIdempotent` | src/index.ts:30-35 | a second mouseleave or mouseup right after the first changes nothing and reports nothing |
| `Classifier.ResetReplacesTimer` | src/index.ts:88-94 | reset leaves a timer pending, and a second reset replaces it, leaving the same single pending timer |
| `Runs.Run` | src/index.ts:16-109 | over a run of inputs, the callback is invoked no more times than there are inputs, and a detached detector never re-attaches |
| `Runs.QuietStep` | src/index.ts:16-94 | with both flags clear, an input that is not a manual signal reports no true and keeps both flags clear |
| `Runs.NoSignalNoManual` | src/index.ts:75-83 | without a scrollbar mousedown, navigation key, wheel or touchstart, no run of scrolls, releases, other keys, timer firings or detach ever reports true, and both flags stay clear |
| `Runs.AttachedWithoutSignal` | src/index.ts:8-13 | from the state attach creates, programmatic scrolling is never reported as manual |
| `Runs.DetachedRun` | src/index.ts:99-109 | after detach the only callback is one false, and only when a timer was pending and fires; the drag flag and the offsets never change again |
| `Runs.ScrollsReportEachMove` | src/index.ts:75-83 | while a flag is set, a run of scroll events reports true exactly once per position change and nothing else, and the flags stay as they were |
| `Runs.OffsetsFollowScrolls` | src/index.ts:81-82 | while attached, after any run the recorded offsets are those of the last scroll event, or the attach-time offsets if there was none |
| `Runs.OffsetsOfOneStep` | src/index.ts:75-83 | only a scroll event changes the recorded offsets, and it records its own |
| `Runs.AttachedWithoutDetach` | src/index.ts:99-109 | a detector stays attached through any run without detach |
| `Runs.RunAppend` | src/index.ts:16-109 | running two sequences one after the other is running their concatenation |
| `Runs.RunSnoc` | src/index.ts:16-109 | extending a run by one input applies one more step and appends its reports |
| `Runs.WheelScrollThenQuiet` | src/index.ts:61-94 | wheel, a scroll from 0 to 40, then the timer: the callback sees true, true, false |
| `Runs.ProgrammaticScrollThenQuiet` | src/index.ts:75-94 | a scroll to 100 with no prior signal reports nothing, yet the timer it arms then reports false |
| `Runs.ScrollbarDragThenRelease` | src/index.ts:16-96 | with a 15-pixel vertical scrollbar, mousedown two pixels inside the right edge reports true; the mouseup reports false, ends the drag and arms the timer |
| `Runs.WheelAloneArmsNoTimer` | src/index.ts:61-96 | from attach, where no timer is pending, wheel arms no timer of its own: a timer firing afterwards reports nothing and isUserScrolling stays set |
| `Runs.EarlierTimerEndsWheel` | src/index.ts:88-95 | a scroll arms the timer before a wheel; the timer then ends the wheel episode with no later scroll or mouseup: the callback sees true, then false, and isUserScrolling is cleared |
| `Runs.WheelThenMouseUpEnds` | src/index.ts:88-96 | a window mouseup arms the timer even without a drag or a scroll, so wheel, mouseup, timer reports true then false and clears isUserScrolling |
| `Runs.TimerOutlivesDetach` | src/index.ts:88-109 | a timer armed by a scroll before detach still reports false after detach, exactly once |
| `ManualScroll.ManualScrollDetector.constructor` | src/index.ts:8-13 | attach: both flags clear, the element's offsets recorded, no timer pending, listeners registered, nothing reported, and the invariant established for an empty history |
| `ManualScroll.ManualScrollDetector.OnMouseDown` | src/index.ts:16-28 | sets the drag flag and reports true iff the hit-test passes, changing nothing else |
| `ManualScroll.ManualScrollDetector.StopDrag` | src/index.ts:30-35 | clears the drag flag and reports false iff it was set, changing nothing else |
| `ManualScroll.ManualScrollDetector.OnKeyDown` | src/index.ts:52-57 | sets isUserScrolling and reports true iff the key is a navigation key |
| `ManualScroll.ManualScrollDetector.OnWheel` | src/index.ts:61-64 | sets isUserScrolling and reports true |
| `ManualScroll.ManualScrollDetector.OnTouchStart` | src/index.ts:68-71 | sets isUserScrolling and reports true |
| `ManualScroll.ManualScrollDetector.OnScroll` | src/index.ts:75-83 | reports true iff the offsets moved while a flag was set, then records the new offsets |
| `ManualScroll.ManualScrollDetector.Reset` | src/index.ts:88-94 | replaces any pending timer by a new one; nothing else changes |
| `ManualScroll.ManualScrollDetector.MouseDown` | src/index.ts:37 | a mousedown delivered to the object has exactly the effect Step gives, and the invariant holds with the event appended to the history and the recorded attach offsets unchanged |
| `ManualScroll.ManualScrollDetector.MouseUp` | src/index.ts:38-96 | mouseup runs stopDrag then reset, with exactly the effect Step gives; the invariant is kept and the recorded attach offsets do not change |
| `ManualScroll.ManualScrollDetector.MouseLeave` | src/index.ts:39 | mouseleave runs stopDrag, with exactly the effect Step gives; the invariant is kept and the recorded attach offsets do not change |
| `ManualScroll.ManualScrollDetector.KeyDown` | src/index.ts:58 | keydown runs onKeyDown, with exactly the effect Step gives; the invariant is kept and the recorded attach offsets do not change |
| `ManualScroll.ManualScrollDetector.Wheel` | src/index.ts:65 | wheel runs onWheel, with exactly the effect Step gives; the invariant is kept and the recorded attach offsets do not change |
| `ManualScroll.ManualScrollDetector.TouchStart` | src/index.ts:72 | touchstart runs onTouchStart, with exactly the effect Step gives; the invariant is kept and the recorded attach offsets do not change |
| `ManualScroll.ManualScrollDetector.Scroll` | src/index.ts:84-95 | scroll runs onScroll then reset, with exactly the effect Step gives; the invariant is kept and the recorded attach offsets do not change |
| `ManualScroll.ManualScrollDetector.FireTimer` | src/index.ts:90-93 | the timer callback has exactly the effect Step gives, attached or not; the invariant is kept and the recorded attach offsets do not change |
| `ManualScroll.ManualScrollDetector.Detach` | src/index.ts:99-109 | detach stops all dispatch and leaves a pending timer pending; the invariant is kept and the recorded attach offsets do not change |

## Left out

- The DOM itself: `addEventListener`, `getBoundingClientRect`, `offsetWidth` and
  the rest are replaced by the parameters named above; window-versus-element
  scoping beyond routing an event to the listeners of its type is not modelled.
- Real `setTimeout` / `clearTimeout` and the 100 ms delay: elapsed time is not
  modelled. The timer is a pending flag, and it fires only as an explicit
  input.
- Browser dispatch order and asynchrony: inputs are applied one at a time, in
  the order given.
- Floating-point coordinates: pointer positions, box edges and the element's
  `scrollTop` / `scrollLeft` (which browsers may report as fractions) are
  integers. The hit-test only orders them and `onScroll` only compares offsets
  for inequality, so integers lose nothing those comparisons can see.
- The callback is assumed to return normally and to touch neither the
  element's offsets nor the detach function. A callback that scrolls the
  element inside `onScroll` would change the offsets `onScroll` records after
  it, because the source reads `el.scrollTop` / `el.scrollLeft` again after
  calling back; the model records the event's offsets. A callback that throws
  would leave the offsets unrecorded. A callback that detaches during mouseup
  would keep the later `reset` listener from running; the model runs every
  handler routed to the event. Callback re-entrancy is not modelled.
- `Classifier.ResetReplacesTimer`: "at most one pending timer" holds by
  construction, because the pending timer is a boolean, not a set of timer
  handles.
- Several containers, a key-ignore option, focus-gated keys, and a timer that
  reports only after a manual episode are not in src/index.ts and are not
  modelled.
