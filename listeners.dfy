/** The event listeners the detector registers when it is attached and removes
    when it is detached, and how an incoming event is routed to them. */
module Listeners {

  /** Where a listener is registered: on the scroll container or on the window. */
  datatype Target = Element | Window

  /** The DOM event types the detector listens to, named after their type strings. */
  datatype EventType = mousedown | mouseup | mouseleave | keydown | wheel | touchstart | scroll

  /** The closures the detector registers as listeners. */
  datatype Handler = OnMouseDown | StopDrag | OnKeyDown | OnWheel | OnTouchStart | OnScroll | Reset

  datatype Listener = Listener(target: Target, eventType: EventType, handler: Handler)

  /** The nine listeners attach registers, in registration order. */
  function Registered(): seq<Listener> {
    [
    Listener(Element, mousedown, OnMouseDown),
    Listener(Window, mouseup, StopDrag),
    Listener(Window, mouseleave, StopDrag),
    Listener(Window, keydown, OnKeyDown),
    Listener(Element, wheel, OnWheel),
    Listener(Element, touchstart, OnTouchStart),
    Listener(Element, scroll, OnScroll),
    Listener(Element, scroll, Reset),
    Listener(Window, mouseup, Reset)
    ]
  }

  /** The listeners the detach function removes, in the order it removes them. */
  function Removed(): seq<Listener> {
    [
    Listener(Element, mousedown, OnMouseDown),
    Listener(Window, mouseup, StopDrag),
    Listener(Window, mouseleave, StopDrag),
    Listener(Window, keydown, OnKeyDown),
    Listener(Element, wheel, OnWheel),
    Listener(Element, touchstart, OnTouchStart),
    Listener(Element, scroll, OnScroll),
    Listener(Element, scroll, Reset),
    Listener(Window, mouseup, Reset)
    ]
  }

  /** Some listener at position `i` or later is registered for `t` with handler `h`. */
  predicate Listens(ls: seq<Listener>, t: EventType, h: Handler, i: nat)
  {
    exists j :: i <= j < |ls| && ls[j].eventType == t && ls[j].handler == h
  }

  /** The handlers an event of type `t` reaches, in registration order. */
  function HandlersFor(ls: seq<Listener>, t: EventType): (hs: seq<Handler>)
    ensures forall h :: h in hs <==> Listens(ls, t, h, 0)
  {
    HandlersFrom(ls, t, 0)
  }

  /** The handlers for `t` among the listeners from position `i` on. */
  function HandlersFrom(ls: seq<Listener>, t: EventType, i: nat): (hs: seq<Handler>)
    requires i <= |ls|
    ensures forall h :: h in hs <==> Listens(ls, t, h, i)
    decreases |ls| - i
  {
    if i == |ls| then []
    else (if ls[i].eventType == t then [ls[i].handler] else []) + HandlersFrom(ls, t, i + 1)
  }

  /** removeEventListener: drops the matching registration, if there is one. */
  function RemoveListener(ls: seq<Listener>, l: Listener): (r: seq<Listener>)
    ensures multiset(r) == multiset(ls) - multiset{l}
    ensures |r| == if l in ls then |ls| - 1 else |ls|
  {
    if ls == [] then []
    else
      assert ls == [ls[0]] + ls[1..];
      if ls[0] == l then ls[1..]
      else [ls[0]] + RemoveListener(ls[1..], l)
  }

  /** The listeners left after removing each of `rs` in turn. */
  function RemoveAll(ls: seq<Listener>, rs: seq<Listener>): (r: seq<Listener>)
    ensures multiset(r) == multiset(ls) - multiset(rs)
    decreases rs
  {
    if rs == [] then ls
    else
      assert rs == [rs[0]] + rs[1..];
      RemoveAll(RemoveListener(ls, rs[0]), rs[1..])
  }

  /** No listener is registered twice, so each removal undoes exactly one registration. */
  lemma RegisteredOnce()
    ensures forall i, j :: 0 <= i < j < |Registered()| ==> Registered()[i] != Registered()[j]
  {
  }

  /** Removing a table's own listeners, in its own order, empties it. */
  lemma {:induction false} RemoveAllOwn(ls: seq<Listener>)
    ensures RemoveAll(ls, ls) == []
    decreases |ls|
  {
    if ls != [] {
      assert RemoveListener(ls, ls[0]) == ls[1..];
      RemoveAllOwn(ls[1..]);
    }
  }

  /** Detach undoes attach: every registered listener is removed, none is left over,
      and nothing is removed that was not registered. */
  lemma DetachRemovesEveryListener()
    ensures multiset(Removed()) == multiset(Registered())
    ensures RemoveAll(Registered(), Removed()) == []
  {
    SameRemovalsAsRegistrations();
    RemoveAllOwn(Registered());
  }

  /** Once detach has removed its listeners, no event type reaches any handler. */
  lemma DetachedRoutesNothing(t: EventType)
    ensures HandlersFor(RemoveAll(Registered(), Removed()), t) == []
  {
    DetachRemovesEveryListener();
  }

  /** The detach function removes the listeners in the order attach registered them. */
  lemma SameRemovalsAsRegistrations()
    ensures Removed() == Registered()
  {
  }

  /** The handlers each event type reaches, in the order the registration table lists
      them: mouseup reaches stopDrag before reset, scroll reaches onScroll before reset. */
  function Route(t: EventType): seq<Handler>
  {
    match t
    case mousedown => [OnMouseDown]
    case mouseup => [StopDrag, Reset]
    case mouseleave => [StopDrag]
    case keydown => [OnKeyDown]
    case wheel => [OnWheel]
    case touchstart => [OnTouchStart]
    case scroll => [OnScroll, Reset]
  }

  /** Dispatching through the registration table reaches exactly the handlers of Route. */
  lemma RegisteredRoutes(t: EventType)
    ensures HandlersFor(Registered(), t) == Route(t)
  {
    match t
    case mousedown =>
    case mouseup =>
    case mouseleave =>
    case keydown =>
    case wheel =>
    case touchstart =>
    case scroll =>
  }
}
