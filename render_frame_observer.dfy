/**
 * app_runtime::AppRuntimeRenderFrameObserver: the renderer end of the app
 * runtime's web view client interface.  It suspends and resumes DOM
 * activity through the view's modal loop, forwards memory pressure,
 * visibility and settings, and sets the widget's background colour.
 *
 * Calls into the render view, the widget and the host interface are
 * recorded as events in order.
 */
module RenderFrameObserver {
  import opened Wrappers

  /** blink::mojom::PageVisibilityState as extended for webOS. */
  datatype PageVisibility = Visible | Hidden | Prerender | Launching

  /** base::MemoryPressureListener levels the observer can raise. */
  datatype PressureLevel = Moderate | Critical

  datatype Event =
    | WillEnterModalLoop
    | DidExitModalLoop
    | DidResumeDOMSent
    | VisibilitySet(state: PageVisibility, isInitialState: bool)
    | DisallowScrollbarsSet(disallow: bool)
    | MemoryPressureNotified(level: PressureLevel)
    | BaseBackgroundColorSet(color: bv32)
    | DidClearWindowObjectSent

  /** Modal loops entered and not yet exited. */
  function ModalDepth(events: seq<Event>): int
  {
    if events == [] then 0
    else
      var last := events[|events| - 1];
      ModalDepth(events[..|events| - 1]) +
        (if last == WillEnterModalLoop then 1 else if last == DidExitModalLoop then -1 else 0)
  }

  lemma ModalDepthAppend(events: seq<Event>, e: Event)
    ensures ModalDepth(events + [e]) ==
            ModalDepth(events) + (if e == WillEnterModalLoop then 1 else if e == DidExitModalLoop then -1 else 0)
  {
    assert (events + [e])[..|events + [e]| - 1] == events;
  }

  /** The memory pressure a level number raises: 1 moderate, 2 critical, anything else none. */
  function PressureFor(level: int): (r: Option<PressureLevel>)
    ensures r == Some(Moderate) <==> level == 1
    ensures r == Some(Critical) <==> level == 2
    ensures r == None <==> level != 1 && level != 2
  {
    if level == 1 then Some(Moderate) else if level == 2 then Some(Critical) else None
  }

  /**
   * SkColorSetARGB: alpha in the top byte, then red, green and blue.  Skia
   * asserts that every component fits in a byte, which the component type
   * states here.
   */
  function Argb(a: bv8, r: bv8, g: bv8, b: bv8): bv32
  {
    ((a as bv32) << 24) | ((r as bv32) << 16) | ((g as bv32) << 8) | (b as bv32)
  }

  function Alpha(c: bv32): bv8 { ((c >> 24) & 0xFF) as bv8 }
  function Red(c: bv32): bv8 { ((c >> 16) & 0xFF) as bv8 }
  function Green(c: bv32): bv8 { ((c >> 8) & 0xFF) as bv8 }
  function Blue(c: bv32): bv8 { (c & 0xFF) as bv8 }

  /** Each component is read back from its own byte of the packed colour. */
  lemma ArgbRoundTrip(a: bv8, r: bv8, g: bv8, b: bv8)
    ensures Alpha(Argb(a, r, g, b)) == a && Red(Argb(a, r, g, b)) == r
    ensures Green(Argb(a, r, g, b)) == g && Blue(Argb(a, r, g, b)) == b
  {
  }

  /** Every colour is the packing of its own components. */
  lemma ArgbOfComponents(c: bv32)
    ensures Argb(Alpha(c), Red(c), Green(c), Blue(c)) == c
  {
  }

  class AppRuntimeRenderFrameObserver {
    const isMainFrame: bool
    /** dom_suspended_ */
    var domSuspended: bool
    var events: seq<Event>

    /** The modal loop is entered exactly while DOM activity is suspended. */
    ghost predicate Valid()
      reads this
    {
      ModalDepth(events) == if domSuspended then 1 else 0
    }

    constructor (mainFrame: bool)
      ensures Valid() && isMainFrame == mainFrame && !domSuspended && events == []
    {
      isMainFrame := mainFrame;
      domSuspended := false;
      events := [];
    }

    /** SuspendDOM: only the first call while resumed enters the modal loop. */
    method SuspendDOM()
      requires Valid()
      modifies this
      ensures Valid() && domSuspended
      ensures old(domSuspended) ==> events == old(events)
      ensures !old(domSuspended) ==> events == old(events) + [WillEnterModalLoop]
    {
      if domSuspended {
        return;
      }
      domSuspended := true;
      ModalDepthAppend(events, WillEnterModalLoop);
      events := events + [WillEnterModalLoop];
    }

    /**
     * ResumeDOM: nothing unless suspended; otherwise exits the modal loop
     * and tells the host, when its interface is bound, that DOM resumed.
     */
    method ResumeDOM(hasInterface: bool)
      requires Valid()
      modifies this
      ensures Valid() && !domSuspended
      ensures !old(domSuspended) ==> events == old(events)
      ensures old(domSuspended) ==>
                events == old(events) + [DidExitModalLoop] + (if hasInterface then [DidResumeDOMSent] else [])
    {
      if !domSuspended {
        return;
      }
      domSuspended := false;
      ModalDepthAppend(events, DidExitModalLoop);
      events := events + [DidExitModalLoop];
      if hasInterface {
        ModalDepthAppend(events, DidResumeDOMSent);
        events := events + [DidResumeDOMSent];
      }
    }

    /** SetVisibilityState: the state goes to the view, flagged as the initial one iff it is Launching. */
    method SetVisibilityState(state: PageVisibility)
      requires Valid()
      modifies this`events
      ensures Valid()
      ensures events == old(events) + [VisibilitySet(state, state == Launching)]
    {
      ModalDepthAppend(events, VisibilitySet(state, state == Launching));
      events := events + [VisibilitySet(state, state == Launching)];
    }

    /** SetDisallowScrollbarsInMainFrame: ignored outside the main frame. */
    method SetDisallowScrollbarsInMainFrame(disallow: bool)
      requires Valid()
      modifies this`events
      ensures Valid()
      ensures events == old(events) + (if isMainFrame then [DisallowScrollbarsSet(disallow)] else [])
    {
      if !isMainFrame {
        return;
      }
      ModalDepthAppend(events, DisallowScrollbarsSet(disallow));
      events := events + [DisallowScrollbarsSet(disallow)];
    }

    /** OnNotifyMemoryPressure: ignored outside the main frame and for unknown levels. */
    method OnNotifyMemoryPressure(level: int)
      requires Valid()
      modifies this`events
      ensures Valid()
      ensures !isMainFrame || PressureFor(level).None? ==> events == old(events)
      ensures isMainFrame && PressureFor(level).Some? ==>
                events == old(events) + [MemoryPressureNotified(PressureFor(level).value)]
    {
      if !isMainFrame {
        return;
      }
      match PressureFor(level) {
        case None =>
        case Some(p) =>
          ModalDepthAppend(events, MemoryPressureNotified(p));
          events := events + [MemoryPressureNotified(p)];
      }
    }

    /** SetBackgroundColor: the widget's base background becomes the ARGB packing of the components. */
    method SetBackgroundColor(r: bv8, g: bv8, b: bv8, a: bv8)
      requires Valid()
      modifies this`events
      ensures Valid()
      ensures events == old(events) + [BaseBackgroundColorSet(Argb(a, r, g, b))]
    {
      var color := Argb(a, r, g, b);
      ModalDepthAppend(events, BaseBackgroundColorSet(color));
      events := events + [BaseBackgroundColorSet(color)];
    }

    /** DidClearWindowObject: only the main frame tells the host. */
    method DidClearWindowObject()
      requires Valid()
      modifies this`events
      ensures Valid()
      ensures events == old(events) + (if isMainFrame then [DidClearWindowObjectSent] else [])
    {
      if !isMainFrame {
        return;
      }
      ModalDepthAppend(events, DidClearWindowObjectSent);
      events := events + [DidClearWindowObjectSent];
    }
  }

  /** Suspending twice and resuming once leaves no modal loop open. */
  method SuspendTwiceResumeOnce()
  {
    var o := new AppRuntimeRenderFrameObserver(true);
    o.SuspendDOM();
    o.SuspendDOM();
    o.ResumeDOM(true);
    assert o.events == [WillEnterModalLoop, DidExitModalLoop, DidResumeDOMSent];
    assert ModalDepth(o.events) == 0;
  }
}
