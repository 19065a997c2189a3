/**
 * aura::WindowTreeHostPlatform: the bounds, the pending resize and the
 * cursor of a window tree host backed by a platform window, with the webOS
 * cursor rules (the pointer cursor is replaced by the compositor's default
 * one, and a request to hide the cursor is ignored).
 *
 * Requests to the platform window and notifications to the host's
 * observers are recorded as events.  Device scale factors are opaque values
 * compared for equality.
 */
module WindowTreeHost {
  datatype Point = Point(x: int, y: int)
  datatype Size = Size(width: int, height: int)
  datatype Rect = Rect(origin: Point, size: Size)

  /** gfx::Rect() */
  function EmptyRect(): Rect { Rect(Point(0, 0), Size(0, 0)) }

  /** viz::LocalSurfaceIdAllocation: the default-constructed one is invalid. */
  datatype Allocation = NoAllocation | Allocation(id: nat)

  /** The ui::CursorType values the webOS rules single out. */
  datatype CursorType = NullCursor | Pointer | NoneCursor | OtherCursor(kind: nat)

  /** gfx::NativeCursor: its type and the platform cursor behind it. */
  datatype Cursor = Cursor(nativeType: CursorType, platform: nat)

  /** An opaque device scale factor. */
  type Scale = int

  datatype Event =
    | BoundsRequested(bounds: Rect)
    | HostMoved(origin: Point)
    | HostResized(size: Size, allocation: Allocation)
    | CustomCursorNotUse
    | PlatformCursorSet(platform: nat)

  class WindowTreeHostPlatform {
    /** bounds_ */
    var bounds: Rect
    /** pending_size_ */
    var pendingSize: Size
    /** pending_local_surface_id_allocation_ */
    var pendingAllocation: Allocation
    /** current_cursor_ */
    var currentCursor: Cursor
    /** platform_window_ is set */
    var hasPlatformWindow: bool
    /** keyboard_hook_ is set */
    var hasKeyboardHook: bool
    var events: seq<Event>

    /** The constructor that only takes the root window: no platform window yet and a null cursor. */
    constructor ()
      ensures bounds == EmptyRect() && pendingSize == Size(0, 0) && pendingAllocation == NoAllocation
      ensures currentCursor.nativeType == NullCursor
      ensures !hasPlatformWindow && !hasKeyboardHook && events == []
    {
      bounds := EmptyRect();
      pendingSize := Size(0, 0);
      pendingAllocation := NoAllocation;
      currentCursor := Cursor(NullCursor, 0);
      hasPlatformWindow := false;
      hasKeyboardHook := false;
      events := [];
    }

    /** The constructor from init properties: their bounds, and a platform window created at once. */
    constructor WithProperties(initialBounds: Rect)
      ensures bounds == initialBounds && pendingSize == Size(0, 0) && pendingAllocation == NoAllocation
      ensures currentCursor.nativeType == NullCursor
      ensures hasPlatformWindow && !hasKeyboardHook && events == []
    {
      bounds := initialBounds;
      pendingSize := Size(0, 0);
      pendingAllocation := NoAllocation;
      currentCursor := Cursor(NullCursor, 0);
      hasPlatformWindow := true;
      hasKeyboardHook := false;
      events := [];
    }

    method SetPlatformWindow()
      modifies this`hasPlatformWindow
      ensures hasPlatformWindow
    {
      hasPlatformWindow := true;
    }

    /** GetBoundsInPixels: the platform window's bounds, or an empty rectangle without one. */
    function GetBoundsInPixels(platformBounds: Rect): (r: Rect)
      reads this
      ensures hasPlatformWindow ==> r == platformBounds
      ensures !hasPlatformWindow ==> r == EmptyRect()
    {
      if hasPlatformWindow then platformBounds else EmptyRect()
    }

    /** SetBoundsInPixels: the requested size and allocation become pending, then the platform window is asked. */
    method SetBoundsInPixels(requested: Rect, allocation: Allocation)
      requires hasPlatformWindow
      modifies this`pendingSize, this`pendingAllocation, this`events
      ensures pendingSize == requested.size && pendingAllocation == allocation
      ensures events == old(events) + [BoundsRequested(requested)]
    {
      pendingSize := requested.size;
      pendingAllocation := allocation;
      events := events + [BoundsRequested(requested)];
    }

    /**
     * OnBoundsChanged: a changed origin is reported as a move; a resize is
     * reported when an allocation is pending, the size changed or the scale
     * changed, carrying the pending allocation only if the new size is the
     * pending one.  A reported resize clears the pending state.
     */
    method OnBoundsChanged(newBounds: Rect, currentScale: Scale, newScale: Scale)
      modifies this`bounds, this`pendingSize, this`pendingAllocation, this`events
      ensures bounds == newBounds
      ensures var moved := if newBounds.origin != old(bounds).origin then [HostMoved(newBounds.origin)] else [];
              var resized := old(pendingAllocation).Allocation? || newBounds.size != old(bounds).size ||
                             currentScale != newScale;
              var reported := if newBounds.size == old(pendingSize) then old(pendingAllocation) else NoAllocation;
              && (resized ==>
                    pendingAllocation == NoAllocation && pendingSize == Size(0, 0) &&
                    events == old(events) + moved + [HostResized(newBounds.size, reported)])
              && (!resized ==>
                    pendingAllocation == old(pendingAllocation) && pendingSize == old(pendingSize) &&
                    events == old(events) + moved)
    {
      var oldBounds := bounds;
      bounds := newBounds;
      if bounds.origin != oldBounds.origin {
        events := events + [HostMoved(bounds.origin)];
      }
      if pendingAllocation.Allocation? || bounds.size != oldBounds.size || currentScale != newScale {
        var allocation := NoAllocation;
        if bounds.size == pendingSize {
          allocation := pendingAllocation;
        }
        pendingAllocation := NoAllocation;
        pendingSize := Size(0, 0);
        events := events + [HostResized(bounds.size, allocation)];
      }
    }

    /**
     * SetCursorNative on webOS: the same cursor again does nothing.  Any
     * other cursor is recorded as current first; then a pointer cursor is
     * replaced by the default custom cursor, a none cursor is not applied,
     * and any other is set on the platform window.
     */
    method SetCursorNative(cursor: Cursor)
      requires hasPlatformWindow
      modifies this`currentCursor, this`events
      ensures currentCursor == cursor
      ensures cursor == old(currentCursor) ==> events == old(events)
      ensures cursor != old(currentCursor) ==>
                events == old(events) +
                  (match cursor.nativeType
                   case Pointer => [CustomCursorNotUse]
                   case NoneCursor => []
                   case _ => [PlatformCursorSet(cursor.platform)])
    {
      if cursor == currentCursor {
        return;
      }
      currentCursor := cursor;
      if cursor.nativeType == Pointer {
        events := events + [CustomCursorNotUse];
        return;
      } else if cursor.nativeType == NoneCursor {
        return;
      }
      events := events + [PlatformCursorSet(cursor.platform)];
    }

    /** CaptureSystemKeyEventsImpl: at most one hook at a time; reports whether one was created. */
    method CaptureSystemKeyEvents(hookCreated: bool) returns (captured: bool)
      requires !hasKeyboardHook
      modifies this`hasKeyboardHook
      ensures hasKeyboardHook == hookCreated && captured == hookCreated
    {
      hasKeyboardHook := hookCreated;
      captured := hasKeyboardHook;
    }

    method ReleaseSystemKeyEventCapture()
      modifies this`hasKeyboardHook
      ensures !hasKeyboardHook
    {
      hasKeyboardHook := false;
    }

    /** IsKeyLocked: false without a keyboard hook; otherwise what the hook says. */
    function IsKeyLocked(hookSaysLocked: bool): (locked: bool)
      reads this
      ensures locked <==> hasKeyboardHook && hookSaysLocked
    {
      hasKeyboardHook && hookSaysLocked
    }
  }

  /** A requested resize that the platform window carries out is reported with the requested allocation. */
  method RequestedResizeKeepsAllocation(requested: Rect, id: nat, scale: Scale)
  {
    var host := new WindowTreeHostPlatform.WithProperties(EmptyRect());
    host.SetBoundsInPixels(requested, Allocation(id));
    host.OnBoundsChanged(requested, scale, scale);
    assert host.events[|host.events| - 1] == HostResized(requested.size, Allocation(id));
    assert host.pendingAllocation == NoAllocation;
  }

  /** A hidden cursor is recorded, so restoring the previous one is applied again. */
  method HiddenCursorThenRestore(c: Cursor)
    requires c.nativeType.OtherCursor?
  {
    var host := new WindowTreeHostPlatform.WithProperties(EmptyRect());
    host.SetCursorNative(c);
    host.SetCursorNative(Cursor(NoneCursor, 0));
    host.SetCursorNative(c);
    assert host.events == [PlatformCursorSet(c.platform), PlatformCursorSet(c.platform)];
  }
}
