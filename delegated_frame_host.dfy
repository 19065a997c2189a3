/**
 * content::DelegatedFrameHost (neva): the aggressive release policy.  With
 * the policy on, hiding suspends drawing, evicts the frame and schedules a
 * background cleanup; showing right after a hide defers resuming drawing
 * until the next submitted frame.  With the policy off none of this
 * happens: only the upstream behaviour, which is not modelled, remains.
 *
 * The compositor, the frame sink support and the current surface are
 * flags saying whether each is present or valid; the device scale factor
 * is an opaque value; calls into the compositor and the frame sink are
 * recorded as events.
 */
module DelegatedFrameHost {
  import opened CommandLine

  const EnableAggressiveReleasePolicy: string := "enable-aggressive-release-policy"

  /** An opaque device scale factor. */
  type Scale = int

  datatype Event =
    | ResumeDrawing
    | SuspendDrawing
    | ScheduleFullRedraw
    | PlaceholderFrameSubmitted(scale: Scale)
    | FrameEvicted
    | BackgroundCleanupPosted
    | UnlockedFramesPurged

  class DelegatedFrameHost {
    /** use_aggressive_release_policy_ */
    const aggressive: bool
    /** was_hidden_ */
    var wasHidden: bool
    /** deferred_resume_drawing_ */
    var deferredResumeDrawing: bool
    /** did_first_swap_ */
    var didFirstSwap: bool
    /** active_device_scale_factor_ */
    var activeScale: Scale
    /** background_cleanup_task_ holds a callback that has not been cancelled or run. */
    var cleanupPending: bool
    var events: seq<Event>

    /** Without the policy, none of the neva flags is ever raised. */
    ghost predicate Valid()
      reads this
    {
      !aggressive ==> !wasHidden && !deferredResumeDrawing && !cleanupPending
    }

    constructor (cmd: Switches, initialScale: Scale)
      ensures Valid()
      ensures aggressive == HasSwitch(cmd, EnableAggressiveReleasePolicy)
      ensures !wasHidden && !deferredResumeDrawing && !didFirstSwap && !cleanupPending
      ensures activeScale == initialScale && events == []
    {
      aggressive := HasSwitch(cmd, EnableAggressiveReleasePolicy);
      wasHidden := false;
      deferredResumeDrawing := false;
      didFirstSwap := false;
      activeScale := initialScale;
      cleanupPending := false;
      events := [];
    }

    /**
     * WasShown: under the policy the pending cleanup is cancelled; right
     * after a hide, with no deferral pending, resuming is deferred;
     * otherwise drawing resumes at once.
     */
    method WasShown(hasCompositor: bool)
      requires Valid()
      modifies this
      ensures Valid()
      ensures didFirstSwap == old(didFirstSwap) && activeScale == old(activeScale)
      ensures !aggressive ==>
                wasHidden == old(wasHidden) && deferredResumeDrawing == old(deferredResumeDrawing) &&
                cleanupPending == old(cleanupPending) && events == old(events)
      ensures aggressive ==> !cleanupPending
      ensures aggressive && !old(deferredResumeDrawing) && old(wasHidden) ==>
                deferredResumeDrawing && !wasHidden && events == old(events)
      ensures aggressive && !(!old(deferredResumeDrawing) && old(wasHidden)) ==>
                deferredResumeDrawing == old(deferredResumeDrawing) && wasHidden == old(wasHidden) &&
                events == old(events) + (if hasCompositor then [ResumeDrawing] else [])
    {
      if !aggressive {
        return;
      }
      cleanupPending := false;
      if !deferredResumeDrawing && wasHidden {
        deferredResumeDrawing := true;
        wasHidden := false;
      } else if hasCompositor {
        events := events + [ResumeDrawing];
      }
    }

    /**
     * WasHidden: under the policy, a placeholder frame is submitted first
     * when there is frame sink support, a frame was swapped and the current
     * surface is valid; then drawing is suspended, the hide recorded, the
     * frame evicted and a cleanup posted.
     */
    method WasHidden(hasSupport: bool, surfaceValid: bool, hasCompositor: bool)
      requires Valid()
      modifies this
      ensures Valid()
      ensures didFirstSwap == old(didFirstSwap) && activeScale == old(activeScale)
      ensures deferredResumeDrawing == old(deferredResumeDrawing)
      ensures !aggressive ==> wasHidden == old(wasHidden) && cleanupPending == old(cleanupPending) && events == old(events)
      ensures aggressive ==>
                wasHidden && cleanupPending &&
                events == old(events) +
                  (if hasSupport && didFirstSwap && surfaceValid then [PlaceholderFrameSubmitted(activeScale)] else []) +
                  (if hasCompositor then [SuspendDrawing] else []) +
                  [FrameEvicted, BackgroundCleanupPosted]
    {
      if aggressive && hasSupport && didFirstSwap && surfaceValid {
        events := events + [PlaceholderFrameSubmitted(activeScale)];
      }
      if !aggressive {
        return;
      }
      if hasCompositor {
        events := events + [SuspendDrawing];
      }
      wasHidden := true;
      events := events + [FrameEvicted];
      cleanupPending := true;
      events := events + [BackgroundCleanupPosted];
    }

    /** DoBackgroundCleanup, when the posted task runs without having been cancelled. */
    method RunBackgroundCleanup()
      requires Valid()
      modifies this`cleanupPending, this`events
      ensures Valid() && !cleanupPending
      ensures events == old(events) + (if old(cleanupPending) then [UnlockedFramesPurged] else [])
    {
      if cleanupPending {
        cleanupPending := false;
        events := events + [UnlockedFramesPurged];
      }
    }

    /**
     * SubmitCompositorFrame: a pending deferral is cleared with drawing
     * resumed and one full redraw; after any submit a first swap has happened.
     */
    method SubmitCompositorFrame(hasCompositor: bool)
      requires Valid()
      modifies this`deferredResumeDrawing, this`didFirstSwap, this`events
      ensures Valid() && didFirstSwap
      ensures hasCompositor && old(deferredResumeDrawing) ==>
                !deferredResumeDrawing && events == old(events) + [ResumeDrawing, ScheduleFullRedraw]
      ensures !(hasCompositor && old(deferredResumeDrawing)) ==>
                deferredResumeDrawing == old(deferredResumeDrawing) && events == old(events)
    {
      if hasCompositor && deferredResumeDrawing {
        deferredResumeDrawing := false;
        events := events + [ResumeDrawing, ScheduleFullRedraw];
      }
      didFirstSwap := true;
    }

    /** OnFirstSurfaceActivation: remembers the surface's device scale factor. */
    method OnFirstSurfaceActivation(scale: Scale)
      requires Valid()
      modifies this`activeScale
      ensures Valid() && activeScale == scale
    {
      activeScale := scale;
    }
  }

  /** Hide, show, submit: drawing resumes once, when the first frame after the show arrives. */
  method HideShowSubmit(scale: Scale)
  {
    var host := new DelegatedFrameHost(map[EnableAggressiveReleasePolicy := ""], scale);
    host.SubmitCompositorFrame(true);
    host.WasHidden(true, true, true);
    host.WasShown(true);
    assert host.deferredResumeDrawing && host.events ==
      [PlaceholderFrameSubmitted(scale), SuspendDrawing, FrameEvicted, BackgroundCleanupPosted];
    host.RunBackgroundCleanup();
    host.SubmitCompositorFrame(true);
    assert host.events ==
      [PlaceholderFrameSubmitted(scale), SuspendDrawing, FrameEvicted, BackgroundCleanupPosted,
       ResumeDrawing, ScheduleFullRedraw];
  }
}
