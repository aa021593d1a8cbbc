/**
 * The earlier revision of the playback page: the companion is held on
 * screen for a fixed time after each ad starts, by a hide timer that every
 * new start replaces. Timers are modelled by the browser's table of pending
 * timeouts (handle to due time, in milliseconds) and an explicit event for
 * a timeout that fires.
 */
module CompanionHold {
  import opened Wrappers
  import opened MediaClock
  import opened CompanionSelection

  /** How long, in milliseconds, a companion stays after its ad starts. */
  const HoldMs: real := 15000.0

  class CompanionOverlay {
    /** `companionTimer`: the handle of the last hide timer armed, if any. */
    var companionTimer: Option<nat>
    var companionHoldUntil: real
    /** The companion slot: empty, or one wrapper. */
    var slot: seq<Wrapper>
    /** The browser's pending timeouts: handle to due time. */
    var pendingTimers: map<nat, real>
    /** The handle the browser gives the next timeout. */
    var nextHandle: nat
    /** The STARTED listener is registered (some manager was obtained). */
    var listening: bool
    var commands: seq<PlayerCommand>
    /** When the last ad started. */
    ghost var lastStartAt: real

    /** The invariant apart from the link between a shown companion and its pending hide timer. */
    ghost predicate TimersValid()
      reads this
    {
      && |slot| <= 1
      && companionHoldUntil == 0.0
      && 1 <= nextHandle
      && (forall h :: h in pendingTimers ==> companionTimer == Some(h))
      && (companionTimer.Some? ==> 1 <= companionTimer.value < nextHandle)
    }

    /** At most one hide timer, the one `companionTimer` names, and a shown companion always has it pending, due one hold after the last start. */
    ghost predicate Valid()
      reads this
    {
      && TimersValid()
      && (slot != [] ==>
            companionTimer.Some? && companionTimer.value in pendingTimers
            && pendingTimers[companionTimer.value] == lastStartAt + HoldMs)
    }

    constructor ()
      ensures Valid()
      ensures companionTimer == None && slot == [] && pendingTimers == map[]
      ensures !listening && commands == []
    {
      companionTimer := None;
      companionHoldUntil := 0.0;
      slot := [];
      pendingTimers := map[];
      nextHandle := 1;
      listening := false;
      commands := [];
      lastStartAt := 0.0;
    }

    /** At most one hide timer is ever pending. */
    lemma AtMostOneTimer()
      requires Valid()
      ensures |pendingTimers.Keys| <= 1
      ensures pendingTimers != map[] ==> pendingTimers.Keys == {companionTimer.value}
    {
      if pendingTimers != map[] {
        var h :| h in pendingTimers;
        assert pendingTimers.Keys == {companionTimer.value};
      }
    }

    /** `window.clearTimeout(handle)`: a pending timeout is dropped; an absent or spent handle is ignored. */
    method ClearTimeout(handle: Option<nat>)
      modifies this`pendingTimers
      ensures handle.Some? ==> pendingTimers == old(pendingTimers) - {handle.value}
      ensures handle.None? ==> pendingTimers == old(pendingTimers)
    {
      if handle.Some? {
        pendingTimers := pendingTimers - {handle.value};
      }
    }

    /** `clearCompanion`: cancel the hide timer, reset the hold time, empty the slot; the handle itself is kept. */
    method ClearCompanion()
      requires TimersValid()
      modifies this
      ensures Valid()
      ensures slot == [] && companionHoldUntil == 0.0
      ensures pendingTimers == map[]
      ensures companionTimer == old(companionTimer)
      ensures nextHandle == old(nextHandle) && listening == old(listening) && commands == old(commands)
    {
      ClearTimeout(companionTimer);
      companionHoldUntil := 0.0;
      slot := [];
    }

    /** ADS_MANAGER_LOADED: without a manager, play the content and register nothing; otherwise listen, and play if `init`/`start` throws. */
    method OnAdsManagerLoaded(managerOk: bool, initStartOk: bool)
      requires Valid()
      modifies this`listening, this`commands
      ensures Valid()
      ensures listening == (old(listening) || managerOk)
      ensures commands == old(commands) + (if managerOk && initStartOk then [] else [Play])
    {
      if !managerOk {
        commands := commands + [Play];
        return;
      }
      listening := true;
      if !initStartOk {
        commands := commands + [Play];
      }
    }

    /**
     * STARTED at time `now`: render the companion, cancel the pending hide
     * timer, and arm a new one for `HoldMs` later, whether or not anything
     * was rendered.
     */
    method OnAdStarted(ad: Option<seq<Companion>>, now: real)
      requires Valid()
      modifies this
      ensures Valid()
      ensures !old(listening) ==>
        slot == old(slot) && companionTimer == old(companionTimer) && pendingTimers == old(pendingTimers)
        && nextHandle == old(nextHandle)
      ensures old(listening) ==>
        && slot == RenderedSlot(old(slot), ad)
        && companionTimer == Some(old(nextHandle))
        && pendingTimers == map[old(nextHandle) := now + HoldMs]
        && nextHandle == old(nextHandle) + 1
        && lastStartAt == now
      ensures listening == old(listening) && commands == old(commands)
    {
      if listening {
        slot := RenderedSlot(slot, ad);
        ClearTimeout(companionTimer);
        var handle := nextHandle;
        nextHandle := nextHandle + 1;
        pendingTimers := pendingTimers[handle := now + HoldMs];
        companionTimer := Some(handle);
        lastStartAt := now;
      }
    }

    /** The browser runs the timeout `handle` at time `now` if it is pending and due: the companion is cleared. */
    method FireTimer(handle: nat, now: real)
      requires Valid()
      modifies this
      ensures Valid()
      ensures var fires := handle in old(pendingTimers) && now >= old(pendingTimers)[handle];
        && (fires ==> slot == [] && pendingTimers == map[])
        && (!fires ==> slot == old(slot) && pendingTimers == old(pendingTimers))
      ensures old(slot) != [] && old(companionTimer) == Some(handle) && now >= old(lastStartAt) + HoldMs ==>
        slot == []
      ensures companionTimer == old(companionTimer) && nextHandle == old(nextHandle)
      ensures listening == old(listening) && commands == old(commands)
    {
      if handle in pendingTimers && now >= pendingTimers[handle] {
        pendingTimers := pendingTimers - {handle};
        ClearCompanion();
      }
    }

  }

  /** The earlier page's playhead mirror: the time and duration handed to the ad manager. */
  class PlayheadMirror {
    var currentTime: real
    var duration: Duration

    constructor ()
      ensures currentTime == 0.0 && duration == NotANumber
    {
      currentTime := 0.0;
      duration := NotANumber;
    }

    /** `onTimeUpdate`, run on every timeupdate and seeking event and once as a seed. */
    method OnTimeUpdate(videoTime: real, videoDuration: Duration)
      modifies this
      ensures currentTime == videoTime
      ensures IsTruthy(videoDuration) ==> duration == videoDuration
      ensures !IsTruthy(videoDuration) ==> duration == old(duration)
    {
      currentTime := videoTime;
      duration := KeepTruthy(videoDuration, duration);
    }
  }
}
