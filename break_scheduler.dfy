/**
 * The ad-break scheduler of the playback page (`onAdsManagerLoaded`).
 *
 * Two event streams drive it: the ad manager's break events (ready,
 * started, ended) and the video element's `timeupdate`. Every one of them
 * funnels into one decision rule that starts the next break when it is both
 * ready and due. The pure part below (`Evaluate`, `Step`, `Run`) is the
 * specification; `PlaybackScheduler` is the page's state, with one method
 * per event, each proved to perform exactly one `Step`.
 */
module BreakScheduler {
  import opened Wrappers
  import opened Sequences
  import opened MediaClock
  import opened CompanionSelection

  /** Tolerance, in seconds, for a cue reached slightly before the clock tick that passes it. */
  const Eps: real := 0.25

  /** One entry of the list `getCuePoints` returns: a number, or any other JavaScript value. */
  datatype CueValue = NumberCue(seconds: real) | NotNumber

  /** The outcome of `getCuePoints?.()`: it threw, returned nothing (or the method is missing), or returned a list. */
  datatype CueSource = CuesThrew | CuesMissing | CuesReturned(values: seq<CueValue>)

  /** The numbers among `values` that are at least 0, in their original order. */
  function NonNegativeCues(values: seq<CueValue>): (cues: seq<real>)
    ensures |cues| <= |values|
    ensures forall i :: 0 <= i < |cues| ==> cues[i] >= 0.0
    decreases |values|
  {
    if values == [] then []
    else
      var rest := NonNegativeCues(values[1..]);
      match values[0]
      case NumberCue(t) => if t >= 0.0 then [t] + rest else rest
      case NotNumber => rest
  }

  /** The schedule a new manager yields: its cue list filtered, or empty when reading it fails. */
  function CuePointsFrom(src: CueSource): (cues: seq<real>)
    ensures forall i :: 0 <= i < |cues| ==> cues[i] >= 0.0
    ensures !src.CuesReturned? ==> cues == []
  {
    match src
    case CuesReturned(values) => NonNegativeCues(values)
    case _ => []
  }

  /** A cue is kept exactly when it is a non-negative number of the manager's list. */
  lemma {:induction false} NonNegativeCuesMembers(values: seq<CueValue>, t: real)
    ensures t in NonNegativeCues(values) <==> NumberCue(t) in values && t >= 0.0
    decreases |values|
  {
    if values != [] {
      NonNegativeCuesMembers(values[1..], t);
      assert values == [values[0]] + values[1..];
    }
  }

  /**
   * The filter in full: it keeps exactly the non-negative numbers, one
   * entry by one entry, so the kept cues are those numbers in the manager's
   * order, each as often as the list holds it.
   */
  lemma {:induction false} NonNegativeCuesIsFilter(a: seq<CueValue>, b: seq<CueValue>, v: CueValue)
    ensures NonNegativeCues(a + b) == NonNegativeCues(a) + NonNegativeCues(b)
    ensures NonNegativeCues([v]) == if v.NumberCue? && v.seconds >= 0.0 then [v.seconds] else []
    decreases |a|
  {
    assert [v][1..] == [];
    if a == [] {
      assert a + b == b;
    } else {
      var ab := a + b;
      assert ab[0] == a[0] && ab[1..] == a[1..] + b;
      NonNegativeCuesCons(ab);
      NonNegativeCuesCons(a);
      NonNegativeCuesIsFilter(a[1..], b, v);
      AppendAssoc(NonNegativeCues([a[0]]), NonNegativeCues(a[1..]), NonNegativeCues(b));
    }
  }

  lemma NonNegativeCuesCons(a: seq<CueValue>)
    requires a != []
    ensures NonNegativeCues(a) == NonNegativeCues([a[0]]) + NonNegativeCues(a[1..])
  {
    var one := [a[0]];
    assert one[1..] == [];
    var kept := if a[0].NumberCue? && a[0].seconds >= 0.0 then [a[0].seconds] else [];
    assert NonNegativeCues(one) == kept + NonNegativeCues(one[1..]);
    assert NonNegativeCues(one) == kept;
    assert NonNegativeCues(a) == kept + NonNegativeCues(a[1..]);
  }

  /** Each pair of kept cues appears in that order in the manager's list. */
  lemma {:induction false} NonNegativeCuesKeepOrder(values: seq<CueValue>, i: nat, j: nat)
    requires i < j < |NonNegativeCues(values)|
    ensures exists p, q :: (0 <= p < q < |values|
      && values[p] == NumberCue(NonNegativeCues(values)[i])
      && values[q] == NumberCue(NonNegativeCues(values)[j]))
    decreases |values|
  {
    var cues := NonNegativeCues(values);
    var rest := NonNegativeCues(values[1..]);
    if values[0].NumberCue? && values[0].seconds >= 0.0 {
      assert cues == [values[0].seconds] + rest;
      if i == 0 {
        NonNegativeCuesMembers(values[1..], cues[j]);
        assert cues[j] == rest[j - 1];
        var q :| 0 <= q < |values[1..]| && values[1..][q] == NumberCue(cues[j]);
        assert values[q + 1] == NumberCue(cues[j]);
      } else {
        NonNegativeCuesKeepOrder(values[1..], i - 1, j - 1);
        var p, q :| 0 <= p < q < |values[1..]| && values[1..][p] == NumberCue(rest[i - 1])
          && values[1..][q] == NumberCue(rest[j - 1]);
        assert values[p + 1] == NumberCue(cues[i]) && values[q + 1] == NumberCue(cues[j]);
      }
    } else {
      assert cues == rest;
      NonNegativeCuesKeepOrder(values[1..], i, j);
      var p, q :| 0 <= p < q < |values[1..]| && values[1..][p] == NumberCue(rest[i])
        && values[1..][q] == NumberCue(rest[j]);
      assert values[p + 1] == NumberCue(cues[i]) && values[q + 1] == NumberCue(cues[j]);
    }
  }

  /** The scheduler's counters: the schedule, breaks started so far, breaks declared ready, and whether a break is playing. */
  datatype SchedulerState = SchedulerState(cuePoints: seq<real>, startedCount: nat, readyCount: nat, adPlaying: bool)

  /** What every reachable state satisfies: no break started that was not ready, none beyond the schedule. */
  predicate Inv(s: SchedulerState) {
    s.startedCount <= s.readyCount && s.startedCount <= |s.cuePoints|
  }

  /** The decision rule of `maybeStartNextBreak`: no break playing, one left, ready, and due at `currentTime`. */
  predicate ShouldStart(s: SchedulerState, currentTime: real) {
    && !s.adPlaying
    && s.startedCount < |s.cuePoints|
    && s.readyCount > s.startedCount
    && currentTime >= s.cuePoints[s.startedCount] - Eps
  }

  /** The result of one evaluation: the new state, whether `start()` was called, and the index started, if it returned normally. */
  datatype Evaluation = Evaluation(state: SchedulerState, attempted: bool, started: Option<nat>)

  /**
   * One run of `maybeStartNextBreak` at video time `currentTime`; `startOk`
   * says whether the manager's `start()` returns normally (true) or throws.
   */
  function Evaluate(s: SchedulerState, currentTime: real, startOk: bool): (r: Evaluation)
    ensures r.attempted <==> ShouldStart(s, currentTime)
    ensures r.started.Some? <==> ShouldStart(s, currentTime) && startOk
    ensures r.started.Some? ==>
      r.started.value == s.startedCount && r.state == s.(startedCount := s.startedCount + 1)
    ensures r.started.None? ==> r.state == s
  {
    if s.adPlaying || s.startedCount >= |s.cuePoints| then Evaluation(s, false, None)
    else
      var nextCue := s.cuePoints[s.startedCount];
      if s.readyCount > s.startedCount && currentTime >= nextCue - Eps then
        if startOk then Evaluation(s.(startedCount := s.startedCount + 1), true, Some(s.startedCount))
        else Evaluation(s, true, None)
      else Evaluation(s, false, None)
  }

  /** Which of the new manager's listeners exist: none, those registered before `init`, or all of them. */
  datatype Handlers = NoManager | LifecycleOnly | AllInstalled

  /** The page as the scheduler sees it. */
  datatype Page = Page(
    sched: SchedulerState,
    handlers: Handlers,
    timeListeners: nat,            // `timeupdate` listeners installed so far; they are never removed
    slot: seq<Wrapper>,            // the companion slot
    commands: seq<PlayerCommand>)  // play/pause commands sent to the video element

  const InitialPage := Page(SchedulerState([], 0, 0, false), NoManager, 0, [], [])

  /**
   * What reaches the scheduler. `time` is `video.currentTime` when the
   * event is handled; `startOk` says whether a `start()` made during the
   * event returns normally. `TimeUpdate` is one call of one installed
   * `timeupdate` listener: a `timeupdate` dispatched to k listeners is k
   * consecutive `TimeUpdate` events at the same time.
   */
  datatype Event =
    | ManagerLoaded(managerOk: bool, cues: CueSource, initOk: bool, time: real, startOk: bool)
    | BreakReady(time: real, startOk: bool)
    | BreakStarted
    | BreakEnded(time: real, startOk: bool)
    | AdStarted(ad: Option<seq<Companion>>)
    | TimeUpdate(time: real, startOk: bool)
    | ContentPauseRequested
    | ContentResumeRequested

  /** One handled event: the new page, the break index started (if any), and whether the event began a new session. */
  datatype Transition = Transition(page: Page, started: Option<nat>, reset: bool)

  function Evaluated(p: Page, s: SchedulerState, time: real, startOk: bool, reset: bool): Transition {
    var ev := Evaluate(s, time, startOk);
    Transition(p.(sched := ev.state), ev.started, reset)
  }

  function Unchanged(p: Page): Transition {
    Transition(p, None, false)
  }

  /** The effect of one event on the page. */
  function Step(p: Page, e: Event): Transition {
    match e
    case ManagerLoaded(managerOk, cues, initOk, time, startOk) =>
      // the previous manager is destroyed before anything else
      if !managerOk then
        Transition(p.(handlers := NoManager, commands := p.commands + [Play]), None, false)
      else
        var cleared := SchedulerState(CuePointsFrom(cues), 0, 0, false);
        if !initOk then
          Transition(p.(sched := cleared, handlers := LifecycleOnly, commands := p.commands + [Play]), None, true)
        else
          Evaluated(p.(handlers := AllInstalled, timeListeners := p.timeListeners + 1), cleared, time, startOk, true)
    case BreakReady(time, startOk) =>
      if p.handlers != AllInstalled then Unchanged(p)
      else Evaluated(p, p.sched.(readyCount := p.sched.readyCount + 1), time, startOk, false)
    case BreakStarted =>
      if p.handlers == NoManager then Unchanged(p)
      else Transition(p.(sched := p.sched.(adPlaying := true)), None, false)
    case BreakEnded(time, startOk) =>
      if p.handlers == NoManager then Unchanged(p)
      else if p.handlers == LifecycleOnly then
        // the rule is not yet defined when `init` has thrown: the handler fails after clearing the flag
        Transition(p.(sched := p.sched.(adPlaying := false)), None, false)
      else Evaluated(p, p.sched.(adPlaying := false), time, startOk, false)
    case AdStarted(ad) =>
      if p.handlers == NoManager then Unchanged(p)
      else Transition(p.(slot := RenderedSlot(p.slot, ad)), None, false)
    case TimeUpdate(time, startOk) =>
      if p.timeListeners == 0 then Unchanged(p)
      else Evaluated(p, p.sched, time, startOk, false)
    case ContentPauseRequested =>
      if p.handlers == NoManager then Unchanged(p)
      else Transition(p.(commands := p.commands + [Pause]), None, false)
    case ContentResumeRequested =>
      if p.handlers == NoManager then Unchanged(p)
      else Transition(p.(commands := p.commands + [Play]), None, false)
  }

  /** The log of started indices after a transition: cleared by a new session, extended by a start. */
  function LogAfter(log: seq<nat>, t: Transition): seq<nat> {
    (if t.reset then [] else log) + (if t.started.Some? then [t.started.value] else [])
  }

  /** The page after a sequence of events, with the started indices of the current session. */
  function Run(p: Page, es: seq<Event>, log: seq<nat>): (Page, seq<nat>)
    decreases |es|
  {
    if es == [] then (p, log)
    else
      var t := Step(p, es[0]);
      Run(t.page, es[1..], LogAfter(log, t))
  }

  /** The log holds exactly the indices 0, 1, …, n - 1, in that order. */
  predicate Counted(log: seq<nat>, n: nat) {
    |log| == n && forall i :: 0 <= i < |log| ==> log[i] == i
  }

  /**
   * One event keeps the invariant; it starts at most one break, always the
   * next one, and only when that break is ready and due at the event's time.
   */
  lemma StepStartsNextDueBreak(p: Page, e: Event)
    requires Inv(p.sched)
    ensures var t := Step(p, e);
      && Inv(t.page.sched)
      && var before := if t.reset then 0 else p.sched.startedCount;
      && (t.started.None? ==> t.page.sched.startedCount == before)
      && (t.started.Some? ==>
            && t.started.value == before
            && t.page.sched.startedCount == before + 1
            && t.page.sched.readyCount > before
            && (e.ManagerLoaded? || e.BreakReady? || e.BreakEnded? || e.TimeUpdate?)
            && e.time >= t.page.sched.cuePoints[before] - Eps)
  {
  }

  /** Only a new session lowers a counter: otherwise started and ready counts never decrease. */
  lemma StepCountersMonotone(p: Page, e: Event)
    ensures var t := Step(p, e);
      !t.reset ==>
        && t.page.sched.startedCount >= p.sched.startedCount
        && t.page.sched.readyCount >= p.sched.readyCount
        && t.page.sched.cuePoints == p.sched.cuePoints
  {
  }

  /** While a break plays, only its end or a new manager can lead to a start. */
  lemma NoStartWhileBreakPlays(p: Page, e: Event)
    requires p.sched.adPlaying && !e.BreakEnded? && !e.ManagerLoaded?
    ensures Step(p, e).started.None?
  {
  }

  /**
   * Breaks start in index order and each at most once: over any sequence of
   * events, the started indices of the current session are 0, 1, 2, …
   */
  lemma {:induction false} RunStartsInIndexOrder(p: Page, es: seq<Event>, log: seq<nat>)
    requires Inv(p.sched) && Counted(log, p.sched.startedCount)
    ensures var (q, log') := Run(p, es, log);
      && Inv(q.sched)
      && Counted(log', q.sched.startedCount)
      && (forall i, j :: 0 <= i < j < |log'| ==> log'[i] < log'[j])
    decreases |es|
  {
    if es != [] {
      var t := Step(p, es[0]);
      StepStartsNextDueBreak(p, es[0]);
      RunStartsInIndexOrder(t.page, es[1..], LogAfter(log, t));
    }
  }

  /**
   * A manager load that gets its manager starts a fresh session: the filtered
   * schedule, no break started or ready, none playing, before any later event.
   */
  lemma LoadResetsCounters(p: Page, cues: CueSource, initOk: bool, time: real, startOk: bool)
    ensures var t := Step(p, ManagerLoaded(true, cues, initOk, time, startOk));
      && t.reset && t.started.None?
      && t.page.sched == SchedulerState(CuePointsFrom(cues), 0, 0, false)
      && (initOk <==> t.page.handlers == AllInstalled)
      && (!initOk ==> t.page.commands == p.commands + [Play] && t.page.handlers == LifecycleOnly)
  {
  }

  /** When `getAdsManager` throws, content resumes and nothing else of the scheduler changes. */
  lemma ManagerFailureResumesContent(p: Page, cues: CueSource, initOk: bool, time: real, startOk: bool)
    ensures var t := Step(p, ManagerLoaded(false, cues, initOk, time, startOk));
      && t.page == p.(handlers := NoManager, commands := p.commands + [Play])
      && t.started.None? && !t.reset
  {
  }

  /** When `start()` throws, nothing changes, so a later evaluation tries the same break again. */
  lemma FailedStartIsRetried(s: SchedulerState, time: real, later: real)
    requires ShouldStart(s, time) && later >= time
    ensures Evaluate(s, time, false).state == s
    ensures Evaluate(s, later, true).started == Some(s.startedCount)
  {
  }

  /**
   * The two triggers converge: whether a break becomes ready before its
   * time comes or its time comes before it is ready, it starts the moment
   * both hold, with the same resulting state.
   */
  lemma DualTriggerConverges(p: Page, early: real, due: real)
    requires p.handlers == AllInstalled && p.timeListeners > 0 && Inv(p.sched)
    requires !p.sched.adPlaying && p.sched.readyCount == p.sched.startedCount
    requires p.sched.startedCount < |p.sched.cuePoints|
    requires early < p.sched.cuePoints[p.sched.startedCount] - Eps <= due
    ensures var readyFirst := Run(p, [BreakReady(early, true), TimeUpdate(due, true)], []);
            var timeFirst := Run(p, [TimeUpdate(due, true), BreakReady(due, true)], []);
      && readyFirst.1 == timeFirst.1 == [p.sched.startedCount]
      && readyFirst.0 == timeFirst.0
  {
    var s := p.sched;
    var t1 := Step(p, BreakReady(early, true));
    assert t1.started.None?;
    var t2 := Step(t1.page, TimeUpdate(due, true));
    assert t2.started == Some(s.startedCount);
    var u1 := Step(p, TimeUpdate(due, true));
    assert u1.started.None?;
    var u2 := Step(u1.page, BreakReady(due, true));
    assert u2.started == Some(s.startedCount);
    assert t2.page == u2.page;
    var readyFirst := [BreakReady(early, true), TimeUpdate(due, true)];
    var timeFirst := [TimeUpdate(due, true), BreakReady(due, true)];
    assert readyFirst[1..] == [TimeUpdate(due, true)] && readyFirst[1..][1..] == [];
    assert timeFirst[1..] == [BreakReady(due, true)] && timeFirst[1..][1..] == [];
    assert LogAfter([], t1) == [] && LogAfter([], t2) == [s.startedCount];
    assert Run(p, readyFirst, []) == Run(t1.page, readyFirst[1..], []);
    assert Run(t1.page, readyFirst[1..], []) == Run(t2.page, [], [s.startedCount]);
    assert LogAfter([], u1) == [] && LogAfter([], u2) == [s.startedCount];
    assert Run(p, timeFirst, []) == Run(u1.page, timeFirst[1..], []);
    assert Run(u1.page, timeFirst[1..], []) == Run(u2.page, [], [s.startedCount]);
  }

  /**
   * The page's scheduler state. Each event handler of `onAdsManagerLoaded`
   * is one method; `startLog` records the break index of every `start()`
   * that returned normally in the current session.
   */
  class PlaybackScheduler {
    var cuePoints: seq<real>
    var startedCount: nat
    var readyCount: nat
    var adPlaying: bool
    var handlers: Handlers
    var timeListeners: nat
    var slot: seq<Wrapper>
    var commands: seq<PlayerCommand>
    ghost var startLog: seq<nat>

    function State(): SchedulerState
      reads this
    {
      SchedulerState(cuePoints, startedCount, readyCount, adPlaying)
    }

    function CurrentPage(): Page
      reads this
    {
      Page(State(), handlers, timeListeners, slot, commands)
    }

    ghost predicate Valid()
      reads this
    {
      Inv(State()) && Counted(startLog, startedCount)
    }

    constructor ()
      ensures Valid() && CurrentPage() == InitialPage && startLog == []
    {
      cuePoints := [];
      startedCount := 0;
      readyCount := 0;
      adPlaying := false;
      handlers := NoManager;
      timeListeners := 0;
      slot := [];
      commands := [];
      startLog := [];
    }

    /** `maybeStartNextBreak`: start the next break if it is ready and due at `currentTime`. */
    method MaybeStartNextBreak(currentTime: real, startOk: bool) returns (started: bool)
      requires Valid()
      modifies this`startedCount, this`startLog
      ensures Valid()
      ensures var ev := Evaluate(old(State()), currentTime, startOk);
        State() == ev.state && started == ev.started.Some?
      ensures startLog == if started then old(startLog) + [old(startedCount)] else old(startLog)
    {
      started := false;
      if adPlaying {
        return;
      }
      if startedCount >= |cuePoints| {
        return;
      }
      var nextCue := cuePoints[startedCount];
      if readyCount > startedCount && currentTime >= nextCue - Eps {
        // `adsManager.start()` either returns normally or throws
        if startOk {
          startLog := startLog + [startedCount];
          startedCount := startedCount + 1;
          started := true;
        }
      }
    }

    /** ADS_MANAGER_LOADED: replace the manager, reset the counters, register the handlers, evaluate once. */
    method OnAdsManagerLoaded(managerOk: bool, cues: CueSource, initOk: bool, currentTime: real, startOk: bool)
      requires Valid()
      modifies this
      ensures Valid()
      ensures var t := Step(old(CurrentPage()), ManagerLoaded(managerOk, cues, initOk, currentTime, startOk));
        CurrentPage() == t.page && startLog == LogAfter(old(startLog), t)
    {
      handlers := NoManager;  // the previous manager is destroyed
      if !managerOk {
        commands := commands + [Play];
        return;
      }
      cuePoints := CuePointsFrom(cues);
      startedCount := 0;
      readyCount := 0;
      adPlaying := false;
      startLog := [];
      handlers := LifecycleOnly;
      if !initOk {
        commands := commands + [Play];
        return;
      }
      handlers := AllInstalled;
      timeListeners := timeListeners + 1;
      var _ := MaybeStartNextBreak(currentTime, startOk);
    }

    /** AD_BREAK_READY: one more break is ready; evaluate. */
    method OnBreakReady(currentTime: real, startOk: bool)
      requires Valid()
      modifies this
      ensures Valid()
      ensures var t := Step(old(CurrentPage()), BreakReady(currentTime, startOk));
        CurrentPage() == t.page && startLog == LogAfter(old(startLog), t)
    {
      if handlers == AllInstalled {
        readyCount := readyCount + 1;
        var _ := MaybeStartNextBreak(currentTime, startOk);
      }
    }

    /** AD_BREAK_STARTED: a break is playing. */
    method OnBreakStarted()
      requires Valid()
      modifies this
      ensures Valid()
      ensures var t := Step(old(CurrentPage()), BreakStarted);
        CurrentPage() == t.page && startLog == LogAfter(old(startLog), t)
    {
      if handlers != NoManager {
        adPlaying := true;
      }
    }

    /** AD_BREAK_ENDED: no break is playing; evaluate, in case the next cue has already passed. */
    method OnBreakEnded(currentTime: real, startOk: bool)
      requires Valid()
      modifies this
      ensures Valid()
      ensures var t := Step(old(CurrentPage()), BreakEnded(currentTime, startOk));
        CurrentPage() == t.page && startLog == LogAfter(old(startLog), t)
    {
      if handlers != NoManager {
        adPlaying := false;
        if handlers == AllInstalled {
          var _ := MaybeStartNextBreak(currentTime, startOk);
        }
      }
    }

    /** STARTED: render the companion of the ad that started. */
    method OnAdStarted(ad: Option<seq<Companion>>)
      requires Valid()
      modifies this
      ensures Valid()
      ensures var t := Step(old(CurrentPage()), AdStarted(ad));
        CurrentPage() == t.page && startLog == LogAfter(old(startLog), t)
    {
      if handlers != NoManager {
        slot := RenderedSlot(slot, ad);
      }
    }

    /** One `timeupdate` listener call: evaluate at the video's current time. */
    method OnTimeUpdate(currentTime: real, startOk: bool)
      requires Valid()
      modifies this
      ensures Valid()
      ensures var t := Step(old(CurrentPage()), TimeUpdate(currentTime, startOk));
        CurrentPage() == t.page && startLog == LogAfter(old(startLog), t)
    {
      if timeListeners > 0 {
        var _ := MaybeStartNextBreak(currentTime, startOk);
      }
    }

    /** CONTENT_PAUSE_REQUESTED: pause the content. */
    method OnContentPauseRequested()
      requires Valid()
      modifies this
      ensures Valid()
      ensures var t := Step(old(CurrentPage()), ContentPauseRequested);
        CurrentPage() == t.page && startLog == LogAfter(old(startLog), t)
    {
      if handlers != NoManager {
        commands := commands + [Pause];
      }
    }

    /** CONTENT_RESUME_REQUESTED: resume the content. */
    method OnContentResumeRequested()
      requires Valid()
      modifies this
      ensures Valid()
      ensures var t := Step(old(CurrentPage()), ContentResumeRequested);
        CurrentPage() == t.page && startLog == LogAfter(old(startLog), t)
    {
      if handlers != NoManager {
        commands := commands + [Play];
      }
    }
  }
}
