/**
 * The content mirror of the playback page: a snapshot of the video
 * element's clock that the page keeps up to date from the element's
 * events, with the seekable range derived from it.
 */
module ContentMirror {
  import opened MediaClock

  datatype TimeRange = TimeRange(start: real, end: real)

  class ContentTracker {
    var currentTime: real
    var duration: Duration
    var paused: bool
    var seeking: bool
    var playbackRate: real
    /** The element's listeners are installed (playback has been started). */
    var attached: bool

    ghost predicate Valid()
      reads this
    {
      currentTime >= 0.0 && IsReportable(duration)
    }

    constructor ()
      ensures Valid()
      ensures currentTime == 0.0 && duration == NotANumber && paused && !seeking
      ensures playbackRate == 1.0 && !attached
    {
      currentTime := 0.0;
      duration := NotANumber;
      paused := true;
      seeking := false;
      playbackRate := 1.0;
      attached := false;
    }

    /** The range a seek may target: from 0 to the duration when that is finite, otherwise empty at 0. */
    function SeekableRange(): (r: TimeRange)
      reads this
      requires Valid()
      ensures r.start == 0.0 <= r.end
      ensures duration.Finite? ==> r.end == duration.seconds
      ensures !duration.Finite? ==> r.end == 0.0
    {
      var end := if duration.Finite? then duration.seconds else 0.0;
      TimeRange(0.0, end)
    }

    /** The shared update run on timeupdate, seeking and seeked: copy the time, keep a truthy duration. */
    method Sync(videoTime: real, videoDuration: Duration)
      requires Valid() && videoTime >= 0.0 && IsReportable(videoDuration)
      modifies this
      ensures Valid()
      ensures currentTime == videoTime && duration == KeepTruthy(videoDuration, old(duration))
      ensures paused == old(paused) && seeking == old(seeking)
      ensures playbackRate == old(playbackRate) && attached == old(attached)
    {
      currentTime := videoTime;
      duration := KeepTruthy(videoDuration, duration);
    }

    /** Installing the element's listeners once content has loaded, and the seeding call that follows. */
    method Attach(videoTime: real, videoDuration: Duration)
      requires Valid() && videoTime >= 0.0 && IsReportable(videoDuration)
      modifies this
      ensures Valid() && attached
      ensures currentTime == videoTime && duration == KeepTruthy(videoDuration, old(duration))
      ensures paused == old(paused) && seeking == old(seeking) && playbackRate == old(playbackRate)
    {
      attached := true;
      Sync(videoTime, videoDuration);
    }

    method OnTimeUpdate(videoTime: real, videoDuration: Duration)
      requires Valid() && videoTime >= 0.0 && IsReportable(videoDuration)
      modifies this
      ensures Valid() && attached == old(attached)
      ensures old(attached) ==> currentTime == videoTime && duration == KeepTruthy(videoDuration, old(duration))
      ensures !old(attached) ==> currentTime == old(currentTime) && duration == old(duration)
      ensures paused == old(paused) && seeking == old(seeking) && playbackRate == old(playbackRate)
    {
      if attached {
        Sync(videoTime, videoDuration);
      }
    }

    method OnSeeking(videoTime: real, videoDuration: Duration)
      requires Valid() && videoTime >= 0.0 && IsReportable(videoDuration)
      modifies this
      ensures Valid() && attached == old(attached)
      ensures old(attached) ==> seeking && currentTime == videoTime && duration == KeepTruthy(videoDuration, old(duration))
      ensures !old(attached) ==> seeking == old(seeking) && currentTime == old(currentTime) && duration == old(duration)
      ensures paused == old(paused) && playbackRate == old(playbackRate)
    {
      if attached {
        seeking := true;
        Sync(videoTime, videoDuration);
      }
    }

    method OnSeeked(videoTime: real, videoDuration: Duration)
      requires Valid() && videoTime >= 0.0 && IsReportable(videoDuration)
      modifies this
      ensures Valid() && attached == old(attached)
      ensures old(attached) ==> !seeking && currentTime == videoTime && duration == KeepTruthy(videoDuration, old(duration))
      ensures !old(attached) ==> seeking == old(seeking) && currentTime == old(currentTime) && duration == old(duration)
      ensures paused == old(paused) && playbackRate == old(playbackRate)
    {
      if attached {
        seeking := false;
        Sync(videoTime, videoDuration);
      }
    }

    method OnPlay()
      requires Valid()
      modifies this`paused
      ensures Valid()
      ensures paused == (old(paused) && !attached)
    {
      if attached {
        paused := false;
      }
    }

    method OnPause()
      requires Valid()
      modifies this`paused
      ensures Valid()
      ensures paused == (old(paused) || attached)
    {
      if attached {
        paused := true;
      }
    }

    method OnRateChange(videoRate: real)
      requires Valid()
      modifies this`playbackRate
      ensures Valid()
      ensures playbackRate == if attached then videoRate else old(playbackRate)
    {
      if attached {
        playbackRate := videoRate;
      }
    }
  }

  /** The mirror's duration after a series of syncs, starting from `start`. */
  function FoldDurations(start: Duration, reports: seq<Duration>): Duration
    decreases |reports|
  {
    if reports == [] then start else FoldDurations(KeepTruthy(reports[0], start), reports[1..])
  }

  /** Once the mirror has seen a truthy duration, no later sync makes it falsy again. */
  lemma {:induction false} SyncsKeepKnownDuration(start: Duration, reports: seq<Duration>)
    requires IsTruthy(start)
    ensures IsTruthy(FoldDurations(start, reports))
    decreases |reports|
  {
    if reports != [] {
      SyncsKeepKnownDuration(KeepTruthy(reports[0], start), reports[1..]);
    }
  }

  /** After a series of syncs the mirror holds the last truthy report, or its starting value if none was truthy. */
  lemma {:induction false} FoldDurationsIsLastTruthy(start: Duration, reports: seq<Duration>)
    ensures var d := FoldDurations(start, reports);
      (d == start && forall i :: 0 <= i < |reports| ==> !IsTruthy(reports[i]))
      || (exists k :: 0 <= k < |reports| && d == reports[k] && IsTruthy(reports[k])
           && forall i :: k < i < |reports| ==> !IsTruthy(reports[i]))
    decreases |reports|
  {
    if reports != [] {
      var next := KeepTruthy(reports[0], start);
      FoldDurationsIsLastTruthy(next, reports[1..]);
      var d := FoldDurations(start, reports);
      assert d == FoldDurations(next, reports[1..]);
      if d == next && forall i :: 0 <= i < |reports[1..]| ==> !IsTruthy(reports[1..][i]) {
        if IsTruthy(reports[0]) {
          assert d == reports[0];
          assert forall i :: 0 < i < |reports| ==> !IsTruthy(reports[i]) by {
            forall i | 0 < i < |reports| ensures !IsTruthy(reports[i]) {
              assert reports[i] == reports[1..][i - 1];
            }
          }
        } else {
          assert forall i :: 0 <= i < |reports| ==> !IsTruthy(reports[i]) by {
            forall i | 0 <= i < |reports| ensures !IsTruthy(reports[i]) {
              if i > 0 { assert reports[i] == reports[1..][i - 1]; }
            }
          }
        }
      } else {
        var k :| 0 <= k < |reports[1..]| && d == reports[1..][k] && IsTruthy(reports[1..][k])
          && forall i :: k < i < |reports[1..]| ==> !IsTruthy(reports[1..][i]);
        assert d == reports[k + 1];
        forall i | k + 1 < i < |reports| ensures !IsTruthy(reports[i]) {
          assert reports[i] == reports[1..][i - 1];
        }
      }
    }
  }
}
