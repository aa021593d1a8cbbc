/**
 * What the page reads from the HTML video element, and the commands it
 * sends back to it. Shared by both revisions of the playback page.
 */
module MediaClock {

  /** `HTMLMediaElement.duration` as JavaScript sees it: NaN until metadata arrives, +Infinity for live streams. */
  datatype Duration = NotANumber | Infinite | Finite(seconds: real)

  /** JavaScript truthiness of a number: NaN and 0 are falsy. */
  predicate IsTruthy(d: Duration) {
    match d
    case NotANumber => false
    case Infinite => true
    case Finite(x) => x != 0.0
  }

  /** A duration the element can report: never negative. */
  predicate IsReportable(d: Duration) {
    d.Finite? ==> d.seconds >= 0.0
  }

  /**
   * `reported || current`: the mirror keeps its old duration while the
   * element reports 0 or NaN.
   */
  function KeepTruthy(reported: Duration, current: Duration): (d: Duration)
    ensures IsTruthy(reported) ==> d == reported
    ensures !IsTruthy(reported) ==> d == current
    ensures IsTruthy(current) ==> IsTruthy(d)
  {
    if IsTruthy(reported) then reported else current
  }

  /** `video.play()` and `video.pause()`, recorded in the order issued. */
  datatype PlayerCommand = Play | Pause
}
