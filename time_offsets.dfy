/**
 * The break schedule of `getVmap`: how many breaks a video of a given
 * duration gets, where its mid-rolls fall, and the `HH:MM:SS.mmm` form of
 * VMAP's `timeOffset` attribute.
 */
module VmapSchedule {
  import opened Wrappers
  import opened Decimal
  import opened Sequences

  /** No mid-roll starts in the last second of content. */
  const EndBufferSec: int := 1

  /** `durInt`: the whole seconds of the duration, at least 1. */
  function DurationSeconds(duration: real): (n: int)
    ensures 1 <= n
    ensures n as real <= (if duration < 1.0 then 1.0 else duration) < n as real + 1.0
  {
    (if duration < 1.0 then 1.0 else duration).Floor
  }

  /** The number of breaks: 3 from 45 s on, 2 from 25 s on, else 1. */
  function WantedBreaks(durInt: int): (n: nat)
    ensures 1 <= n <= 3
    ensures n == 3 <==> durInt >= 45
    ensures n == 1 <==> durInt < 25
  {
    if durInt >= 45 then 3 else if durInt >= 25 then 2 else 1
  }

  function Clamp(x: int, lo: int, hi: int): int {
    if lo > (if x < hi then x else hi) then lo else if x < hi then x else hi
  }

  /** The second of the `i`-th of `wanted` evenly spaced breaks, clamped into [1, durInt − 1]. */
  function MidrollSecond(duration: real, i: nat, wanted: nat): (sec: nat)
    requires wanted >= 1
    ensures 1 <= sec
    ensures DurationSeconds(duration) >= 2 ==> sec <= DurationSeconds(duration) - EndBufferSec
  {
    var raw := (duration * i as real / wanted as real).Floor;
    Clamp(raw, 1, DurationSeconds(duration) - EndBufferSec)
  }

  /** The offsets of the schedule: "start" for the pre-roll, then one formatted second per mid-roll. */
  function TimeOffsets(duration: real): (offsets: seq<string>)
    ensures |offsets| == WantedBreaks(DurationSeconds(duration))
    ensures offsets[0] == "start"
  {
    var wanted := WantedBreaks(DurationSeconds(duration));
    ["start"] + seq(wanted - 1, k requires 0 <= k < wanted - 1 => MidrollOffset(duration, k + 1, wanted))
  }

  /** The `timeOffset` attribute of the `i`-th mid-roll. */
  function MidrollOffset(duration: real, i: nat, wanted: nat): string
    requires wanted >= 1
  {
    FormatTimeOffset(MidrollSecond(duration, i, wanted))
  }

  /** The offset loop of `getVmap`. */
  method BuildTimeOffsets(duration: real) returns (offsets: seq<string>)
    ensures offsets == TimeOffsets(duration)
  {
    var durInt := DurationSeconds(duration);
    var wanted := WantedBreaks(durInt);
    ghost var target := TimeOffsets(duration);
    offsets := ["start"];
    SnocPrefix(target, 0);
    var i := 1;
    while i < wanted
      invariant 1 <= i <= wanted == |target|
      invariant offsets == target[..i]
    {
      var sec := MidrollSecond(duration, i, wanted);
      TimeOffsetAt(duration, i);
      SnocPrefix(target, i);
      offsets := offsets + [FormatTimeOffset(sec)];
      i := i + 1;
    }
    assert target[..i] == target;
  }

  lemma TimeOffsetAt(duration: real, k: nat)
    requires 1 <= k < |TimeOffsets(duration)|
    ensures TimeOffsets(duration)[k] == MidrollOffset(duration, k, WantedBreaks(DurationSeconds(duration)))
  {
    var wanted := WantedBreaks(DurationSeconds(duration));
    var mids := seq(wanted - 1, j requires 0 <= j < wanted - 1 => MidrollOffset(duration, j + 1, wanted));
    assert TimeOffsets(duration) == ["start"] + mids;
    assert (["start"] + mids)[k] == mids[k - 1];
  }

  /** Hours, minutes and seconds of a number of seconds. */
  function ClockFields(seconds: nat): (f: (nat, nat, nat))
    ensures f.1 < 60 && f.2 < 60
    ensures f.0 * 3600 + f.1 * 60 + f.2 == seconds
  {
    var hh := seconds / 3600;
    var mm := (seconds % 3600) / 60;
    var ss := seconds % 60;
    assert seconds % 3600 == mm * 60 + ss;
    (hh, mm, ss)
  }

  /** `formatTimeOffset`: "hh:mm:ss.000", each field zero-padded to at least two digits. */
  function FormatTimeOffset(seconds: nat): string {
    var (hh, mm, ss) := ClockFields(seconds);
    Pad2(hh) + ":" + Pad2(mm) + ":" + Pad2(ss) + ".000"
  }

  /** Reading an offset of that form back into seconds; None for anything else. */
  function ParseTimeOffset(t: string): Option<nat> {
    var n := |t|;
    if n < 12 then None
    else
      var hh, mm, ss := t[..n - 10], t[n - 9..n - 7], t[n - 6..n - 4];
      if t[n - 10] == ':' && t[n - 7] == ':' && t[n - 4..] == ".000"
         && AllDigits(hh) && AllDigits(mm) && AllDigits(ss)
         && ParseNat(mm) < 60 && ParseNat(ss) < 60
      then Some(ParseNat(hh) * 3600 + ParseNat(mm) * 60 + ParseNat(ss))
      else None
  }

  /** Formatting an offset loses nothing: reading it back gives the same number of seconds. */
  lemma FormatParseRoundTrip(seconds: nat)
    ensures ParseTimeOffset(FormatTimeOffset(seconds)) == Some(seconds)
  {
    var (hh, mm, ss) := ClockFields(seconds);
    var h, m, s := Pad2(hh), Pad2(mm), Pad2(ss);
    var t := FormatTimeOffset(seconds);
    assert t == h + ":" + m + ":" + s + ".000";
    var n := |t|;
    assert |m| == 2 && |s| == 2;
    assert t[..n - 10] == h;
    assert t[n - 9..n - 7] == m;
    assert t[n - 6..n - 4] == s;
    assert t[n - 4..] == ".000";
    ParsePad2(hh);
    ParsePad2(mm);
    ParsePad2(ss);
  }

  /**
   * For the break counts the schedule uses, the clamp never engages: every
   * mid-roll second is the plain floor of its share of the duration, and
   * lies inside the content, in [1, durInt − 1].
   */
  lemma MidrollInsideContent(duration: real, k: nat)
    requires 1 <= k < WantedBreaks(DurationSeconds(duration))
    ensures var w := WantedBreaks(DurationSeconds(duration));
      && MidrollSecond(duration, k, w) == (duration * k as real / w as real).Floor
      && 1 <= MidrollSecond(duration, k, w) <= DurationSeconds(duration) - EndBufferSec
  {
    var w := WantedBreaks(DurationSeconds(duration));
    assert duration >= 25.0;
    var x := duration * k as real / w as real;
    if w == 2 {
      assert x == duration / 2.0;
    } else {
      assert k == 1 ==> x == duration / 3.0;
      assert k == 2 ==> x == 2.0 * duration / 3.0;
    }
    assert 8.0 <= x <= duration - 8.0;
  }

  /** Mid-rolls come in strictly increasing order of time. */
  lemma MidrollsAscending(duration: real, j: nat, k: nat)
    requires 1 <= j < k < WantedBreaks(DurationSeconds(duration))
    ensures var w := WantedBreaks(DurationSeconds(duration));
      MidrollSecond(duration, j, w) < MidrollSecond(duration, k, w)
  {
    MidrollInsideContent(duration, j);
    MidrollInsideContent(duration, k);
    assert j == 1 && k == 2;
    assert duration >= 45.0;
    var a := duration * 1.0 / 3.0;
    var b := duration * 2.0 / 3.0;
    assert b == a + duration / 3.0;
    assert b >= a + 15.0;
  }

  /** The `k`-th offset of the schedule reads back as the `k`-th mid-roll second. */
  lemma OffsetReadsBack(duration: real, k: nat)
    requires 1 <= k < |TimeOffsets(duration)|
    ensures ParseTimeOffset(TimeOffsets(duration)[k])
         == Some(MidrollSecond(duration, k, WantedBreaks(DurationSeconds(duration))))
  {
    var w := WantedBreaks(DurationSeconds(duration));
    TimeOffsetAt(duration, k);
    FormatParseRoundTrip(MidrollSecond(duration, k, w));
  }

  /**
   * The whole schedule: a pre-roll at "start", then mid-roll offsets that
   * read back as strictly increasing seconds inside the content.
   */
  lemma ScheduleIsAscending(duration: real)
    ensures var offsets := TimeOffsets(duration);
      && offsets[0] == "start"
      && (forall k :: 1 <= k < |offsets| ==>
            ParseTimeOffset(offsets[k]).Some?
            && 1 <= ParseTimeOffset(offsets[k]).value <= DurationSeconds(duration) - EndBufferSec)
      && (forall j, k :: 1 <= j < k < |offsets| ==>
            ParseTimeOffset(offsets[j]).value < ParseTimeOffset(offsets[k]).value)
  {
    var offsets := TimeOffsets(duration);
    forall k | 1 <= k < |offsets|
      ensures ParseTimeOffset(offsets[k]).Some?
      ensures 1 <= ParseTimeOffset(offsets[k]).value <= DurationSeconds(duration) - EndBufferSec
    {
      OffsetReadsBack(duration, k);
      MidrollInsideContent(duration, k);
    }
    forall j, k | 1 <= j < k < |offsets|
      ensures ParseTimeOffset(offsets[j]).value < ParseTimeOffset(offsets[k]).value
    {
      OffsetReadsBack(duration, j);
      OffsetReadsBack(duration, k);
      MidrollsAscending(duration, j, k);
    }
  }
}
