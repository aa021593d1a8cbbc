/**
 * The two public operations of the ad service modelled here: `getVmap`,
 * which matches nearby ads and lays them out as a VMAP schedule, and
 * `getCreativePath`, which locates an ad's stored creative.
 */
module AdService {
  import opened Wrappers
  import opened Decimal
  import opened AdMatching
  import opened VmapSchedule
  import opened VmapXml
  import opened JavaStrings
  import opened Sequences

  /**
   * The outcome of the geo-radius query around the viewer: the store
   * failed (an exception), or the candidates in the order it returned them
   * (an absent result list reads as no candidates).
   */
  datatype GeoLookup = LookupFailed | Found(cands: seq<GeoCandidate>)

  /** The ads `getVmap` matches; None when the store fails part-way. */
  function MatchedFor(lookup: GeoLookup, parse: RadiusParser): Option<seq<Meta>> {
    match lookup
    case LookupFailed => None
    case Found(cands) => Scan(cands, parse, [])
  }

  /** The document `getVmap` answers with. */
  function VmapFor(lookup: GeoLookup, parse: RadiusParser, duration: real): string {
    match MatchedFor(lookup, parse)
    case None => EmptyVmap
    case Some(ads) => if |ads| == 0 then EmptyVmap else RenderVmap(Breaks(ads, TimeOffsets(duration)))
  }

  /** `getVmap`: every failure is caught and answered with an empty VMAP. */
  method GetVmap(lookup: GeoLookup, parse: RadiusParser, duration: real) returns (xml: string)
    ensures xml == VmapFor(lookup, parse, duration)
  {
    if lookup.LookupFailed? {
      return EmptyVmap;
    }
    var matched := MatchAds(lookup.cands, parse);
    if matched.None? {
      return EmptyVmap;
    }
    var ads := matched.value;
    if |ads| == 0 {
      return EmptyVmap;
    }
    var offsets := BuildTimeOffsets(duration);
    xml := GenerateVmapXml(ads, offsets);
  }

  lemma RenderedVmapIsNotEmpty(bs: seq<AdBreak>)
    ensures RenderVmap(bs) != EmptyVmap
  {
    var body := RenderBreaks(bs);
    AppendAssoc(VmapOpen, "\n", body);
    AppendAssoc(VmapOpen, "\n" + body, VmapClose);
    assert VmapClose[0] == '<';
    DifferAfterCommonPrefix(VmapOpen, "\n" + body + VmapClose, VmapClose);
  }

  lemma DifferAfterCommonPrefix(p: string, s: string, t: string)
    requires s != [] && t != [] && s[0] != t[0]
    ensures p + s != p + t
  {
    assert (p + s)[|p|] == s[0];
    assert (p + t)[|p|] == t[0];
  }

  lemma EmptyIffNothingMatched(lookup: GeoLookup, parse: RadiusParser, duration: real)
    ensures VmapFor(lookup, parse, duration) == EmptyVmap
        <==> MatchedFor(lookup, parse).None? || |MatchedFor(lookup, parse).value| == 0
  {
    var r := MatchedFor(lookup, parse);
    if r.Some? && |r.value| > 0 {
      RenderedVmapIsNotEmpty(Breaks(r.value, TimeOffsets(duration)));
    }
  }

  /**
   * The viewer gets an empty VMAP exactly when the store query fails, a
   * metadata read fails before three ads have been matched, or no ad has
   * the viewer within its radius.
   */
  lemma EmptyVmapIffNoMatch(lookup: GeoLookup, parse: RadiusParser, duration: real)
    ensures VmapFor(lookup, parse, duration) == EmptyVmap
        <==> || lookup.LookupFailed?
             || (exists i :: 0 <= i < |lookup.cands| && lookup.cands[i].meta.ReadFailed?
                               && |Filter(lookup.cands[..i], parse)| < MaxAds)
             || |Filter(lookup.cands, parse)| == 0
  {
    EmptyIffNothingMatched(lookup, parse, duration);
    if lookup.Found? {
      NothingMatchedIff(lookup.cands, parse);
    }
  }

  /**
   * The shape of a served schedule: one break per offset, the pre-roll
   * first at "start", then mid-rolls numbered by position whose offsets
   * read back as strictly increasing seconds inside the content.
   */
  lemma ServedScheduleShape(ads: seq<Meta>, duration: real)
    ensures var bs := Breaks(ads, TimeOffsets(duration));
      && |bs| == WantedBreaks(DurationSeconds(duration))
      && bs[0].timeOffset == "start" && bs[0].breakId == "preroll"
      && (forall k :: 1 <= k < |bs| ==> bs[k].breakId == "midroll" + NatToString(k))
      && (forall j, k :: 1 <= j < k < |bs| ==>
            ParseTimeOffset(bs[j].timeOffset).Some? && ParseTimeOffset(bs[k].timeOffset).Some?
            && ParseTimeOffset(bs[j].timeOffset).value < ParseTimeOffset(bs[k].timeOffset).value)
  {
    var offsets := TimeOffsets(duration);
    var bs := Breaks(ads, offsets);
    ScheduleIsAscending(duration);
    forall k | 1 <= k < |bs|
      ensures bs[k].breakId == "midroll" + NatToString(k)
    {
      // A parsable offset is at least 12 characters long, so neither "start" nor "end".
      assert ParseTimeOffset(offsets[k]).Some?;
      assert |offsets[k]| >= 12;
    }
  }

  /** The error `getCreativePath` answers with (HTTP 404) when no file is stored. */
  datatype CreativeError = NotFound

  /** The stored file of a creative: the video for kind "video", the image for anything else. */
  function CreativeFileName(kind: string): (name: string)
    ensures name == "video.mp4" <==> kind == "video"
    ensures name == "video.mp4" || name == "image.jpg"
  {
    if kind == "video" then "video.mp4" else "image.jpg"
  }

  function CreativeLocation(storagePath: string, adId: int, kind: string): string {
    storagePath + "/" + IntToString(adId) + "/" + CreativeFileName(kind)
  }

  /**
   * `getCreativePath`: the file's location when the file system reports it
   * present (`fileExists`), NotFound otherwise.
   */
  function GetCreativePath(storagePath: string, adId: int, kind: string, fileExists: string -> bool): (r: Result<string, CreativeError>)
    ensures r.Ok? <==> fileExists(CreativeLocation(storagePath, adId, kind))
    ensures r.Ok? ==> r.value == CreativeLocation(storagePath, adId, kind)
  {
    var path := CreativeLocation(storagePath, adId, kind);
    if fileExists(path) then Ok(path) else Err(NotFound)
  }

  /** Each ad's creatives live in a directory of their own: two ads never share a creative path. */
  lemma CreativeLocationsDistinct(storagePath: string, a: int, b: int, kind: string)
    requires a != b
    ensures CreativeLocation(storagePath, a, kind) != CreativeLocation(storagePath, b, kind)
  {
    var f := "/" + CreativeFileName(kind);
    var pre := storagePath + "/";
    var sa, sb := IntToString(a), IntToString(b);
    var pa, pb := pre + sa + f, pre + sb + f;
    assert CreativeLocation(storagePath, a, kind) == pa;
    assert CreativeLocation(storagePath, b, kind) == pb;
    if pa == pb {
      assert |sa| == |sb|;
      assert sa == pa[|pre|..|pre| + |sa|];
      assert sb == pb[|pre|..|pre| + |sb|];
      IntToStringInjective(a, b);
    }
  }

  /** Asking for the video gives the MP4 file; asking for any other kind gives the JPEG. */
  lemma CreativeKindChoosesFile(storagePath: string, adId: int, kind: string)
    ensures kind == "video" ==> EndsWith(CreativeLocation(storagePath, adId, kind), "/video.mp4")
    ensures kind != "video" ==> EndsWith(CreativeLocation(storagePath, adId, kind), "/image.jpg")
  {
    LocationEndsWithFile(storagePath, adId, kind);
    if kind == "video" {
      assert "/" + CreativeFileName(kind) == "/video.mp4";
    } else {
      assert "/" + CreativeFileName(kind) == "/image.jpg";
    }
  }

  lemma LocationEndsWithFile(storagePath: string, adId: int, kind: string)
    ensures EndsWith(CreativeLocation(storagePath, adId, kind), "/" + CreativeFileName(kind))
  {
    var pre := storagePath + "/" + IntToString(adId);
    var file := CreativeFileName(kind);
    AppendAssoc(pre, "/", file);
    EndsWithAppended(pre, "/" + file);
  }

  lemma EndsWithAppended(pre: string, name: string)
    ensures EndsWith(pre + name, name)
  {
    assert (pre + name)[|pre|..] == name;
  }
}
