/**
 * `generateVmapXml`: one `vmap:AdBreak` per requested time offset, each
 * wrapping an inline VAST 3.0 ad built from one matched ad's metadata — a
 * linear creative (the ad's video, or a stub video for an image-only ad)
 * and, when the ad has an image, a 640×375 companion.
 */
module VmapXml {
  import opened Wrappers
  import opened Decimal
  import opened JavaStrings
  import opened Sequences
  import AdMatching

  type Meta = AdMatching.Meta

  const VmapOpen: string := "<vmap:VMAP xmlns:vmap=\"http://www.iab.net/videosuite/vmap\" version=\"1.0\">"
  const VmapClose: string := "</vmap:VMAP>"

  /** `generateEmptyVmap`: a VMAP document with no breaks. */
  const EmptyVmap: string := VmapOpen + VmapClose

  /** The linear creative played for an image-only ad when its metadata names none. */
  const DefaultStubUrl: string := "http://localhost:8080/blank-15s.webm"

  datatype LinearCreative = LinearCreative(mimeType: string, mediaUrl: string)
  datatype CompanionCreative = CompanionCreative(creativeType: string, imageUrl: string)

  /** What one `vmap:AdBreak` element carries. */
  datatype AdBreak = AdBreak(
    timeOffset: string,
    breakId: string,
    title: string,
    linear: Option<LinearCreative>,
    companion: Option<CompanionCreative>)

  /** The ad behind break `i`: the `i`-th matched ad, the last one when there are fewer ads than breaks. */
  function AdFor(ads: seq<Meta>, i: nat): (ad: Meta)
    ensures |ads| == 0 ==> ad == map[]
    ensures i < |ads| ==> ad == ads[i]
    ensures 0 < |ads| <= i ==> ad == ads[|ads| - 1]
  {
    if |ads| == 0 then map[] else ads[if i < |ads| - 1 then i else |ads| - 1]
  }

  /** A metadata URL counts when it is present and not blank. */
  predicate HasUrl(ad: Meta, key: string) {
    key in ad && !IsBlank(ad[key])
  }

  function GetOrDefault(ad: Meta, key: string, default: string): string {
    if key in ad then ad[key] else default
  }

  function BreakId(timeOffset: string, i: nat): (id: string)
    ensures id == "preroll" <==> timeOffset == "start"
    ensures id == "postroll" <==> timeOffset != "start" && timeOffset == "end"
  {
    if timeOffset == "start" then "preroll"
    else if timeOffset == "end" then "postroll"
    else
      var id := "midroll" + NatToString(i);
      assert id[0] == 'm';
      id
  }

  /** The MIME type of a stub linear: WebM when its URL ends in ".webm" in any case, else MP4. */
  function StubMimeType(url: string): string {
    if EndsWith(ToLower(url), ".webm") then "video/webm" else "video/mp4"
  }

  /** The `creativeType` of a companion image, from its extension in any case; JPEG by default. */
  function CompanionType(url: string): string {
    var lower := ToLower(url);
    if EndsWith(lower, ".png") then "image/png"
    else if EndsWith(lower, ".gif") then "image/gif"
    else "image/jpeg"
  }

  function LinearFor(ad: Meta): Option<LinearCreative> {
    if HasUrl(ad, "videoUrl") then Some(LinearCreative("video/mp4", ad["videoUrl"]))
    else if HasUrl(ad, "imageUrl") then
      var stub := GetOrDefault(ad, "stubLinearUrl", DefaultStubUrl);
      Some(LinearCreative(StubMimeType(stub), stub))
    else None
  }

  function CompanionFor(ad: Meta): Option<CompanionCreative> {
    if HasUrl(ad, "imageUrl") then Some(CompanionCreative(CompanionType(ad["imageUrl"]), ad["imageUrl"]))
    else None
  }

  function BreakFor(ads: seq<Meta>, offsets: seq<string>, i: nat): AdBreak
    requires i < |offsets|
  {
    var ad := AdFor(ads, i);
    AdBreak(offsets[i], BreakId(offsets[i], i), GetOrDefault(ad, "description", "Ad"), LinearFor(ad), CompanionFor(ad))
  }

  /** The breaks of the document: one per time offset, in order. */
  function Breaks(ads: seq<Meta>, offsets: seq<string>): (bs: seq<AdBreak>)
    ensures |bs| == |offsets|
    ensures forall i :: 0 <= i < |bs| ==> bs[i] == BreakFor(ads, offsets, i)
  {
    seq(|offsets|, i requires 0 <= i < |offsets| => BreakFor(ads, offsets, i))
  }

  // The text of one break, piece by piece.

  function BreakHeader(timeOffset: string, breakId: string, title: string): string {
    "  <vmap:AdBreak timeOffset=\"" + timeOffset + "\" breakType=\"linear\" breakId=\"" + breakId + "\">\n"
    + "    <vmap:AdSource>\n"
    + "      <vmap:VASTAdData>\n"
    + "        <VAST version=\"3.0\">\n"
    + "          <Ad>\n"
    + "            <InLine>\n"
    + "              <AdSystem>Hyperlocal POC</AdSystem>\n"
    + "              <AdTitle>" + title + "</AdTitle>\n"
    + "              <Creatives>\n"
  }

  function LinearText(mimeType: string, mediaUrl: string): string {
    "                <Creative>\n"
    + "                  <Linear>\n"
    + "                    <Duration>00:00:15.000</Duration>\n"
    + "                    <MediaFiles>\n"
    + "                      <MediaFile delivery=\"progressive\" type=\"" + mimeType + "\">\n"
    + "                        <![CDATA[" + mediaUrl + "]]>\n"
    + "                      </MediaFile>\n"
    + "                    </MediaFiles>\n"
    + "                  </Linear>\n"
    + "                </Creative>\n"
  }

  const NoCreativeComment: string := "                <!-- No videoUrl or imageUrl provided for this ad -->\n"

  function CompanionText(creativeType: string, imageUrl: string): string {
    "                <Creative>\n"
    + "                  <CompanionAds>\n"
    + "                    <Companion width=\"640\" height=\"375\">\n"
    + "                      <StaticResource creativeType=\"" + creativeType + "\">\n"
    + "                        <![CDATA[" + imageUrl + "]]>\n"
    + "                      </StaticResource>\n"
    + "                    </Companion>\n"
    + "                  </CompanionAds>\n"
    + "                </Creative>\n"
  }

  const BreakFooter: string :=
    "              </Creatives>\n"
    + "            </InLine>\n"
    + "          </Ad>\n"
    + "        </VAST>\n"
    + "      </vmap:VASTAdData>\n"
    + "    </vmap:AdSource>\n"
    + "  </vmap:AdBreak>\n"

  function LinearPart(linear: Option<LinearCreative>): string {
    match linear
    case Some(l) => LinearText(l.mimeType, l.mediaUrl)
    case None => NoCreativeComment
  }

  function CompanionPart(companion: Option<CompanionCreative>): string {
    match companion
    case Some(c) => CompanionText(c.creativeType, c.imageUrl)
    case None => ""
  }

  function RenderBreak(b: AdBreak): string {
    BreakHeader(b.timeOffset, b.breakId, b.title) + LinearPart(b.linear) + CompanionPart(b.companion) + BreakFooter
  }

  /** The pieces of text, one after another. */
  function Concat(parts: seq<string>): string
    decreases |parts|
  {
    if parts == [] then "" else Concat(parts[..|parts| - 1]) + parts[|parts| - 1]
  }

  /** Each break's text, in order. */
  function Parts(bs: seq<AdBreak>): (parts: seq<string>)
    ensures |parts| == |bs|
    ensures forall i :: 0 <= i < |bs| ==> parts[i] == RenderBreak(bs[i])
  {
    seq(|bs|, i requires 0 <= i < |bs| => RenderBreak(bs[i]))
  }

  function RenderBreaks(bs: seq<AdBreak>): string {
    Concat(Parts(bs))
  }

  /** The whole document. */
  function RenderVmap(bs: seq<AdBreak>): string {
    VmapOpen + "\n" + RenderBreaks(bs) + VmapClose
  }

  /** The string builder loop of `generateVmapXml`: the text of each break is appended to `sb`. */
  method AppendBreaks(ads: seq<Meta>, offsets: seq<string>, prefix: string) returns (sb: string)
    ensures sb == prefix + RenderBreaks(Breaks(ads, offsets))
  {
    ghost var texts := Parts(Breaks(ads, offsets));
    ghost var done: seq<string> := [];
    sb := prefix;
    var i := 0;
    while i < |offsets|
      invariant 0 <= i <= |offsets| == |texts|
      invariant done == texts[..i]
      invariant sb == prefix + Concat(done)
    {
      var text := RenderBreak(BreakFor(ads, offsets, i));
      PartOfBreak(ads, offsets, i);
      BuilderStep(prefix, done, text);
      SnocPrefix(texts, i);
      sb, done := sb + text, done + [text];
      i := i + 1;
    }
    WholePrefix(texts);
  }

  lemma WholePrefix(parts: seq<string>)
    ensures parts[..|parts|] == parts
  {
  }

  /** `generateVmapXml`: the envelope around the breaks' texts. */
  method GenerateVmapXml(ads: seq<Meta>, offsets: seq<string>) returns (xml: string)
    ensures xml == RenderVmap(Breaks(ads, offsets))
  {
    var sb := VmapOpen + "\n";
    sb := AppendBreaks(ads, offsets, sb);
    xml := sb + VmapClose;
  }

  lemma PartOfBreak(ads: seq<Meta>, offsets: seq<string>, i: nat)
    requires i < |offsets|
    ensures Parts(Breaks(ads, offsets))[i] == RenderBreak(BreakFor(ads, offsets, i))
  {
  }

  /** One pass of the builder loop: appending a piece extends the text by that piece. */
  lemma BuilderStep(prefix: string, done: seq<string>, text: string)
    ensures (prefix + Concat(done)) + text == prefix + Concat(done + [text])
  {
    assert (done + [text])[..|done|] == done;
    AppendAssoc(prefix, Concat(done), text);
  }

  /** Concatenating two runs of pieces is concatenating each run in turn. */
  lemma {:induction false} ConcatAppend(a: seq<string>, b: seq<string>)
    ensures Concat(a + b) == Concat(a) + Concat(b)
    decreases |b|
  {
    if b == [] {
      assert a + b == a;
    } else {
      var b' := b[..|b| - 1];
      assert (a + b)[..|a + b| - 1] == a + b';
      ConcatAppend(a, b');
    }
  }

  /** The text of the first `i + 1` pieces is that of the first `i` followed by piece `i`. */
  lemma ConcatPrefixSnoc(parts: seq<string>, i: nat)
    requires i < |parts|
    ensures Concat(parts[..i + 1]) == Concat(parts[..i]) + parts[i]
  {
    assert parts[..i + 1][..i] == parts[..i];
  }

  lemma ConcatSplit(parts: seq<string>, i: nat)
    requires i < |parts|
    ensures Concat(parts) == Concat(parts[..i]) + parts[i] + Concat(parts[i + 1..])
  {
    var mid, post := parts[..i + 1], parts[i + 1..];
    assert parts == mid + post;
    ConcatAppend(mid, post);
    ConcatPrefixSnoc(parts, i);
  }

  /**
   * The breaks of the document appear whole and in order: break `i`'s
   * text comes right after the text of exactly the breaks before it.
   */
  lemma DocumentHoldsEachBreak(bs: seq<AdBreak>, i: nat)
    requires i < |bs|
    ensures RenderBreaks(bs) == RenderBreaks(bs[..i]) + RenderBreak(bs[i]) + RenderBreaks(bs[i + 1..])
  {
    ConcatSplit(Parts(bs), i);
    PartsPrefix(bs, i);
    PartsSuffix(bs, i + 1);
  }

  lemma PartsPrefix(bs: seq<AdBreak>, i: nat)
    requires i <= |bs|
    ensures Parts(bs)[..i] == Parts(bs[..i])
  {
    var a, b := Parts(bs)[..i], Parts(bs[..i]);
    forall k | 0 <= k < i
      ensures a[k] == b[k]
    {
      assert bs[..i][k] == bs[k];
    }
  }

  lemma PartsSuffix(bs: seq<AdBreak>, i: nat)
    requires i <= |bs|
    ensures Parts(bs)[i..] == Parts(bs[i..])
  {
    var a, b := Parts(bs)[i..], Parts(bs[i..]);
    forall k | 0 <= k < |bs| - i
      ensures a[k] == b[k]
    {
      assert bs[i..][k] == bs[i + k];
    }
  }

  /** Break ids tell breaks apart: only "start" is the pre-roll, and two mid-rolls never share an id. */
  lemma BreakIdsDistinct(ads: seq<Meta>, offsets: seq<string>, i: nat, j: nat)
    requires i < j < |offsets|
    requires offsets[i] != "start" && offsets[i] != "end"
    requires offsets[j] != "start" && offsets[j] != "end"
    ensures BreakFor(ads, offsets, i).breakId != BreakFor(ads, offsets, j).breakId
  {
    var p := "midroll";
    var si, sj := NatToString(i), NatToString(j);
    if p + si == p + sj {
      assert si == (p + si)[|p|..] == (p + sj)[|p|..] == sj;
      NatToStringInjective(i, j);
    }
  }

  /**
   * The creatives of a break follow its ad's URLs: a companion exactly
   * when the ad has an image, showing that image with the type its
   * extension names; a linear whenever the ad
   * has a video or an image — the video itself when there is one, otherwise
   * a stub video, so an image-only ad still plays.
   */
  lemma CreativesFollowUrls(ads: seq<Meta>, offsets: seq<string>, i: nat)
    requires i < |offsets|
    ensures var ad, b := AdFor(ads, i), BreakFor(ads, offsets, i);
      && (b.companion.Some? <==> HasUrl(ad, "imageUrl"))
      && (b.companion.Some? ==> b.companion.value.imageUrl == ad["imageUrl"])
      && (b.companion.Some? ==> b.companion.value.creativeType == CompanionType(ad["imageUrl"]))
      && (b.linear.Some? <==> HasUrl(ad, "videoUrl") || HasUrl(ad, "imageUrl"))
      && (HasUrl(ad, "videoUrl") ==> b.linear == Some(LinearCreative("video/mp4", ad["videoUrl"])))
      && (!HasUrl(ad, "videoUrl") && HasUrl(ad, "imageUrl") && "stubLinearUrl" in ad ==>
            b.linear == Some(LinearCreative(StubMimeType(ad["stubLinearUrl"]), ad["stubLinearUrl"])))
      && (!HasUrl(ad, "videoUrl") && HasUrl(ad, "imageUrl") && "stubLinearUrl" !in ad ==>
            b.linear == Some(LinearCreative("video/webm", DefaultStubUrl)))
      && (b.companion.Some? ==> b.linear.Some?)
  {
    StubTypeByExtension(DefaultStubUrl);
  }

  /**
   * The stub's MIME type follows its extension, whatever its letter case:
   * WebM exactly when the URL ends in ".webm", MP4 for anything else.
   */
  lemma StubTypeByExtension(url: string)
    ensures var n := |url|;
      && (n >= 5 && LowerChar(url[n - 5]) == '.' && LowerChar(url[n - 4]) == 'w' && LowerChar(url[n - 3]) == 'e'
          && LowerChar(url[n - 2]) == 'b' && LowerChar(url[n - 1]) == 'm'
          <==> StubMimeType(url) == "video/webm")
      && (StubMimeType(url) == "video/mp4" <==> !EndsWith(ToLower(url), ".webm"))
  {
    EndsWithLower(url, ".webm");
  }

  /** With no ads at all, every break is an empty shell titled "Ad". */
  lemma NoAdsGiveEmptyBreaks(offsets: seq<string>, i: nat)
    requires i < |offsets|
    ensures var b := BreakFor([], offsets, i);
      b.title == "Ad" && b.linear.None? && b.companion.None?
  {
  }

  lemma {:induction false} EndsWithLower(s: string, suffix: string)
    requires forall k :: 0 <= k < |suffix| ==> LowerChar(suffix[k]) == suffix[k]
    ensures EndsWith(ToLower(s), suffix)
        <==> |suffix| <= |s| && forall k :: 0 <= k < |suffix| ==> LowerChar(s[|s| - |suffix| + k]) == suffix[k]
  {
    var t := ToLower(s);
    if |suffix| <= |s| {
      var tail := t[|s| - |suffix|..];
      assert forall k :: 0 <= k < |suffix| ==> tail[k] == LowerChar(s[|s| - |suffix| + k]);
    }
  }

  /** The companion's MIME type follows the image's extension, whatever its letter case: "photo.PNG" is a PNG. */
  lemma CompanionTypeByExtension(url: string)
    ensures var n := |url|;
      && (n >= 4 && LowerChar(url[n - 4]) == '.' && LowerChar(url[n - 3]) == 'p'
          && LowerChar(url[n - 2]) == 'n' && LowerChar(url[n - 1]) == 'g'
          <==> CompanionType(url) == "image/png")
      && (CompanionType(url) == "image/gif" <==> !EndsWith(ToLower(url), ".png") && EndsWith(ToLower(url), ".gif"))
      && (CompanionType(url) == "image/jpeg" <==> !EndsWith(ToLower(url), ".png") && !EndsWith(ToLower(url), ".gif"))
  {
    EndsWithLower(url, ".png");
    EndsWithLower(url, ".gif");
  }
}
