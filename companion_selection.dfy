/**
 * Which companion creative `renderCompanion` shows when a linear ad
 * starts, and what it puts into the companion slot. The choice is the
 * same in both revisions of the playback page.
 */
module CompanionSelection {
  import opened Wrappers

  /** The slot size asked of the ad SDK. */
  const SlotWidth: int := 640
  const SlotHeight: int := 375

  /** A companion of the current ad: its size, its resource URL and its HTML content, each possibly absent. */
  datatype Companion = Companion(width: int, height: int, resourceValue: Option<string>, content: Option<string>)

  /** What the slot holds: one wrapper around an image, around HTML content, or around nothing. */
  datatype Wrapper = ImageWrapper(src: string) | HtmlWrapper(html: string) | EmptyWrapper

  predicate FitsSlot(c: Companion) {
    c.width == SlotWidth && c.height == SlotHeight
  }

  /** JavaScript truthiness of an optional string: present and non-empty. */
  predicate IsTruthyString(s: Option<string>) {
    s.Some? && s.value != ""
  }

  /** The position of the first companion of exactly the slot size, or |cs| if there is none. */
  function FirstFitting(cs: seq<Companion>): (k: nat)
    ensures k <= |cs|
    ensures k < |cs| ==> FitsSlot(cs[k])
    ensures forall j :: 0 <= j < k ==> !FitsSlot(cs[j])
    decreases |cs|
  {
    if cs == [] then 0
    else if FitsSlot(cs[0]) then 0
    else 1 + FirstFitting(cs[1..])
  }

  /**
   * `pick(exact)`: the first companion the SDK returns for the slot, which with an
   * exact-size criterion means the first of exactly the slot size, and with the
   * size ignored the first of all.
   */
  function Pick(cs: seq<Companion>, exact: bool): Option<Companion> {
    if exact then
      var k := FirstFitting(cs);
      if k < |cs| then Some(cs[k]) else None
    else if cs == [] then None
    else Some(cs[0])
  }

  /** `pick(true) || pick(false)` for the event's ad, None when the event carries no ad. */
  function Choose(ad: Option<seq<Companion>>): Option<Companion> {
    match ad
    case None => None
    case Some(cs) => if Pick(cs, true).Some? then Pick(cs, true) else Pick(cs, false)
  }

  /** The wrapper built for a chosen companion: the image when it has a resource URL, else its HTML, else nothing. */
  function WrapperFor(c: Companion): (w: Wrapper)
    ensures IsTruthyString(c.resourceValue) ==> w == ImageWrapper(c.resourceValue.value)
    ensures !IsTruthyString(c.resourceValue) && IsTruthyString(c.content) ==> w == HtmlWrapper(c.content.value)
    ensures !IsTruthyString(c.resourceValue) && !IsTruthyString(c.content) ==> w == EmptyWrapper
  {
    if IsTruthyString(c.resourceValue) then ImageWrapper(c.resourceValue.value)
    else if IsTruthyString(c.content) then HtmlWrapper(c.content.value)
    else EmptyWrapper
  }

  /**
   * The slot after `renderCompanion`: untouched when nothing is chosen,
   * otherwise emptied and given exactly one wrapper.
   */
  function RenderedSlot(slot: seq<Wrapper>, ad: Option<seq<Companion>>): (r: seq<Wrapper>)
    ensures Choose(ad).None? ==> r == slot
    ensures Choose(ad).Some? ==> r == [WrapperFor(Choose(ad).value)]
  {
    match Choose(ad)
    case None => slot
    case Some(c) => [WrapperFor(c)]
  }

  /**
   * The choice in full: nothing exactly when there is no ad or the ad has no
   * companion; the first exact-size companion whenever one exists; otherwise
   * the ad's first companion.
   */
  lemma ChooseSpec(ad: Option<seq<Companion>>)
    ensures Choose(ad).None? <==> ad.None? || ad.value == []
    ensures ad.Some? && (exists i :: 0 <= i < |ad.value| && FitsSlot(ad.value[i])) ==>
      exists k :: 0 <= k < |ad.value| && Choose(ad) == Some(ad.value[k]) && FitsSlot(ad.value[k])
        && forall j :: 0 <= j < k ==> !FitsSlot(ad.value[j])
    ensures ad.Some? && ad.value != [] && (forall i :: 0 <= i < |ad.value| ==> !FitsSlot(ad.value[i])) ==>
      Choose(ad) == Some(ad.value[0])
  {
    if ad.Some? {
      var cs := ad.value;
      var k := FirstFitting(cs);
      if exists i :: 0 <= i < |cs| && FitsSlot(cs[i]) {
        assert k < |cs|;
      }
    }
  }

  /** The chosen companion is one of the ad's own. */
  lemma ChosenBelongsToAd(ad: Option<seq<Companion>>)
    requires Choose(ad).Some?
    ensures ad.Some? && Choose(ad).value in ad.value
  {
  }
}
