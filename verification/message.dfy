/** The alert text for a listing that passed the pre-filter: a summary line
    of segments joined with " · ", the markdown link to the listing, and the
    AI's justification when there is one, joined with newlines. Empty and
    null segments and lines are dropped before joining. */
module Message {
  import opened Wrappers
  import opened Text
  import opened Js
  import opened Schema
  import opened Scoring

  const SegmentSeparator := " \U{00B7} "
  const LineSeparator := "\n"

  /** `emojiScore ? `${emoji(s)} ${s}/10` : null`. */
  function ScoreSegment(score: int): Option<string> {
    if score != 0 then Some(Interpolate(Emoji(score)) + " " + IntToString(score) + "/10") else None
  }

  /** The area's liking out of ten, always shown. */
  function LocationSegment(likebility: int): string {
    "\U{1F4CD}" + IntToString(likebility) + "/10"
  }

  /** The price in thousands of euros, or `""` without a price. */
  function PriceSegment(price: Option<int>): Option<string> {
    if Truthy(price) then Some("\U{20AC}" + IntToString(RoundHalfUp(price.value, 1000)) + "k") else Some("")
  }

  /** The floor area, or `""` without one. */
  function MetersSegment(meters: Option<int>): Option<string> {
    if Truthy(meters) then Some(IntToString(meters.value) + "m2") else Some("")
  }

  /** The price per square metre when both price and floor area are known. */
  function PricePerMeterSegment(price: Option<int>, meters: Option<int>): Option<string> {
    if Truthy(price) && Truthy(meters) then
      Some("\U{20AC}" + IntToString(RoundHalfUp(price.value, meters.value)) + "/m2")
    else None
  }

  /** The floor, unless it is unknown or the ground floor. */
  function FloorSegment(floor: Option<int>): (r: Option<string>)
    ensures r.Some? <==> Truthy(floor)
    ensures r.Some? ==> r.value != ""
  {
    if Truthy(floor) then Some("\U{1F6D7} " + IntToString(floor.value)) else None
  }

  function RoomsSegment(ai: Option<AiProps>): Option<string> {
    if ai.Some? && Truthy(ai.value.rooms) then Some("\U{1F6CF} " + IntToString(ai.value.rooms.value)) else None
  }

  function ServiceCostsSegment(ai: Option<AiProps>): Option<string> {
    if ai.Some? && Truthy(ai.value.servicecosts) then
      Some("\U{1F9FE} \U{20AC}" + IntToString(ai.value.servicecosts.value) + " p/m")
    else None
  }

  /** The nine candidate segments of the summary line, in order. */
  function Slots(l: Listing, floor: Option<int>, likebility: int, ai: Option<AiProps>): seq<Option<string>> {
    var score := EmojiScore(likebility, FloorScore(floor, ai), ai);
    [ ScoreSegment(score),
      Some(LocationSegment(likebility)),
      PriceSegment(l.price),
      MetersSegment(l.meters),
      PricePerMeterSegment(l.price, l.meters),
      Some(l.street),
      FloorSegment(floor),
      RoomsSegment(ai),
      ServiceCostsSegment(ai) ]
  }

  /** The segments that reach the summary line. */
  function Segments(l: Listing, floor: Option<int>, likebility: int, ai: Option<AiProps>): seq<string> {
    Compact(Slots(l, floor, likebility, ai))
  }

  function Summary(l: Listing, floor: Option<int>, likebility: int, ai: Option<AiProps>): string {
    Join(Segments(l, floor, likebility, ai), SegmentSeparator)
  }

  /** The markdown link to the listing. */
  function UrlLine(url: string): string {
    "[" + url + "](" + url + ")"
  }

  /** The AI's justification with its rating (`rating || 0`), when it gave a reason. */
  function ReasonLine(ai: Option<AiProps>): Option<string> {
    if ai.Some? && TruthyText(ai.value.reason) then
      var rating := if Truthy(ai.value.rating) then ai.value.rating.value else 0;
      Some("_AI rating " + IntToString(rating) + "/100. " + ai.value.reason.value + "_")
    else None
  }

  /** The four candidate lines: banner, summary, link, justification. */
  function Lines(l: Listing, floor: Option<int>, likebility: int, ai: Option<AiProps>): seq<Option<string>> {
    var score := EmojiScore(likebility, FloorScore(floor, ai), ai);
    [ Some(Banner(score)),
      Some(Summary(l, floor, likebility, ai)),
      Some(UrlLine(l.url)),
      ReasonLine(ai) ]
  }

  /** The alert text. */
  function AlertText(l: Listing, floor: Option<int>, likebility: int, ai: Option<AiProps>): string {
    Join(Compact(Lines(l, floor, likebility, ai)), LineSeparator)
  }

  /** The summary's segments are exactly the truthy slots, in slot order. */
  lemma SegmentsInOrder(l: Listing, floor: Option<int>, likebility: int, ai: Option<AiProps>)
    ensures var score := EmojiScore(likebility, FloorScore(floor, ai), ai);
      Segments(l, floor, likebility, ai)
      == Present(ScoreSegment(score)) + ([LocationSegment(likebility)]
         + (Present(PriceSegment(l.price)) + (Present(MetersSegment(l.meters))
         + (Present(PricePerMeterSegment(l.price, l.meters)) + (Present(Some(l.street))
         + (Present(FloorSegment(floor)) + (Present(RoomsSegment(ai))
         + Present(ServiceCostsSegment(ai)))))))))
  {
    var xs := Slots(l, floor, likebility, ai);
    CompactNine(xs[0], xs[1], xs[2], xs[3], xs[4], xs[5], xs[6], xs[7], xs[8]);
    assert xs == [xs[0], xs[1], xs[2], xs[3], xs[4], xs[5], xs[6], xs[7], xs[8]];
  }

  /** What the summary line promises: the liking segment is always there;
      the floor segment is there exactly when the floor is known and not the
      ground floor; price, size and price per metre only when known; and no
      segment is empty. */
  lemma SegmentsContents(l: Listing, floor: Option<int>, likebility: int, ai: Option<AiProps>)
    ensures var segs := Segments(l, floor, likebility, ai);
      && LocationSegment(likebility) in segs
      && (forall s :: s in segs ==> s != "")
      && (Truthy(floor) ==> FloorSegment(floor).value in segs)
      && (!Truthy(floor) ==> FloorSegment(floor).None?)
      && (Truthy(l.price) ==> PriceSegment(l.price).value in segs)
      && (Truthy(l.meters) ==> MetersSegment(l.meters).value in segs)
      && (Truthy(l.price) && Truthy(l.meters) ==> PricePerMeterSegment(l.price, l.meters).value in segs)
      && (l.street != "" ==> l.street in segs)
  {
    var xs := Slots(l, floor, likebility, ai);
    assert Some(LocationSegment(likebility)) == xs[1];
    assert LocationSegment(likebility) != "";
    assert Truthy(floor) ==> Some(FloorSegment(floor).value) == xs[6];
    assert Some(PriceSegment(l.price).value) == xs[2];
    assert Some(MetersSegment(l.meters).value) == xs[3];
    assert Truthy(l.price) && Truthy(l.meters) ==> Some(PricePerMeterSegment(l.price, l.meters).value) == xs[4];
    assert Some(l.street) == xs[5];
  }

  /** The number of segments is one for the liking plus one for every other
      slot that is truthy. */
  lemma SegmentsCount(l: Listing, floor: Option<int>, likebility: int, ai: Option<AiProps>)
    ensures |Segments(l, floor, likebility, ai)|
      == 1 + |Present(ScoreSegment(EmojiScore(likebility, FloorScore(floor, ai), ai)))|
           + (if Truthy(l.price) then 1 else 0) + (if Truthy(l.meters) then 1 else 0)
           + (if Truthy(l.price) && Truthy(l.meters) then 1 else 0)
           + (if l.street != "" then 1 else 0) + (if Truthy(floor) then 1 else 0)
           + (if ai.Some? && Truthy(ai.value.rooms) then 1 else 0)
           + (if ai.Some? && Truthy(ai.value.servicecosts) then 1 else 0)
  {
    SegmentsInOrder(l, floor, likebility, ai);
  }

  /** The score segment is there exactly when the score is not 0. */
  lemma ScoreSegmentPresent(score: int)
    ensures |Present(ScoreSegment(score))| == (if score != 0 then 1 else 0)
  {
  }

  /** filter(Boolean) on the four candidate lines when the banner is
      empty and the summary and the link are not. */
  lemma CompactLines(banner: string, summary: string, link: string, reason: Option<string>)
    requires banner == "" && summary != "" && link != ""
    ensures Compact([Some(banner), Some(summary), Some(link), reason]) == [summary, link] + Present(reason)
  {
    CompactFour(Some(banner), Some(summary), Some(link), reason);
    assert Present(Some(banner)) == [];
    assert Present(Some(summary)) == [summary];
    assert Present(Some(link)) == [link];
    assert [] + ([summary] + ([link] + Present(reason))) == [summary, link] + Present(reason);
  }

  /** Joining the four candidate lines. */
  lemma JoinLines(banner: string, summary: string, link: string, reason: Option<string>)
    requires banner == "" && summary != "" && link != ""
    ensures Join(Compact([Some(banner), Some(summary), Some(link), reason]), LineSeparator)
      == summary + LineSeparator + link + (if TruthyText(reason) then LineSeparator + reason.value else "")
  {
    CompactLines(banner, summary, link, reason);
    if TruthyText(reason) {
      assert [summary, link] + Present(reason) == [summary, link, reason.value];
      JoinThree(summary, link, reason.value, LineSeparator);
    } else {
      assert [summary, link] + Present(reason) == [summary, link];
      JoinTwo(summary, link, LineSeparator);
    }
  }

  /** The whole text: summary line, then the link, then the justification
      when the AI gave a reason. The banner never appears. */
  lemma AlertTextShape(l: Listing, floor: Option<int>, likebility: int, ai: Option<AiProps>)
    ensures AlertText(l, floor, likebility, ai)
      == Summary(l, floor, likebility, ai) + LineSeparator + UrlLine(l.url)
         + (if ReasonLine(ai).Some? then LineSeparator + ReasonLine(ai).value else "")
  {
    var segs := Segments(l, floor, likebility, ai);
    SegmentsContents(l, floor, likebility, ai);
    assert |segs| >= 1;
    JoinStartsWithFirst(segs, SegmentSeparator);
    var summary := Summary(l, floor, likebility, ai);
    assert summary != "";
    var score := EmojiScore(likebility, FloorScore(floor, ai), ai);
    assert Banner(score) == "";
    var reason := ReasonLine(ai);
    assert reason.Some? ==> reason.value != "";
    JoinLines(Banner(score), summary, UrlLine(l.url), reason);
  }
}
