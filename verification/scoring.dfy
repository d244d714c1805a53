/** The decisions taken for a new listing before and after AI extraction: the
    area lookup and size pre-filter, the gate on the AI hook, the floor score,
    the composite score with its emoji, the banner, and the muted flag with
    the options object it is handed to the transport in. */
module Scoring {
  import opened Wrappers
  import opened Text
  import opened Js
  import opened Arrays
  import opened Schema

  /** The smallest floor area, in square metres, that still alerts. */
  const MinMeters := 59

  /** The text of the error the AI gate raises as written. */
  const CconfigError := "ReferenceError: cconfig is not defined"

  /** `zipcodes.find((z) => z.code === parseInt(zipcode))`: the first area
      entry whose code equals the parsed postal code. */
  function AreaFor(areas: seq<Area>, code: Option<int>): (r: Option<Area>)
    ensures r.Some? <==> code.Some? && exists k :: 0 <= k < |areas| && areas[k].code == code.value
    ensures r.Some? ==> exists k :: 0 <= k < |areas| && areas[k] == r.value && r.value.code == code.value
                           && forall j :: 0 <= j < k ==> areas[j].code != code.value
  {
    if code.None? then None
    else
      match FindIndex(areas, (a: Area) => a.code == code.value)
      case None => None
      case Some(k) => Some(areas[k])
  }

  /** The alert pre-filter: the area is known and the floor area is unknown
      (falsy) or at least MinMeters. */
  predicate PassesPreFilter(area: Option<Area>, meters: Option<int>) {
    area.Some? && (!Truthy(meters) || meters.value >= MinMeters)
  }

  /** A listing alerts exactly when some area's code equals its parsed
      postal code and its floor area is unknown or at least MinMeters. */
  lemma PreFilterIff(areas: seq<Area>, zipcode: Option<string>, meters: Option<int>)
    ensures PassesPreFilter(AreaFor(areas, ParseIntOf(zipcode)), meters)
      <==> (exists k :: 0 <= k < |areas| && Some(areas[k].code) == ParseIntOf(zipcode))
           && (!Truthy(meters) || meters.value >= MinMeters)
  {
  }

  /** The AI gate as written: evaluating it reads the undeclared `cconfig`
      and throws, whatever the inputs. */
  function AiGateAsWritten(hasHook: bool, alert: bool, devMode: bool): (r: Result<bool, string>)
    ensures r.Failure? && r.error == CconfigError
  {
    Failure(CconfigError)
  }

  /** The AI gate as evidently intended (`config.getAIProperties`): the hook
      runs when the adapter has one and the listing alerts or development
      mode is on. */
  predicate AiGate(hasHook: bool, alert: bool, devMode: bool) {
    hasHook && (alert || devMode)
  }

  predicate HasGarden(ai: Option<AiProps>) { ai.Some? && ai.value.garden }
  predicate HasRoofTerrace(ai: Option<AiProps>) { ai.Some? && ai.value.rooftarrace }

  /** 10 for a ground floor with a garden, else 8 for a roof terrace, else 5
      for a ground floor or a garden, else 0. */
  function FloorScore(floor: Option<int>, ai: Option<AiProps>): (r: int)
    ensures r == 0 || r == 5 || r == 8 || r == 10
    ensures r == 10 <==> floor == Some(0) && HasGarden(ai)
    ensures r == 8 <==> HasRoofTerrace(ai) && !(floor == Some(0) && HasGarden(ai))
    ensures r == 5 <==> (floor == Some(0) || HasGarden(ai)) && !HasRoofTerrace(ai) && !(floor == Some(0) && HasGarden(ai))
    ensures r == 0 <==> floor != Some(0) && !HasGarden(ai) && !HasRoofTerrace(ai)
  {
    if floor == Some(0) && HasGarden(ai) then 10
    else if HasRoofTerrace(ai) then 8
    else if floor == Some(0) || HasGarden(ai) then 5
    else 0
  }

  /** A garden or a roof terrace never lowers the floor score. */
  lemma FloorScoreMonotone(floor: Option<int>, a: AiProps)
    ensures FloorScore(floor, Some(a.(garden := true))) >= FloorScore(floor, Some(a))
    ensures FloorScore(floor, Some(a.(rooftarrace := true))) >= FloorScore(floor, Some(a))
    ensures FloorScore(floor, Some(a)) >= FloorScore(floor, None)
  {
  }

  /** `ai?.rating || 10`. */
  function RatingOrDefault(ai: Option<AiProps>): int {
    if ai.Some? && Truthy(ai.value.rating) then ai.value.rating.value else 10
  }

  /** Ten times `likebility + floorScore + (rating || 10) / 10`, an integer. */
  function ScoreTimesTen(likebility: int, floorScore: int, ai: Option<AiProps>): int {
    10 * likebility + 10 * floorScore + RatingOrDefault(ai)
  }

  /** `Math.round((likebility + floorScore + (rating || 10) / 10) / 3)`: the
      integer nearest to a third of the sum, a half rounded up. */
  function EmojiScore(likebility: int, floorScore: int, ai: Option<AiProps>): (r: int)
    ensures var n := ScoreTimesTen(likebility, floorScore, ai); 30 * r - 15 <= n < 30 * r + 15
  {
    RoundHalfUp(ScoreTimesTen(likebility, floorScore, ai), 30)
  }

  /** With a liking of 1 to 10, a floor score of the table and a rating of
      0 to 100 (0 reading as 10), the score lies between 0 and 10. */
  lemma EmojiScoreBounds(likebility: int, floor: Option<int>, ai: Option<AiProps>)
    requires 1 <= likebility <= 10
    requires ai.Some? && ai.value.rating.Some? ==> 0 <= ai.value.rating.value <= 100
    ensures 0 <= EmojiScore(likebility, FloorScore(floor, ai), ai) <= 10
  {
  }

  /** A liking of 8, a floor score of 10 and no rating give round(19 / 3) = 6. */
  lemma EmojiScoreExample()
    ensures EmojiScore(8, 10, None) == 6
  {
  }

  /** The score never falls when the area is liked more. */
  lemma EmojiScoreMonotone(l1: int, l2: int, floorScore: int, ai: Option<AiProps>)
    requires l1 <= l2
    ensures EmojiScore(l1, floorScore, ai) <= EmojiScore(l2, floorScore, ai)
  {
  }

  /** The faces for the scores 1 to 10. */
  const Faces: seq<string> := [
    "\U{1F92C}", "\U{1F621}", "\U{1F620}", "\U{1F61E}", "\U{1F610}",
    "\U{1F642}", "\U{1F60A}", "\U{1F603}", "\U{1F60D}", "\U{1F970}"]

  /** `emoji(score)`: the empty string for 0, a face for 1 to 10, and
      undefined (`None`) for anything else. */
  function Emoji(score: int): (r: Option<string>)
    ensures score == 0 ==> r == Some("")
    ensures 1 <= score <= 10 ==> r.Some? && |r.value| == 1 && !IsDigit(r.value[0])
    ensures score < 0 || score > 10 ==> r.None?
  {
    if score == 0 then Some("")
    else if 1 <= score <= 10 then Some(Faces[score - 1])
    else None
  }

  /** The faces, score by score: from the cursing face for 1 to the smiling
      face with hearts for 10. */
  lemma EmojiFaces()
    ensures Emoji(1) == Some("\U{1F92C}") && Emoji(2) == Some("\U{1F621}")
    ensures Emoji(3) == Some("\U{1F620}") && Emoji(4) == Some("\U{1F61E}")
    ensures Emoji(5) == Some("\U{1F610}") && Emoji(6) == Some("\U{1F642}")
    ensures Emoji(7) == Some("\U{1F60A}") && Emoji(8) == Some("\U{1F603}")
    ensures Emoji(9) == Some("\U{1F60D}") && Emoji(10) == Some("\U{1F970}")
  {
  }

  /** Each score from 1 to 10 has its own face. */
  lemma EmojiDistinct(a: int, b: int)
    requires 1 <= a <= 10 && 1 <= b <= 10 && a != b
    ensures Emoji(a) != Emoji(b)
  {
  }

  /** `Number(e)` for a value `emoji` returns: `""` is 0; a face or undefined is NaN (`None`). */
  function EmojiAsNumber(e: Option<string>): Option<int> {
    if e == Some("") then Some(0)
    else if e.Some? && IsDigitString(e.value) then Some(DecimalValue(e.value))
    else None
  }

  const BannerText := "\U{1F6A8}\U{1F6A8}\U{1F6A8} Might be a good property!"

  /** The banner line as written: `emoji(score) >= 7` compares the face, not
      the score, with 7, and no value `emoji` returns passes, so the banner
      is empty for every score. */
  function Banner(score: int): (r: string)
    ensures r == ""
  {
    var n := EmojiAsNumber(Emoji(score));
    if n.Some? && n.value >= 7 then BannerText else ""
  }

  /** `disable_notification`: areas liked 5 or less alert quietly. */
  predicate Muted(likebility: int) {
    likebility <= 5
  }

  /** The options object as written: the flag travels under the key
      `disable_notification`, which the transport never reads. */
  function SendOptionsAsWritten(muted: bool): (o: map<string, bool>)
    ensures !DeliveredSilently(o)
  {
    map["disable_notification" := muted]
  }

  /** The options object as evidently intended: the flag under `silent`. */
  function SendOptions(muted: bool): (o: map<string, bool>)
    ensures DeliveredSilently(o) == muted
  {
    map["silent" := muted]
  }

  /** `options.silent || false`, what the transport reads. */
  predicate DeliveredSilently(options: map<string, bool>) {
    "silent" in options && options["silent"]
  }
}
