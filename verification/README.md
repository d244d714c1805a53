# huiscrawler — a Dafny model of the listing pipeline

huiscrawler polls Dutch housing sites. Each site has an adapter module under
`crawlers/`. The orchestrator (`index.js`) goes through the adapters in
order:

- it skips adapters of other platforms when `FILTER_PLATFORM` is set;
- it stops with an error on an adapter that has neither `parseHTML` nor
  `parseJSON`;
- it fetches the landing page for its cookies;
- it builds the listings request, which is a form post with the
  `__RequestVerificationToken` cookie substituted, or a plain get;
- it hands the parsed batch to `processResult`.

For every listing whose URL is not yet stored, `processResult` does the
following:

- it runs the adapter's `enrichCallback`;
- it normalises the floor from the floor text or the house-number suffix of
  the street;
- it looks up the postal code in the area table;
- it decides whether to alert, meaning the area is known and the floor area
  is unknown or at least 59 m²;
- it asks the AI hook for extra attributes when it may;
- it scores the listing and composes a Telegram alert when it alerts;
- it inserts a row with `INSERT OR IGNORE` into a table whose `url` column is
  UNIQUE.

The de Alliantie adapter (`crawlers/dealliantie.js`) turns the JSON answer
of the search endpoint into listings. It keeps only items marked new. A
listing without a postal code gets one from a geocoder.

The model is functional: immutable datatypes for listings, AI attributes,
area entries and rows, and the store is a `map` from URL to row. JavaScript
values are modelled explicitly:

- `null`/`undefined` is `None`.
- Truthiness is "present and not 0" for numbers and "present and not empty"
  for strings.
- `parseInt` without a radix is modelled, including white space, signs and
  the `0x` prefix.
- `Math.round(a / b)` is exact integer round-half-up (`Js.RoundHalfUp`).
- The floor regular expression `/[0-9]+[- ]+([1-9]|h|hs|i+)$/i` is an
  explicit scanner from the end of the street (`Floor.Appendix`). It is
  proved to return exactly the capture group of every match
  (`Floor.AppendixSound`, `Floor.AppendixComplete`).

Modules:

| module | file | what it holds |
|---|---|---|
| `Wrappers` | wrappers.dfy | `Option`, `Result` |
| `Text` | text.dfy | digits, decimal rendering, `join`, `filter(Boolean)`, `split`, `replace` |
| `Js` | js.dfy | truthiness, null fallbacks, `parseInt`, `Math.round` |
| `Arrays` | arrays.dfy | `Array.prototype.find` as an index search |
| `Schema` | schema.dfy | listing, AI attributes, area, row, adapter |
| `Floor` | floor.dfy | floor normalisation (index.js:178-191) |
| `Scoring` | scoring.dfy | pre-filter, AI gate, floor score, emoji score, banner, mute (index.js:132-149, 194-259) |
| `Message` | message.dfy | the alert text (index.js:213-251) |
| `Pipeline` | pipeline.dfy | `processResult` (index.js:151-285) |
| `Orchestrator` | orchestrator.dfy | `main` (index.js:287-355) |
| `Dealliantie` | dealliantie.dfy | crawlers/dealliantie.js |

Quirks of the code are modelled as written, and the lemmas state them:

- The suffix is matched case-insensitively but compared with `h`/`hs`
  case-sensitively (index.js:187). So `Hoofdstraat 12-H` gives no floor,
  not the ground floor (`Floor.FloorUpperCaseSuffixExample`).
- `emoji(emojiScore) >= 7` compares the face, not the score, with 7
  (index.js:247). So the 🚨 banner is never produced (`Scoring.Banner`).
- The muted decision (index.js:254) is passed as `disable_notification`,
  but the transport reads `options.silent` (index.js:71). See Findings.
  An alert (`Pipeline.Notice`) records the decision as `muted` and carries
  the corrected options object `Scoring.SendOptions(muted)`, which
  `Pipeline.Evaluate` builds. As written, the options object is
  `Scoring.SendOptionsAsWritten(muted)`, and no alert is ever delivered
  silently.
- The AI gate reads the undeclared `cconfig` (index.js:201). See Findings.
  The rest of the model uses the evident intent, `config.getAIProperties`.

Other behaviour of the code worth noting:

- A `12-H` suffix gives null, not the ground floor.
- A failed fetch in `main` is not caught. It rejects `main` and ends the
  whole run, not just that adapter (`Orchestrator.Main` returns a
  `FetchError`, and `Orchestrator.MainFetchFails` states it).
- Only reading and parsing the response sits inside the `try`. A parser that
  throws gives an empty batch, and the run goes on
  (`Orchestrator.BatchOf`).

## Model

| member | source | states |
|---|---|---|
| `Text.DecimalValueOfNatToString` | index.js:233-236 | reading back the decimal text that `${n}` writes gives `n` |
| `Text.NatToString` | index.js:233-236 | `${n}` of a natural is canonical decimal text: digits only and no leading zero |
| `Text.NatToStringOfDecimalValue` | index.js:233-236 | every digit string without leading zeros is the `${n}` of its own value, so rendering is one-to-one onto canonical digit strings |
| `Text.Compact` | index.js:242-244 | `filter(Boolean)` keeps a string exactly when it is non-empty and was one of the slots, never adds any, and never yields an empty string |
| `Text.CompactAppend` | index.js:242-244 | filtering a concatenation is concatenating the filtered parts, so order is kept |
| `Text.Split` | crawlers/dealliantie.js:23 | `split` gives at least one piece, no piece holds the separator, the first piece is the prefix up to the first separator, and there is one piece exactly when the separator does not occur |
| `Text.JoinSplit` | crawlers/dealliantie.js:23 | joining the pieces of a split with the separator gives the string back |
| `Text.SplitWithout` | crawlers/dealliantie.js:20 | a string without the separator splits into itself alone |
| `Text.SplitAfterFirst` | crawlers/dealliantie.js:20-23 | splitting `a + c + b`, with `c` not in `a`, gives `a` followed by the pieces of `b` |
| `Text.StripNonDigits` | crawlers/dealliantie.js:31 | `replace(/\D/g, "")` leaves only digits, keeps every digit of the input and adds nothing |
| `Text.StripNonDigitsAppend` | crawlers/dealliantie.js:31 | removing non-digits works piecewise over a concatenation |
| `Text.StripNonDigitsOfDigits` | crawlers/dealliantie.js:31 | a string of digits only is left as it is |
| `Text.IndexOfFrom` | index.js:322-325 | the search finds an occurrence of the pattern with none before it, or reports that there is none at all |
| `Text.ReplaceFirstAt` | index.js:322-325 | a non-global `replace` substitutes the first occurrence and leaves the rest of the text as it was |
| `Text.ReplaceFirst` | index.js:322-325 | with no occurrence the text is unchanged; with one, the result's length trades the pattern's length for the replacement's |
| `Text.ReplaceFirstAbsent` | index.js:322-325 | text without the pattern is unchanged by `replace` |
| `Js.OrNull` | index.js:271-277 | the null fallback (`x` or else null) keeps a truthy value and gives null for a falsy one |
| `Js.Prefer` | index.js:269-274 | the fallback chain raw, then AI, then null, gives the raw value when it is truthy, and otherwise the null fallback of the AI's value; it is never a falsy non-null value |
| `Js.TrimStart` | index.js:195 | `parseInt` skips exactly the leading white space |
| `Js.LeadingDigits` | index.js:195 | `parseInt` reads the longest run of digits of the radix |
| `Js.LeadingDigitsOfPrefix` | index.js:195 | the digit run of a digit string followed by a non-digit is that digit string |
| `Js.ParseIntUnsigned` | index.js:195 | `parseInt` of text that starts with a digit, and not with `0x`, is the value of its leading run of decimal digits |
| `Js.ParseIntDecimalPrefix` | index.js:195 | `parseInt` of a digit string followed by a character that cannot continue it is the value of the digit string |
| `Js.ParseIntLeadingNumber` | index.js:195 | `parseInt` of the decimal text of `n`, followed by anything that cannot continue a number, is `n` |
| `Js.ParseInt` | index.js:195 | `parseInt` of blank text is NaN, and a negative result needs a leading minus after the white space |
| `Js.ParseIntOfDigits` | index.js:183-186 | `parseInt` of a digit string is its decimal value |
| `Js.RoundHalfUp` | index.js:216 | `Math.round(a / b)` is the integer nearest to a/b, with a half rounded up, for either sign of b |
| `Arrays.FindIndex` | index.js:194-196 | `find` gives the first element satisfying the predicate, or nothing exactly when none does |
| `Floor.TrailingCount` | index.js:179 | the length of the longest run of matching characters at the end of a string |
| `Floor.CaptureLength` | index.js:179 | a non-zero length marks a suffix that is a capture of the group: one digit 1-9, `h`, `hs` or a run of `i` (any case) |
| `Floor.Appendix` | index.js:179 | the scanner's result is a capture of the group and a suffix of the street |
| `Floor.AppendixSound` | index.js:179 | whatever the scanner returns is the capture of some match of the regular expression |
| `Floor.AppendixComplete` | index.js:179 | every match of the regular expression yields the scanner's capture, so the capture does not depend on which match the engine picks |
| `Floor.FloorOf` | index.js:180-191 | the floor is never negative; `begane grond` gives 0; an all-digit floor text gives its value and wins over the street; otherwise the street suffix decides |
| `Floor.FloorOfAppendix` | index.js:185-191 | the suffix's floor is never negative: digits give their value, `h` and `hs` the ground floor, a run of `i` its length, anything else null |
| `Floor.FloorFromSuffix` | index.js:185-191 | after a matching suffix: a digit 1-9 gives that floor, lower-case `h`/`hs` gives 0, `H`/`HS` give null, and a run of `i` gives its length |
| `Floor.FloorWithoutSuffix` | index.js:179-191 | with no decisive floor text and no match of the regular expression, the floor is null |
| `Floor.FloorFieldExamples` | index.js:180-184 | `begane grond` gives 0, and the floor text `3` wins over a `-hs` suffix |
| `Floor.HoofdstraatSuffix` | index.js:179-191 | the suffix rules applied to `Hoofdstraat 12-` followed by each kind of capture |
| `Floor.FloorDigitSuffixExample` | index.js:185-186 | `Hoofdstraat 12-3` is the third floor |
| `Floor.FloorGroundSuffixExamples` | index.js:187-188 | `12-h` and `12-hs` are the ground floor |
| `Floor.FloorRomanSuffixExample` | index.js:189-190 | `12-iii`, `12-III` and `12-iIi` are the third floor, whatever the case of the numeral |
| `Floor.FloorUpperCaseSuffixExample` | index.js:187-191 | `12-H` gives null |
| `Floor.FloorTwoDigitSuffixExample` | index.js:179-191 | `12-10` gives null, since the group takes one digit only |
| `Floor.FloorNoNumberExample` | index.js:179-191 | a street without a house number gives null |
| `Scoring.AreaFor` | index.js:194-196 | an area is found exactly when some entry's code equals the parsed postal code, and it is the first such entry |
| `Scoring.PreFilterIff` | index.js:194-198 | a listing alerts exactly when some area code equals `parseInt(zipcode)` and its floor area is falsy or at least 59 |
| `Scoring.AiGateAsWritten` | index.js:200-201 | evaluating the gate as written throws a ReferenceError whatever the inputs |
| `Scoring.FloorScore` | index.js:219-226 | the floor score is one of 0, 5, 8, 10; it is 10 exactly for a ground floor with a garden; otherwise 8 exactly with a roof terrace; otherwise 5 exactly for a ground floor or a garden; and 0 exactly without ground floor, garden or roof terrace |
| `Scoring.FloorScoreMonotone` | index.js:219-226 | adding a garden or a roof terrace, or having AI attributes at all, never lowers the floor score |
| `Scoring.EmojiScore` | index.js:228-230 | the score is the integer nearest to (likebility + floorScore + rating/10)/3, an absent or 0 rating counting as 10, with a half rounded up |
| `Scoring.EmojiScoreBounds` | index.js:228-230 | with a liking of 1 to 10 and a rating of 0 to 100, the score lies between 0 and 10 |
| `Scoring.EmojiScoreExample` | index.js:228-230 | a liking of 8, a floor score of 10 and no rating give 6 |
| `Scoring.EmojiScoreMonotone` | index.js:228-230 | a better-liked area never scores lower |
| `Scoring.Emoji` | index.js:132-149 | `emoji(0)` is `""`, 1 to 10 give a single non-digit face, and any other score is undefined |
| `Scoring.EmojiFaces` | index.js:135-146 | each score from 1 to 10 has the face the table gives it, from U+1F92C for 1 to U+1F970 for 10 |
| `Scoring.EmojiDistinct` | index.js:135-146 | the ten scores have ten different faces |
| `Scoring.Banner` | index.js:247 | the banner line is empty for every score |
| `Scoring.SendOptionsAsWritten` | index.js:254-259 | the options passed as written are never delivered silently |
| `Scoring.SendOptions` | index.js:71 | options under the key the transport reads are delivered silently exactly when muted |
| `Message.FloorSegment` | index.js:239 | the floor segment appears exactly when the floor is known and not 0, and it is never empty |
| `Message.SegmentsContents` | index.js:232-244 | the liking segment is always there; the floor, price, size and price-per-metre segments and the street are there when truthy; no segment is empty |
| `Message.SegmentsCount` | index.js:232-244 | the number of segments is one for the liking plus one for each other truthy slot |
| `Message.ScoreSegmentPresent` | index.js:233 | the score segment is there exactly when the score is not 0 |
| `Message.CompactLines` | index.js:246-256 | with an empty banner, the lines that survive the filter are the summary, the link and the reason when there is one |
| `Message.JoinLines` | index.js:246-256 | with an empty banner, the text is the summary, a newline, the link, and a newline and the reason when there is one |
| `Message.AlertTextShape` | index.js:232-256 | the alert text is the summary line, then the `[url](url)` link, then the AI justification when there is one; the banner never appears |
| `Pipeline.Enrich` | index.js:169-176 | without a hook the listing is unchanged; a hook's answer replaces the listing; when the hook throws the listing stays as it was |
| `Pipeline.AiFor` | index.js:200-211 | AI attributes are present only when the gate lets the hook run, and they are the hook's answer |
| `Pipeline.AiGateIntended` | index.js:200-211 | with the intended gate, the hook's answer is used exactly when there is a hook and the listing alerts or development mode is on |
| `Pipeline.ToRecord` | index.js:262-277 | the row keeps platform, URL, image, floor, street and postal code; raw floor area, price and rooms win when truthy, else the AI's value or null; garden and roof terrace are true or null; year, service costs and rating are the AI's truthy value or null; the reason is the AI's non-empty reason or null; no AI means no AI-only fields |
| `Pipeline.Evaluate` | index.js:178-281 | an alert is raised exactly when the listing passes the pre-filter; it is about the listing's URL and image, its text is the alert text of the listing with its floor, liking and AI attributes, it is muted exactly when the area is liked 5 or less, and its options deliver it silently exactly when muted; the row is exactly the insert parameters of the listing with its floor and the AI attributes the gate lets through; the row carries the URL, platform, floor and truthy raw values, and no AI fields without a hook |
| `Pipeline.InsertOrIgnore` | index.js:154-158 | the store gains the row's URL; existing rows are never overwritten; a new URL stores the row |
| `Pipeline.InsertOrIgnoreIdempotent` | index.js:154-158 | inserting the same row twice is inserting it once |
| `Pipeline.InsertOrIgnoreTaken` | index.js:31 | a row whose URL is taken leaves the store as it was |
| `Pipeline.ProcessOne` | index.js:160-176 | a stored URL is skipped with no enrichment, alert or write; otherwise the listing is enriched, its alert is the one `Evaluate` raises for the enriched listing, and its row is inserted unless the URL is taken; existing rows are kept and a new row carries the adapter's platform |
| `Pipeline.ProcessBatch` | index.js:160-282 | a batch only adds rows, keeps every earlier row, tags new rows with the platform, and raises at most one alert per listing |
| `Pipeline.ProcessOneStable` | index.js:163-176 | with a URL-keeping hook, a new listing is stored under its own URL, and its alert names that URL and a URL not stored before |
| `Pipeline.BatchKeys` | index.js:160-282 | with a URL-keeping hook, after a batch the stored URLs are the earlier ones plus every URL of the batch |
| `Pipeline.BatchFirstOccurrence` | index.js:160-282 | a URL not stored before gets the row of its first occurrence in the batch |
| `Pipeline.StoredRawValues` | index.js:269-274 | the stored floor area, price and rooms equal the enriched listing's values whenever those are truthy |
| `Pipeline.BatchNotices` | index.js:160-259 | alerts are raised only for URLs of the batch that were not stored before, and never twice for one URL |
| `Pipeline.BatchAlerts` | index.js:160-259 | every listing whose URL is not stored, met for the first time in the batch and passing the pre-filter once enriched, has its alert among the batch's alerts |
| `Pipeline.ProcessBatchAppend` | index.js:160-282 | processing a batch in two parts, the second from the store the first leaves, gives the store and the alerts, in order, of the whole batch |
| `Pipeline.BatchRerun` | index.js:160-167 | running the same batch again stores nothing new and raises no alert |
| `Pipeline.BatchKnown` | index.js:160-167 | a batch whose URLs are all stored changes nothing and raises no alert |
| `Pipeline.ProcessBatchAsWritten` | index.js:160-201 | as written, a batch that fails fails with the ReferenceError the gate raises when the first listing not yet stored reaches it, after its enrichment and area lookup |
| `Pipeline.AsWrittenNeverStores` | index.js:160-201 | as written, a batch gets through exactly when all its URLs are already stored, and then it changes nothing |
| `Pipeline.AsWrittenLosesNewListing` | index.js:200-201 | a new listing makes the as-written batch fail, and the corrected batch stores it |
| `Pipeline.ScenarioZipcode` | index.js:195 | the postal code `1011` parses to 1011 |
| `Pipeline.ScenarioArea` | index.js:194-196 | postal code `1011` finds the table entry with code 1011 |
| `Pipeline.ScenarioThirdFloor` | index.js:178-281 | a 65 m² listing at `Hoofdstraat 12-3` in an area liked 9 raises an alert that is not muted and is stored on floor 3 with its own size and price |
| `Pipeline.ScenarioPriceSegment` | index.js:235 | a price of 450000 shows as €450k |
| `Pipeline.ScenarioPricePerMeterSegment` | index.js:214-217 | 450000 for 65 m² shows as €6923/m2 |
| `Pipeline.ScenarioAlertText` | index.js:232-256 | the alert for the third-floor listing has the listing's alert text, and its summary line holds €450k and €6923/m2 |
| `Orchestrator.Token` | index.js:316-318 | the token is the value of the first cookie with the token key, or `""` when there is none |
| `Orchestrator.RequestFor` | index.js:313-333 | the request goes to the target URL; it is a post exactly when `postData` is set, and then its body is `postData` with the first placeholder replaced by the token |
| `Orchestrator.Main` | index.js:299-352 | a run never changes an existing row; a configuration error names a selected adapter without a parser; when no adapter is selected, nothing happens |
| `Orchestrator.MainAppend` | index.js:299-352 | a run over two lists of adapters is the run over the first, then, unless it ended in an error, the run over the second from the store the first left, with the alerts in order |
| `Orchestrator.BatchOf` | index.js:337-348 | the batch is the parser's listings, or empty when reading or parsing the answer threw |
| `Orchestrator.MainAlerts` | index.js:299-352 | for a selected adapter that is reached and whose fetches answer, every listing of its batch that is new, met first and passes the pre-filter once enriched has its alert among the run's alerts |
| `Orchestrator.MainFetchFails` | index.js:311-333 | when a reached, selected adapter with a parser cannot fetch its landing page or its listings, the run ends with an error naming that URL, keeping what the adapters before it stored and alerted; no later adapter runs |
| `Orchestrator.MainFilterPlatform` | index.js:303 | with a platform filter set, every row the run adds carries that platform |
| `Orchestrator.MainCompletes` | index.js:299-352 | when every selected adapter has a parser and every fetch answers, the run ends without an error |
| `Orchestrator.MainStopsAtConfigError` | index.js:305-308 | a selected adapter without a parser stops the run with an error naming its file, before anything is fetched or stored |
| `Orchestrator.ParserlessStopsRun` | index.js:305-308 | a selected adapter without a parser is never skipped: wherever it stands, the run ends with an error |
| `Orchestrator.FirstParserlessNamed` | index.js:299-308 | when every fetch answers, the run's error names exactly the first selected adapter without a parser |
| `Orchestrator.PostBodySubstitution` | index.js:315-325 | the body is the form text with its first placeholder replaced by the token, or removed when there is no token cookie |
| `Orchestrator.PostBodyWithoutPlaceholder` | index.js:322-325 | form text without the placeholder is posted unchanged |
| `Dealliantie.ImageLink` | crawlers/dealliantie.js:20-27 | an image URL cut at its first `?` becomes the host followed by the part before the `?`; it is null exactly when that part is empty; a link never holds a `?` after the host |
| `Dealliantie.ImageOf` | crawlers/dealliantie.js:20-27 | the image is the link of the first image with a truthy URL, or null when there is no such image |
| `Dealliantie.ImageOfFirst` | crawlers/dealliantie.js:20-27 | a query string is dropped from the image URL, and a URL without one is kept whole |
| `Dealliantie.CityOf` | crawlers/dealliantie.js:23-33 | the city is the non-empty second `/`-separated segment of the item URL, else `Amsterdam` |
| `Dealliantie.CityOfSecondSegment` | crawlers/dealliantie.js:23 | for `first/city/rest` the city is `city` |
| `Dealliantie.CityOfLastSegment` | crawlers/dealliantie.js:23 | for `first/city` the city is `city` |
| `Dealliantie.PriceOf` | crawlers/dealliantie.js:31 | the price is the number denoted by the digits of the price text; no price text means no price |
| `Dealliantie.ConvertItem` | crawlers/dealliantie.js:20-34 | an item converts exactly when it has images and a URL; the listing's URL is the host, a `/` and the item URL; postal code, floor and rooms are null |
| `Dealliantie.NewItems` | crawlers/dealliantie.js:15-18 | exactly the items with a status of type `new` are kept, and there are never more than the input |
| `Dealliantie.NewItemsAppend` | crawlers/dealliantie.js:15-18 | selecting the new items of a concatenation selects them from each part, so input order and multiplicity are kept |
| `Dealliantie.ParseItems` | crawlers/dealliantie.js:12-38 | the parser emits no more listings than items, and it fails only with the error of an unreadable item |
| `Dealliantie.ParseJson` | crawlers/dealliantie.js:12-15 | a payload without `data` throws; otherwise its items are parsed |
| `Dealliantie.ParseItemsSucceeds` | crawlers/dealliantie.js:15-34 | the parser succeeds exactly when every new item has images and a URL |
| `Dealliantie.ParseItemsOutput` | crawlers/dealliantie.js:15-37 | on success there is one listing per new item, in input order, each the conversion of that item |
| `Dealliantie.ParsedListings` | crawlers/dealliantie.js:21-32 | every emitted listing's URL starts with the host and a `/`; its postal code and floor are null; its price is not negative |
| `Dealliantie.NothingNew` | crawlers/dealliantie.js:15-18 | a payload without new items yields no listing |
| `Dealliantie.EnrichCallback` | crawlers/dealliantie.js:40-48 | a listing with a postal code is returned unchanged; otherwise only the postal code changes, to the geocoder's answer, and a geocoder error is passed on |
| `Dealliantie.GeocodeQuery` | crawlers/dealliantie.js:43 | the geocoder's query starts with the street and ends with `, Netherlands` |
| `Dealliantie.Adapter` | crawlers/dealliantie.js:5-12 | the adapter is the `dealliantie` platform with a JSON parser, and its enrichment hook is `enrichCallback` |
| `Dealliantie.AdapterUrlStable` | crawlers/dealliantie.js:40-48 | the enrichment never changes a listing's URL |
| `Dealliantie.ResponseOf` | index.js:337-348 | a de Alliantie answer reaches the pipeline as the parsed listings, or as nothing when `parseJSON` threw |
| `Dealliantie.ParsedBatch` | index.js:335-348 | the batch from a de Alliantie answer is empty when parsing threw, and otherwise the parsed listings, all inside the site with no postal code and no floor text |
| `Dealliantie.DealliantieRun` | index.js:299-352 | a run over the de Alliantie adapter whose fetches answer ends without an error and stores every URL the parser emitted |
| `Dealliantie.PostBody` | crawlers/dealliantie.js:10-11 | the search form is posted with the token as the value of its first field and the rest of the form unchanged |

## Left out

- HTTP, the cookie jar and `fetchWithCookies` (index.js:110-130) are I/O.
  The jar's content after the landing page is the parameter `Env.cookies`,
  which stands for `getCookiesSync`. The network is the parameter
  `Env.fetch`.
- The Telegram transport (index.js:65-108) is I/O. An alert is a `Notice`
  holding its URL, text, image, muted flag and send options.
- SQLite (index.js:20-63, 284) is I/O. The table is a map with
  insert-or-ignore on the UNIQUE URL.
- `stmt.run` is not awaited in the source. The model treats each insert as
  done before the next listing's lookup, so two listings with the same URL in
  one batch yield one row and one alert.
- `setInterval` scheduling and overlapping runs (index.js:357-367) are
  timing and concurrency.
- Directory scanning and `require` (index.js:295-300) are left out. The
  adapters are a given sequence of `Schema.Adapter` values, and a parser is
  only recorded as present.
- `getAIProperties` (crawlers/dealliantie.js:50-71), `lib/google` and
  `lib/chatgpt` are not part of this model. They are uninterpreted function
  parameters, and an AI hook that throws is the same as one that returns
  null.
- The area table of `lib/constants` is not part of this model. It is the
  parameter `Context.areas`.
- Numbers are mathematical integers. Floating-point precision and non-integer
  prices, sizes and ratings are not modelled.
- `Js.RoundHalfUp`: it matches `Math.round` only for integer operands, which
  is all the model has.
- `Dealliantie.PriceOf`: the source emits the digit string itself, and the
  model emits the number it denotes. So a price of all zeros (`"0"`, truthy
  as a string) reads as 0, which is falsy.
- `Orchestrator.PostBodySubstitution`: a token containing `$` patterns would
  be expanded by `String.replace`. Tokens are taken not to contain `$`.
- The listing's `street` is always a string. A missing street would make
  `property.street.match` throw, and that path is not modelled.
- Null entries of an item's `status` or `images` list are not modelled. An
  item list entry that is itself null is modelled.
- Logging and the start-up message are left out.
- Sends and lookups are taken to succeed. A rejected Telegram send
  (index.js:255-259, awaited outside any `try` and before `stmt.run`) or a
  rejected `getRow` (index.js:163-165) would reject `processResult` and
  `main`: that listing's row would not be written and the later adapters of
  the run would be skipped. The model has no failing send or lookup.

## Findings

| source | as written | input that shows it | evidently intended | confidence | as-written member | corrected member |
|---|---|---|---|---|---|---|
| index.js:200-201 | the AI gate reads `cconfig.getAIProperties`, and `cconfig` is not declared anywhere | any batch with one listing whose URL is not stored: the gate throws a ReferenceError, which rejects `processResult` and then `main` (index.js:351): nothing of the batch is stored or sent, and no later adapter of the run is processed | the hook of `config`, run when the listing alerts or in development mode | high, not executed | `Pipeline.ProcessBatchAsWritten` | `Pipeline.ProcessBatch` |
| index.js:254-259 | the muted decision is passed as `{ disable_notification }`, but `sendTelegramAlert` reads `options.silent` (index.js:71) | a listing in an area liked 3: `SendOptionsAsWritten(true)` is not delivered silently | `{ silent: disable_notification }` | high, not executed | `Scoring.SendOptionsAsWritten` | `Scoring.SendOptions` |
