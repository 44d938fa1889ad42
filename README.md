# best-places-bot: a verified model of the place-discovery core

best-places-bot is a Telegram bot. Its dialog collects a language, a location, a search radius and a rating band, in that order. It then asks the Google Places Nearby Search for restaurants, cafés and bars, and sends up to three place cards.

This project models that core in Dafny and proves what it promises:

- the dialog's finite-state machine and the filters that route events to its handlers;
- the pagination loop that fetches one category;
- the aggregation: concatenate in category order, deduplicate by `place_id`, filter by the rating band, normalise;
- the primary-type rule;
- the stable descending ranking and the top three;
- the presence logic of a place card;
- the compass-octant naming of a bearing;
- the translation lookup with its fallback;
- the callback payloads of the inline keyboards.

Modules, one file each:

| file | module | models |
|---|---|---|
| `wrappers.dfy` | `Wrappers` | `Option` for Python's value-or-`None`; `Outcome` for a call that returns or raises |
| `text.dfy` | `Text` | `str.startswith`, `str.split`, `str.strip`, `str.lower`; digit-string `int()` and `float()` |
| `geospatial.dfy` | `Geospatial` | `bearing_to_direction`; the final `% 360` of `calculate_bearing` |
| `translator.dfy` | `Translator` | `DEFAULT_LANG`, `get_string` |
| `keyboards.dfy` | `Keyboards` | the `callback_data` payloads and the handlers' payload parsers |
| `google_maps.dfy` | `GoogleMaps` | `fetch_places_by_type`, `get_primary_type`, `_dedupe_by_place_id`, `_normalize_place`, `find_places` |
| `ranking.dfy` | `Ranking` | the sort key, the stable sort and the top three of `process_and_send_results`; `_format_place_card` |
| `handlers.dfy` | `Handlers` | `SearchSteps`, the FSM context, the five dialog handlers, `process_and_send_results` |

The Places API is a parameter: a provider function from a request to a page outcome. A request is either the first Nearby URL or a continuation carrying a `pagetoken`. A page outcome is one of:

- a decoded page with its status, results and `next_page_token`;
- a transport error (`httpx.RequestError`), which the loop catches;
- a non-2xx response, for which `raise_for_status` raises;
- a body that is not a JSON object.

The three categories that `asyncio.gather` runs concurrently are modelled as sequential calls in category order. The result is the same concatenation, and any category that raises makes the whole search raise. The haversine distance and the bearing are parameters too: a `Survey` of two functions, the bearing constrained to [0, 360).

Imperative code stays imperative:

- The pagination loop, the dedup loop, the priority loop and the card loop are `for` loops. Each is proved equal to a specification function whose properties are proved as lemmas.
- The per-chat FSM context is a class, `Handlers.FsmContext`. Each handler method is proved to change it exactly as the pure transition function `Handlers.Step` says, and to send exactly the messages `Handlers.Respond` lists.

## Model

| member | source | states |
|---|---|---|
| GoogleMaps.FetchPlacesByType | bot/utils/google_maps_api.py:22-91 | The loop's outcome and request list equal `FetchSpec`. A blank key issues no request and returns the empty list. |
| GoogleMaps.CrawlChain | bot/utils/google_maps_api.py:51-72 | At most 3 requests are made per category. The first is the Nearby request. Each later one is the `pagetoken` request built from the previous page, which was `OK` with a non-empty `next_page_token`. |
| GoogleMaps.CrawlResult | bot/utils/google_maps_api.py:51-91 | Stopping before the third request means the last page has no continuation. The fetch raises exactly when the last response is an HTTP status error or an undecodable body. Otherwise it returns the in-order concatenation of the `OK` pages' results. |
| GoogleMaps.TransportErrorIsEmpty | bot/utils/google_maps_api.py:87-89 | A request error on the first request ends the loop with the empty list. |
| GoogleMaps.MissingKeysAreBlank | bot/utils/google_maps_api.py:39-41 | A missing key and the empty key are blank. |
| GoogleMaps.NoneWordIsBlank | bot/utils/google_maps_api.py:39 | The key "None" is blank: the key test lower-cases. |
| GoogleMaps.PaddedNoneIsBlank | bot/utils/google_maps_api.py:39 | The key " none\n" is blank: the key test strips whitespace. |
| GoogleMaps.WhitespaceKeyIsBlank | bot/utils/google_maps_api.py:39 | A key of only whitespace is blank. |
| GoogleMaps.PaddedKeyIsBlank | bot/utils/google_maps_api.py:39-41 | Every key made of whitespace, then nothing or "none" in any case, then whitespace, is blank. |
| GoogleMaps.BlankKeyShape | bot/utils/google_maps_api.py:39-41 | Every blank key has that shape, so with `PaddedKeyIsBlank` the blank keys are exactly these. |
| GoogleMaps.KeyIsBlankExactly | bot/utils/google_maps_api.py:39-41 | A key is blank exactly when its stripped, lower-cased form is "" or "none"; the `not api_key` test adds nothing for a string. |
| GoogleMaps.PrimaryTypeOf | bot/utils/google_maps_api.py:94-117 | Empty types give "point_of_interest". Otherwise the result is in the input. It is the earliest priority entry present, or, if no priority entry is present, the first type. |
| GoogleMaps.FirstListedFrom | bot/utils/google_maps_api.py:113-115 | The first priority entry from position `i` on that occurs in the types, or none if no later entry occurs. |
| GoogleMaps.GetPrimaryType | bot/utils/google_maps_api.py:94-117 | The priority loop with early return computes `PrimaryTypeOf`. |
| GoogleMaps.DedupeByPlaceId | bot/utils/google_maps_api.py:120-131 | The loop, with its `seen` set, computes `Dedupe`. |
| GoogleMaps.DedupeShape | bot/utils/google_maps_api.py:124-131 | The output is a subsequence of the input, and its ids come in the order of their first occurrence in the input (`FirstIndex` strictly increases along it). Its ids are pairwise distinct, every record has a non-empty id, and the set of ids is the input's set of non-empty ids. |
| GoogleMaps.DedupeOrder | bot/utils/google_maps_api.py:124-131 | The output's ids come in the order of their first occurrence in the input, even when a record recurs later in the input. |
| GoogleMaps.DedupeIds | bot/utils/google_maps_api.py:127-130 | The output's ids are exactly the input's non-empty ids, and records without an id are dropped. |
| GoogleMaps.DedupeUnique | bot/utils/google_maps_api.py:128-130 | No two output records share an id. |
| GoogleMaps.DedupeSubsequence | bot/utils/google_maps_api.py:126-130 | The output is a subsequence of the input. |
| GoogleMaps.DedupeKeepsFirst | bot/utils/google_maps_api.py:128-130 | Every output record is the first input record with its id. |
| GoogleMaps.DedupeIdempotent | bot/utils/google_maps_api.py:120-131 | Deduplicating twice equals deduplicating once. |
| GoogleMaps.DedupeOfUnique | bot/utils/google_maps_api.py:120-131 | An input with distinct non-empty ids is returned unchanged. |
| GoogleMaps.FilterShape | bot/utils/google_maps_api.py:193-201 | The band filter keeps exactly the records whose rating, or 0.0, lies in [min, max], and every copy of them: the multiplicity of an in-band record is its input multiplicity, of any other record 0. It keeps them in order, and it keeps ids distinct. |
| GoogleMaps.FilterCounts | bot/utils/google_maps_api.py:201 | Each record occurs in the output as often as in the input when in band, and not at all otherwise. |
| GoogleMaps.FilterKeepsOrder | bot/utils/google_maps_api.py:201 | A list whose ids come in first-occurrence order of the merged input still does after filtering. |
| GoogleMaps.NormalizePlace | bot/utils/google_maps_api.py:134-148 | The id, name, rating, count, types and coordinates are carried over. The primary type is `PrimaryTypeOf(types)`. The vicinity is `vicinity`, or the formatted address when `vicinity` is missing or empty. |
| GoogleMaps.NormalizeAll | bot/utils/google_maps_api.py:204 | One normalised record per input record, in order. |
| GoogleMaps.AggregateProperties | bot/utils/google_maps_api.py:187-204 | The output is the normalised form of exactly the records that are the first of their id and rate inside the band. They are ordered by the position at which their id first occurs in the merged input. No id repeats, and every rating (0.0 when absent) lies in the band. |
| GoogleMaps.FindPlaces | bot/utils/google_maps_api.py:159-204 | Fetches restaurant, cafe and bar in order, then concatenates, deduplicates, filters and normalises. The whole search raises if one category raises. |
| GoogleMaps.AllZeroResultsIsEmpty | bot/utils/google_maps_api.py:74-76 | If every category answers a page with status `ZERO_RESULTS`, whatever its results and token, the search returns the empty list. |
| Ranking.Decorate | bot/handlers/user_handlers.py:130-136 | The sort keys are computed before sorting. Computing them fails exactly when some rating is not a number. Otherwise each place's key is (rating or 0.0, count or 0). |
| Ranking.SortDescending | bot/handlers/user_handlers.py:130-136 | The sorted list never has an entry followed by one with a strictly greater key. |
| Ranking.SortPermutes | bot/handlers/user_handlers.py:130-136 | The sort is a permutation. |
| Ranking.SortStable | bot/handlers/user_handlers.py:130-136 | Entries with equal keys keep their input order. |
| Ranking.InsertDescending | bot/handlers/user_handlers.py:130-136 | Inserting one entry into a descending list keeps it descending. |
| Ranking.TopIsBest | bot/handlers/user_handlers.py:139 | The top is the prefix of the sorted list of length min(3, n). It is in rank order, and no left-out entry outranks a kept one. |
| Ranking.RankTopRaises | bot/handlers/user_handlers.py:130-136 | Ranking raises exactly when some rating is not a number. |
| Ranking.TopComesFromInput | bot/handlers/user_handlers.py:130-139 | Every ranked entry is a searched place, keyed by that place's rating. |
| Ranking.ShownPlacesInBand | bot/handlers/user_handlers.py:116-139 | Every place ranked from a search is in the search result, and its rating lies in the requested band. |
| Ranking.FormatPlaceCard | bot/handlers/user_handlers.py:58-88 | Shows the name, rating and address (or "—"), and the count or 0. Distance and direction appear only when both coordinates are present; otherwise both are "—". |
| Ranking.CardGeometryPresence | bot/handlers/user_handlers.py:75-81 | Each of the distance and direction is "—" exactly when a coordinate is missing. |
| Ranking.DistanceIsNotDash | bot/handlers/user_handlers.py:81 | A shown distance is never the dash. |
| Ranking.LabelIsNotDash | bot/utils/geospatial.py:36-40 | No compass label is the dash. |
| Ranking.AsWrittenCardFailsWithoutCount | bot/handlers/user_handlers.py:67-85 | Apart from the two-argument call at line 80, which is not modelled, the card as written raises exactly for places without a rating count. |
| Ranking.MissingCountCrashesCard | bot/handlers/user_handlers.py:67-85 | A concrete record without a count and without coordinates, so that line 80 is not reached, crashes the card as written. The corrected card shows 0 for it. |
| Geospatial.Bucket | bot/utils/geospatial.py:35 | `int(b/45 + 0.5)` lies in 0..8 and is the multiple of 45 nearest to the bearing. |
| Geospatial.BearingToDirection | bot/utils/geospatial.py:31-40 | Returns one of the eight labels. |
| Geospatial.NorthAtBothEnds | bot/utils/geospatial.py:35-40 | Label 0 is given exactly to bearings in [0, 22.5) and [337.5, 360). |
| Geospatial.OctantArc | bot/utils/geospatial.py:35-40 | Label k (1..7) is given exactly to bearings in [45k - 22.5, 45k + 22.5). |
| Geospatial.ExactMultiples | bot/utils/geospatial.py:35-40 | A bearing of exactly 45k gets label k. |
| Geospatial.Advance45 | bot/utils/geospatial.py:35-40 | Turning 45 degrees clockwise, modulo 360, advances the label by one modulo 8. |
| Geospatial.LabelsDistinct | bot/utils/geospatial.py:36-39 | Two bearings get the same label exactly when they are in the same octant. |
| Geospatial.AddDegrees | bot/utils/geospatial.py:35-40 | The rotation `Advance45` applies: the sum of two bearings, modulo 360, stays in [0, 360) and is the sum or the sum less 360. |
| Geospatial.NormalizeBearing | bot/utils/geospatial.py:29 | `(degrees + 360) % 360` with Python's floor remainder always lies in [0, 360) and differs from `degrees` by whole turns. For an `atan2` angle in [-180, 180] it is the angle itself when non-negative, and the angle plus 360 when negative. |
| Geospatial.NormalizeBearingPeriodic | bot/utils/geospatial.py:29 | A bearing already in [0, 360) is unchanged, and adding a full turn to the angle changes nothing. |
| Translator.GetString | bot/services/translator.py:15-20 | The requested language's string, else the "ru" string, else `_key_`. |
| Translator.UnknownLanguageFallsBack | bot/services/translator.py:20 | An unknown language code behaves like a known language that lacks the key. |
| Translator.DefaultLanguageReadsOnlyItsTable | bot/services/translator.py:15-20 | A lookup in "ru" depends only on the "ru" table. |
| Translator.PlaceholderNamesKey | bot/services/translator.py:20 | The placeholder is the key between two underscores. |
| Keyboards.LanguagePayloadsParse | bot/keyboards/inline_keyboards.py:18-20 | The language payloads pass the `lang_` filter. Splitting each at the first `_` gives "en", "ru" and "zh". |
| Keyboards.RadiusPayloadsParse | bot/keyboards/inline_keyboards.py:30-32 | The radius payloads pass the `radius_` filter and parse to 50, 100 and 200, all in [1, 5000]. |
| Keyboards.RatingBands | bot/keyboards/inline_keyboards.py:43-45 | The rating payloads parse to (4.0, 4.5), (4.41, 4.7) and (4.71, 5.0). |
| Keyboards.RatingPayloadsWellFormed | bot/keyboards/inline_keyboards.py:43-45 | Every rating payload passes the `rating_` filter and splits into exactly three parts with min <= max. The top band ends at 5.0. The lower bounds strictly increase, and the first two bands share [4.41, 4.5]. |
| Keyboards.ManualPayloadsUnrouted | bot/keyboards/inline_keyboards.py:33-46 | The two manual-entry payloads start with none of `lang_`, `radius_` and `rating_`. |
| Keyboards.SplitPayload | bot/handlers/user_handlers.py:174 | `split("_", 1)` of `word_rest` gives `[word, rest]` when `word` has no `_`. |
| Text.SplitJoin | bot/handlers/user_handlers.py:229 | `split` and `join` on the same separator are inverse. |
| Text.ParseNatToString | bot/handlers/user_handlers.py:212 | `int()` reads back the decimal digits of every natural number. |
| Text.StripShape | bot/utils/google_maps_api.py:39 | `strip` removes exactly the leading and trailing whitespace. |
| Text.StripPadded | bot/utils/google_maps_api.py:39 | `strip` of whitespace, then a string that neither starts nor ends with whitespace, then whitespace, is that string. |
| Handlers.StepOrdered | bot/handlers/user_handlers.py:157-238 | Every event keeps the ordering invariant. Only the five states the handlers set occur. Coordinates come after the language, and the radius after the coordinates. The rating state has every search field. |
| Handlers.RunOrdered | bot/handlers/user_handlers.py:157-238 | Every session reached from an ordered one is ordered. |
| Handlers.InitialOrdered | bot/handlers/user_handlers.py:36-46 | A fresh chat is ordered. |
| Handlers.StartFromAnyState | bot/handlers/user_handlers.py:157-162 | `/start` moves to the language prompt from any state and keeps the stored data. |
| Handlers.LanguageInAnyState | bot/handlers/user_handlers.py:169-185 | A `lang_` callback in any state stores the text after the prefix and moves to the location prompt. |
| Handlers.LanguageButtons | bot/handlers/user_handlers.py:169-185 | The three language buttons store "en", "ru" and "zh". |
| Handlers.LocationOnlyWhenAwaited | bot/handlers/user_handlers.py:189-200 | A location changes the session exactly in the location state. It then stores both coordinates and moves to the radius prompt. |
| Handlers.RadiusStored | bot/handlers/user_handlers.py:203-216 | In the radius state, `radius_<n>` stores n and moves to the rating prompt. The other fields are unchanged. |
| Handlers.RadiusOnlyWhenAwaited | bot/handlers/user_handlers.py:203-212 | A radius callback outside the radius state, or one that `int()` rejects, changes nothing. |
| Handlers.RatingKeepsSession | bot/handlers/user_handlers.py:220-238 | A rating callback never changes the state or the stored data. |
| Handlers.ManualButtonsUnhandled | bot/handlers/user_handlers.py:203-220 | The manual-entry buttons reach no handler and change nothing. |
| Handlers.DialogPath | bot/handlers/user_handlers.py:157-216 | Start, then a language, then a location, then a radius, from a fresh chat, reach the rating prompt with every field stored. |
| Handlers.ButtonPath | bot/keyboards/inline_keyboards.py:18-31 | The "en" button and the 100 m button give language "en" and radius 100. |
| Handlers.RatingStateHasParameters | bot/handlers/user_handlers.py:104-107 | In the rating state of an ordered session, the reads of latitude, longitude and radius cannot raise `KeyError`. |
| Handlers.RatingButtonSearches | bot/handlers/user_handlers.py:220-237 | Each preset rating button in the rating state announces "searching" and then runs the search over its own band. |
| Handlers.RatingButton | bot/handlers/user_handlers.py:220-237 | A rating callback with parseable bounds sends the notice followed by what the search over that band sends. |
| Handlers.RatingOnlyWhenAwaited | bot/handlers/user_handlers.py:220 | A `rating_` callback outside the rating state sends nothing and changes nothing. |
| Handlers.MalformedRatingRaises | bot/handlers/user_handlers.py:229 | A rating payload that does not split into three parts raises and sends nothing. |
| Handlers.RatingPrefixExcludesOthers | bot/handlers/user_handlers.py:169-220 | A `rating_` payload passes neither the `lang_` filter nor the `radius_` filter. |
| Handlers.SendCards | bot/handlers/user_handlers.py:150-152 | The loop over the top places sends one card per place, in rank order. |
| Handlers.CardMessages | bot/handlers/user_handlers.py:150-152 | One card message per place, in order. |
| Handlers.ProcessAndSendResults | bot/handlers/user_handlers.py:91-152 | Reads the stored parameters, searches, ranks, and sends the no-results message or the cards, as `SearchSpec` says. |
| Handlers.SearchDelivery | bot/handlers/user_handlers.py:104-152 | The search raises exactly when a parameter is missing, the search raises, or a rating breaks the sort; then it sends nothing. An empty result sends exactly one "no results" message and no card. Otherwise it sends one card per place, min(3, n) of them. |
| Handlers.BlankKeyGivesNoResults | bot/handlers/user_handlers.py:116-147 | With a blank API key, the user gets the "no results" message. |
| Handlers.ZeroResultsGivesNoResults | bot/handlers/user_handlers.py:116-147 | When every category answers a page with status `ZERO_RESULTS`, whatever its results and token, the user gets the "no results" message. |
| Handlers.CardsAsWrittenStopAtMissingCount | bot/handlers/user_handlers.py:149-152 | With the card as written, the loop raises exactly when some place lacks a count. It has then sent the corrected cards of the places before the first such place. Without such a place it sends exactly the corrected cards. |
| Handlers.AsWrittenSearchIsPrefix | bot/handlers/user_handlers.py:139-152 | The search with the card as written sends a prefix of what the corrected search sends. The two agree unless the written one raises where the corrected one does not, and then it has sent fewer cards. |
| Handlers.HandleStart | bot/handlers/user_handlers.py:157-166 | Sets the language state and sends the language prompt in "ru" with the language keyboard. |
| Handlers.SetLanguage | bot/handlers/user_handlers.py:169-186 | Stores the language, sends the location request with its button, and sets the location state. |
| Handlers.GotLocation | bot/handlers/user_handlers.py:189-200 | Stores the coordinates, sends the two radius messages, and sets the radius state. |
| Handlers.SetRadius | bot/handlers/user_handlers.py:203-217 | Stores the parsed radius, sends the rating prompt, and sets the rating state. A payload `int()` rejects raises before anything is stored. |
| Handlers.GetRatingFromButton | bot/handlers/user_handlers.py:220-238 | Parses the band, announces the search, then runs it. The context is left unchanged. |
| Handlers.Dispatch | bot/handlers/user_handlers.py:157-238 | Routes each event by the handlers' filters. The context changes as `Step` says, and the messages are as `Respond` lists. |
| Handlers.FsmContext.SetState | bot/handlers/user_handlers.py:162 | `set_state` replaces the state and keeps the data. |
| Handlers.FsmContext.UpdateLanguage | bot/handlers/user_handlers.py:175 | `update_data(lang_code=...)` changes only the language. |
| Handlers.FsmContext.UpdateLocation | bot/handlers/user_handlers.py:197 | `update_data(latitude=..., longitude=...)` changes only the coordinates. |
| Handlers.FsmContext.UpdateRadius | bot/handlers/user_handlers.py:213 | `update_data(radius=...)` changes only the radius. |

## Left out

- The HTTP client, timeouts, `response.json()` decoding and the 2.5-second `asyncio.sleep`: these are network I/O and timing. The provider function stands in for them.
- The concurrency of `asyncio.gather`: the three categories are fetched in order. Their results are concatenated in the same order, and the search raises if one raises.
- Logging, and the `error_message` the loop logs, are not modelled.
- `calculate_distance` and `calculate_bearing` are floating-point trigonometry. They are parameters of `Ranking.Survey`, and only the [0, 360) range of the bearing is kept. The final reduction `(degrees + 360) % 360` is `Geospatial.NormalizeBearing`.
- Ranking.FormatPlaceCard: the direction is the label of the bearing, as `bearing_to_direction` defines it. The card's actual call at user_handlers.py:80 passes two arguments to that one-parameter function, which raises `TypeError` for every place with both coordinates. That call is not modelled.
- Ranking.FormatPlaceCard: the HTML layout, and the way Python prints a missing name or rating ("None"), are not modelled. The card keeps the raw field values.
- The manual radius entry, manual rating entry and feedback handlers are not part of this model. Their states exist in `Handlers.FsmState`, but no event reaches them.
- Non-location input in the location state, and other unexpected input, reach no handler. No re-prompt is sent, because the shown code has none.
- No state is cleared after a search. The rating state persists, as in the code.
- Telegram transport, `callback.answer()`, the markup objects and the `quote_plus` share link are not modelled. The markup is recorded by kind only.
- `analytics.py`, the i18n middleware, `main.py`, `config.py` and `load_translations` are not part of this model. The translations are a given map, and the API key is a field of `Handlers.Environment`.
- The passthrough fields of `_normalize_place` are not modelled: `price_level`, `business_status`, `opening_hours`, `photos`, `icon`, `icon_background_color` and `permanently_closed`.
- Text.ParseNat and Text.ParseDecimal accept plain digit strings only (`"50"`, `"4.41"`). Python's `int()` and `float()` also accept signs, surrounding whitespace, underscores, exponents, `inf` and `nan`. No payload the keyboards send uses those.
- A rating is a `real`, a count an `int`. Floating-point rounding, NaN and infinity are not modelled. A rating that `float()` rejects is `Garbled`.
- Handlers.SendCards: it sends the corrected card of every top place. As written, the card for a place without a rating count raises `TypeError` at user_handlers.py:85, after the "searching" notice and the earlier cards were sent (see "## Findings"). `Handlers.CardsAsWrittenStopAtMissingCount` states what the loop as written sends.
- Handlers.CardMessages: the corrected cards, for the same reason as `Handlers.SendCards`.
- Handlers.ProcessAndSendResults: it follows `SearchSpec`, which uses the corrected card. `Handlers.SearchAsWritten` and `Handlers.AsWrittenSearchIsPrefix` relate it to the code as written.
- Handlers.SearchDelivery: its "raised exactly when" omits the as-written `TypeError` for a shown place without a count, because it is about the corrected card.
- Handlers.RatingButton: what it sends after the notice is the corrected search, for the same reason.
- Handlers.RatingButtonSearches: the same, for each preset button.
- Handlers.GetRatingFromButton: the same; the as-written search is `Handlers.SearchAsWritten`.
- The in-place `list.sort` is modelled as a pure stable sort of a sequence (`Ranking.SortByRank`), because it is library code. The loop over the top places is kept as a loop.

## Notes on the code

Behaviour of the code that its own comments and docstrings do not suggest, and which the model follows:

- The fetch loop catches only `httpx.RequestError` (bot/utils/google_maps_api.py:87). The error `raise_for_status` raises (line 54) and a body `response.json()` cannot decode (line 55) are not request errors. They escape `fetch_places_by_type`, and through `asyncio.gather` (line 184) escape `find_places`, so the pages already collected are lost.
- `get_primary_type` returns "point_of_interest" for no types (bot/utils/google_maps_api.py:98-99). When no type is in its priority list it returns the first listed type (lines 116-117).
- The docstring of `get_rating_keyboard` calls its presets narrow ranges (bot/keyboards/inline_keyboards.py:40). The first two overlap on [4.41, 4.5] (lines 43-44).
- The comment in `set_radius` gives the payloads as `radius_200 | radius_500 | radius_1000` (bot/handlers/user_handlers.py:211). The keyboard sends 50, 100 and 200 (bot/keyboards/inline_keyboards.py:30-32).

## Findings

| source | as written | input that shows it | evidently intended | confidence | as-written member | corrected member |
|---|---|---|---|---|---|---|
| bot/handlers/user_handlers.py:67-85 | `place.get("user_ratings_total", 0)` returns the stored `None` of a normalised place without a count, and `int(None)` raises `TypeError`, apart from the two-argument call at line 80, which is not modelled | a place with no `user_ratings_total`, as in `Ranking.MissingCountCrashesCard` | show 0 when the count is missing, as the sort key at line 133 does | not executed | Ranking.FormatPlaceCardAsWritten, Ranking.AsWrittenCardFailsWithoutCount, Handlers.CardsAsWrittenStopAtMissingCount | Ranking.FormatPlaceCard, Ranking.CardGeometryPresence |
