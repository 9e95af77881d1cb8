# Seller-assistant backend: the deterministic core

This project models the parts of a FastAPI backend for marketplace sellers that do not depend on
hosted language models or web search. It also proves properties of those parts. There are four
routers.

- **Trends** (`backend/trends_routes.py`)
  - For every requested city, the LLM's free-text answer is cut down to the outermost `[ ... ]`
    span and parsed.
  - Each trend dictionary is then normalised:
    - a percentage is read from the first signed decimal number in `change_pct`, or drawn at random
      when none is found;
    - the percentage is written back as `pct_change` and `change_pct`;
    - its popularity bucket is attached;
    - the four list-valued keys are forced to be lists.
  - A failing city contributes one `{city, error}` record and does not stop the loop.
  - The feature-image endpoint keeps at most six `http` URLs from the image search results.
- **Festival planner** (`backend/planner_routes.py`)
  - The LLM's answer is unwrapped from an optional `InventoryPlan` envelope and validated.
  - Each festival whose `date` parses as `YYYY-MM-DD` gets:
    - the number of calendar days from today to that date, computed with Gregorian day numbers;
    - its date rewritten as "January 26, 2025".
  - Every other festival is kept unchanged.
- **Product listing** (`backend/product_listing_routes.py`)
  - The user's description is combined with the image insight from the vision call.
  - One generation task is created per truthy content option, in a fixed order.
  - Each result fills the slot of its own type.
  - The request fails if every slot stays empty.
  - The translate endpoint rewrites `title`, `description`, `caption`, `promotional_message` and
    each search phrase; `tags`, `keywords` and `category` are kept. It sends no empty string to the
    translator.
- **Dashboard** (`backend/dashboard_routes.py`)
  - The summary chain is invoked once.
  - It is invoked a second time only when the first failure reads as a rate limit.
  - Otherwise a fixed four-field fallback summary is returned.

Outside services are parameters of the model:

| Service | Modelled as |
|---|---|
| Model and search calls for one city | a `CityReply`: the reply text or the exception text |
| The generation tasks | `gen(kind, description, category)` |
| The translator | `string -> Result<string, string>` |
| The summary chain | `chain(invocation, input)` |
| `json.loads` | `parse` |
| Pydantic validation | `validate` |
| `datetime.now().date()` | `today` |
| `random.uniform` | `roll: nat -> Roll`, indexed by how many draws came before |

Python dictionaries are association lists (`Json.Fields`). A lookup returns the last binding of a key.
An assignment replaces every binding of the key, or appends one, so insertion order is kept as in a
`dict`.

Percentages are integers counting tenths: 23.5% is `235`. `round(x, 1)` is round-half-even on the
exact decimal value of the matched text. `f"{pct}%"` is rendered as `<int>.<digit>%`.

The files are:

| File | Contents |
|---|---|
| `wrappers.dfy` | `Option`, `Result`, `HttpError` |
| `text.dfy` | digits, substring search, ASCII lower-casing, `strip` |
| `json.dfy` | the JSON-like value, dictionary lookup and update, Python truthiness, `str()` |
| `trend_parsing.dfy` | span cleaning, number extraction, rounding |
| `trends.dfy` | buckets, normalisation, the per-trend and per-city loops |
| `feature_images.dfy` | the image-URL filter and its endpoint |
| `calendar.dfy` | Gregorian dates, day numbers, `%Y-%m-%d` parsing, long-form formatting |
| `planner.dfy` | the planner endpoint |
| `listing.dfy` | the listing endpoints |
| `dashboard.dfy` | the summary endpoint |

Three points of the code are easy to misread:

- `trend.get("popularity", label)` keeps a `popularity` label the LLM supplied, even when it
  contradicts the bucket of the percentage.
- An extracted percentage is not clamped to the random range. Any number the LLM wrote is used.
- A listing request whose slots are all empty raises an `HTTPException` with detail "Failed to
  generate content." (`backend/product_listing_routes.py:178`).
  - That exception is caught by the endpoint's own `except` at
    `backend/product_listing_routes.py:182-184`.
  - The client therefore sees "Failed to generate listing content.", and the Dafny model gives the same detail.

## Model

| member | source | states |
|---|---|---|
| TrendParsing.CleanJsonResponse | backend/trends_routes.py:84-88 | The result always starts with `[` and ends with `]`. With a `[` that has a later `]`, the result is exactly the text from the first `[` to the last `]`, newlines included. Otherwise the result is `"[]"`. |
| TrendParsing.FirstIndex | backend/trends_routes.py:85 | Returns the leftmost position of a character at or after a start, or none. Nothing before that position matches. |
| TrendParsing.LastIndex | backend/trends_routes.py:85 | Returns the rightmost position of a character, or none. Nothing after that position matches. |
| TrendParsing.FindNumber | backend/trends_routes.py:158 | Returns the leftmost position where `[-+]?\d` starts, or none when no position qualifies. |
| TrendParsing.MatchAt | backend/trends_routes.py:158 | The match at that position is greedy. It has an optional sign, a maximal digit run, and a `.digits` fraction only when a digit follows the dot. It is exactly the text at that position. |
| TrendParsing.DigitRunEnd | backend/trends_routes.py:158 | The digit run from a position is all digits, and it is maximal. |
| TrendParsing.RoundHalfEven | backend/trends_routes.py:160 | The result is within half a unit of `n / d`. On an exact tie it is even. |
| TrendParsing.RoundExact | backend/trends_routes.py:160 | Rounding a value that is already exact gives it back. |
| TrendParsing.ExtractTenthsNoneIff | backend/trends_routes.py:158-162 | No percentage is extracted exactly when the text has no digit at all. |
| TrendParsing.ExtractTenths | backend/trends_routes.py:158-160 | The leftmost number match, read as tenths and rounded; none when nothing matches. A number is found only in text that has a digit. |
| TrendParsing.ExtractRenderedPct | backend/trends_routes.py:158-162 | Extracting from `f"{pct}%"` (rendered at line 181) gives `pct` back (a round trip). |
| TrendParsing.RenderPct | backend/trends_routes.py:181 | `f"{pct}%"` for a percentage in tenths: a `-` for a negative value, the whole part, a dot, the tenths digit, and `%`. Its partner is the round trip above. |
| TrendParsing.RenderedPctMatch | backend/trends_routes.py:158 | In a percentage rendered as at line 181, the number starts at position 0 and the match is the sign, the whole part and the single fraction digit. |
| TrendParsing.RenderedPctValue | backend/trends_routes.py:160 | The value of the digits rendered at line 181 is the percentage itself. |
| Trends.Bucket | backend/trends_routes.py:114-122 | pct ≥ 35.0 gives ("High 🔥", 85). 15.0 ≤ pct < 35.0 gives ("Medium ⚡", 55). Everything lower, negatives included, gives ("Low ❄️", 20). |
| Trends.BucketOrdered | backend/trends_routes.py:169-177 | For the rule here and its copy at lines 114-122, the score does not decrease as pct grows. Two percentages share a label exactly when they share a score. |
| Trends.RandomMetrics | backend/trends_routes.py:110-123 | The random percentage lies in [3.0, 65.0] and its label and score are its bucket. |
| Trends.ModelPct | backend/trends_routes.py:155-162 | The percentage extracted from `str(change_pct)` when the key is present, else none. A percentage is never found without the key. |
| Trends.EnsureListsGet | backend/trends_routes.py:186-189 | Each list key holds its old value when that is a list, else `[]`. Every other key is unchanged. |
| Trends.NormalizedFields | backend/trends_routes.py:180-189 | The normalised dictionary holds each of the following, and every other key is untouched: the three metrics as assigned; `popularity` as the LLM gave it, or the bucket label when absent; each list key as a list. |
| Trends.NormalizedTrendFields | backend/trends_routes.py:164-189 | The same, for one trend and its pct. `pct_change` is pct; `change_pct` is pct rendered with `%`; `popularity_score` is pct's bucket score. `popularity` is the LLM's value if present, else the bucket label. Lists are as above and every other key is untouched. |
| Trends.NormalizedTrend | backend/trends_routes.py:180-189 | The four metric writes for pct (`pct_change`, `change_pct`, `popularity_score`, `popularity` kept or set to the bucket label), followed by the list-key loop. The lemmas above and `Trends.NormalizeTrend` are stated against it. |
| Trends.NormalizedTrendRereads | backend/trends_routes.py:156-162 | Reading a normalised trend's `change_pct` (written at line 181) again gives the same pct. |
| Trends.NormalizeTrend | backend/trends_routes.py:155-189 | The per-trend body draws a random value exactly when no pct can be extracted. It leaves the trend normalised for the extracted pct, or else for the drawn one. |
| Trends.EnsureListKeys | backend/trends_routes.py:187-189 | The key loop produces exactly the list-normalised dictionary. |
| Trends.ProcessElements | backend/trends_routes.py:153-189 | The draw counter never goes backwards over the trend loop. |
| Trends.ProcessElementsOk | backend/trends_routes.py:153-191 | The trend loop succeeds exactly when every parsed element is a dictionary. It then yields one trend per element. |
| Trends.ProcessElementsNormalizes | backend/trends_routes.py:153-189 | Every output trend, in order, is the normalisation of the element at the same position. |
| Trends.NormalizeFirst | backend/trends_routes.py:153-189 | One step of the trend loop: one element normalised, or the loop's failure, as the specification function gives it. |
| Trends.NormalizeElements | backend/trends_routes.py:153-189 | The in-place loop over the parsed list matches the trend-loop specification, including the draw count. |
| Trends.CityContribution | backend/trends_routes.py:133-197 | A city whose reply parses to dictionaries contributes all of them, normalised and in order. Any other city contributes exactly one `{city, error}` record. A failed call contributes the record carrying its exception text. |
| Trends.CityEntries | backend/trends_routes.py:133-197 | One city's entries: the exception text of a failed call or parse as one error record, or else the trend loop's output or its error record. The draw counter never goes backwards. |
| Trends.ErrorRecord | backend/trends_routes.py:194-197 | `{"city": city, "error": str(e)}`, with the two keys in that order. |
| Trends.TrendsRun | backend/trends_routes.py:132-199 | The cities' entries concatenated in request order, threading the draw counter through them. The counter never goes backwards. |
| Trends.NoSpanNoEntries | backend/trends_routes.py:149-151 | A reply without a bracketed span extends `all_trends` (line 191) by no trend and no error record. |
| Trends.TrendsRunSplit | backend/trends_routes.py:132-199 | Cities are processed in order. The output is the first cities' entries followed by the rest's. What happened earlier reaches later cities only through the count of random draws. |
| Trends.CityStep | backend/trends_routes.py:133-197 | The loop body for one city appends exactly that city's contribution. |
| Trends.GetTrends | backend/trends_routes.py:129-199 | The accumulated `all_trends` is the per-city specification run over all cities in request order. |
| FeatureImages.Candidate | backend/trends_routes.py:235 | `original` when truthy, else `thumbnail` when truthy, else nothing. A present candidate is truthy. |
| FeatureImages.Candidates | backend/trends_routes.py:235 | The first comprehension succeeds exactly when every result is a dictionary. Each kept value is truthy and is the candidate of some result. |
| FeatureImages.HttpUrls | backend/trends_routes.py:236 | The second comprehension skips falsy candidates, and succeeds exactly when every truthy candidate is a string. It keeps exactly the candidates that start with `http`. |
| FeatureImages.FeatureImageUrls | backend/trends_routes.py:235-242 | Succeeds exactly when both comprehensions do. The result is the first six of the http candidates in source order, or all of them when there are fewer. Each starts with `http` and is some image's candidate. |
| FeatureImages.CandidatesAppend | backend/trends_routes.py:235 | The first comprehension distributes over concatenation, so source order is kept. |
| FeatureImages.HttpUrlsAppend | backend/trends_routes.py:236 | The second comprehension distributes over concatenation, so source order is kept. |
| FeatureImages.SingleImageUrls | backend/trends_routes.py:235-236 | A single image yields its original (or else its thumbnail) exactly when that starts with `http`. |
| FeatureImages.GetFeatureImages | backend/trends_routes.py:204-250 | The reply always echoes `feature` and `category`. On success it carries the stripped refined query and at most six `http` URLs. The images are exactly the filtered URLs of the search run with that query. Success happens exactly when the search and both comprehensions succeed. A failed refinement, a failed search and a failing comprehension each give the error reply carrying that failure's text. |
| FeatureImages.SearchQuery | backend/trends_routes.py:220 | `"best selling " + refined query + " " + category + " fashion site:myntra.com OR site:amazon.in OR site:flipkart.com"`. |
| Calendar.DaysInMonth | backend/planner_routes.py:307 | Every month has 28 to 31 days. February has 29 exactly in leap years. |
| Calendar.OrdinalOrder | backend/planner_routes.py:308 | Gregorian day numbers order dates as the calendar does, and they are injective. |
| Calendar.Ordinal | backend/planner_routes.py:308 | `date.toordinal()`: the days before the year, plus the days before the month, plus the day. |
| Calendar.DaysBetween | backend/planner_routes.py:308 | `(date - today).days` as the difference of the two day numbers. |
| Calendar.FormatLong | backend/planner_routes.py:309 | `%B %d, %Y`: the month name, the two-digit day, a comma and a space, and the four-digit year. |
| Calendar.NextDayOrdinal | backend/planner_routes.py:308 | The next calendar day has the next day number. |
| Calendar.DaysBetweenProperties | backend/planner_routes.py:308 | `(date - today).days` is 0 for today. It is negative exactly for past dates and 0 exactly for today. It is antisymmetric and grows by one per day. |
| Calendar.ParseIsoDate | backend/planner_routes.py:307 | A date is parsed exactly when the text is `YYYY-MM-DD` with a valid calendar date. The parsed date formats back to the same text. |
| Calendar.ParseFormatIso | backend/planner_routes.py:307 | Parsing a formatted valid date returns that date (a round trip). |
| Calendar.ImpossibleDatesRejected | backend/planner_routes.py:307 | 29 February in a non-leap year, month 13, 31 April and year 0 do not parse. 29 February 2024 does. |
| Calendar.FormatLongOfParsed | backend/planner_routes.py:309 | The long form of a parsed date is the full month name, a space, the two day digits, a comma and space, and the four year digits. |
| Calendar.WorkedExampleParse | backend/planner_routes.py:307 | `2025-01-26` parses to 26 January 2025. |
| Calendar.WorkedExampleDays | backend/planner_routes.py:308 | 26 January 2025 is 25 days after 1 January 2025. |
| Planner.Unwrap | backend/planner_routes.py:290-293 | A dictionary with an `InventoryPlan` key yields that entry. Anything else is validated as it is. |
| Planner.PostProcessFestival | backend/planner_routes.py:305-314 | Only `date` and `daysLeft` can change. A date that does not parse leaves the festival exactly as it was. A parsed date gives `daysLeft` = (date − today), negative exactly for past dates, and the long-form date. |
| Planner.PostProcessFestivals | backend/planner_routes.py:303-316 | The loop yields one processed festival per festival, in the same order. |
| Planner.ProcessedFestivals | backend/planner_routes.py:305-314 | The festival list processed one by one, of the same length. |
| Planner.LongFormIsNotIso | backend/planner_routes.py:309 | A long-form date never parses as `%Y-%m-%d`. |
| Planner.PostProcessOnce | backend/planner_routes.py:305-314 | Post-processing is idempotent. |
| Planner.DaysLeftAnchors | backend/planner_routes.py:308 | A festival dated today gets `daysLeft` 0, and one dated tomorrow gets 1. |
| Planner.GetFullPlannerReport | backend/planner_routes.py:270-323 | A missing model is a 500 before anything else. A chain or validation failure becomes a 500 "Error generating planner report: …" with its text. Otherwise the reply is the validated response with its festivals post-processed. |
| Planner.ReportShape | backend/planner_routes.py:316-318 | The report keeps the number, order, ids and names of the festivals. The other four collections come back as validated. |
| Listing.ImageDescription | backend/product_listing_routes.py:74-107 | With no image the description is empty. A failed analysis gives the non-empty placeholder. A successful one gives the stripped reply. |
| Listing.CombinedDescription | backend/product_listing_routes.py:126-130 | When the insight is non-empty, the result is the description, then the separator `"\n\nImage insight: "`, then the insight, each at its own position. Otherwise it is the description alone. |
| Listing.FailedVisionStillDescribed | backend/product_listing_routes.py:105-130 | A failed vision call still appends the placeholder insight. |
| Listing.RequestedKinds | backend/product_listing_routes.py:142-164 | A task kind is created exactly when its option is truthy, once, in the order seo, whatsapp, conversational. |
| Listing.CreateTasks | backend/product_listing_routes.py:140-164 | The three tests build exactly that task list. |
| Listing.GenerateContentPart | backend/product_listing_routes.py:58-70 | A result is returned only for a successful generation of the right type. A failure gives `None`. |
| Listing.LastOfKind | backend/product_listing_routes.py:169-175 | The slot holds a result of its own type taken from the results, or nothing when none of that type exists. |
| Listing.AssembleContent | backend/product_listing_routes.py:167-175 | The dispatch loop fills each slot by result type and copies `category`. |
| Listing.SlotFromOwnTask | backend/product_listing_routes.py:142-175 | Each slot holds what its own task produced, or `None` when the task was not requested or failed. |
| Listing.GenerateListing | backend/product_listing_routes.py:112-184 | The endpoint's steps yield exactly the listing outcome function. |
| Listing.ListingOutcome | backend/product_listing_routes.py:112-184 | A missing key gives the 500 "Groq API key not configured.". Every other failure gives the 500 "Failed to generate listing content.". A success carries the request's category and at least one slot. |
| Listing.ListingSlots | backend/product_listing_routes.py:166-180 | A successful listing carries the request's category and at least one slot, and each slot comes from its own task with the combined description. |
| Listing.NoOptionsFails | backend/product_listing_routes.py:177-184 | With no option enabled the request fails with a 500. |
| Listing.AllFailedFails | backend/product_listing_routes.py:177-184 | When every requested generation fails on the combined description and category, the request fails with a 500. |
| Listing.FilledFromOwnTask | backend/product_listing_routes.py:142-175 | A slot is filled exactly when its kind was requested and its own task produced a part of that kind. |
| Listing.ListingSucceedsIff | backend/product_listing_routes.py:166-184 | With the key set and the options an object, the request succeeds exactly when some requested task produced a part of its own kind. A request for SEO content alone therefore succeeds exactly when the SEO task does. |
| Listing.TranslateText | backend/product_listing_routes.py:218-229 | An empty text is returned unchanged without calling the translator. Any other text gives the stripped translation, and fails exactly when the translator fails. |
| Listing.TranslateAll | backend/product_listing_routes.py:241-243 | The phrases keep their number and order. Each phrase is translated, and the whole fails exactly when one phrase fails. |
| Listing.TranslateSeo | backend/product_listing_routes.py:232-234 | Only `title` and `description` are translated. `tags` and `keywords` are kept, and an absent block stays absent. |
| Listing.TranslateWhatsApp | backend/product_listing_routes.py:236-238 | `caption` and `promotional_message` are translated. An absent block stays absent. |
| Listing.TranslateConversational | backend/product_listing_routes.py:240-243 | Each search phrase is translated. An absent block stays absent. |
| Listing.Translated | backend/product_listing_routes.py:231-245 | Translation succeeds exactly when all three blocks do. |
| Listing.TranslateSeoFields | backend/product_listing_routes.py:232-234 | The in-place SEO updates match the SEO specification. |
| Listing.TranslateWhatsAppFields | backend/product_listing_routes.py:236-238 | The in-place WhatsApp updates match the WhatsApp specification. |
| Listing.TranslatePhrases | backend/product_listing_routes.py:241-243 | The phrase comprehension matches the phrase specification. |
| Listing.TranslateListing | backend/product_listing_routes.py:210-248 | With no client the answer is a 500. Otherwise the answer is the translated content, or a 500 "Failed to translate content." exactly when translation fails. |
| Listing.TranslationCoverage | backend/product_listing_routes.py:231-245 | The translated content changes only the translated fields. `tags`, `keywords` and `category` are kept, absent blocks stay absent, and the phrases keep their length. |
| Listing.OnlyNonEmptyTextsSent | backend/product_listing_routes.py:218-243 | Two translators that agree on the non-empty texts give the same result. Nothing else is ever sent. |
| Dashboard.DigitsSurviveLowering | backend/dashboard_routes.py:106 | Lower-casing neither creates nor removes an occurrence of `429`. |
| Dashboard.IsRateLimit | backend/dashboard_routes.py:106 | An exception text is a rate limit when its ASCII lower-cased form contains `rate_limit` or the text contains `429`. |
| Dashboard.RateLimitIgnoresCase | backend/dashboard_routes.py:106 | The rate-limit test gives the same answer on the lower-cased text. |
| Dashboard.StatusCodeIsRateLimit | backend/dashboard_routes.py:106 | Any text containing `429` counts as a rate limit. |
| Dashboard.GetSummary | backend/dashboard_routes.py:53-122 | A missing model is a 500 before any invocation. Otherwise the answer is always a summary, from 1 or 2 invocations that all take the same context. The second invocation happens exactly when the first raised a rate-limit error. A first success is returned, and so is a successful retry. Every other path gives the fixed fallback. |
| Dashboard.Fallback | backend/dashboard_routes.py:116-121 | The fixed summary, with the source's four `focus`, `opportunity`, `caution` and `action` texts. |

## Left out

- The language-model, vision and web-search calls, prompt wording and LangChain objects. They are
  outcomes passed in as parameters.
- JSON text parsing (`json.loads`) and Pydantic validation. They are the parameters `parse` and
  `validate`, and the records are given datatypes.
- Concurrency.
  - The planner's `asyncio.Lock` does not change a single request's result.
  - `asyncio.gather` is modelled as its results in task order.
- The dashboard's `time.sleep(90)`, because it is only a delay.
- The random draw is an arbitrary value in range chosen by the caller. The model does not capture
  its distribution.
- Floating point.
  - Percentages are exact tenths and `round` is half-even on the decimal text. Binary-float ties
    can round differently in Python.
  - Exponent notation and `-0.0` in `str(float)` are not modelled.
  - `Json.FloatToString` renders a float given as digits plus a scale, not an IEEE value.
- Calendar.ParseIsoDate: only the strict zero-padded `YYYY-MM-DD` form is accepted. `strptime` also
  takes a single-digit month or day, and a space-padded day such as `2025-01- 5`. It rejects text
  before or after the date, as the model does.
- Calendar.FormatLong: years are always written with four digits. The platform `strftime` may leave
  years below 1000 unpadded.
- Text.LowerAscii: lower-casing, `strip` and `\d` are ASCII-only. `strip` removes the ASCII
  whitespace `str.isspace()` accepts: tab to carriage return, U+001C to U+001F, and space. It does not
  remove U+0085, U+00A0 or other Unicode spaces. Python's Unicode case mapping and decimal digits
  are also wider.
- Error texts are approximations of the messages Python would produce.
  - The exception text of a non-dictionary trend or image result is modelled.
  - The `str(e)` of a library exception is an input.
- The per-city search snippets and the prompt sent (`fetch_google_results` and the snippet join at
  `backend/trends_routes.py:93-105, 135-146`) are part of the city's reply outcome.
- The feature-image endpoint treats `images_results` as a list of values. A search reply whose
  `images_results` is not a list is not modelled.
- The listing-improvement endpoint (`backend/product_listing_routes.py:188-206`). It is one model
  call plus validation, with no rule of its own.
- The draft planner in `backend/planner_routes.py:1-154`, which is commented out.
- `get_upcoming_festivals_for_prompt` and `get_rich_context`. Only their output enters the model (as
  prompt input and as `context`).
- `backend/main.py`, environment-variable loading and the start-up key checks. The checks appear
  only as the "configured" flags of each endpoint.
- Listing.TranslateText: the translator is a function of the text alone, so two fields with the same
  text get the same translation. The source makes one LLM call per field, and those calls may answer
  differently. No property proved here depends on this.
- Json.Repr: strings inside a list or dictionary are rendered between single quotes without Python's
  escaping. `str()` of a list holding a control character such as `'\x01'` contains digits that the
  `change_pct` search would find. The model's rendering has no such digits.
- Listing.TranslateListing: `content` is updated in place in the source. The model returns the new
  content. The same translated fields result, but an exception part-way through leaves some fields
  of the request object already translated, and the model does not capture that.
- Planner.GetFullPlannerReport: `response.upcomingFestivals` is assigned in place in the source. The
  model returns the updated record.
