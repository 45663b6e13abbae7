# PhishingDetector aggregation and bulk dispatch, in Dafny

This project models two parts of the PhishingDetector backend.

- **The statistics layer of the record store** (`SupabaseService`). One
  rule selects the rows of the `analysis_results` table: the inclusive date
  range when both bounds are given, every row otherwise, and nothing when
  the store cannot be reached. Four aggregations fold over the selected rows:
  - the summary statistics: totals, phishing share, mean risk and three risk bands;
  - the confidence-level distribution;
  - the usage count of each analysis source;
  - the number of analyses per calendar day, sorted by day.
- **The bulk dispatcher** (`AnalysisService`). It sends each URL to the
  analysis webhook in turn. It turns each call's outcome into a tagged
  success or error result, and counts both kinds.

The store is a value: the rows it holds, or `Offline`, meaning every query
raises. The webhook is an oracle. For the `i`-th call, made with a URL, it
yields what the HTTP client observed. That is a response (status code, body
text, the body read as JSON or the reason it could not be read), a timeout,
or any other exception.

The modules:

- `Records` holds the decoded row. The `url` column is a plain string, and
  `risk_score` is either missing or a number. Every other key is recorded as
  missing, JSON `null`, or holding a value, because `dict.get(key, default)`
  treats these three cases differently.
- `Strings` holds `split`, `strip`, Python string order and decimal rendering.
- `Tallies` holds the `counts[k] = counts.get(k, 0) + 1` pattern.
- `Timestamps` holds the date column's values, their order, and the
  end-of-day adjustment the HTTP layer applies to `end_date`.

The loops of the source become methods proved against specification
functions:

- `GetConfidenceDistribution`;
- `GetSourcesUsage` and its inner loop `CountEach`;
- `CountDays` and `SortByDate`, which make up `GetDailyAnalysisCount`;
- `AnalyzeBulkUrls`.

The expression-only code becomes functions and lemmas.

## Model

| member | source | states |
|---|---|---|
| `SupabaseService.GetAnalysesByDateRange` | backend/supabase_service.py:37-49 | The range query keeps each stored row exactly as often as it is stored when its date lies in the range, both bounds included, and drops it otherwise. A row whose date is missing or null is never returned. A failing store gives the empty list. |
| `SupabaseService.GetAllAnalyses` | backend/supabase_service.py:53-61 | Every stored row, with its multiplicity. A failing store gives the empty list. |
| `SupabaseService.InRange` | backend/supabase_service.py:40-43 | A row is in range only when its date is present, reads as a timestamp, and the range is not empty; the date then lies between the bounds, both included. |
| `SupabaseService.BoundsAreInclusive` | backend/supabase_service.py:40-43 | `gte` and `lte` include their bounds: a row dated exactly at the start or exactly at the end of a non-empty range is in it. |
| `SupabaseService.Select` | backend/supabase_service.py:78-81 | Rows are selected by the date range only when both bounds are given: then each stored row in range is selected as often as it is stored, and no other row. With either bound missing, every stored row is selected with its multiplicity. With the store down, nothing is. |
| `Timestamps.ParseStamp` | backend/supabase_service.py:41-43 | The stored date text is read as a timestamp with a valid clock (hour ≤ 23, minute ≤ 59, second ≤ 59, at most 999999 µs). |
| `Timestamps.StampRoundTrip` | backend/supabase_service.py:41-43 | Reading back the `YYYY-MM-DDTHH:MM:SS.ffffff` text of any four-digit-year timestamp with a valid clock gives that timestamp. |
| `Strings.PaddedRoundTrip` | backend/supabase_service.py:41-43 | Reading back a zero-padded decimal field of a fixed width gives the number, when the number fits in that width. |
| `Timestamps.EndOfDayAsWritten` | backend/main.py:108 | The adjusted end bound is on the same day as the given end and has a valid clock. |
| `Timestamps.EndOfDayAsWrittenCoversWholeSeconds` | backend/main.py:108 | As written, the end bound 23:59:59 admits a timestamp on the end's day exactly when it is a whole second or falls before the last second of that day. |
| `SupabaseService.EndDayAsWrittenMissesLastSecond` | backend/main.py:136-140 | A row stamped 2024-01-05T23:59:59.500000 is missing from the range query for 2024-01-05 under the adjustment as written. The intended adjustment returns it. |
| `Timestamps.EndOfDayCoversTheDay` | backend/main.py:105-108 | With the intended adjustment (23:59:59.999999), a timestamp is at or before the end bound exactly when its day is not later than the end's day. |
| `SupabaseService.EndDayIsSelected` | backend/main.py:164-168 | With the intended adjustment, a stored row dated any time on the end's day, and not before the start, is returned by the range query. |
| `SupabaseService.IsPhishing` | backend/supabase_service.py:98 | A row counts as phishing exactly when its `is_phishing` value is present and true; a missing or null value counts as safe. |
| `SupabaseService.RiskScore` | backend/supabase_service.py:101 | The risk score of a row, and 0 when the key is missing. |
| `SupabaseService.Summarize` | backend/supabase_service.py:83-120 | No rows give the all-zero summary. Otherwise: the total is the number of rows; the phishing count is the number of rows that count as phishing, at most the total; safe plus phishing is the total; each band holds the number of rows whose score falls in it, and the three bands sum to the total; the mean risk and the phishing percentage are the exact values rounded to two decimals. |
| `SupabaseService.BandsPartition` | backend/supabase_service.py:105-107 | The bands `< 40`, `40..69` and `>= 70` put every record in exactly one band. |
| `SupabaseService.Round2` | backend/supabase_service.py:113-114 | The result is a whole number of hundredths, within half a hundredth of the input. |
| `SupabaseService.SummaryPercentBounds` | backend/supabase_service.py:101-114 | When every risk score is between 0 and 100, the mean risk and the phishing percentage are between 0 and 100 too. |
| `SupabaseService.SummaryExample` | backend/supabase_service.py:97-107 | Scores 10, 85 and 50, with one phishing row, give one row per band, 33.33 % phishing and a mean risk of 48.33. |
| `SupabaseService.GetStatistics` | backend/supabase_service.py:63-120 | The result is the summary of exactly the selected rows. A store that is down gives all zeros. The phishing count is the number of selected phishing rows, and the counts add up to the number of selected rows. |
| `SupabaseService.Level` | backend/supabase_service.py:138 | A missing confidence level reads as `low`, a null one as no level, and a present one as itself. |
| `SupabaseService.GetConfidenceDistribution` | backend/supabase_service.py:122-142 | The keys are exactly low, medium and high. Each key maps to the number of selected rows whose level (a missing level read as low) is that key. |
| `SupabaseService.LevelCountsSum` | backend/supabase_service.py:137-141 | The three counts sum to the number of rows whose level is one of the three. Other levels, and null ones, are dropped, so the sum is at most the number of rows. |
| `SupabaseService.SourceList` | backend/supabase_service.py:160-166 | A non-empty source string gives one entry per comma-separated piece, each stripped. A list is taken as it is, entry for entry. An empty string, a null or a missing value lists nothing. |
| `SupabaseService.CountEach` | backend/supabase_service.py:168-169 | Counting a list of names into the dictionary gives the tally of everything seen so far followed by those names. |
| `SupabaseService.GetSourcesUsage` | backend/supabase_service.py:144-171 | The keys are exactly the source entries of the selected rows. Each key maps to its number of occurrences, duplicates included, and the counts add up to the number of entries. |
| `SupabaseService.SourcesExample` | backend/supabase_service.py:158-169 | The rows `x` and `x, y` count `x` twice and `y` once. |
| `Tallies.TallyCounts` | backend/supabase_service.py:190 | Counting keys one by one leaves exactly the keys seen, each mapped to its multiplicity. |
| `Tallies.TallyTotal` | backend/supabase_service.py:168-169 | The counts of a tally sum to the number of keys counted. |
| `Tallies.TallyPositive` | backend/supabase_service.py:190 | Every key in a tally has a count of at least one. |
| `Strings.Split` | backend/supabase_service.py:164 | `split` gives at least one piece, and no piece contains the separator. |
| `Strings.JoinSplit` | backend/supabase_service.py:189 | Splitting loses nothing: joining the pieces with the separator gives back the string. |
| `Strings.SplitJoin` | backend/supabase_service.py:163-164 | Splitting the join of pieces that contain no separator gives back the pieces. |
| `Strings.FirstPiece` | backend/supabase_service.py:189 | `split(...)[0]` is the prefix before the first separator. It is followed by the separator or by nothing. |
| `Strings.Strip` | backend/supabase_service.py:164 | `strip()` returns the part of the string starting at its first non-space character. The result does not start or end with white space, and everything after it is white space. |
| `Strings.StripIdempotent` | backend/supabase_service.py:164 | Stripping twice is stripping once. |
| `SupabaseService.DateText` | backend/supabase_service.py:187 | The date text of a row, and the empty string when it is missing or null. |
| `SupabaseService.DateKey` | backend/supabase_service.py:189 | The day key is the prefix of the date text before the first `T`. It contains no `T`. |
| `SupabaseService.DateKeyIsTheDay` | backend/supabase_service.py:187-189 | For a date the store rendered, the key is its `YYYY-MM-DD` part. |
| `SupabaseService.DateKeyBeforeT` | backend/supabase_service.py:189 | The key of `day` + `T` + anything is `day`. |
| `SupabaseService.RangeRowsAreDated` | backend/supabase_service.py:186-188 | Every row the range query returns has a non-empty date, so the daily count skips no row. |
| `SupabaseService.CountDays` | backend/supabase_service.py:185-190 | The grouping loop leaves the tally of the day keys of the dated rows. |
| `Strings.LexLessTotal` | backend/supabase_service.py:195 | Python string order is total on distinct strings. |
| `Strings.LexLessTransitive` | backend/supabase_service.py:195 | Python string order is transitive. |
| `Strings.LexLessIrreflexive` | backend/supabase_service.py:195 | No string is less than itself. |
| `SupabaseService.InsertAscending` | backend/supabase_service.py:193-196 | Inserting a day that is not yet present keeps the list strictly ascending. |
| `SupabaseService.InsertContents` | backend/supabase_service.py:193-196 | Inserting adds exactly the new entry and adds its count to the sum. |
| `SupabaseService.InsertStep` | backend/supabase_service.py:195 | One step of the sort keeps the list ascending. It places exactly the one new key, with its count. |
| `SupabaseService.SortByDate` | backend/supabase_service.py:193-196 | `sorted(counts.items())` lists one entry per key, in strictly ascending key order. Each entry carries its key's count, and the entries' counts add up to the dictionary's total. |
| `SupabaseService.GetDailyAnalysisCount` | backend/supabase_service.py:173-198 | One entry per day on which a row in range was recorded, strictly ascending by day. Each entry carries that day's number of rows, which is at least one. Together the entries count every row in range. |
| `SupabaseService.DailyExample` | backend/supabase_service.py:185-196 | Two rows on one day and one on another count 2 and 1, whatever their clock times. |
| `AnalysisService.AnalyzeSingleUrl` | backend/analysis_service.py:29-59 | The result always names its URL. It is a success, carrying the decoded data, exactly when the status is 200 and the body reads as JSON. Otherwise it is an error: a timeout gives `Request timeout (>60s)`; another exception gives its message; a status other than 200 gives `HTTP <code>: <text>`; an unreadable 200 body gives the decoder's message. |
| `AnalysisService.HttpErrorMessage` | backend/analysis_service.py:46 | The message starts with `HTTP ` and ends with the whole response text. |
| `AnalysisService.HttpErrorRoundTrip` | backend/analysis_service.py:46 | The status code and the response text can be read back from an HTTP error message. |
| `Strings.DecimalRoundTrip` | backend/analysis_service.py:46 | Reading back the decimal rendering of a status code gives the code. |
| `AnalysisService.TimeoutIsNotHttpError` | backend/analysis_service.py:43-53 | The timeout message never equals an HTTP error message. |
| `AnalysisService.CreatedIsAnError` | backend/analysis_service.py:36-47 | Only 200 is a success: status 201 gives `HTTP 201: <text>`. |
| `AnalysisService.CountsPartition` | backend/analysis_service.py:79-82 | Every result is counted as either a success or an error. |
| `AnalysisService.SuccessesAreAcceptedCalls` | backend/analysis_service.py:75-82 | The success count equals the number of calls answered with status 200 and a readable body. |
| `AnalysisService.AnalyzeBulkUrls` | backend/analysis_service.py:61-89 | `total_urls` is the number of URLs. There is one result per URL, in input order; each is the single-URL result of the call made for that URL, and each names that URL. `successful` and `failed` count the successes and the errors, and together they make up `total_urls`. |
| `AnalysisService.TimeoutExample` | backend/analysis_service.py:71-82 | Three URLs whose second call times out give two successes and one failure, and the failure reports the timeout. |

## Left out

- Logging (`print` of the caught exception) is not modelled. Only its
  effect, the empty result, is.
- The store's ordering `.order('analysis_date', desc=True)` is not
  modelled. The range query keeps the table's order. Every aggregation is
  stated through multiplicities or sums, which do not depend on order.
- Insertion order of dictionary keys is not modelled. Dictionaries are
  Dafny maps.
- SupabaseService.Round2: rounds exact reals half up. Python's `round` on
  binary floats (round half to even on the float's exact value) and the
  floating-point division before it are not modelled.
- SupabaseService.InRange: takes the date column to be typed: the stored
  text always reads as a timestamp. The zone designator is not read, and
  the query bounds are taken to be in the store's zone.
- Strings.IsSpace: lists the characters of Python's `str.isspace` by code
  point. Unicode data beyond that list is not modelled.
- A null `risk_score` is not modelled, because `sum` would raise on it.
  Non-string entries in a `sources_checked` list and non-string confidence
  levels are not modelled either: source names and levels are strings.
- AnalysisService.AnalyzeBulkUrls: has no precondition. The limit of 1 to
  100 URLs is enforced by the request model (`backend/models.py:19`) before
  the dispatcher runs. Since `total_urls` is the number of URLs, the total
  inherits that bound.
- `httpx`, `async`/`await`, the webhook address and the 60-second timeout
  mechanics are abstracted into the oracle's `Outcome`. The JSON payload is
  kept as an uninterpreted value.
- AnalysisService.AnalyzeSingleUrl: a status-200 response whose body does
  not read as JSON makes `response.json()` (backend/analysis_service.py:40)
  raise; `except Exception` (:54) turns it into an error carrying the
  decoder's message.
- Not modelled: the FastAPI routes beyond the end-of-day adjustment, the
  configuration loading, the Streamlit front end, and the chart and PDF
  generators.

## Findings

| source | as written | input that shows it | evidently intended | confidence | as-written member | corrected member |
|---|---|---|---|---|---|---|
| backend/main.py:108 | The end bound becomes `datetime.combine(end.date(), time(23, 59, 59))`, the start of the day's last second. The same adjustment appears at lines 138 and 166. | A row dated `2024-01-05T23:59:59.500000` with range 2024-01-05 to 2024-01-05: the row is not returned. | Include the whole end day, as the comment at line 105 says: the bound should be 23:59:59.999999. | not executed | `SupabaseService.EndDayAsWrittenMissesLastSecond` | `Timestamps.EndOfDayCoversTheDay` |
