# Live YouTube analytics client, modelled in Dafny

This project models the data-acquisition core of a Streamlit dashboard for
trending YouTube videos. That core is the `LiveYouTubeAnalytics` client in
`app.py` and its helper `calculate_hours_since_published`. The client talks to
the YouTube Data API v3. It probes the API key, fetches the assignable video
categories of a region, fetches the most-popular chart, and runs a two-phase
search (first the ids, then one batched statistics call). Each response item
becomes a flat video record, and the table of records gets category names,
engagement and comment rates, and hours since publication.

The remote service is a parameter `net: Request -> Exchange`. Each call
returns its result together with the requests it issued, in order, so
"the statistics call is not made" is a statement about that list. A decoded
body is a `Json` value. Each Python access (`d[k]`, `d.get(k, default)`,
`int(v)`, truthiness) has its own function. None stands for the exception that
access raises. Every fetch catches all exceptions, so each one becomes an
empty result.

Files:

- `wrappers.dfy`: `Option`, and `AllSome`, the all-or-nothing collection of
  per-item results.
- `numerals.dfy`: `str(int)` and `int(str)`, and the round trip between them.
- `json.dfy`: the decoded JSON value and the Python accesses on it.
- `http.dfy`: requests, replies, exchanges and the `Outcome` of a call.
- `records.dfy`: the record normaliser and the metric calculator.
- `fetch.dfy`: the probe classifier, the category table and the trending and
  search pipelines as functions, with their lemmas.
- `client.dfy`: the client class. It holds the API key. Its methods contain
  the item loops and are proved equal to the functions of `fetch.dfy`.

In these places the model follows the code, where a reader might expect
otherwise:

- When `views = 0` and `likes > 0`, the engagement rate is +infinity. It is not
  0: `fillna(0)` replaces only NaN, which comes from 0/0. The comment rate
  behaves the same way.
- One malformed item empties the whole fetch; it is not skipped.
- The search call passes `maxResults` through without capping it at 50.
- Counts are not checked to be non-negative: `int("-5")` is accepted.
- Hours since publication are not forced to be non-negative.

## Model

The definitions that model the source's operations carry no contract of their
own; the rows below name the lemmas about them. `Records.NormaliseItem` is
specified by `NormaliseItemDefined`, `NormaliseItemFields` and
`NormaliseCounts`. `Records.NormaliseAll` is specified by `NormaliseAllSpec`,
and `Fetch.CategoryTable` by the four `CategoryTable` lemmas.
`Fetch.Categories` is specified by `CategoriesContract`, and
`Fetch.SearchIds` by `SearchIdsSpec`. `Fetch.Join` is specified by `SplitJoin`
and `SearchBatchesIds`. `Fetch.Trending` is specified by `TrendingContract`
and `TrendingYields`, and `Fetch.Search` by `SearchContract`, `SearchYields`
and `SearchBatchesIds`.

| member | source | states |
|---|---|---|
| `Numerals.DecimalRoundTrip` | app.py:147 | reading `str(i)` back with `int()` gives `i` for every integer, so a rendered status code reads back as itself |
| `Json.ToIntOfDecimal` | app.py:214-216 | a count the API sends as a decimal string converts to that integer |
| `Records.Truncate` | app.py:221 | a description of at most 200 characters is unchanged; a longer one becomes its first 200 characters followed by "...", 203 characters in all |
| `Records.TruncateIdempotent` | app.py:221 | truncating an already truncated description changes nothing |
| `Records.NormaliseItemDefined` | app.py:208-223 | an item yields a record exactly when it has a string id, a snippet with string title, channelTitle, categoryId, publishedAt, description and thumbnails.medium.url, a string contentDetails.duration, and statistics whose three counts convert with `int()` |
| `Records.NormaliseItemFields` | app.py:208-223 | the record's id, title, channel, category and publish time are the item's fields; the description is the truncated one; the duration is `contentDetails.duration` and the thumbnail is `snippet.thumbnails.medium.url`, both passed through; the video URL is the watch prefix followed by the id; the region name comes from the region table and falls back to the code itself |
| `Records.NormaliseCounts` | app.py:214-216 | a count missing from statistics is 0; a present count is the `int()` of the value sent |
| `Records.NormaliseAllSpec` | app.py:207-224 | the per-item loop fails exactly when some item fails; otherwise it yields one record per item, in item order |
| `Records.RateOf` | app.py:237-238 | when views is non-zero, rate × views = part × 100, and the rate lies in [0, 100] when 0 ≤ part ≤ views; when views is 0, the rate is 0 exactly when part is 0, and ±infinity otherwise |
| `Records.HoursColumn` | app.py:93-107 | one value per timestamp; all zeros when the calculation raises; otherwise the live hours with NaN replaced by 0 |
| `Records.Annotate` | app.py:226-241 | one row per record in order; every row has the same fetch time; the category name is the looked-up title or "Unknown"; both rates follow `RateOf`; hours are 0 when the calculation raises, and otherwise each row's live hours with NaN replaced by 0 |
| `Fetch.Classify` | app.py:138-150 | ok exactly for status 200, with the success message; a request exception gives "Connection Error: " and its text; a status other than 200 and 403 gives "HTTP Error: " and the code; a 403 whose body does not decode gives "Connection Error: " and the decoder's text; an exception escapes exactly when a 403's decoded body is not an object or holds a non-object "error" |
| `Fetch.DeniedReportsMessage` | app.py:142-145 | a 403 whose body has `error.message` m reports "API Error: " + m |
| `Fetch.DeniedReportsDefault` | app.py:142-145 | a 403 whose object body has no `error.message` reports "API Error: API key invalid or quota exceeded" |
| `Fetch.HttpErrorCode` | app.py:146-147 | any other status is a failure whose message is "HTTP Error: " followed by text that reads back as that status |
| `Fetch.CategoryTableFails` | app.py:169-172 | the category loop raises exactly when reading some item raises |
| `Fetch.CategoryTableKeys` | app.py:169-172 | the map's keys are exactly the ids of the items whose `snippet.assignable` is truthy |
| `Fetch.CategoryTableLastWins` | app.py:169-172 | each id maps to the title of its last assignable occurrence |
| `Fetch.CategoryTableSpec` | app.py:169-172 | the three facts above together |
| `Fetch.CategoriesContract` | app.py:153-180 | without a key nothing is requested and the map is empty; with a key exactly one request is made; a network error, a non-200 status, an unreadable body or a malformed item gives the empty map; otherwise the keys are exactly the assignable ids, each mapped to the title of its last assignable occurrence |
| `Fetch.TrendingParams` | app.py:190-199 | `maxResults` is the requested size capped at 50; `videoCategoryId` is present exactly when a non-empty category is given, and then holds it; region, chart, parts and key are as sent |
| `Fetch.Table` | app.py:226-243 | empty rows, or a publishedAt column that `pd.to_datetime` rejects, give an empty table and no request; otherwise one record per row, with the fields, fetch time, category names, rates and hours of the annotated table, and exactly the category lookup's requests |
| `Fetch.TableStage` | app.py:205-243 | over the records of well-formed items, the table is empty with no request when there are no items or the dates do not parse, and otherwise holds one annotated record per item, in item order |
| `Fetch.TrendingContract` | app.py:183-251 | without a key, an empty table and no request; with one, the trending request is issued first; a failed or unreadable response, an `items` that is not a list, or a single malformed item, gives an empty table with no other request; a non-empty table has one record per item, in item order |
| `Fetch.TrendingYields` | app.py:201-243 | a readable trending response with well-formed items yields one record per item, in item order, annotated with the category lookup's names, and issues exactly the trending request then the category request; no items or unparseable dates give an empty table after the one request |
| `Fetch.SearchIdsSpec` | app.py:279 | the extracted ids are those of the search items, one per item, in result order; extraction fails exactly when some item lacks `id.videoId` |
| `Fetch.SplitJoin` | app.py:288 | splitting the comma-joined ids at commas gives them back, when no id contains a comma |
| `Fetch.SearchContract` | app.py:254-341 | without a key, an empty table and no request; with one, the search request is issued first; no ids, or a failed search phase, gives an empty table with no statistics call; otherwise the second request's `id` is the comma-joined ids; a failed statistics phase or a malformed item gives an empty table |
| `Fetch.SearchYields` | app.py:278-334 | when the search yields ids and the statistics response is readable with well-formed items, the table holds one record per item, in item order, annotated with the category lookup's names, after exactly the search, statistics and category requests; no items or unparseable dates give an empty table after the two calls |
| `Fetch.SearchBatchesIds` | app.py:278-292 | the `id` parameter of the statistics call splits back into the search items' ids, in order |
| `Client.CollectCategories` | app.py:169-173 | the loop filling the category dict yields the category table, and stops at the first item that raises |
| `Client.CollectRows` | app.py:205-224 | the loop appending records yields the per-item records, and stops at the first item that raises |
| `Client.LiveAnalytics.constructor` | app.py:110-119 | a new client has no API key |
| `Client.LiveAnalytics.SetApiKey` | app.py:121-123 | the key is stored |
| `Client.LiveAnalytics.TestApiConnection` | app.py:125-150 | without a key: "No API key provided" and no request; with one: a single probe request, classified; ok exactly when the probe is answered with 200 |
| `Client.LiveAnalytics.GetVideoCategories` | app.py:153-180 | returns the category map and requests of the category specification |
| `Client.LiveAnalytics.BuildTable` | app.py:226-243 | returns the table and requests of the DataFrame stage, which the trending fetch runs here and the search runs again at app.py:317-334 |
| `Client.LiveAnalytics.GetTrendingVideos` | app.py:183-251 | builds the query by conditional update and returns the table and requests of the trending specification |
| `Client.LiveAnalytics.SearchVideos` | app.py:254-341 | returns the table and requests of the two-phase search specification |

## Left out

- HTTP I/O through `requests.get` is not modelled. The remote service is the parameter `net`, and each timeout is only a field of the request.
- The `st.cache_data` caches (1 hour, 5 minutes and 10 minutes) and the manual `st.cache_data.clear()` are not modelled. Every call, including the category lookup inside the two fetches, issues its request.
- The wall clock and pandas date handling are not computed. `Clock` supplies the fetch time, whether `pd.to_datetime` accepts the publishedAt column as a whole, the live hours per timestamp, and whether the hours calculation raises. Which columns `pd.to_datetime` accepts is not computed. For instance, the model does not derive that a column mixing timestamp formats can raise even when each string parses alone. The `published_at` column keeps the raw string.
- Floating point is not modelled. Rates are computed over exact reals, with infinities kept as `PosInf` and `NegInf`. Counts above the int64 range are not modelled.
- JSON numbers are integers only.
- `Json.ToInt` accepts an optional sign followed by ASCII digits. The surrounding whitespace, underscores and non-ASCII digits that Python's `int()` also accepts are not modelled.
- `Json.Str` renders a list or dict `error.message` as "[...]" or "{...}", not as Python's repr.
- Fields the API documents as strings are read as strings. If another JSON type appears there, the model counts the fetch as failed. The source would carry the value through, or fail later.
- A non-empty string or dict in place of `items` fails at once in the model. The source iterates it and raises on the first element, so the outcome is the same.
- On a 403 with an undecodable body, the model reports "Connection Error: " followed by the decoder's text. This assumes a `requests` release whose JSON decode error is a `RequestException` (2.27 and later). requirements.txt is not part of this model.
- The `st.warning` and `st.error` messages shown on failures are not modelled.
- `base_url` and `regions` are module constants. They are fixed at construction and never change. The unused `self.categories` attribute is not modelled.
- `format_number`, the pandas aggregates, all UI, charts and exports, `test_api.py` and `setup.py` are not modelled.
