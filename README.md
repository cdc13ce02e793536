# Radar-chart builder: scores, tiers and image upload

This project models `create_chart` in `main.py`, the one routine of the
chart service that does more than route requests. The routine does five things:

- It takes the twelve integer scores of a survey in the field order of `ChartData`.
- It lays them out as two series over the same six categories: "проблемы" for the first six and "компетенции" for the last six.
- It tiers every score with `np.select`, sums them and classifies the total into one of five levels.
- It titles the chart with the total and its level and writes the image to a timestamped path.
- It uploads the image, works out the hosted URL from the host's answer, and removes the image file in `finally`.

Modules, one per component of the routine:

- `Wrappers` (wrappers.dfy): `Option` and `Result`.
- `Text` (text.dfy): the Python string operations the routine relies on.
  These are `str(int)` with a parser that reads it back, `str.strip()` with
  Python's exact whitespace set, `startswith`, `in` on strings and ASCII `lower()`.
- `Scores` (scores.dfy): the request body's field order and the two-series table.
  It also holds `np.select` tiering, the sum, the if/elif aggregate level, the title,
  the image path and the radial axis constants.
- `Upload` (upload.dfy): the reading of the host's answer. `Interpret` states it as an
  ordered chain of attempts. `InterpretResponse` is the method that reassigns `content`
  step by step, the way the routine does, and is proved equal to `Interpret`.
- `Chart` (chart.dfy): the whole routine as the method `CreateChart` over a `Disk`
  (the set of existing files). It is proved against `ChartOutcome`, and it removes
  the image on every exit path that bound the image path.

Behaviour that the code has and a casual reading might miss, all modelled:

- A JSON answer with a falsy `success` does not fail directly. Its `HTTPException`
  (main.py:231) is caught by `except Exception` at main.py:236. The header/body
  fallback then runs, like after a parse error or a missing `data.url`
  (`RejectedUploadFallsBack`).
  A reader might expect a host rejection to surface the host's own message
  as the error. The code does not do that, and the model follows the code.
- A negative total falls into the `else` branch and is labelled "Мастер-Джедай".
- If `PATH_TO_IMAGES` is unset, the f-string writes `None` into the path
  (`PathPrefix`).
- If anything fails before `img_path` is bound (main.py:162), the `finally` block
  raises a `NameError`. The block's own `try`/`except` at main.py:271-276 swallows it,
  so nothing is removed and the original 500 stands.
- `import brotli` sits inside the inner `try`. If it fails, the JSON step is skipped
  and the fallback reads the raw body (`Codecs.brotli` is `None`).
- Two calls in the same second share one image path (`ImagePathInjective`).
  The file a call removes in `finally` is whatever file then has that name.

## Model

| member | source | states |
|---|---|---|
| `Scores.Values` | main.py:88-100 | the value list of a request body has twelve entries and rebuilding a body from it gives the same body |
| `Scores.ValuesFromValues` | main.py:88-100 | any twelve-entry list is the value list of the body built from it, so position i is the i-th declared field |
| `Scores.Frame` | main.py:106-118 | a one-aspect DataFrame exists exactly when the score column has six entries, and row i pairs category i, the aspect and score i |
| `Scores.Head` | main.py:110 | `lst[:6]` is a prefix of the list of at most six entries, and the whole list when it is shorter |
| `Scores.Tail` | main.py:117 | `lst[6:]` is the rest of the list after `lst[:6]`: the two slices joined give the list back |
| `Scores.Table` | main.py:106-120 | the table exists exactly for twelve scores; rows 0-5 pair the first six scores with the six categories as "проблемы", and rows 6-11 pair the last six with the same categories as "компетенции" |
| `Scores.TableScoresAreInput` | main.py:106-120 | the table's score column, in row order, is the input list unchanged |
| `Scores.Select` | main.py:133 | `np.select` gives the choice of the first condition that holds, or the default when none holds |
| `Scores.TierConditions` | main.py:123-128 | there is one condition per tier label, four in all |
| `Scores.TierConditionsDisjoint` | main.py:123-128 | no score satisfies two of the four tier conditions |
| `Scores.CategoryTier` | main.py:123-133 | 0 gives Новичок, 1..6 Падаван, 7..12 Рыцарь-Джедай, 13..20 Мастер-Джедай; the default Неизвестный уровень is given exactly to scores below 0 or above 20 |
| `Scores.CategoryTierIsAnyMatch` | main.py:123-133 | whichever tier condition holds names the tier, so first-match selection gives a unique tier |
| `Scores.Marks` | main.py:133-136 | the mark column has one label per row, each one of the five labels, and a row is marked unknown exactly when its score is outside 0..20 |
| `Scores.SumConcat` | main.py:138 | `Sum`, the total `sum(result_lst)`: the sum of two lists joined is the sum of their sums |
| `Scores.SumSplit` | main.py:138 | the sum of a list splits at any position into the sums of the two parts |
| `Scores.TotalIsBothSeries` | main.py:106-138 | the total is the sum of the "проблемы" series plus the sum of the "компетенции" series |
| `Scores.AggregateLevel` | main.py:139-150 | the level is one of the five labels, and every negative total is labelled Мастер-Джедай |
| `Scores.LevelBandsPartition` | main.py:141-150 | every integer total lies in exactly one of the five bands 0..41, 42..50, 51..70, 71..100, and everything else |
| `Scores.AggregateLevelIsBand` | main.py:141-150 | a total gets the k-th level exactly when it lies in the k-th band |
| `Scores.Title` | main.py:154 | the title starts with "Всего очков: " |
| `Scores.TitleInjective` | main.py:154 | the title "Всего очков: <total>, <level>" determines both the total and the level |
| `Scores.PathPrefix` | main.py:162 | the path prefix is the configured directory, or the text "None" when it is unset |
| `Scores.ImagePath` | main.py:161-162 | the image path starts with the configured directory, or with "None" when it is unset |
| `Scores.ImagePathInjective` | main.py:161-162 | two timestamps give the same image path exactly when they are equal |
| `Scores.TickAtSevenMislabelled` | main.py:157-159 | the axis tick labelled Падаван sits at 7, a score whose tier is Рыцарь-Джедай, while the ticks at 12 and 20 match their labels |
| `Scores.BandTopTicksLabelTheirTier` | main.py:157-159 | with ticks at 0, 6, 12, 20, each tick lies in 0..20, has the tier it is labelled with, and is the top score of that tier |
| `Scores.BuildFigure` | main.py:106-154 | the figure data can be built exactly when there are twelve scores |
| `Scores.FigureShowsScores` | main.py:106-154 | the figure plots the input scores, marks each with its tier and is titled with the total and the total's level |
| `Text.NatToDecimal` | main.py:162 | the decimal form of a timestamp is a non-empty digit string with no leading zero |
| `Text.NatToDecimalRoundTrip` | main.py:162 | reading back the decimal form of a natural number gives that number |
| `Text.IntToDecimal` | main.py:154 | the decimal form of the total starts with a minus sign exactly for negative totals, and every other character is a digit |
| `Text.IntToDecimalRoundTrip` | main.py:154 | reading back the decimal form of an integer gives that integer |
| `Text.IntToDecimalInjective` | main.py:154 | different totals print differently |
| `Text.Lower` | main.py:199 | lowering keeps the length and lowers each ASCII capital |
| `Text.StartsWithIndexwise` | main.py:248 | `startswith` holds exactly when the prefix fits and matches the text character by character |
| `Text.Strip` | main.py:245 | the stripped text neither starts nor ends with whitespace |
| `Text.StripShape` | main.py:245 | the stripped text is the piece of the text starting at some position, with only whitespace before and after that piece |
| `Text.StripOfPadded` | main.py:245 | whitespace around a core that has no whitespace at either end strips to exactly that core |
| `Text.StripIdempotent` | main.py:245 | stripping twice gives the same as stripping once |
| `Text.ContainsAt` | main.py:239 | `Contains`, Python's `in` on strings: a string occurring at some position counts as contained |
| `Text.ContainsWitness` | main.py:239 | a contained string occurs at some position |
| `Upload.HeaderOr` | main.py:199 | a header lookup gives the header's value when it is present and the default otherwise |
| `Upload.Truthy` | main.py:224 | the falsy JSON values are exactly null, false, 0, the empty string, the empty array and the empty object |
| `Upload.Decode` | main.py:198-218 | "br" or "gzip" replaces the body with its decompression, or keeps the raw body if that fails; a missing brotli module skips the JSON step; any other encoding leaves the body unchanged |
| `Upload.SuccessUrl` | main.py:222-227 | a document yields a URL exactly when it is an object with a truthy success and a data object holding url, and the URL is that value |
| `Upload.JsonUrl` | main.py:220-227 | the JSON step yields a URL exactly when it was reached, the body parses, and the document passes the success/data.url test, and the URL is that document's |
| `Upload.Fallback` | main.py:236-262 | the fallback only ever returns a string starting with http:// or https://, and it always fails when Content-Type contains application/json |
| `Upload.Candidate` | main.py:245 | a non-empty Location header is the candidate whatever the body is; otherwise the candidate is the UTF-8 body stripped, and there is none exactly when the body is not UTF-8 |
| `Upload.HttpUrlScheme` | main.py:248-256 | a URL is accepted exactly when it begins with "http" followed by "://" or "s://" |
| `Upload.Base64Url` | main.py:253-261 | the base64 step yields a URL exactly when the candidate decodes as base64, the bytes decode as UTF-8, and the text starts with http:// or https://, and then it returns that text |
| `Upload.Interpret` | main.py:195-265 | a status other than 200 always fails with that status |
| `Upload.JsonSuccessReturnsUrl` | main.py:222-227 | a successful JSON document with data.url yields exactly that url, whatever the headers say |
| `Upload.RejectedUploadFallsBack` | main.py:228-236 | a JSON document with a falsy success leads to the header/body fallback, not to a failure of its own |
| `Upload.SuccessHasOrigin` | main.py:195-262 | every URL returned is either data.url of a successful document, or an http(s) string that the fallback found in a response not labelled JSON |
| `Upload.LocationHeaderAccepted` | main.py:245-250 | in the fallback, a Location header that starts with http:// or https:// is returned as it is |
| `Upload.StrippedBodyAccepted` | main.py:245-250 | without a Location header, a body that is a URL surrounded by whitespace is returned with the whitespace stripped |
| `Upload.NonUrlCandidateNeedsBase64` | main.py:251-262 | a non-empty candidate that is not a URL succeeds exactly when its base64 decoding is a URL, and then that decoding is returned |
| `Upload.EmptyCandidateFails` | main.py:245-262 | an empty candidate fails without a base64 attempt |
| `Upload.LocationShadowsBody` | main.py:245-262 | a non-empty Location header that is not a URL succeeds exactly when its own base64 decoding is a URL, whatever the body holds, and then that decoding is returned |
| `Upload.UndecodableBodyFails` | main.py:236-245 | without a Location header, a body that is not UTF-8 ends the chain with a failure |
| `Upload.FallbackResponse` | main.py:236-262 | the step-by-step `except` branch gives the same result as the fallback of the chain of attempts |
| `Upload.InterpretResponse` | main.py:195-265 | the step-by-step handling of the answer gives the same result as the chain of attempts, and succeeds only on status 200 |
| `Chart.Disk.Write` | main.py:165 | writing the image adds its path to the existing files |
| `Chart.Disk.Exists` | main.py:272 | the existence test holds exactly for existing paths |
| `Chart.Disk.Remove` | main.py:273 | removing takes exactly that path out of the existing files |
| `Chart.ChartOutcome` | main.py:103-268 | every failure is a 500; the routine succeeds exactly when the figure is built, the image is written, the post returns and the answer yields a URL, and then it returns that URL |
| `Chart.NonOkUploadIs500` | main.py:263-268 | an upload answered with a status other than 200 ends in a 500 carrying that status |
| `Chart.RejectedJsonUploadIs500` | main.py:228-268 | a JSON rejection labelled application/json ends in a 500 through the fallback's refusal |
| `Chart.CreateChart` | main.py:103-276 | the routine returns ChartOutcome; once the image path is bound, that file is gone on every exit path and no other file is touched; before then, nothing changes on disk |

## Findings

| source | as written | input that shows it | evidently intended | confidence | as-written member | corrected member |
|---|---|---|---|---|---|---|
| main.py:157-159 | radial ticks at 0, 7, 12, 20 labelled Новичок, Падаван, Рыцарь-Джедай, Мастер-Джедай | a score of 7 is plotted on the tick labelled Падаван, but its tier (main.py:126) is Рыцарь-Джедай | ticks at the top score of each tier, 0, 6, 12, 20, as the ticks at 12 and 20 already are | low to medium (the labels could also mark lower bounds, which would need 0, 1, 7, 13); not executed | `Scores.TickAtSevenMislabelled` | `Scores.BandTopTicksLabelTheirTier` |

## Left out

- The FastAPI application, its routes (`/`, `/favicon.ico`, `/chart/`) and pydantic validation are framework plumbing and are not modelled. The request-logging middleware, CORS, logging setup and `load_dotenv` are not modelled either. `build_chart` at main.py:300-313 is not part of this model; `Values` only captures the order in which it passes the fields.
- Plotly: drawing the polar chart and encoding the JPEG are a foreign renderer with floating-point layout. The model keeps the data the figure is built from: the table, the marks, the title and the axis constants. Whether plotting or `write_image` raises is an input (`Outside.plotOk`, `Outside.writeOk`). A failed write is taken to leave no file behind.
- `requests.post`, `time.sleep(1)` and `time.time()` are network and clock. The host's answer (or its absence, when the call raises) and the whole-second timestamp are inputs.
- Brotli, gzip, the JSON parser, UTF-8 decoding and base64 decoding are library calls. They are opaque partial functions in `Codecs`, not re-implementations.
- The variant of the service that streams the image bytes back instead of uploading them is not in this source file and is not part of this model.
- `Text.Lower`: only ASCII letters are lowered, while Python's `str.lower` is Unicode-wide. No non-ASCII character lowers to a letter of "br" or "gzip", so the two encoding tests come out the same.
- `Upload.Json`: numbers are integers only; floating-point JSON numbers are not modelled. The header map is keyed by lower-case names, standing for the case-insensitive lookup of `requests`. Repeated headers are not modelled.
- The error messages (the `detail` strings and the logging) are not modelled. A failure carries its status code and the step that raised it.
- `Chart.Disk.Remove`: `os.remove` failing on an existing file is logged and swallowed at main.py:275-276. The model assumes removal of an existing file succeeds.
- Concurrent requests are not modelled. `CreateChart` describes one call against the disk state it starts from.
- The `mark` column is computed but never drawn; it is modelled as data only.
- `Scores.Sum` and all scores are unbounded integers, as Python's are. Pandas' 64-bit columns are not modelled.
