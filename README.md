# cine-critic-pal core, modelled in Dafny

This project models the three pieces of sequential logic in cine-critic-pal
and proves what they promise:

- **Star ratings** (`backend/lambda/sentiment_analysis/inference.py`, module `Inference`).
  The classifier labels `LABEL_0`..`LABEL_9` map to the star strings `½` … `★★★★★`.
  Any other label maps to `Unknown`. A star string is turned into a number by adding
  1 for each `★` and 0.5 for each `½`. `predict_rating` chains the two on the
  classifier's label and passes its score through unchanged. Ratings are Dafny
  `real`s, so they are exact. Every value involved is a multiple of 0.5, so the
  source's floats are exact too. Each rating is proved to be half of an integer
  half-star count (`2·#★ + #½`).
- **The Lambda handler** (`backend/lambda/sentiment_analysis/app.py`, module `App`).
  `create_response` builds a response with a fixed shape. `lambda_handler` picks one
  of four outcomes:
  - 400 when the body is not JSON;
  - 400 when the review is missing or falsy;
  - 200 with the prediction when the classifier answers;
  - 500 for every other exception.

  The outcome of `json.loads(event['body'])` is an input (`BodyParse`), and so is
  the classifier (`JsonValue -> Classification`). Python truthiness and slicing of
  the decoded review are modelled, because they decide between 400, 500 and calling
  the classifier.
- **The listing-page clone** (`src/scraper/scrape.py`, module `Scraper`).
  `clone_letterboxd` visits listing pages 1, 2 and 3 in order. For each page it
  builds the URL, reads the rendered HTML through the browser, and writes it to
  `data/html/<user>/films/reviews/page/<n>/index.html`. The browser is a function
  from a URL to the page's content or to the exception that loading it raised.
  The filesystem is a class, `FileSystem`, holding files and directories as maps
  and sets. Its keys are the segments passed to `os.path.join`. An exception on a
  page ends the run, because the loop has no error handling. The account is
  `USERNAME`, read once from the environment (`Scraper.Username`), and it is
  passed to the clone as a parameter. `Decimal` models
  `str()` on page numbers and proves it injective through its inverse.

`scrape.py` scrolls once and waits a fixed 2000 ms. Both happen inside one
`Fetch` and are not modelled (see "## Left out"). It has no error handling: an
exception on a page ends the run (`CompletedPages`, `RunOutcome`).

Some definitions model source lines directly but carry no contract of their
own. Each is used by the contracts in the table below:

- `Scraper.ListingUrl` is the listing-URL f-string (src/scraper/scrape.py:17).
- `App.Truthy` is Python's truth value of `review_text`, negated by the `not` at backend/lambda/sentiment_analysis/app.py:49.
- `App.Sliceable` says whether `review_text[:100]` succeeds (backend/lambda/sentiment_analysis/app.py:56).
- `App.Get` is `body.get('review')` (backend/lambda/sentiment_analysis/app.py:47).
- `Inference.SymbolValue` is the `rating_map` lookup (backend/lambda/sentiment_analysis/inference.py:45, 69-71).

The docstring of `_normalize_rating` promises a value from 0.5 to 5.0. A label
outside the table gives `Unknown`, which normalises to 0
(`Inference.UnknownRatingIsZero`). `Inference.PredictRating` states both cases.

## Model

| member | source | states |
|---|---|---|
| `Decimal.DecimalString` | src/scraper/scrape.py:17 | `str(n)` has at least one character and no leading zero unless n is 0 |
| `Decimal.DecimalStringDigits` | src/scraper/scrape.py:17 | `str(n)` consists of decimal digits only |
| `Decimal.ParseDecimalString` | src/scraper/scrape.py:17 | reading back `str(n)` as a decimal gives n (round trip) |
| `Decimal.DecimalStringInjective` | src/scraper/scrape.py:32 | distinct page numbers have distinct decimal renderings |
| `Inference.LabelIndex` | backend/lambda/sentiment_analysis/inference.py:31-42 | a label is recognised as class k only if k < 10 and the label is exactly `LABEL_k` |
| `Inference.LabelIndexOfLabel` | backend/lambda/sentiment_analysis/inference.py:31-42 | `LABEL_k` is recognised as class k for each k in 0..9 |
| `Inference.TableEntry` | backend/lambda/sentiment_analysis/inference.py:31-42 | the table has an entry for `LABEL_k` for each k in 0..9, and that entry is (k+1)/2 `★` followed by one `½` exactly when k is even |
| `Inference.TableKeysAreLabels` | backend/lambda/sentiment_analysis/inference.py:31-42 | every key of the table is one of `LABEL_0`..`LABEL_9` |
| `Inference.TableByIndex` | backend/lambda/sentiment_analysis/inference.py:31-42 | a label is a key of the table if and only if it names a class 0..9, and its entry is that class's star string |
| `Inference.ConvertLabelToStars` | backend/lambda/sentiment_analysis/inference.py:47-57 | `LABEL_k` converts to the star string for k; every other label converts to `Unknown` |
| `Inference.NormalizeRating` | backend/lambda/sentiment_analysis/inference.py:59-71 | the rating of any text is non-negative |
| `Inference.NormalizeCountsHalfStars` | backend/lambda/sentiment_analysis/inference.py:45 | the rating is exactly (2·#★ + #½)/2; every other character counts for nothing |
| `Inference.NormalizeAdditive` | backend/lambda/sentiment_analysis/inference.py:69-71 | the rating of a concatenation is the sum of the ratings of its parts |
| `Inference.NormalizeIgnoresOther` | backend/lambda/sentiment_analysis/inference.py:71 | inserting a character that is neither `★` nor `½` leaves the rating unchanged |
| `Inference.UnknownRatingIsZero` | backend/lambda/sentiment_analysis/inference.py:57-71 | `Unknown` has rating 0, outside the documented range 0.5 to 5.0 |
| `Inference.StarStringCounts` | backend/lambda/sentiment_analysis/inference.py:31-42 | the star string for class k holds (k+1)/2 `★`, and one `½` if k is even and none if k is odd |
| `Inference.StarStringValue` | backend/lambda/sentiment_analysis/inference.py:31-45 | the star string for class k is worth exactly (k+1)/2 stars |
| `Inference.KnownLabelRating` | backend/lambda/sentiment_analysis/inference.py:31-71 | `LABEL_k` rates exactly (k+1)/2, a value from 0.5 to 5.0 |
| `Inference.RatingStrictlyIncreasing` | backend/lambda/sentiment_analysis/inference.py:31-42 | a higher class gives a strictly higher rating, so distinct known labels give distinct star strings |
| `Inference.LabelRating` | backend/lambda/sentiment_analysis/inference.py:57-71 | any label rates (k+1)/2 if it is `LABEL_k` and 0 otherwise |
| `Inference.PredictRating` | backend/lambda/sentiment_analysis/inference.py:73-99 | the prediction holds the label's star string, that string's rating and the score unchanged; the rating is (k+1)/2 for `LABEL_k`, and it is 0 with `Unknown` for every other label; it is 0 exactly when the label is unknown |
| `App.CreateResponse` | backend/lambda/sentiment_analysis/app.py:22-31 | the response has the given status and body, and exactly the headers `Content-Type: application/json` and `Access-Control-Allow-Origin: *` |
| `App.LambdaHandler` | backend/lambda/sentiment_analysis/app.py:33-73 | the status is always 200, 400 or 500. It is 400 with the invalid-JSON message exactly when the body is not JSON. It is 400 with the missing-review message exactly when the decoded object's review is absent or falsy. It is 200 exactly when the review is truthy and sliceable and the classifier answers, and then the body is `predict_rating` of the classifier's answer. Every other outcome is 500 with `Internal server error` |
| `App.HandlerConsultsClassifierOnce` | backend/lambda/sentiment_analysis/app.py:46-59 | the response depends on the classifier only through its answer for the one review value; when the review is missing, falsy or unsliceable the classifier is not consulted |
| `Scraper.Username` | src/scraper/scrape.py:4 | the account is `LETTERBOXD_USERNAME` when it is set and `default_username` otherwise |
| `Scraper.ListingUrlInjective` | src/scraper/scrape.py:17 | distinct page numbers give distinct listing URLs |
| `Scraper.SavePath` | src/scraper/scrape.py:8-32 | the save path is seven segments: `data/html`, the user, ..., `index.html` |
| `Scraper.SavePathInjective` | src/scraper/scrape.py:32 | distinct (user, page) pairs give distinct save paths |
| `Scraper.Parent` | src/scraper/scrape.py:33 | `os.path.dirname` of a save path is the path with its last segment dropped: a prefix one segment shorter |
| `Scraper.Ancestors` | src/scraper/scrape.py:33 | the directories `os.makedirs(p)` makes sure exist are exactly the non-empty prefixes of p: p itself and each of its ancestors |
| `Scraper.PagesUpTo` | src/scraper/scrape.py:16 | the pages of `range(1, count+1)` in order: the i-th is page i+1 |
| `Scraper.VisitedUrlsDistinct` | src/scraper/scrape.py:16-17 | the pages of one run are loaded from pairwise distinct URLs, so no listing URL is loaded twice |
| `Scraper.CompletedPages` | src/scraper/scrape.py:16-37 | the pages written before an exception are exactly pages 1..k: each of them renders, and page k+1 does not |
| `Scraper.CompletedPagesStop` | src/scraper/scrape.py:16-37 | once page n fails after pages 1..n-1 succeeded, no later page is ever completed |
| `Scraper.CapturedKeys` | src/scraper/scrape.py:32-37 | writing pages 1..k adds exactly their save paths to the files |
| `Scraper.CapturedContent` | src/scraper/scrape.py:29-37 | the file at page n's save path holds the HTML the browser rendered for page n |
| `Scraper.CapturedElsewhere` | src/scraper/scrape.py:32-37 | no path other than the pages' save paths is created or changed |
| `Scraper.RerunOverwrites` | src/scraper/scrape.py:33-36 | a second run over the same pages leaves the files exactly as if only the second run had happened, because files are opened with `'w'` and directories with `exist_ok=True` |
| `Scraper.FileSystem.MakeDirs` | src/scraper/scrape.py:33 | `os.makedirs(exist_ok=True)` adds the directory and its ancestors and leaves the files alone |
| `Scraper.FileSystem.WriteFile` | src/scraper/scrape.py:36-37 | opening with `'w'` and writing replaces exactly that path's content; its directory must exist |
| `Scraper.ClonePage` | src/scraper/scrape.py:17-37 | one iteration loads the page's URL. When the load succeeds, it writes the HTML at the page's save path and makes the parent directories. When the load fails, nothing changes |
| `Scraper.CloneLetterboxd` | src/scraper/scrape.py:7-37 | the run visits pages 1, 2, 3 in order, up to and including the first page whose load fails. The files become those of writing every page before that one. The directories gain `data/html` and each written page's parents. The run reports the failing page and its reason, or completion |

## Left out

- Playwright is not modelled: launching the browser, `goto`, `wait_for_load_state`, the scroll script, the 2000 ms wait, `content()` and `close()`. One load-and-read of a URL is a value of `Fetch`. The browser is a function of the URL, which loses nothing within one run because each URL is visited once.
- Failures of the filesystem (permissions, a full disk) and of launching the browser are not modelled. Writes always succeed.
- `os.path.join` string rendering is not modelled. Paths are kept as the joined segments. A user name containing `/`, an absolute one, an empty one, `.` or `..` would make the real path differ from the segment sequence: `..` writes under `data/films/reviews/page/<n>/`, and `.` writes to the same file as the empty name.
- `os.makedirs('data/html')` also creates `data`. The model keeps `data/html` as one segment, as it is passed to `os.path.join`.
- The `print` progress lines of `scrape.py` and all logging in `app.py` are left out. They have no effect on files or responses.
- The transformers model loading and inference are not modelled. The classifier is an input returning `(label, score)` or failing. The score is carried unchanged as a `real`.
- `json.loads` and `json.dumps` are not modelled. The handler receives the outcome of decoding. The response body is the document that `json.dumps` would serialise, not its text. The model therefore does not capture that Python's sum gives the integer `5` for `★★★★★` and the float `4.5` for `★★★★½`, which serialise differently.
- The construction of the analyzer at module load is left out, together with the re-raise when it fails. This is process start-up.
- `frontend/src/App.jsx` and `frontend/src/api.js` are not part of this model. They are the UI and its HTTP client. Note that `api.js` reads `response.data.rating`, while the handler's 200 body has `star_rating`, `star_rating_text` and `confidence_score`.
- `Inference.NormalizeRating`: its own contract only says the rating is non-negative. The exact value is stated by `Inference.NormalizeCountsHalfStars`.
