# Expert search portal — a Dafny model

The system is a small expert-search site. A single-page component,
`SearchPortal`, holds a query, a search mode (`'vector'` or `'traditional'`),
the last results and a loading flag. On a search it posts the query to one of
two backend endpoints and renders the answer as result cards. The backend
answers `/api/search` by post-processing the records of a vector search. It
answers `/api/traditional_search` by shaping the rows of an SQL query into
five-key records whose profile text is cut to 200 characters.

This project models both halves in Dafny:

- `wrappers.dfy` (`Wrappers`): `Option` and `Result`.
- `json.dfy` (`Json`): the flat JSON records both halves exchange, with the truthiness rule that JavaScript's `&&`/`||` and Python's `or` share on them.
- `text.dfy` (`Text`): whitespace trimming. The page trims with JavaScript's `String.prototype.trim`, the backend with Python's `str.strip()`. These use different whitespace sets, and both are modelled.
- `backend.dfy` (`Backend`): `traditional_search` and `vector_search` as methods over their input rows. `traditional_search` builds its answer with an append loop. `vector_search` updates an array of records in place. Each is proved against a per-record specification function (`ShapeRow`, `Normalize`).
- `search_portal.dfy` (`SearchPortal`): the component as a class `Portal` with the four state fields. It has methods for typing, picking a mode, clicking the button, pressing Enter and running a search. The network outcome of the one request is a parameter. The render logic is a pure function from (results, mode, query, loading) to the cards and the "no results" card.
- `end_to_end.dfy` (`EndToEnd`): lemmas that connect what the backend sends to what the page shows.

The model follows the code, including where it departs from what the page is meant to do:

- A rejected request is meant to leave the results unchanged. The code stores any body that parses as JSON, whatever the HTTP status, because `fetch` does not reject on an error status (see Findings).
- The mode is meant to be one of two values. The code compares strings (`searchMode === 'vector'`), so any value other than `'vector'` selects the traditional endpoint. The model keeps the mode a string.
- The similarity badge is meant to show for a non-zero similarity, and nothing is meant to show in its place otherwise; likewise the link for a non-empty URL. The code tests truthiness with `&&`, so a similarity of 0, or a URL of 0, shows a stray "0" where the badge or link would be (see Findings).

## Model

| member | source | states |
|---|---|---|
| Text.IsJsWhitespace | frontend/src/components/VectorSearchPortal.jsx:21 | among ASCII characters, `trim` removes exactly space, tab, line feed, vertical tab, form feed and carriage return; nothing above U+FEFF is removed |
| Text.IsPyWhitespace | backend/main.py:63 | Python's whitespace is JavaScript's without the byte order mark U+FEFF, plus the information separators U+001C..U+001F and U+0085 |
| Text.JsTrim | frontend/src/components/VectorSearchPortal.jsx:21 | `trim` never lengthens a string, leaves no JavaScript whitespace at either end, and returns unchanged a string whose ends are not whitespace |
| Text.PyStrip | backend/main.py:63 | `strip()` never lengthens a string, leaves no Python whitespace at either end, and returns unchanged a string whose ends are not whitespace |
| Text.TrimStartSpec | frontend/src/components/VectorSearchPortal.jsx:21 | trimming the start leaves the longest suffix that does not start with whitespace; everything dropped is whitespace |
| Text.TrimEndSpec | frontend/src/components/VectorSearchPortal.jsx:21 | trimming the end leaves the longest prefix that does not end in whitespace; everything dropped is whitespace |
| Text.TrimSpec | frontend/src/components/VectorSearchPortal.jsx:21 | a trimmed string is empty iff every character is whitespace; otherwise it is a contiguous piece of the input whose first and last characters are not whitespace |
| Text.SeparatorBlankOnlyForPython | backend/main.py:63 | a query of U+001C is not blank for JavaScript's trim but blank for Python's strip |
| Text.ByteOrderMarkBlankOnlyForJavaScript | frontend/src/components/VectorSearchPortal.jsx:21 | a query of U+FEFF is blank for JavaScript's trim but not for Python's strip |
| Json.Truthy | frontend/src/components/VectorSearchPortal.jsx:117 | the falsy values are exactly a missing value, null, false, 0 and the empty string; everything else is truthy |
| Json.Get | frontend/src/components/VectorSearchPortal.jsx:110-113 | property access gives a value exactly when the key is present, and then the stored value |
| Backend.Status | backend/main.py:64 | a refused query answers 400, a failure inside the endpoint answers 500 |
| Backend.TruncateProfile | backend/main.py:89 | a profile of at most 200 characters is kept as is; a longer one becomes its first 200 characters followed by "..." (203 characters); the first min(200, length) characters always agree with the original |
| Backend.TruncateProfileIdempotent | backend/main.py:89 | truncating an already truncated profile changes nothing |
| Backend.ProfileText | backend/main.py:88 | a NULL or empty profile becomes ""; text is kept; any other truthy value makes `len` fail |
| Backend.ShapeRow | backend/main.py:91-97 | a shaped record has exactly the keys Name, Category, Label, Profile_Chunk and URL; all but Profile_Chunk are copied unchanged, and Profile_Chunk is the truncated profile |
| Backend.TraditionalSearch | backend/main.py:58-104 | a query that is blank for Python's strip is refused with 400 "Query parameter is required", whatever the rows; otherwise the answer has one record per row, in row order, each the shaped row, or is a 500 when some profile cannot be measured; a failure has status 400 exactly when the query was blank |
| Backend.PyMax | backend/main.py:45 | Python's `max` of two numbers is one of them and at least both |
| Backend.PyMin | backend/main.py:45 | Python's `min` of two numbers is one of them and at most both |
| Backend.Clamp | backend/main.py:45 | `min(max(x, 0.0), 1.0)` lies in [0, 1], is x when x already does, 0 below and 1 above |
| Backend.ClampedSimilarity | backend/main.py:45 | the similarity sent is in [0, 1]; it is 0 when missing and unchanged when already in range; null or text makes the comparison fail |
| Backend.Normalize | backend/main.py:44-45 | after the similarity pass a record has its old keys plus Similarity; every other key keeps its value; Similarity is a number in [0, 1], 0 when it was missing and unchanged when it was in range |
| Backend.VectorSearch | backend/main.py:36-53 | an empty result set gives `[]`; otherwise the records keep their number and order and each is the normalized input record, or the answer is a 500 (and only ever a 500) when some similarity cannot be compared |
| SearchPortal.Endpoint | frontend/src/components/VectorSearchPortal.jsx:25-27 | the endpoint is `/api/search` exactly when the mode is `'vector'`, and `/api/traditional_search` for every other mode |
| SearchPortal.RequestFor | frontend/src/components/VectorSearchPortal.jsx:21-35 | no request exactly when the query is blank for `trim`; otherwise one JSON POST to the mode's endpoint carrying the query untrimmed |
| SearchPortal.BlankQueryIssuesNothing | frontend/src/components/VectorSearchPortal.jsx:21 | no request is issued exactly when every character of the query is JavaScript whitespace |
| SearchPortal.Settle | frontend/src/components/VectorSearchPortal.jsx:29-40 | as written: a parsed body replaces the results wholesale, whatever its status; a network error or an unparseable body leaves them unchanged |
| SearchPortal.SettleCheckingStatus | frontend/src/components/VectorSearchPortal.jsx:29-40 | with the status checked: only a 2xx parsed body replaces the results; any other response leaves them unchanged |
| SearchPortal.Rendered | frontend/src/components/VectorSearchPortal.jsx:110-113 | a value in a JSX child position shows exactly when it is a string or a number |
| SearchPortal.BadgeAsWritten | frontend/src/components/VectorSearchPortal.jsx:117-121 | as written: a badge exactly in vector mode with a truthy similarity; stray text "0" exactly in vector mode with a similarity of 0, the one falsy value React shows; nothing otherwise |
| SearchPortal.LinkAsWritten | frontend/src/components/VectorSearchPortal.jsx:122-131 | as written: a link to the URL exactly when the URL is truthy; stray text "0" exactly when the URL is the number 0; nothing otherwise |
| SearchPortal.LinkIntended | frontend/src/components/VectorSearchPortal.jsx:122-131 | as intended: a link to the URL exactly when the URL is truthy, and never stray text |
| SearchPortal.Badge | frontend/src/components/VectorSearchPortal.jsx:116-121 | as intended: a badge, carrying the similarity, exactly in vector mode with a truthy similarity, and never stray text |
| SearchPortal.BodyText | frontend/src/components/VectorSearchPortal.jsx:136-139 | the card body is the explanation in vector mode and the profile chunk otherwise, each replaced by its placeholder when falsy, so the value is never falsy |
| SearchPortal.CardFor | frontend/src/components/VectorSearchPortal.jsx:105-141 | as written: a card shows the name, category and label as React renders them, the as-written link and similarity slots (so a URL of 0, or a 0 similarity in vector mode, shows a stray "0"), and the mode's body, which shows whenever it is text or a number and is then never empty (a truthy value, though possibly whitespace only) |
| SearchPortal.CardForIntended | frontend/src/components/VectorSearchPortal.jsx:116-121 | as intended: the same card with the corrected badge and link, neither ever stray text; it equals the card as written exactly when that card has no stray text, and differs from it in no other slot |
| SearchPortal.Render | frontend/src/components/VectorSearchPortal.jsx:85-154 | cards appear iff the results are a non-empty list, one per result in order, each the card as written; the "no results" card iff the results are an empty list, the query is a non-empty string and nothing is loading; never both; the button spins and is disabled exactly while loading |
| SearchPortal.ModeChangeKeepsLayout | frontend/src/components/VectorSearchPortal.jsx:59 | re-rendering the same results in another mode keeps the display state, the number of cards and each card's title, category, label and link |
| SearchPortal.ErrorAnswerBlanksPage | frontend/src/components/VectorSearchPortal.jsx:37-38 | as written, an answer whose body is a single JSON object leaves the page with neither result cards nor the "no results" card, whatever it showed before |
| SearchPortal.ErrorAnswerKeepsPageWhenChecked | frontend/src/components/VectorSearchPortal.jsx:37-40 | with the status checked, a non-2xx answer leaves the rendered page exactly as it was |
| SearchPortal.ZeroSimilarityShowsStrayZero | frontend/src/components/VectorSearchPortal.jsx:117 | a similarity of 0 in vector mode shows as a bare "0" as written and as nothing as intended |
| SearchPortal.ZeroUrlShowsStrayZero | frontend/src/components/VectorSearchPortal.jsx:122 | a URL of 0, in either mode, shows as a bare "0" as written and as nothing as intended |
| SearchPortal.Portal.constructor | frontend/src/components/VectorSearchPortal.jsx:15-18 | the initial state is an empty query, an empty result list, not loading, vector mode |
| SearchPortal.Portal.SetQuery | frontend/src/components/VectorSearchPortal.jsx:79 | typing sets the query and changes nothing else |
| SearchPortal.Portal.SetSearchMode | frontend/src/components/VectorSearchPortal.jsx:59 | picking a mode sets only the mode; results and query stay, no search runs, and the display state and card count are unchanged |
| SearchPortal.Portal.HandleSearch | frontend/src/components/VectorSearchPortal.jsx:20-44 | a blank query issues nothing and changes nothing; otherwise the page while the request is pending is the old results rendered with the spinner on, the request matches `RequestFor`, the results become `Settle` of the old results and the outcome, loading is off afterwards, and query and mode never change |
| SearchPortal.Portal.HandleSearchCheckingStatus | frontend/src/components/VectorSearchPortal.jsx:20-44 | the same search with a non-2xx answer treated as a failure: the results become `SettleCheckingStatus` of the old results and the outcome |
| SearchPortal.Portal.Click | frontend/src/components/VectorSearchPortal.jsx:85-87 | the button does nothing while loading and otherwise runs a search |
| SearchPortal.Portal.KeyPress | frontend/src/components/VectorSearchPortal.jsx:81 | Enter runs a search whether or not one is loading; any other key, and Enter on a blank query, leaves results and loading as they were |
| EndToEnd.TraditionalCardShowsTruncatedProfile | backend/main.py:88-95 | a traditional record shown in traditional mode has the truncated profile as its body, or the placeholder when the profile was NULL or empty; a link exactly when the row's URL is truthy, and no stray link text for a URL that is text or NULL; no badge |
| EndToEnd.WhitespaceProfileShowsAsIs | backend/main.py:88-89 | a non-empty profile of at most 200 characters that `trim` would empty is shown verbatim as the card body, not replaced by the placeholder |
| EndToEnd.TraditionalCardBodyIsProfilePrefix | backend/main.py:89 | such a card body is the placeholder or starts with the first min(200, length) characters of the stored profile |
| EndToEnd.MissingSimilarityShowsStrayZero | backend/main.py:45 | a vector record without a similarity is sent with 0, which the page as written shows as a bare "0" and as intended shows as nothing |
| EndToEnd.NegativeSimilarityShowsStrayZero | backend/main.py:45 | a negative similarity is clamped to 0 and then shows as a bare "0" as written |
| EndToEnd.VectorBadgeShowsPositiveSimilarity | backend/main.py:45 | for a record the vector endpoint sends, the vector-mode card shows a badge exactly when its similarity is positive, with a value in (0, 1]; otherwise the card as written shows a stray "0" and the intended card nothing; traditional mode never shows a badge |
| EndToEnd.SeparatorQueryReachesBackendGuard | backend/main.py:63-64 | a query of U+001C passes the page's guard, is posted unchanged to the mode's endpoint, and is blank for the backend's guard |

## Left out

- Network I/O (`fetch`, `response.json()`, `console.error`): the outcome of the one request is a parameter of `HandleSearch`. It is no response, a response whose body does not parse, or a response with a status and a parsed body.
- The JSON body is modelled as an array of flat records or a single flat object. Other JSON values, nested values and an object with its own `length` member are not modelled.
- Overlapping searches (the Enter key is not blocked while loading, so responses can race): the model runs one search at a time to completion. Inside it, `isLoading` is false between events.
- React and JSX presentation: components, icons, CSS classes and the percentage formatting `(Similarity * 100).toFixed(1)`. A badge carries the similarity value and leaves its formatting abstract.
- Floating point: similarities are reals. NaN and infinities are not modelled, and neither is the loop that replaces every NaN or infinite float in the result frame with 0.0 under any key (backend/main.py:46-48); the NaN a JavaScript multiplication would give is not modelled either. A vector record's missing URL that this loop turns into 0 is therefore not derived from the backend; the page's handling of a URL of 0 is modelled (SearchPortal.ZeroUrlShowsStrayZero).
- Backend.TraditionalSearch: the SQLite connection, the `LIKE '%q%'` query and its matching rules are not modelled; the rows are an input. Refusing a blank query "before any database access" is stated as "the answer is 400 whatever the rows". Errors raised by the database (500) are not modelled.
- Backend.VectorSearch: `schematic_search` is not part of this model; its result frame is an input sequence of records. A frame with rows but no columns (which pandas also calls empty) is not modelled.
- The backend's diagnostic `print` lines (backend/main.py:52, 60-61, 82, 99, 103): they write to the server console and change no answer.
- The HTTP 500 detail text (`str(e)`) is not modelled; the error is `ServerError`.
- The FastAPI and CORS wiring, the `/health` endpoint and `uvicorn`; `data/embedding.py` (OpenAI calls, CSV I/O); `data/setup_database.py` (database loading); `frontend/tailwind.config.cjs` (styling).

## Findings

| source | as written | input that shows it | evidently intended | confidence | as-written member | corrected member |
|---|---|---|---|---|---|---|
| frontend/src/components/VectorSearchPortal.jsx:37-38 | `fetch` does not reject on an HTTP error status, so the error body `{"detail": ...}` replaces the results. `results.length` is then undefined, and the page shows neither the previous cards nor the "no results" card. | Traditional mode, query "\u001C". It passes `trim`, but the backend's `strip` finds it blank and answers 400. | A non-2xx response is a failed search that leaves the results unchanged (check `response.ok` before storing the body). | medium, not executed | SearchPortal.ErrorAnswerBlanksPage (with SearchPortal.Settle, SearchPortal.Portal.HandleSearch) | SearchPortal.ErrorAnswerKeepsPageWhenChecked (with SearchPortal.SettleCheckingStatus, SearchPortal.Portal.HandleSearchCheckingStatus) |
| frontend/src/components/VectorSearchPortal.jsx:117 | `searchMode === 'vector' && result.Similarity && <badge>` evaluates to the number 0 when the similarity is 0, and React renders 0 as the text "0". The backend sends 0 for every missing or negative similarity. | Vector mode, a record without Similarity. The backend sends `Similarity: 0.0`, and the card shows a bare "0". | No badge and no text when the similarity is 0. | high, not executed | SearchPortal.BadgeAsWritten, SearchPortal.ZeroSimilarityShowsStrayZero, EndToEnd.MissingSimilarityShowsStrayZero | SearchPortal.Badge, SearchPortal.CardForIntended |
| frontend/src/components/VectorSearchPortal.jsx:122 | `result.URL && <a ...>` evaluates to the number 0 when the URL is 0, and React renders it as the text "0". The vector endpoint replaces every NaN in its result frame, a missing URL included, with 0.0 (backend/main.py:46-48). | Vector mode, a record whose URL is missing in the search frame. The backend sends `URL: 0.0`, and the card shows a bare "0" where the link would be. | No link and no text when the URL is falsy. | medium, not executed | SearchPortal.LinkAsWritten, SearchPortal.ZeroUrlShowsStrayZero | SearchPortal.LinkIntended, SearchPortal.CardForIntended |
