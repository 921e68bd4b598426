# Cache-first medication retrieval, modelled in Dafny

This project models the retrieval core of a healthcare assistant. A user describes symptoms, and
the program searches a PostgreSQL/pgvector cache of drug labels by embedding similarity. On a
cache miss it asks the OpenFDA drug-label API, caches the records it gets back and lists them.

The model has four parts.

- **The similarity store**: `HealthcareVectorDB` in `data/vector_db.py`, in `vector_db.dfy` and
  `ranking.dfy`.
  - The three tables `medication_cache`, `query_history` and `search_results` are sequence fields
    of a class. The methods update them in place.
  - `cache_medication` is an upsert keyed on the pair (brand name, generic name).
  - `find_similar_medications` records the query and scores every cached entry. It orders the
    rows by descending similarity, keeps the first `limit` rows, then drops those not above 0.3.
    It records the ranked results and the result count.
  - A failure of either operation rolls back and changes nothing.
  - The embedding model and the cosine similarity are uninterpreted functions, fixed when the
    store is created.
  - The database may order rows of equal score any way it likes. The model therefore picks any
    non-increasing arrangement of the scored rows (`Ranking.IsRanking`).
- **The OpenFDA client**: `FDAClient` in `data/fda_client.py`, in `fda_client.dfy` and
  `url_quote.dfy`.
  - The missing-key check.
  - The search expression: every term is URL-quoted (`urllib.parse.quote`, modelled down to
    UTF-8 bytes), and the terms are joined with `" AND "`.
  - The normalisation of the JSON answer into total medication records, with fixed placeholders
    for missing fields.
  - The fallbacks of both client calls when the transport fails.
  - The HTTP service is a `LabelService` object. It answers with a fixed function and logs every
    request, so each caller can state how many requests it sent and which ones.
- **The batch front end** (`main.py`, in `main_pipeline.dfy`).
  - `process_query` runs these steps: cache search, then on a miss one FDA call, caching of every
    record, a second cache search, and the raw FDA list as a last resort.
  - `main` runs the three example queries. It exits with status 1 when one of them raises.
- **The interactive front end** (`interactive.py`, in `interactive.dfy`).
  - `process_query` has a cache-and-list variant with no second search. It reports exceptions
    and does not raise them.
  - The prompt loop strips each line and stops at `quit` in any letter case.

In each front end, `QueryStep` states what one `process_query` call does to the tables and the
request log and how it ends, and `QueryRun` chains such steps over a sequence of queries, each
starting from the state the previous one left. Both `process_query` methods are proved to be a
`QueryStep`, and `main` and the interactive session are proved to be a `QueryRun` over the
queries they process.

What the listings show (brand name, generic name, score when it comes from the cache, and the
first 200 characters of indications and warnings) is in `presentation.dfy`. `basics.dfy` holds
`Option`, `Result` and two sequence helpers.

Three results are worth knowing before reading the table.

- **LIMIT before the threshold filter loses nothing.** The query applies `LIMIT` before
  `WHERE similarity > 0.3`. For every non-increasing ordering, this returns the same rows as
  filtering first and taking the first `limit` afterwards
  (`Ranking.LimitThenFilterIsFilterThenLimit`). So no entry above the threshold is dropped in
  favour of one below it. Whichever order the database picks among equal scores, the answer has
  the same length and the same score at every rank (`Ranking.TieOrderIrrelevant`).
- **`main.py` quotes the query twice.** `main.py` quotes the query itself (line 42), and the
  client quotes every term again (`fda_client.py` line 24). So a query such as
  `seasonal allergies` reaches the search expression as `seasonal%2520allergies`, while
  `interactive.py` sends `seasonal%20allergies`. Queries made only of safe characters are
  unaffected (`MainPipeline.MissRequestQuotesTwice`). The model keeps this behaviour as written.
- **A missing key is an error before any work.** Both front ends construct the store and the
  client inside every `process_query`. Without `FDA_API_KEY`, every query therefore fails before
  anything is searched or sent.
  - In `main.py` the first query raises and `main` exits with status 1.
  - In `interactive.py` every query reports the error and the session goes on.

  The tables live in the database, so they persist from one query to the next. The model keeps
  one store object across the queries of a run.

## Model

| member | source | states |
|---|---|---|
| UrlQuote.Utf8RoundTrip | healthcare-data/src/data/fda_client.py:24 | `quote` first encodes the term as UTF-8; decoding that encoding gives the term back, for every string |
| UrlQuote.PercentDecodeEncode | healthcare-data/src/data/fda_client.py:24 | percent-decoding the `%XX` encoding of any byte sequence gives the bytes back |
| UrlQuote.UnquoteQuote | healthcare-data/src/data/fda_client.py:24 | `unquote(quote(s)) == s` for every string: quoting a term loses nothing |
| UrlQuote.QuoteIsUrlSafe | healthcare-data/src/data/fda_client.py:24 | a quoted term holds only letters, digits, `_.-~/`, `%` and upper-case hex digits, and never a space or a double quote, so it cannot break the `" AND "` separator or the quoted search expression |
| UrlQuote.QuoteAppend | healthcare-data/src/data/fda_client.py:24 | quoting works character by character: the quote of a concatenation is the concatenation of the quotes |
| UrlQuote.QuoteSafeIdentity | healthcare-data/src/data/fda_client.py:24 | a term made only of characters `quote` keeps is left unchanged |
| FdaClient.JoinSplit | healthcare-data/src/data/fda_client.py:24 | splitting any string at `" AND "` and joining the pieces again restores it |
| FdaClient.SplitJoin | healthcare-data/src/data/fda_client.py:24 | the `" AND "` join of a non-empty list of terms without spaces splits back into exactly those terms |
| FdaClient.SearchTermsRecover | healthcare-data/src/data/fda_client.py:24-29 | the search terms of a symptom list split into one piece per symptom, and each piece unquotes to its symptom |
| FdaClient.FormatResultFields | healthcare-data/src/data/fda_client.py:41-55 | a result is normalised exactly when none of its fields is an empty list; each field of the record is then the first API element, or `Unknown` / `No indication available` / `No warnings available` / `No dosage information available` where absent |
| FdaClient.FormatAllShape | healthcare-data/src/data/fda_client.py:39-58 | the normalised list has one record per API result, in API order, exactly when every result can be normalised; otherwise the IndexError escapes |
| FdaClient.FormatResults | healthcare-data/src/data/fda_client.py:39-58 | the appending loop returns the normalised list of the whole `results` array, or the first error |
| FdaClient.SearchOutcomeShape | healthcare-data/src/data/fda_client.py:33-62 | a RequestException and an answer without `results` both give `[]`; otherwise the result holds one record per API result, in order |
| FdaClient.InteractionsOutcomeShape | healthcare-data/src/data/fda_client.py:74-86 | transport error gives `["Error retrieving interaction information"]`; no first result or no `drug_interactions` in it gives `["No interaction information available"]`; otherwise the first result's list, whatever later results hold |
| FdaClient.LabelService.Get | healthcare-data/src/data/fda_client.py:33-34 | one GET: the request is logged and answered by the service |
| FdaClient.SearchMedications | healthcare-data/src/data/fda_client.py:20-62 | exactly one request is sent, to `…/label.json` with the key, `indications_and_usage:"<quoted terms joined by AND>"` and the limit; the result is the normalised answer |
| FdaClient.GetDrugInteractions | healthcare-data/src/data/fda_client.py:64-86 | exactly one request is sent, searching brand OR generic name with limit 1; the result is the interactions outcome of the answer |
| Ranking.AboveThreshold | healthcare-data/src/data/vector_db.py:232 | `WHERE similarity > 0.3` returns no more rows than it was given, each of them one of the given rows and above 0.3 |
| Ranking.AboveThresholdKeepsAbove | healthcare-data/src/data/vector_db.py:232 | a row survives the filter exactly when its similarity is above 0.3 |
| Ranking.AboveThresholdSelects | healthcare-data/src/data/vector_db.py:232 | the filter returns exactly the rows above 0.3, in the order they came |
| Ranking.AboveThresholdIsPrefix | healthcare-data/src/data/vector_db.py:226-232 | on a non-increasing ordering the rows above 0.3 are a leading segment: every row before the cut is above it and none after |
| Ranking.PrefixNonIncreasing | healthcare-data/src/data/vector_db.py:226-227 | the first `limit` rows of a descending ordering are still descending |
| Ranking.LimitThenFilterIsFilterThenLimit | healthcare-data/src/data/vector_db.py:218-238 | `LIMIT` then `WHERE` returns the same rows as `WHERE` then `LIMIT` for every non-increasing ordering |
| Ranking.TopIsPrefix | healthcare-data/src/data/vector_db.py:226-232 | the returned rows are the leading rows of the ordering, at most `limit` of them |
| Ranking.TopThenFilterProperties | healthcare-data/src/data/vector_db.py:218-238 | the rows returned are at most `limit`, non-increasing, all above 0.3, the leading rows of the ordering, and drawn from the scored cache entries |
| Ranking.TopThenFilterComplete | healthcare-data/src/data/vector_db.py:218-238 | when fewer than `limit` rows come back, every scored entry above 0.3 is among them; each returned row scores at least as high as every row left out |
| Ranking.RankingExists | healthcare-data/src/data/vector_db.py:226 | every set of scored rows has an `ORDER BY similarity DESC` arrangement |
| Ranking.RankingsAgree | healthcare-data/src/data/vector_db.py:226 | two descending arrangements of the same rows have the same length and the same score at every position |
| Ranking.TieOrderIrrelevant | healthcare-data/src/data/vector_db.py:218-238 | whichever order of ties the database picks, the query returns the same number of rows with the same score at each rank |
| VectorDb.EmptyWellFormed | healthcare-data/src/data/vector_db.py:43-89 | the empty tables satisfy the table invariant: unique pairs, unique ids, results naming cached entries and recorded queries, counts matching results |
| VectorDb.EmbedTextLayout | healthcare-data/src/data/vector_db.py:153 | the embedded text is brand name, a space, generic name, a space, indications, in that order |
| VectorDb.FindByPair | healthcare-data/src/data/vector_db.py:157-164 | `filter_by(...).first()`: an index of an entry with the pair, and `None` exactly when no entry has it |
| VectorDb.CacheUpdatesInPlace | healthcare-data/src/data/vector_db.py:166-172 | re-caching a cached pair keeps the table size, the id and the key columns; it replaces indications, embedding and raw data, and changes no other entry or table |
| VectorDb.CacheInsertsFresh | healthcare-data/src/data/vector_db.py:173-183 | caching a new pair appends exactly one entry with an id not in use, with every field taken from the record; the other tables are unchanged |
| VectorDb.CachePreservesWellFormed | healthcare-data/src/data/vector_db.py:147-186 | a committed upsert keeps the table invariant, including the unique (brand name, generic name) constraint |
| VectorDb.PairCountUnique | healthcare-data/src/data/vector_db.py:46 | under the unique constraint a pair is held by no entry or by exactly one |
| VectorDb.CacheTwiceOneEntry | healthcare-data/src/data/vector_db.py:157-172 | after caching a record exactly one entry holds its pair; caching it again keeps the table size, keeps one entry, and returns the same id |
| VectorDb.CacheKeepsPairs | healthcare-data/src/data/vector_db.py:166-183 | a committed upsert keeps every pair already cached, and caches the record's own pair |
| VectorDb.ScoreRowsCoverCache | healthcare-data/src/data/vector_db.py:220-225 | every cached entry is scored and nothing else: the scored rows carry exactly the ids of the cache |
| VectorDb.RecordRanks | healthcare-data/src/data/vector_db.py:249-256 | the `enumerate(…, 1)` loop builds one result row per returned row: tied to the query, rank k+1 for the k-th, with that row's entry id and score, and fresh ids |
| VectorDb.SearchRecordsResults | healthcare-data/src/data/vector_db.py:207-259 | a committed search appends one query row whose `results_count` is the number returned, and exactly one result row per returned row, ranked 1, 2, … in order; the cache and the older rows are untouched |
| VectorDb.SearchKeepsEarlierCounts | healthcare-data/src/data/vector_db.py:249-259 | the earlier queries keep their counts after a search |
| VectorDb.SearchPreservesWellFormed | healthcare-data/src/data/vector_db.py:207-259 | a committed search whose rows come from the cache keeps the table invariant |
| VectorDb.SearchAnswer | healthcare-data/src/data/vector_db.py:218-262 | the answer has at most `limit` pairs, in non-increasing score, every score above 0.3, and each pair is a cached entry's raw data with that entry's score |
| VectorDb.ReturnedAreCached | healthcare-data/src/data/vector_db.py:218-238 | every returned row names a cached entry |
| VectorDb.CacheRunContains | healthcare-data/src/data/vector_db.py:147-191 | after a run of `cache_medication` calls the tables are well formed, and every record whose call returned an entry has its pair cached |
| VectorDb.StepsPreserveWellFormed | healthcare-data/src/data/vector_db.py:147-267 | both operations keep the table invariant, whether they commit or roll back |
| VectorDb.HealthcareVectorDB.constructor | healthcare-data/src/data/vector_db.py:92-104 | a connection to a database whose tables hold the given well-formed rows |
| VectorDb.HealthcareVectorDB.CacheMedication | healthcare-data/src/data/vector_db.py:147-193 | the upsert commits, or the call returns `None` and the rollback leaves the tables unchanged; the invariant holds afterwards |
| VectorDb.HealthcareVectorDB.FindSimilarMedications | healthcare-data/src/data/vector_db.py:195-269 | on commit, for some descending arrangement of the scored cache: the query row, its ranked results and its count are stored, and the filtered top `limit` is returned; a failure (always for a negative limit) returns `[]` and changes nothing |
| Presentation.Excerpt | healthcare-data/src/main.py:35-36 | `text[:200]`: at most 200 characters, a prefix of the text, and the whole text when shorter |
| Presentation.ShowMatchesListing | healthcare-data/src/main.py:28-37 | the cached matches are listed one per match, in order, each with its own names and score, and with indications and warnings cut to a prefix of at most 200 characters |
| Presentation.ShowRecordsListing | healthcare-data/src/main.py:72-77 | the raw FDA records are listed one per record, in API order, each with its own names, without a score, and with indications and warnings cut to a prefix of at most 200 characters |
| MainPipeline.MissRequestQuotesTwice | healthcare-data/src/main.py:42-43 | a miss sends the query quoted twice: two safe words around a space arrive as `a%2520b` where one quoting gives `a%20b`; a query of safe characters arrives unchanged |
| MainPipeline.QuoteTwiceAroundSpace | healthcare-data/src/main.py:42 | quoting `a b` gives `a%20b`, and quoting that again gives `a%2520b` |
| MainPipeline.CacheAll | healthcare-data/src/main.py:50-54 | every FDA record goes to `cache_medication` in order, and `cached_meds` holds exactly the records whose call returned an entry |
| MainPipeline.ProcessQuery | healthcare-data/src/main.py:12-83 | the call is a `QueryStep`. A missing key raises before any work. The cache is searched first, and a hit is listed with no FDA request. A miss sends exactly one request, with the quoted query as only term. A client exception propagates. An empty FDA answer lists nothing and caches nothing. Otherwise every record is cached, `cached_meds` holds those whose call returned an entry, and the cache is searched again; that answer is listed, or the raw FDA records when it is empty |
| MainPipeline.RunExample | healthcare-data/src/main.py:99-101 | processing the next example query extends the run of `process_query` calls before it by one step from the current tables and request log; at most one request is sent; without a key the missing-key error, with nothing touched |
| MainPipeline.RunMain | healthcare-data/src/main.py:86-106 | the outcomes are a run of `process_query` calls over the example queries in order, each from the tables and request log the previous one left, from the initial state to the final one; the run stops at the first query that raises; the exit status is 1 exactly when the last processed query raised and 0 when all three succeeded; at most one request per query; without a key the first query raises and nothing is touched |
| Interactive.StripLeftSpaces | healthcare-data/src/interactive.py:68 | `lstrip` removes exactly the leading whitespace |
| Interactive.StripRightSpaces | healthcare-data/src/interactive.py:68 | `rstrip` removes exactly the trailing whitespace |
| Interactive.StripSlice | healthcare-data/src/interactive.py:68 | the stripped line is a slice of the line with only whitespace around it, and it neither starts nor ends with whitespace |
| Interactive.StripIdempotent | healthcare-data/src/interactive.py:68 | stripping a stripped line changes nothing |
| Interactive.StripAllStripped | healthcare-data/src/interactive.py:68 | every line as read is already stripped: stripping it again changes nothing, and it neither starts nor ends with whitespace |
| Interactive.LowerProperties | healthcare-data/src/interactive.py:70 | the ASCII `Lower` keeps the length, leaves no upper-case ASCII letter, changes nothing a second time, changes only upper-case letters, and leaves a line without them as it is |
| Interactive.IsQuitSpelling | healthcare-data/src/interactive.py:70-71 | a stripped line ends the session exactly when it spells q-u-i-t in any mix of letter cases |
| Interactive.CacheAndList | healthcare-data/src/interactive.py:46-53 | every FDA record goes to `cache_medication` and is then listed, in API order, whatever the cache call returned |
| Interactive.ProcessQuery | healthcare-data/src/interactive.py:12-58 | the call is a `QueryStep`. A missing key is reported before any work. The cache is searched first, and a hit is listed with no FDA request. A miss sends exactly one request, with the query as only term, quoted only by the client. A client exception is reported, not raised. An empty answer lists nothing and caches nothing. Otherwise every record is cached and the raw records are listed, with no second search |
| Interactive.SessionQueriesStopAtQuit | healthcare-data/src/interactive.py:66-74 | the session processes the stripped lines in order up to the first `quit`; none of them is `quit`; when it stops early the next line is `quit`; all lines are processed exactly when none is `quit` |
| Interactive.WithDisclaimersLayout | healthcare-data/src/interactive.py:74-81 | each answer is printed and followed directly by the disclaimer |
| Interactive.AnswerQuery | healthcare-data/src/interactive.py:74 | processing a line extends the run of `process_query` calls before it by one step from the current tables and request log; at most one request is sent; without a key the missing-key report, with nothing touched |
| Interactive.InteractiveSession | healthcare-data/src/interactive.py:61-81 | the queries processed are the stripped lines before the first `quit`. The answers are a run of `process_query` calls over them in order, each from the tables and request log the previous one left, from the initial state to the final one. Each answer is followed by the disclaimer. The session ends at `quit` or when the input runs out. At most one request is sent per query. Without a key every answer reports the missing-key error and nothing is touched |

## Left out

- Timestamps (`created_at`, `updated_at` and `datetime.now()`): they are not part of the model.
- The uuid keys are drawn from one counter (`nextId`). The model relies only on each new key
  being fresh, which is what `uuid4` is used for.
- The sentence-transformer model, the pgvector `<=>` operator and floating-point arithmetic:
  the embedding and the similarity are uninterpreted functions, and scores are reals.
- The SQL text, the `total_meds` column, the cache `count` query and the ivfflat indexes: only
  their effect on the returned rows is modelled.
- `setup_vector_extensions` and the table DDL: the store starts from a given well-formed state.
  The program builds the store inside every `process_query`, and that construction can fail: the
  sentence-transformer model may not load, and `setup_vector_extensions` re-raises its error
  (`data/vector_db.py` lines 138-140). Such a failure would raise in `main.py` and be reported
  in `interactive.py` before any search. The model's store construction cannot fail, so this
  error path is not modelled. The missing-key error that the store's own `FDAClient()` raises
  (line 96) is modelled, since it is the same error the front ends get from their client.
- The several ways a database session can fail: each is one nondeterministic failure point per
  call, and the effect of every failure is the rollback.
- The service answers with one fixed function, so the same request always gets the same answer.
  A transient RequestException that an identical later request would not meet is outside the
  model.
- The HTTP transport, `raise_for_status` and JSON decoding: these are the service's answer,
  either a decoded body or a RequestException. `requests`' own encoding of the query parameters
  is transport and is left out.
- dotenv loading: the value of `FDA_API_KEY` is the parameter `apiKey`.
- `print` formatting, the headings and the score formatting `:.2f`: a listing is the
  `Display` value it prints. The progress and debug messages are left out.
- `asyncio`: the coroutines run strictly one after another, so they are ordinary calls.
- The end of input at the prompt: `input()` raises `EOFError` there (interactive.py:68), and
  nothing catches it (the only `except` is inside `process_query`), so the program stops with
  a traceback. The model ends the loop instead and reports it in `endOfInput`; the traceback
  is not modelled. The welcome banner is left out.
- `get_drug_interactions` is modelled over the service, but neither front end calls it.
- Interactive.Lower: lower-cases only ASCII letters. Python's full Unicode case mapping is not
  modelled, and that mapping can change the length of a string: LATIN CAPITAL LETTER I WITH DOT
  ABOVE (U+0130) lower-cases to `i` followed by U+0307. The model is still exact for the `quit`
  test. Only two non-ASCII characters lower-case to something containing an ASCII letter:
  - KELVIN SIGN (U+212A) gives `k`, and `quit` has no `k`;
  - U+0130 gives `i` plus the non-ASCII U+0307, which is never part of `quit`.
- `scripts/setup.py`, `utils/logger.py` and the React user interface are not part of this model.
