/**
 * The batch front end of `main.py`: `process_query` searches the cache first, on a miss asks
 * the FDA once, caches every record it gets, searches the cache again and falls back to the raw
 * FDA records; `main` runs three example queries and exits with status 1 when one raises.
 *
 * The store and the FDA service are the objects every call works on (the program opens a new
 * connection to the same database for every query, so the tables persist from one query to the
 * next); the `FDA_API_KEY` environment variable is the parameter `apiKey`.
 */
module MainPipeline {

  import opened Basics
  import opened FdaClient
  import UrlQuote
  import opened VectorDb
  import opened Presentation

  /** The queries `main` processes, in order. */
  const ExampleQueries: seq<string> := ["migraine", "drowsiness", "seasonal allergies"]

  /** The FDA request a cache miss sends: the query is URL-quoted here and again by the client. */
  function MissRequest(client: FDAClient, query: string): LabelRequest {
    SymptomRequest(client, [UrlQuote.Quote(query)], DefaultLimit)
  }

  /**
   * The query is quoted twice before it reaches the search expression: for two words made of
   * safe characters around a space (`seasonal allergies`), the `%` that the first `quote`
   * introduces is escaped by the second, so the expression asks for `seasonal%2520allergies`
   * where a single quoting asks for `seasonal%20allergies`. A query made only of safe characters
   * (`migraine`, `drowsiness`) is unaffected.
   */
  lemma MissRequestQuotesTwice(client: FDAClient, a: string, b: string, q: string)
    requires UrlQuote.AllSafe(a) && UrlQuote.AllSafe(b) && UrlQuote.AllSafe(q)
    ensures MissRequest(client, a + " " + b).search == "indications_and_usage:\"" + a + "%2520" + b + "\""
    ensures SymptomRequest(client, [a + " " + b], DefaultLimit).search == "indications_and_usage:\"" + a + "%20" + b + "\""
    ensures MissRequest(client, q) == SymptomRequest(client, [q], DefaultLimit)
  {
    MissRequestAroundSpace(client, a, b);
    SingleQuotedAroundSpace(client, a, b);
    UrlQuote.QuoteSafeIdentity(q);
  }

  lemma MissRequestAroundSpace(client: FDAClient, a: string, b: string)
    requires UrlQuote.AllSafe(a) && UrlQuote.AllSafe(b)
    ensures MissRequest(client, a + " " + b).search == "indications_and_usage:\"" + a + "%2520" + b + "\""
  {
    QuoteTwiceAroundSpace(a, b);
    SingleTerm(UrlQuote.Quote(a + " " + b));
  }

  lemma SingleQuotedAroundSpace(client: FDAClient, a: string, b: string)
    requires UrlQuote.AllSafe(a) && UrlQuote.AllSafe(b)
    ensures SymptomRequest(client, [a + " " + b], DefaultLimit).search == "indications_and_usage:\"" + a + "%20" + b + "\""
  {
    QuoteTwiceAroundSpace(a, b);
    SingleTerm(a + " " + b);
  }

  lemma QuoteSpace()
    ensures UrlQuote.Quote(" ") == "%20"
  {
    assert UrlQuote.Utf8(" ") == [32];
  }

  lemma QuotePercent()
    ensures UrlQuote.Quote("%") == "%25"
  {
    assert UrlQuote.Utf8("%") == [37];
  }

  /** The search terms of a single term are that term quoted. */
  lemma SingleTerm(term: string)
    ensures SearchTerms([term]) == UrlQuote.Quote(term)
  {
    var quoted := seq(1, i requires 0 <= i < 1 => UrlQuote.Quote([term][i]));
    assert quoted == [UrlQuote.Quote(term)];
  }

  /** Two safe words around a space: one quote escapes the space, a second one escapes the `%`. */
  lemma QuoteTwiceAroundSpace(a: string, b: string)
    requires UrlQuote.AllSafe(a) && UrlQuote.AllSafe(b)
    ensures UrlQuote.Quote(a + " " + b) == a + "%20" + b
    ensures UrlQuote.Quote(UrlQuote.Quote(a + " " + b)) == a + "%2520" + b
  {
    var c := "20" + b;
    assert UrlQuote.AllSafe(c) by {
      forall i | 0 <= i < |c| ensures UrlQuote.IsSafeByte(c[i] as int) {
        if i >= 2 {
          assert c[i] == b[i - 2];
        }
      }
    }
    QuoteSpace();
    QuotePercent();
    QuoteAround(a, b, " ", "%20");
    assert a + "%20" + b == a + "%" + c;
    QuoteAround(a, c, "%", "%25");
    assert a + "%25" + c == a + "%2520" + b;
  }

  /** A character between two safe words is the only part quoting changes. */
  lemma QuoteAround(a: string, b: string, mid: string, quoted: string)
    requires UrlQuote.AllSafe(a) && UrlQuote.AllSafe(b)
    requires UrlQuote.Quote(mid) == quoted
    ensures UrlQuote.Quote(a + mid + b) == a + quoted + b
  {
    UrlQuote.QuoteSafeIdentity(a);
    UrlQuote.QuoteSafeIdentity(b);
    UrlQuote.QuoteAppend(a, mid);
    UrlQuote.QuoteAppend(a + mid, b);
  }

  // ---------------------------------------------------------------------------------------------
  // process_query

  /**
   * The caching loop of a cache miss: every FDA record goes to `cache_medication`, and the
   * records whose call returned an entry are collected, in order.
   */
  method CacheAll(db: HealthcareVectorDB, meds: seq<MedicationRecord>)
    returns (cachedMeds: seq<MedicationRecord>, ghost states: seq<Tables>, ghost entries: seq<Option<MedicationCache>>)
    requires db.Valid()
    modifies db
    ensures db.Valid()
    ensures CacheRun(states, meds, db.embed, entries)
    ensures states[0] == old(db.State()) && states[|meds|] == db.State()
    ensures cachedMeds == Select(meds, Succeeded(entries))
  {
    cachedMeds, states, entries := [], [db.State()], [];
    for k := 0 to |meds|
      invariant db.Valid()
      invariant |states| == k + 1 && |entries| == k
      invariant states[0] == old(db.State()) && states[k] == db.State()
      invariant CacheRun(states, meds[..k], db.embed, entries)
      invariant cachedMeds == Select(meds[..k], Succeeded(entries))
    {
      var entry := db.CacheMedication(meds[k]);
      if entry.Some? {
        cachedMeds := cachedMeds + [meds[k]];
      }
      CollectStep(meds, k, entries, entry);
      CacheRunSnoc(states, meds, k, db.embed, entries, db.State(), entry);
      states, entries := states + [db.State()], entries + [entry];
    }
    assert meds[..|meds|] == meds;
  }

  /** One more call of the caching loop collects its record exactly when it returned an entry. */
  lemma CollectStep(meds: seq<MedicationRecord>, k: nat, entries: seq<Option<MedicationCache>>, entry: Option<MedicationCache>)
    requires k < |meds| && |entries| == k
    ensures Select(meds[..k + 1], Succeeded(entries + [entry]))
      == Select(meds[..k], Succeeded(entries)) + if entry.Some? then [meds[k]] else []
  {
    assert meds[..k + 1] == meds[..k] + [meds[k]];
    assert Succeeded(entries + [entry]) == Succeeded(entries) + [entry.Some?];
    SelectSnoc(meds[..k], meds[k], Succeeded(entries), entry.Some?);
  }

  /**
   * What one `process_query` computed on the way to its outcome: the tables after the first
   * search and its answer, what the client returned, the caching run (`states`, `entries`) and
   * the records it cached, and the answer of the second search.
   */
  datatype Trace = Trace(
    afterFirst: Tables,
    first: seq<(MedicationRecord, real)>,
    fda: Result<seq<MedicationRecord>, ClientError>,
    states: seq<Tables>,
    entries: seq<Option<MedicationCache>>,
    cachedMeds: seq<MedicationRecord>,
    second: seq<(MedicationRecord, real)>)

  /**
   * One `process_query(query)` of `main.py` took the tables from `t` to `t'` and the request log
   * from `sent` to `sent'`, and ended with `outcome` (an `Err` is the exception it raises).
   */
  ghost predicate QueryStep(embed: string -> Embedding, similarity: (Embedding, Embedding) -> real,
                            respond: LabelRequest -> HttpOutcome, apiKey: Option<string>, query: string,
                            t: Tables, sent: seq<LabelRequest>, t': Tables, sent': seq<LabelRequest>,
                            outcome: Result<Display, ClientError>, tr: Trace)
  {
    match NewFDAClient(apiKey)
    // A missing API key raises before anything is searched or sent.
    case Err(_) => outcome == Err(MissingApiKey) && t' == t && sent' == sent
    case Ok(client) =>
      // The cache is searched first.
      && SearchStep(t, tr.afterFirst, query, embed(query), similarity, DefaultSearchLimit, tr.first)
      && if tr.first != [] then
           // A hit is listed and the FDA is never asked.
           outcome == Ok(Recommended(Cache, ShowMatches(tr.first))) && t' == tr.afterFirst && sent' == sent
           && tr.cachedMeds == []
         else
           // A miss asks the FDA exactly once, with the quoted query as the only term.
           && sent' == sent + [MissRequest(client, query)]
           && tr.fda == SearchOutcome(respond(MissRequest(client, query)))
           && match tr.fda
              // An exception of the client propagates.
              case Err(e) => outcome == Err(e) && t' == tr.afterFirst && tr.cachedMeds == []
              case Ok(meds) =>
                if meds == [] then
                  outcome == Ok(NoMedicationsFound) && t' == tr.afterFirst && tr.cachedMeds == []
                else
                  // Every record is cached, then the cache is searched again; the raw records
                  // are the fallback when the second search still finds nothing.
                  && CacheRun(tr.states, meds, embed, tr.entries)
                  && tr.states[0] == tr.afterFirst
                  && tr.cachedMeds == Select(meds, Succeeded(tr.entries))
                  && SearchStep(tr.states[|meds|], t', query, embed(query), similarity, DefaultSearchLimit, tr.second)
                  && outcome == if tr.second != [] then Ok(Recommended(NewlyCached, ShowMatches(tr.second)))
                                else Ok(Recommended(Fda, ShowRecords(meds)))
  }

  /** `process_query(query)` of `main.py`; `trace` is what it computed on the way. */
  method ProcessQuery(db: HealthcareVectorDB, service: LabelService, apiKey: Option<string>, query: string)
    returns (outcome: Result<Display, ClientError>, ghost trace: Trace)
    requires db.Valid()
    modifies db, service
    ensures db.Valid()
    ensures QueryStep(db.embed, db.similarity, service.respond, apiKey, query,
                      old(db.State()), old(service.sent), db.State(), service.sent, outcome, trace)
  {
    trace := Trace(db.State(), [], Ok([]), [], [], [], []);
    var created := NewFDAClient(apiKey);
    if created.Err? {
      return Err(created.error), trace;
    }
    var client := created.value;
    var similarResults, committed, order := db.FindSimilarMedications(query, DefaultSearchLimit);
    trace := trace.(afterFirst := db.State(), first := similarResults);
    if similarResults != [] {
      return Ok(Recommended(Cache, ShowMatches(similarResults))), trace;
    }
    var encodedQuery := UrlQuote.Quote(query);
    var medications := SearchMedications(client, service, [encodedQuery], DefaultLimit);
    trace := trace.(fda := medications);
    if medications.Err? {
      return Err(medications.error), trace;
    }
    if medications.value == [] {
      return Ok(NoMedicationsFound), trace;
    }
    var cachedMeds, states, entries := CacheAll(db, medications.value);
    var again, committedAgain, orderAgain := db.FindSimilarMedications(query, DefaultSearchLimit);
    trace := trace.(states := states, entries := entries, cachedMeds := cachedMeds, second := again);
    if again != [] {
      outcome := Ok(Recommended(NewlyCached, ShowMatches(again)));
    } else {
      outcome := Ok(Recommended(Fda, ShowRecords(medications.value)));
    }
  }

  /** A query step sends at most one request, and without an API key it changes nothing. */
  lemma QueryStepSends(embed: string -> Embedding, similarity: (Embedding, Embedding) -> real,
                       respond: LabelRequest -> HttpOutcome, apiKey: Option<string>, query: string,
                       t: Tables, sent: seq<LabelRequest>, t': Tables, sent': seq<LabelRequest>,
                       outcome: Result<Display, ClientError>, tr: Trace)
    requires QueryStep(embed, similarity, respond, apiKey, query, t, sent, t', sent', outcome, tr)
    ensures |sent| <= |sent'| <= |sent| + 1
    ensures NewFDAClient(apiKey).Err? ==> outcome == Err(MissingApiKey) && t' == t && sent' == sent
  {
  }

  // ---------------------------------------------------------------------------------------------
  // main

  /**
   * The k-th call of a run of `process_query` calls: it takes the tables and the request log
   * from their k-th to their next value and ends with `outcomes[k]`.
   */
  ghost predicate QueryStepAt(embed: string -> Embedding, similarity: (Embedding, Embedding) -> real,
                              respond: LabelRequest -> HttpOutcome, apiKey: Option<string>, queries: seq<string>,
                              tables: seq<Tables>, logs: seq<seq<LabelRequest>>,
                              outcomes: seq<Result<Display, ClientError>>, traces: seq<Trace>, k: nat)
    requires k < |queries| && |tables| == |queries| + 1 && |logs| == |queries| + 1
    requires |outcomes| == |queries| && |traces| == |queries|
  {
    QueryStep(embed, similarity, respond, apiKey, queries[k], tables[k], logs[k], tables[k + 1], logs[k + 1],
              outcomes[k], traces[k])
  }

  /**
   * A run of `process_query` calls, one per query in order: `tables[k]` and `logs[k]` are the
   * tables and the request log before the k-th call, `outcomes[k]` how it ended.
   */
  ghost predicate QueryRun(embed: string -> Embedding, similarity: (Embedding, Embedding) -> real,
                           respond: LabelRequest -> HttpOutcome, apiKey: Option<string>, queries: seq<string>,
                           tables: seq<Tables>, logs: seq<seq<LabelRequest>>,
                           outcomes: seq<Result<Display, ClientError>>, traces: seq<Trace>)
  {
    && |tables| == |queries| + 1 && |logs| == |queries| + 1
    && |outcomes| == |queries| && |traces| == |queries|
    && forall k :: 0 <= k < |queries| ==>
         QueryStepAt(embed, similarity, respond, apiKey, queries, tables, logs, outcomes, traces, k)
  }

  /** A run over the first `k` queries followed by the call for the next one is a run. */
  lemma QueryRunSnoc(embed: string -> Embedding, similarity: (Embedding, Embedding) -> real,
                     respond: LabelRequest -> HttpOutcome, apiKey: Option<string>, queries: seq<string>, k: nat,
                     tables: seq<Tables>, logs: seq<seq<LabelRequest>>,
                     outcomes: seq<Result<Display, ClientError>>, traces: seq<Trace>,
                     t': Tables, sent': seq<LabelRequest>, outcome: Result<Display, ClientError>, tr: Trace)
    requires k < |queries| && QueryRun(embed, similarity, respond, apiKey, queries[..k], tables, logs, outcomes, traces)
    requires QueryStep(embed, similarity, respond, apiKey, queries[k], tables[k], logs[k], t', sent', outcome, tr)
    ensures QueryRun(embed, similarity, respond, apiKey, queries[..k + 1], tables + [t'], logs + [sent'],
                     outcomes + [outcome], traces + [tr])
  {
    var queries', tables', logs', outcomes', traces' := queries[..k + 1], tables + [t'], logs + [sent'], outcomes + [outcome], traces + [tr];
    forall j | 0 <= j < k + 1
      ensures QueryStepAt(embed, similarity, respond, apiKey, queries', tables', logs', outcomes', traces', j)
    {
      assert queries'[j] == queries[j];
      if j < k {
        assert QueryStepAt(embed, similarity, respond, apiKey, queries[..k], tables, logs, outcomes, traces, j);
        assert queries[..k][j] == queries[j];
        assert tables'[j] == tables[j] && tables'[j + 1] == tables[j + 1];
        assert logs'[j] == logs[j] && logs'[j + 1] == logs[j + 1];
        assert outcomes'[j] == outcomes[j] && traces'[j] == traces[j];
      }
    }
  }

  /**
   * One pass of the loop of `main()`: announce the `i`-th example query and process it, which
   * extends the run of the queries before it by one call.
   */
  method RunExample(db: HealthcareVectorDB, service: LabelService, apiKey: Option<string>, i: nat,
                    ghost tables: seq<Tables>, ghost logs: seq<seq<LabelRequest>>,
                    ghost outcomes: seq<Result<Display, ClientError>>, ghost traces: seq<Trace>)
    returns (outcome: Result<Display, ClientError>, ghost trace: Trace)
    requires db.Valid() && i < |ExampleQueries|
    requires QueryRun(db.embed, db.similarity, service.respond, apiKey, ExampleQueries[..i], tables, logs, outcomes, traces)
    requires tables[i] == db.State() && logs[i] == service.sent
    modifies db, service
    ensures db.Valid()
    ensures QueryRun(db.embed, db.similarity, service.respond, apiKey, ExampleQueries[..i + 1],
                     tables + [db.State()], logs + [service.sent], outcomes + [outcome], traces + [trace])
    ensures |old(service.sent)| <= |service.sent| <= |old(service.sent)| + 1
    ensures NewFDAClient(apiKey).Err? ==>
      && outcome == Err(MissingApiKey)
      && db.State() == old(db.State()) && service.sent == old(service.sent)
  {
    outcome, trace := ProcessQuery(db, service, apiKey, ExampleQueries[i]);
    QueryStepSends(db.embed, db.similarity, service.respond, apiKey, ExampleQueries[i], tables[i], logs[i],
                   db.State(), service.sent, outcome, trace);
    QueryRunSnoc(db.embed, db.similarity, service.respond, apiKey, ExampleQueries, i, tables, logs, outcomes, traces,
                 db.State(), service.sent, outcome, trace);
  }

  /**
   * `main()`: the example queries in order until one raises. `outcomes` are the outcomes of the
   * queries processed, the run of `process_query` calls that produced them is `tables`, `logs`
   * and `traces`, and the exit status is 1 exactly when the last of them raised.
   */
  method RunMain(db: HealthcareVectorDB, service: LabelService, apiKey: Option<string>)
    returns (exitStatus: int, ghost outcomes: seq<Result<Display, ClientError>>,
             ghost tables: seq<Tables>, ghost logs: seq<seq<LabelRequest>>, ghost traces: seq<Trace>)
    requires db.Valid()
    modifies db, service
    ensures db.Valid()
    // The example queries processed, in order, each by `process_query` on the state the
    // previous one left.
    ensures 1 <= |outcomes| <= |ExampleQueries|
    ensures QueryRun(db.embed, db.similarity, service.respond, apiKey, ExampleQueries[..|outcomes|],
                     tables, logs, outcomes, traces)
    ensures tables[0] == old(db.State()) && tables[|outcomes|] == db.State()
    ensures logs[0] == old(service.sent) && logs[|outcomes|] == service.sent
    // Every query before the last succeeded; the exit status says how the last one ended.
    ensures exitStatus == 0 || exitStatus == 1
    ensures forall i :: 0 <= i < |outcomes| - 1 ==> outcomes[i].Ok?
    ensures exitStatus == 0 <==> |outcomes| == |ExampleQueries| && outcomes[|outcomes| - 1].Ok?
    ensures exitStatus == 1 <==> outcomes[|outcomes| - 1].Err?
    // At most one FDA request per processed query.
    ensures |old(service.sent)| <= |service.sent| <= |old(service.sent)| + |outcomes|
    // Without an API key the first query raises and nothing is touched.
    ensures NewFDAClient(apiKey).Err? ==>
      && exitStatus == 1 && outcomes == [Err(MissingApiKey)]
      && db.State() == old(db.State()) && service.sent == old(service.sent)
  {
    outcomes, tables, logs, traces := [], [db.State()], [service.sent], [];
    exitStatus := 0;
    var i := 0;
    while i < |ExampleQueries| && exitStatus == 0
      invariant 0 <= i <= |ExampleQueries|
      invariant db.Valid()
      invariant |outcomes| == i
      invariant QueryRun(db.embed, db.similarity, service.respond, apiKey, ExampleQueries[..i], tables, logs, outcomes, traces)
      invariant tables[0] == old(db.State()) && tables[i] == db.State()
      invariant logs[0] == old(service.sent) && logs[i] == service.sent
      invariant exitStatus == 0 ==> forall j :: 0 <= j < i ==> outcomes[j].Ok?
      invariant exitStatus == 1 ==>
        && i >= 1 && outcomes[i - 1].Err?
        && forall j :: 0 <= j < i - 1 ==> outcomes[j].Ok?
      invariant exitStatus == 0 || exitStatus == 1
      invariant |old(service.sent)| <= |service.sent| <= |old(service.sent)| + i
      invariant NewFDAClient(apiKey).Err? ==>
        && db.State() == old(db.State()) && service.sent == old(service.sent)
        && (exitStatus == 0 ==> i == 0)
        && (exitStatus == 1 ==> outcomes == [Err(MissingApiKey)])
    {
      var outcome, trace := RunExample(db, service, apiKey, i, tables, logs, outcomes, traces);
      outcomes, tables, logs, traces := outcomes + [outcome], tables + [db.State()], logs + [service.sent], traces + [trace];
      if outcome.Err? {
        exitStatus := 1;
      }
      i := i + 1;
    }
  }
}
