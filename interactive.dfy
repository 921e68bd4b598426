/**
 * The interactive front end of `interactive.py`: a prompt loop that strips each input line,
 * stops at `quit` in any letter case, and otherwise processes the line as a query. Its
 * `process_query` searches the cache first and on a miss caches and lists the FDA records
 * directly, without a second search; an exception is reported and the session goes on.
 *
 * The lines typed at the prompt are the sequence `input`; running out of it is the end of input.
 */
module Interactive {

  import opened Basics
  import opened FdaClient
  import opened VectorDb
  import opened Presentation

  // ---------------------------------------------------------------------------------------------
  // Reading a line

  /** Python's `str.isspace` for one character: the Unicode whitespace characters. */
  predicate IsSpace(c: char) {
    || ('\t' <= c <= '\r') || ('\U{1C}' <= c <= ' ') || c == '\U{85}' || c == '\U{A0}'
    || c == '\U{1680}' || ('\U{2000}' <= c <= '\U{200A}') || c == '\U{2028}' || c == '\U{2029}'
    || c == '\U{202F}' || c == '\U{205F}' || c == '\U{3000}'
  }

  /** `s.lstrip()`: the suffix that starts at the first non-space character. */
  function StripLeft(s: string): (r: string)
    ensures |r| <= |s|
  {
    if s == [] || !IsSpace(s[0]) then s else StripLeft(s[1..])
  }

  /** `s.rstrip()`: the prefix that ends at the last non-space character. */
  function StripRight(s: string): (r: string)
    ensures |r| <= |s|
  {
    if s == [] || !IsSpace(s[|s| - 1]) then s else StripRight(s[..|s| - 1])
  }

  /** `s.strip()`. */
  function Strip(s: string): string {
    StripRight(StripLeft(s))
  }

  /** `lstrip` removes exactly the leading spaces. */
  lemma {:induction false} StripLeftSpaces(s: string)
    ensures StripLeft(s) == s[|s| - |StripLeft(s)|..]
    ensures forall i :: 0 <= i < |s| - |StripLeft(s)| ==> IsSpace(s[i])
    ensures StripLeft(s) == [] || !IsSpace(StripLeft(s)[0])
  {
    if s != [] && IsSpace(s[0]) {
      StripLeftSpaces(s[1..]);
      forall i | 1 <= i < |s| - |StripLeft(s)| ensures IsSpace(s[i]) {
        assert s[i] == s[1..][i - 1];
      }
    }
  }

  /** `rstrip` removes exactly the trailing spaces. */
  lemma {:induction false} StripRightSpaces(s: string)
    ensures StripRight(s) == s[..|StripRight(s)|]
    ensures forall i :: |StripRight(s)| <= i < |s| ==> IsSpace(s[i])
    ensures StripRight(s) == [] || !IsSpace(StripRight(s)[|StripRight(s)| - 1])
  {
    if s != [] && IsSpace(s[|s| - 1]) {
      var init := s[..|s| - 1];
      StripRightSpaces(init);
      var r := StripRight(s);
      assert r == StripRight(init);
      assert init[..|r|] == s[..|r|];
      forall i | |r| <= i < |s| - 1 ensures IsSpace(s[i]) {
        assert s[i] == init[i];
      }
    }
  }

  /**
   * The stripped line is a slice of the line with only spaces around it, and it neither starts
   * nor ends with a space.
   */
  lemma StripSlice(s: string)
    ensures var r, lo := Strip(s), |s| - |StripLeft(s)|;
      && lo + |r| <= |s| && r == s[lo..lo + |r|]
      && (forall i :: 0 <= i < lo ==> IsSpace(s[i]))
      && (forall i :: lo + |r| <= i < |s| ==> IsSpace(s[i]))
    ensures Strip(s) == [] || (!IsSpace(Strip(s)[0]) && !IsSpace(Strip(s)[|Strip(s)| - 1]))
  {
    var l := StripLeft(s);
    StripLeftSpaces(s);
    StripRightSpaces(l);
    SliceOfSuffix(s, l, StripRight(l), |s| - |l|);
    StripEnds(s);
  }

  lemma StripEnds(s: string)
    ensures Strip(s) == [] || (!IsSpace(Strip(s)[0]) && !IsSpace(Strip(s)[|Strip(s)| - 1]))
  {
    var l := StripLeft(s);
    var r := StripRight(l);
    StripLeftSpaces(s);
    StripRightSpaces(l);
    if r != [] {
      assert r[0] == l[0];
    }
  }

  /** A prefix `r` of the suffix `l` of `s` that starts at `lo` is a slice of `s`. */
  lemma SliceOfSuffix(s: string, l: string, r: string, lo: nat)
    requires lo <= |s| && l == s[lo..] && |r| <= |l| && r == l[..|r|]
    requires forall i :: |r| <= i < |l| ==> IsSpace(l[i])
    ensures lo + |r| <= |s| && r == s[lo..lo + |r|]
    ensures forall i :: lo + |r| <= i < |s| ==> IsSpace(s[i])
  {
    forall i | lo + |r| <= i < |s| ensures IsSpace(s[i]) {
      assert s[i] == l[i - lo];
    }
  }

  /** Stripping twice strips nothing more. */
  lemma StripIdempotent(s: string)
    ensures Strip(Strip(s)) == Strip(s)
  {
    var r := Strip(s);
    StripSlice(s);
    if r != [] {
      assert StripLeft(r) == r;
      assert StripRight(r) == r;
    }
  }

  /** `s.lower()` on ASCII letters; every other character is kept. */
  function Lower(s: string): (r: string)
    ensures |r| == |s|
    ensures forall i :: 0 <= i < |s| ==>
      r[i] == if 'A' <= s[i] <= 'Z' then (s[i] as int - 'A' as int + 'a' as int) as char else s[i]
  {
    seq(|s|, i requires 0 <= i < |s| => if 'A' <= s[i] <= 'Z' then (s[i] as int - 'A' as int + 'a' as int) as char else s[i])
  }

  /**
   * Lower-casing leaves no upper-case ASCII letter, changes nothing a second time, and changes
   * only upper-case letters.
   */
  lemma LowerProperties(s: string)
    ensures |Lower(s)| == |s|
    ensures forall i :: 0 <= i < |s| ==> !('A' <= Lower(s)[i] <= 'Z')
    ensures Lower(Lower(s)) == Lower(s)
    ensures forall i :: 0 <= i < |s| && Lower(s)[i] != s[i] ==> 'A' <= s[i] <= 'Z'
    ensures (forall i :: 0 <= i < |s| ==> !('A' <= s[i] <= 'Z')) ==> Lower(s) == s
  {
  }

  /** `query.lower() == "quit"` for the stripped line. */
  predicate IsQuit(query: string) {
    Lower(query) == "quit"
  }

  /** A line is the sentinel exactly when, stripped, it spells q-u-i-t in any mix of letter cases. */
  lemma IsQuitSpelling(query: string)
    ensures IsQuit(query) <==>
      && |query| == 4
      && (query[0] == 'q' || query[0] == 'Q') && (query[1] == 'u' || query[1] == 'U')
      && (query[2] == 'i' || query[2] == 'I') && (query[3] == 't' || query[3] == 'T')
  {
    if |query| == 4 {
      var low := Lower(query);
      assert IsQuit(query) <==> low[0] == 'q' && low[1] == 'u' && low[2] == 'i' && low[3] == 't';
    }
  }

  // ---------------------------------------------------------------------------------------------
  // process_query

  /**
   * The cache-and-list loop of a cache miss: every FDA record goes to `cache_medication` and is
   * then listed, in order, whatever the cache call returned.
   */
  method CacheAndList(db: HealthcareVectorDB, meds: seq<MedicationRecord>)
    returns (shown: seq<Shown>, ghost states: seq<Tables>, ghost entries: seq<Option<MedicationCache>>)
    requires db.Valid()
    modifies db
    ensures db.Valid()
    ensures CacheRun(states, meds, db.embed, entries)
    ensures states[0] == old(db.State()) && states[|meds|] == db.State()
    ensures shown == ShowRecords(meds)
  {
    shown, states, entries := [], [db.State()], [];
    for k := 0 to |meds|
      invariant db.Valid()
      invariant |states| == k + 1 && |entries| == k
      invariant states[0] == old(db.State()) && states[k] == db.State()
      invariant CacheRun(states, meds[..k], db.embed, entries)
      invariant shown == ShowRecords(meds[..k])
    {
      var entry := db.CacheMedication(meds[k]);
      shown := shown + [ShowRecord(meds[k])];
      CacheRunSnoc(states, meds, k, db.embed, entries, db.State(), entry);
      states, entries := states + [db.State()], entries + [entry];
    }
    assert meds[..|meds|] == meds;
  }

  /**
   * What one `process_query` computed on the way to its answer: the tables after the cache
   * search and its answer, what the client returned, and the caching run (`states`, `entries`).
   */
  datatype Trace = Trace(
    afterFirst: Tables,
    first: seq<(MedicationRecord, real)>,
    fda: Result<seq<MedicationRecord>, ClientError>,
    states: seq<Tables>,
    entries: seq<Option<MedicationCache>>)

  /**
   * One `process_query(query)` of `interactive.py` took the tables from `t` to `t'` and the
   * request log from `sent` to `sent'`, and showed `display`.
   */
  ghost predicate QueryStep(embed: string -> Embedding, similarity: (Embedding, Embedding) -> real,
                            respond: LabelRequest -> HttpOutcome, apiKey: Option<string>, query: string,
                            t: Tables, sent: seq<LabelRequest>, t': Tables, sent': seq<LabelRequest>,
                            display: Display, tr: Trace)
  {
    match NewFDAClient(apiKey)
    // A missing API key is reported before anything is searched or sent.
    case Err(_) => display == ErrorReported(MissingApiKey) && t' == t && sent' == sent
    case Ok(client) =>
      // The cache is searched first.
      && SearchStep(t, tr.afterFirst, query, embed(query), similarity, DefaultSearchLimit, tr.first)
      && if tr.first != [] then
           // A hit is listed and the FDA is never asked.
           display == Recommended(Cache, ShowMatches(tr.first)) && t' == tr.afterFirst && sent' == sent
         else
           // A miss asks the FDA exactly once, with the query itself as the only term.
           && sent' == sent + [SymptomRequest(client, [query], DefaultLimit)]
           && tr.fda == SearchOutcome(respond(SymptomRequest(client, [query], DefaultLimit)))
           && match tr.fda
              // An exception of the client is reported, not raised.
              case Err(e) => display == ErrorReported(e) && t' == tr.afterFirst
              case Ok(meds) =>
                if meds == [] then
                  display == NoMedicationsFound && t' == tr.afterFirst
                else
                  // Every record is cached and listed as the FDA returned it; no second search.
                  && CacheRun(tr.states, meds, embed, tr.entries)
                  && tr.states[0] == tr.afterFirst && tr.states[|meds|] == t'
                  && display == Recommended(Fda, ShowRecords(meds))
  }

  /** `process_query(query)` of `interactive.py`; `trace` is what it computed on the way. */
  method ProcessQuery(db: HealthcareVectorDB, service: LabelService, apiKey: Option<string>, query: string)
    returns (display: Display, ghost trace: Trace)
    requires db.Valid()
    modifies db, service
    ensures db.Valid()
    ensures QueryStep(db.embed, db.similarity, service.respond, apiKey, query,
                      old(db.State()), old(service.sent), db.State(), service.sent, display, trace)
  {
    trace := Trace(db.State(), [], Ok([]), [], []);
    var created := NewFDAClient(apiKey);
    if created.Err? {
      return ErrorReported(created.error), trace;
    }
    var client := created.value;
    var similarResults, committed, order := db.FindSimilarMedications(query, DefaultSearchLimit);
    trace := trace.(afterFirst := db.State(), first := similarResults);
    if similarResults != [] {
      return Recommended(Cache, ShowMatches(similarResults)), trace;
    }
    var medications := SearchMedications(client, service, [query], DefaultLimit);
    trace := trace.(fda := medications);
    if medications.Err? {
      return ErrorReported(medications.error), trace;
    }
    if medications.value == [] {
      return NoMedicationsFound, trace;
    }
    var shown, states, entries := CacheAndList(db, medications.value);
    trace := trace.(states := states, entries := entries);
    display := Recommended(Fda, shown);
  }

  /** A query step sends at most one request, and without an API key it changes nothing. */
  lemma QueryStepSends(embed: string -> Embedding, similarity: (Embedding, Embedding) -> real,
                       respond: LabelRequest -> HttpOutcome, apiKey: Option<string>, query: string,
                       t: Tables, sent: seq<LabelRequest>, t': Tables, sent': seq<LabelRequest>,
                       display: Display, tr: Trace)
    requires QueryStep(embed, similarity, respond, apiKey, query, t, sent, t', sent', display, tr)
    ensures |sent| <= |sent'| <= |sent| + 1
    ensures NewFDAClient(apiKey).Err? ==> display == ErrorReported(MissingApiKey) && t' == t && sent' == sent
  {
  }

  /**
   * The k-th call of a run of `process_query` calls: it takes the tables and the request log
   * from their k-th to their next value and ends with `answers[k]`.
   */
  ghost predicate QueryStepAt(embed: string -> Embedding, similarity: (Embedding, Embedding) -> real,
                              respond: LabelRequest -> HttpOutcome, apiKey: Option<string>, queries: seq<string>,
                              tables: seq<Tables>, logs: seq<seq<LabelRequest>>,
                              answers: seq<Display>, traces: seq<Trace>, k: nat)
    requires k < |queries| && |tables| == |queries| + 1 && |logs| == |queries| + 1
    requires |answers| == |queries| && |traces| == |queries|
  {
    QueryStep(embed, similarity, respond, apiKey, queries[k], tables[k], logs[k], tables[k + 1], logs[k + 1],
              answers[k], traces[k])
  }

  /**
   * A run of `process_query` calls, one per query in order: `tables[k]` and `logs[k]` are the
   * tables and the request log before the k-th call, `answers[k]` what it showed.
   */
  ghost predicate QueryRun(embed: string -> Embedding, similarity: (Embedding, Embedding) -> real,
                           respond: LabelRequest -> HttpOutcome, apiKey: Option<string>, queries: seq<string>,
                           tables: seq<Tables>, logs: seq<seq<LabelRequest>>,
                           answers: seq<Display>, traces: seq<Trace>)
  {
    && |tables| == |queries| + 1 && |logs| == |queries| + 1
    && |answers| == |queries| && |traces| == |queries|
    && forall k :: 0 <= k < |queries| ==>
         QueryStepAt(embed, similarity, respond, apiKey, queries, tables, logs, answers, traces, k)
  }

  /** A run followed by one more call is a run. */
  lemma QueryRunSnoc(embed: string -> Embedding, similarity: (Embedding, Embedding) -> real,
                     respond: LabelRequest -> HttpOutcome, apiKey: Option<string>, queries: seq<string>,
                     tables: seq<Tables>, logs: seq<seq<LabelRequest>>, answers: seq<Display>, traces: seq<Trace>,
                     query: string, t': Tables, sent': seq<LabelRequest>, display: Display, tr: Trace)
    requires QueryRun(embed, similarity, respond, apiKey, queries, tables, logs, answers, traces)
    requires QueryStep(embed, similarity, respond, apiKey, query, tables[|queries|], logs[|queries|], t', sent', display, tr)
    ensures QueryRun(embed, similarity, respond, apiKey, queries + [query], tables + [t'], logs + [sent'],
                     answers + [display], traces + [tr])
  {
    var n := |queries|;
    var queries', tables', logs', answers', traces' := queries + [query], tables + [t'], logs + [sent'], answers + [display], traces + [tr];
    forall j | 0 <= j < n + 1
      ensures QueryStepAt(embed, similarity, respond, apiKey, queries', tables', logs', answers', traces', j)
    {
      if j < n {
        assert QueryStepAt(embed, similarity, respond, apiKey, queries, tables, logs, answers, traces, j);
        assert queries'[j] == queries[j];
        assert tables'[j] == tables[j] && tables'[j + 1] == tables[j + 1];
        assert logs'[j] == logs[j] && logs'[j + 1] == logs[j + 1];
        assert answers'[j] == answers[j] && traces'[j] == traces[j];
      }
    }
  }

  /**
   * One query of the session loop: process the line, which extends the run of the queries
   * processed before it by one call.
   */
  method AnswerQuery(db: HealthcareVectorDB, service: LabelService, apiKey: Option<string>, query: string,
                     ghost processed: seq<string>, ghost tables: seq<Tables>, ghost logs: seq<seq<LabelRequest>>,
                     ghost answers: seq<Display>, ghost traces: seq<Trace>)
    returns (display: Display, ghost trace: Trace)
    requires db.Valid()
    requires QueryRun(db.embed, db.similarity, service.respond, apiKey, processed, tables, logs, answers, traces)
    requires tables[|processed|] == db.State() && logs[|processed|] == service.sent
    modifies db, service
    ensures db.Valid()
    ensures QueryRun(db.embed, db.similarity, service.respond, apiKey, processed + [query],
                     tables + [db.State()], logs + [service.sent], answers + [display], traces + [trace])
    ensures |old(service.sent)| <= |service.sent| <= |old(service.sent)| + 1
    ensures NewFDAClient(apiKey).Err? ==>
      && display == ErrorReported(MissingApiKey)
      && db.State() == old(db.State()) && service.sent == old(service.sent)
  {
    display, trace := ProcessQuery(db, service, apiKey, query);
    QueryStepSends(db.embed, db.similarity, service.respond, apiKey, query, tables[|processed|], logs[|processed|],
                   db.State(), service.sent, display, trace);
    QueryRunSnoc(db.embed, db.similarity, service.respond, apiKey, processed, tables, logs, answers, traces,
                 query, db.State(), service.sent, display, trace);
  }

  // ---------------------------------------------------------------------------------------------
  // interactive_session

  /** What the session prints after a query: its listing, then the disclaimer. */
  datatype Printed = Answer(display: Display) | Disclaimer

  /** The lines as `input().strip()` returns them. */
  function StripAll(input: seq<string>): (lines: seq<string>)
    ensures |lines| == |input|
    ensures forall i :: 0 <= i < |input| ==> lines[i] == Strip(input[i])
  {
    seq(|input|, i requires 0 <= i < |input| => Strip(input[i]))
  }

  /** Every line as read is already stripped: it has no whitespace at either end. */
  lemma StripAllStripped(input: seq<string>)
    ensures forall i :: 0 <= i < |input| ==> Strip(StripAll(input)[i]) == StripAll(input)[i]
    ensures forall i :: 0 <= i < |input| && StripAll(input)[i] != [] ==>
      var l := StripAll(input)[i]; !IsSpace(l[0]) && !IsSpace(l[|l| - 1])
  {
    forall i | 0 <= i < |input|
      ensures Strip(StripAll(input)[i]) == StripAll(input)[i]
      ensures StripAll(input)[i] != [] ==>
        var l := StripAll(input)[i]; !IsSpace(l[0]) && !IsSpace(l[|l| - 1])
    {
      StripIdempotent(input[i]);
      StripSlice(input[i]);
    }
  }

  /** The queries a session processes: the (stripped) lines before the first `quit`. */
  function SessionQueries(lines: seq<string>): seq<string> {
    if lines == [] || IsQuit(lines[0]) then [] else [lines[0]] + SessionQueries(lines[1..])
  }

  /**
   * The session processes the lines, in order, up to and excluding the first `quit`; none of
   * the processed queries is the sentinel, and when the session stops before the end of input
   * the next line is the sentinel.
   */
  lemma {:induction false} SessionQueriesStopAtQuit(lines: seq<string>)
    ensures |SessionQueries(lines)| <= |lines|
    ensures SessionQueries(lines) == lines[..|SessionQueries(lines)|]
    ensures forall k :: 0 <= k < |SessionQueries(lines)| ==> !IsQuit(lines[k])
    ensures |SessionQueries(lines)| < |lines| ==> IsQuit(lines[|SessionQueries(lines)|])
    ensures |SessionQueries(lines)| == |lines| <==> forall k :: 0 <= k < |lines| ==> !IsQuit(lines[k])
  {
    if lines != [] && !IsQuit(lines[0]) {
      var tail := lines[1..];
      SessionQueriesStopAtQuit(tail);
      var rest := SessionQueries(tail);
      assert SessionQueries(lines) == [lines[0]] + rest;
      assert [lines[0]] + tail[..|rest|] == lines[..|rest| + 1];
      forall k | 0 <= k < |rest| + 1 ensures !IsQuit(lines[k]) {
        if k > 0 {
          assert lines[k] == tail[k - 1];
        }
      }
      if |rest| == |tail| {
        forall k | 0 <= k < |lines| ensures !IsQuit(lines[k]) {
          if k > 0 {
            assert lines[k] == tail[k - 1];
          }
        }
      } else {
        assert tail[|rest|] == lines[|rest| + 1];
      }
    }
  }

  /** What the session prints for the answers it gave: each answer, then the disclaimer. */
  function WithDisclaimers(answers: seq<Display>): (r: seq<Printed>)
    ensures |r| == 2 * |answers|
  {
    if answers == [] then []
    else
      var n := |answers| - 1;
      WithDisclaimers(answers[..n]) + [Answer(answers[n]), Disclaimer]
  }

  lemma WithDisclaimersSnoc(answers: seq<Display>, d: Display)
    ensures WithDisclaimers(answers + [d]) == WithDisclaimers(answers) + [Answer(d), Disclaimer]
  {
    assert (answers + [d])[..|answers|] == answers;
  }

  /** The k-th answer is printed at position 2k and the disclaimer right after it. */
  lemma {:induction false} WithDisclaimersLayout(answers: seq<Display>)
    ensures forall k :: 0 <= k < |answers| ==>
      WithDisclaimers(answers)[2 * k] == Answer(answers[k]) && WithDisclaimers(answers)[2 * k + 1] == Disclaimer
  {
    if answers != [] {
      var n := |answers| - 1;
      WithDisclaimersLayout(answers[..n]);
      var r, p := WithDisclaimers(answers), WithDisclaimers(answers[..n]);
      assert r == p + [Answer(answers[n]), Disclaimer];
      forall k | 0 <= k < |answers| ensures r[2 * k] == Answer(answers[k]) && r[2 * k + 1] == Disclaimer {
        if k < n {
          assert r[2 * k] == p[2 * k] && r[2 * k + 1] == p[2 * k + 1];
          assert answers[..n][k] == answers[k];
        }
      }
    }
  }

  /**
   * `interactive_session()` over the lines `input`: `processed` are the queries handed to
   * `process_query`, `answers` what each of them showed, `transcript` what the session printed
   * after reading them, and `endOfInput` whether the input ran out before a `quit`. The run of
   * `process_query` calls that gave the answers is `tables`, `logs` and `traces`.
   */
  method InteractiveSession(db: HealthcareVectorDB, service: LabelService, apiKey: Option<string>, input: seq<string>)
    returns (transcript: seq<Printed>, processed: seq<string>, answers: seq<Display>, endOfInput: bool,
             ghost tables: seq<Tables>, ghost logs: seq<seq<LabelRequest>>, ghost traces: seq<Trace>)
    requires db.Valid()
    modifies db, service
    ensures db.Valid()
    ensures processed == SessionQueries(StripAll(input))
    ensures endOfInput <==> |processed| == |input|
    // Each processed query is answered by `process_query` on the state the previous one left.
    ensures QueryRun(db.embed, db.similarity, service.respond, apiKey, processed, tables, logs, answers, traces)
    ensures tables[0] == old(db.State()) && tables[|processed|] == db.State()
    ensures logs[0] == old(service.sent) && logs[|processed|] == service.sent
    // Every processed query is answered and then followed by the disclaimer.
    ensures |answers| == |processed| && transcript == WithDisclaimers(answers)
    // At most one FDA request per processed query.
    ensures |old(service.sent)| <= |service.sent| <= |old(service.sent)| + |processed|
    // Without an API key every query is reported as failing and nothing is touched.
    ensures NewFDAClient(apiKey).Err? ==>
      && (forall k :: 0 <= k < |answers| ==> answers[k] == ErrorReported(MissingApiKey))
      && db.State() == old(db.State()) && service.sent == old(service.sent)
  {
    transcript, processed, answers, endOfInput := [], [], [], false;
    tables, logs, traces := [db.State()], [service.sent], [];
    var lines := StripAll(input);
    var i := 0;
    while true
      invariant 0 <= i <= |input|
      invariant db.Valid()
      invariant processed == SessionQueries(lines[..i])
      invariant |processed| == i && |answers| == i
      invariant transcript == WithDisclaimers(answers)
      invariant QueryRun(db.embed, db.similarity, service.respond, apiKey, processed, tables, logs, answers, traces)
      invariant tables[0] == old(db.State()) && tables[i] == db.State()
      invariant logs[0] == old(service.sent) && logs[i] == service.sent
      invariant |old(service.sent)| <= |service.sent| <= |old(service.sent)| + i
      invariant NewFDAClient(apiKey).Err? ==>
        && (forall k :: 0 <= k < i ==> answers[k] == ErrorReported(MissingApiKey))
        && db.State() == old(db.State()) && service.sent == old(service.sent)
      decreases |input| - i
    {
      if i == |input| {
        assert lines[..i] == lines;
        endOfInput := true;
        break;
      }
      var query := lines[i];
      SessionStep(lines, i);
      if IsQuit(query) {
        break;
      }
      var display, trace := AnswerQuery(db, service, apiKey, query, processed, tables, logs, answers, traces);
      tables, logs, traces := tables + [db.State()], logs + [service.sent], traces + [trace];
      WithDisclaimersSnoc(answers, display);
      transcript := transcript + [Answer(display), Disclaimer];
      answers := answers + [display];
      processed := processed + [query];
      i := i + 1;
    }
    SessionQueriesStopAtQuit(lines);
  }

  /** How the queries of the first `i` lines grow by the next line. */
  lemma SessionStep(lines: seq<string>, i: nat)
    requires i < |lines| && |SessionQueries(lines[..i])| == i
    ensures IsQuit(lines[i]) ==> SessionQueries(lines) == SessionQueries(lines[..i])
    ensures !IsQuit(lines[i]) ==> SessionQueries(lines[..i + 1]) == SessionQueries(lines[..i]) + [lines[i]]
  {
    assert lines[..i + 1] == lines[..i] + [lines[i]];
    assert lines == lines[..i] + lines[i..];
    SessionAppend(lines[..i], [lines[i]]);
    SessionAppend(lines[..i], lines[i..]);
  }

  /** Past a stretch of input without `quit`, the session's queries continue with those of the rest. */
  lemma {:induction false} SessionAppend(p: seq<string>, rest: seq<string>)
    requires |SessionQueries(p)| == |p|
    ensures SessionQueries(p + rest) == SessionQueries(p) + SessionQueries(rest)
  {
    if p == [] {
      assert p + rest == rest;
    } else {
      SessionQueriesStopAtQuit(p);
      assert !IsQuit(p[0]);
      assert (p + rest)[0] == p[0] && (p + rest)[1..] == p[1..] + rest;
      assert |SessionQueries(p[1..])| == |p[1..]|;
      SessionAppend(p[1..], rest);
    }
  }
}
