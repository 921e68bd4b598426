/**
 * The similarity store `HealthcareVectorDB`: three tables (`medication_cache`, `query_history`,
 * `search_results`), an upsert of medications keyed on (brand name, generic name), and a
 * similarity search that records the query and its ranked results.
 *
 * The sentence embedding and the pgvector cosine similarity are oracles: the store is given a
 * function `embed` from text to embedding and a function `similarity` from two embeddings to a
 * score. A database error inside either operation is a nondeterministic choice; it rolls the
 * session back, so the committed tables are exactly the ones before the call. Row ids (uuid4 in
 * the program) come from one counter `nextId` that only grows, which makes them fresh.
 */
module VectorDb {

  import opened Basics
  import opened FdaClient
  import opened Ranking

  type Embedding = seq<real>

  /** The default `limit` of `find_similar_medications`, the one both front ends use. */
  const DefaultSearchLimit: int := 5

  // ---------------------------------------------------------------------------------------------
  // Rows

  /** A row of `medication_cache`. */
  datatype MedicationCache = MedicationCache(
    id: nat,
    brandName: string,
    genericName: string,
    indications: string,
    embedding: Embedding,
    rawData: MedicationRecord)

  /** A row of `query_history`; `resultsCount` is NULL until the search assigns it. */
  datatype QueryHistory = QueryHistory(id: nat, queryText: string, embedding: Embedding, resultsCount: Option<int>)

  /** A row of `search_results`. */
  datatype SearchResult = SearchResult(id: nat, queryId: nat, medicationId: nat, similarityScore: real, rank: nat)

  /** The committed contents of the three tables and the next fresh id. */
  datatype Tables = Tables(
    medications: seq<MedicationCache>,
    queries: seq<QueryHistory>,
    results: seq<SearchResult>,
    nextId: nat)

  // ---------------------------------------------------------------------------------------------
  // Invariant of the committed tables

  function MedicationIds(meds: seq<MedicationCache>): set<nat> {
    set i | 0 <= i < |meds| :: meds[i].id
  }

  function QueryIds(queries: seq<QueryHistory>): set<nat> {
    set i | 0 <= i < |queries| :: queries[i].id
  }

  /** The rows of `search_results` that belong to one query, in insertion order. */
  function ResultsFor(results: seq<SearchResult>, queryId: nat): (r: seq<SearchResult>)
    ensures |r| <= |results|
    ensures forall k :: 0 <= k < |r| ==> r[k].queryId == queryId
  {
    if results == [] then []
    else
      var n := |results| - 1;
      ResultsFor(results[..n], queryId) + (if results[n].queryId == queryId then [results[n]] else [])
  }

  /** `UniqueConstraint("brand_name", "generic_name")`. */
  predicate UniquePairs(meds: seq<MedicationCache>) {
    forall i, j :: 0 <= i < j < |meds| ==>
      meds[i].brandName != meds[j].brandName || meds[i].genericName != meds[j].genericName
  }

  /** An entry's key columns and indications are the ones of the record it stores. */
  predicate StoresItsRecord(e: MedicationCache) {
    e.rawData.brandName == e.brandName && e.rawData.genericName == e.genericName
    && e.rawData.indications == e.indications
  }

  predicate MedicationsWellFormed(meds: seq<MedicationCache>, nextId: nat) {
    && UniquePairs(meds)
    && (forall i :: 0 <= i < |meds| ==> meds[i].id < nextId && StoresItsRecord(meds[i]))
    && (forall i, j :: 0 <= i < j < |meds| ==> meds[i].id != meds[j].id)
  }

  /** Every committed query has its `results_count`, and it counts the results recorded for it. */
  predicate QueriesWellFormed(queries: seq<QueryHistory>, results: seq<SearchResult>, nextId: nat) {
    && (forall i :: 0 <= i < |queries| ==>
          queries[i].id < nextId && queries[i].resultsCount == Some(|ResultsFor(results, queries[i].id)|))
    && (forall i, j :: 0 <= i < j < |queries| ==> queries[i].id != queries[j].id)
  }

  /** Every search result names a cached medication and a recorded query. */
  predicate ResultsWellFormed(results: seq<SearchResult>, meds: seq<MedicationCache>, queries: seq<QueryHistory>, nextId: nat) {
    && (forall k :: 0 <= k < |results| ==>
          && results[k].id < nextId
          && results[k].medicationId in MedicationIds(meds)
          && results[k].queryId in QueryIds(queries))
    && (forall k, l :: 0 <= k < l < |results| ==> results[k].id != results[l].id)
  }

  predicate WellFormed(t: Tables) {
    && MedicationsWellFormed(t.medications, t.nextId)
    && QueriesWellFormed(t.queries, t.results, t.nextId)
    && ResultsWellFormed(t.results, t.medications, t.queries, t.nextId)
  }

  /** The empty database the DDL creates is well formed. */
  lemma EmptyWellFormed(nextId: nat)
    ensures WellFormed(Tables([], [], [], nextId))
  {
  }

  // ---------------------------------------------------------------------------------------------
  // cache_medication

  /** The text whose embedding is stored: brand name, generic name and indications, space separated. */
  function EmbedText(m: MedicationRecord): string {
    m.brandName + " " + m.genericName + " " + m.indications
  }

  lemma EmbedTextLayout(m: MedicationRecord)
    ensures |EmbedText(m)| == |m.brandName| + |m.genericName| + |m.indications| + 2
    ensures EmbedText(m)[..|m.brandName|] == m.brandName
    ensures EmbedText(m)[|m.brandName|] == ' '
    ensures EmbedText(m)[|m.brandName| + 1..|m.brandName| + 1 + |m.genericName|] == m.genericName
    ensures EmbedText(m)[|m.brandName| + 1 + |m.genericName|] == ' '
    ensures EmbedText(m)[|m.brandName| + |m.genericName| + 2..] == m.indications
  {
  }

  /** `filter_by(brand_name=…, generic_name=…).first()`: the first entry with the pair. */
  function FindByPair(meds: seq<MedicationCache>, brandName: string, genericName: string): (r: Option<nat>)
    ensures r.Some? ==>
      r.value < |meds| && meds[r.value].brandName == brandName && meds[r.value].genericName == genericName
    ensures r.None? <==> forall i :: 0 <= i < |meds| ==>
      meds[i].brandName != brandName || meds[i].genericName != genericName
  {
    if meds == [] then None
    else if meds[0].brandName == brandName && meds[0].genericName == genericName then Some(0)
    else
      match FindByPair(meds[1..], brandName, genericName)
      case None => None
      case Some(i) => Some(i + 1)
  }

  /**
   * The committed effect of a successful `cache_medication`: the entry with the record's pair is
   * overwritten in its indications, embedding and raw data, or a new entry with a fresh id is
   * appended. The second component is the returned entry.
   */
  function CacheCommit(t: Tables, m: MedicationRecord, embedding: Embedding): (Tables, MedicationCache) {
    match FindByPair(t.medications, m.brandName, m.genericName)
    case Some(i) =>
      var e := t.medications[i].(indications := m.indications, embedding := embedding, rawData := m);
      (t.(medications := t.medications[i := e]), e)
    case None =>
      var e := MedicationCache(t.nextId, m.brandName, m.genericName, m.indications, embedding, m);
      (t.(medications := t.medications + [e], nextId := t.nextId + 1), e)
  }

  /** Re-caching an existing pair changes only that entry's indications, embedding and raw data. */
  lemma CacheUpdatesInPlace(t: Tables, m: MedicationRecord, embedding: Embedding)
    requires FindByPair(t.medications, m.brandName, m.genericName).Some?
    ensures var i := FindByPair(t.medications, m.brandName, m.genericName).value;
      var (t', e) := CacheCommit(t, m, embedding);
      && |t'.medications| == |t.medications|
      && e == t'.medications[i]
      && e.id == t.medications[i].id
      && e.brandName == t.medications[i].brandName == m.brandName
      && e.genericName == t.medications[i].genericName == m.genericName
      && e.indications == m.indications && e.embedding == embedding && e.rawData == m
      && (forall j :: 0 <= j < |t.medications| && j != i ==> t'.medications[j] == t.medications[j])
      && t'.queries == t.queries && t'.results == t.results && t'.nextId == t.nextId
  {
  }

  /** Caching a new pair appends exactly one entry, with a fresh id and the record's fields. */
  lemma CacheInsertsFresh(t: Tables, m: MedicationRecord, embedding: Embedding)
    requires WellFormed(t)
    requires FindByPair(t.medications, m.brandName, m.genericName).None?
    ensures var (t', e) := CacheCommit(t, m, embedding);
      && t'.medications == t.medications + [e]
      && e.id !in MedicationIds(t.medications)
      && e.brandName == m.brandName && e.genericName == m.genericName
      && e.indications == m.indications && e.embedding == embedding && e.rawData == m
      && t'.queries == t.queries && t'.results == t.results
  {
    forall x | x in MedicationIds(t.medications) ensures x < t.nextId {
      var i :| 0 <= i < |t.medications| && t.medications[i].id == x;
    }
  }

  lemma MedicationIdsUpdate(meds: seq<MedicationCache>, i: nat, e: MedicationCache)
    requires i < |meds| && e.id == meds[i].id
    ensures MedicationIds(meds[i := e]) == MedicationIds(meds)
  {
    var meds' := meds[i := e];
    forall x | x in MedicationIds(meds) ensures x in MedicationIds(meds') {
      var j :| 0 <= j < |meds| && meds[j].id == x;
      assert meds'[j].id == x;
    }
  }

  lemma MedicationIdsAppend(meds: seq<MedicationCache>, e: MedicationCache)
    ensures MedicationIds(meds + [e]) == MedicationIds(meds) + {e.id}
  {
    var meds' := meds + [e];
    forall x | x in MedicationIds(meds) ensures x in MedicationIds(meds') {
      var j :| 0 <= j < |meds| && meds[j].id == x;
      assert meds'[j].id == x;
    }
    assert meds'[|meds|].id == e.id;
  }

  /** A successful `cache_medication` keeps the tables well formed. */
  lemma CachePreservesWellFormed(t: Tables, m: MedicationRecord, embedding: Embedding)
    requires WellFormed(t)
    ensures WellFormed(CacheCommit(t, m, embedding).0)
  {
    var e := CacheCommit(t, m, embedding).1;
    match FindByPair(t.medications, m.brandName, m.genericName)
    case Some(i) =>
      UpdateKeepsWellFormed(t, i, e);
    case None =>
      AppendKeepsWellFormed(t, e);
  }

  /** Overwriting an entry's non-key columns keeps the tables well formed. */
  lemma UpdateKeepsWellFormed(t: Tables, i: nat, e: MedicationCache)
    requires WellFormed(t) && i < |t.medications|
    requires e.id == t.medications[i].id && StoresItsRecord(e)
    requires e.brandName == t.medications[i].brandName && e.genericName == t.medications[i].genericName
    ensures WellFormed(t.(medications := t.medications[i := e]))
  {
    var meds, meds' := t.medications, t.medications[i := e];
    MedicationIdsUpdate(meds, i, e);
    forall j, k | 0 <= j < k < |meds'| ensures meds'[j].id != meds'[k].id {
      assert meds'[j].id == meds[j].id && meds'[k].id == meds[k].id;
    }
    forall j, k | 0 <= j < k < |meds'|
      ensures meds'[j].brandName != meds'[k].brandName || meds'[j].genericName != meds'[k].genericName
    {
      assert meds'[j].brandName == meds[j].brandName && meds'[k].brandName == meds[k].brandName;
      assert meds'[j].genericName == meds[j].genericName && meds'[k].genericName == meds[k].genericName;
    }
  }

  /** Appending an entry with a new pair and the next id keeps the tables well formed. */
  lemma AppendKeepsWellFormed(t: Tables, e: MedicationCache)
    requires WellFormed(t) && e.id == t.nextId && StoresItsRecord(e)
    requires forall j :: 0 <= j < |t.medications| ==>
      t.medications[j].brandName != e.brandName || t.medications[j].genericName != e.genericName
    ensures WellFormed(t.(medications := t.medications + [e], nextId := t.nextId + 1))
  {
    var meds' := t.medications + [e];
    MedicationIdsAppend(t.medications, e);
    forall j | 0 <= j < |meds'| ensures meds'[j].id < t.nextId + 1 && StoresItsRecord(meds'[j]) {
      if j < |t.medications| {
        assert meds'[j] == t.medications[j];
      }
    }
    forall j, k | 0 <= j < k < |meds'| ensures meds'[j].id != meds'[k].id {
      if k < |t.medications| {
        assert meds'[j] == t.medications[j] && meds'[k] == t.medications[k];
      } else {
        assert meds'[j] == t.medications[j];
      }
    }
    forall j, k | 0 <= j < k < |meds'|
      ensures meds'[j].brandName != meds'[k].brandName || meds'[j].genericName != meds'[k].genericName
    {
      assert meds'[j] == t.medications[j];
    }
  }

  /** The number of entries holding a pair. */
  function PairCount(meds: seq<MedicationCache>, brandName: string, genericName: string): (n: nat)
    ensures n <= |meds|
  {
    if meds == [] then 0
    else
      var n := |meds| - 1;
      PairCount(meds[..n], brandName, genericName)
        + (if meds[n].brandName == brandName && meds[n].genericName == genericName then 1 else 0)
  }

  lemma {:induction false} PairCountUnique(meds: seq<MedicationCache>, brandName: string, genericName: string)
    requires UniquePairs(meds)
    ensures FindByPair(meds, brandName, genericName).None? ==> PairCount(meds, brandName, genericName) == 0
    ensures FindByPair(meds, brandName, genericName).Some? ==> PairCount(meds, brandName, genericName) == 1
  {
    if meds != [] {
      var n := |meds| - 1;
      var init := meds[..n];
      assert UniquePairs(init) by {
        forall i, j | 0 <= i < j < |init|
          ensures init[i].brandName != init[j].brandName || init[i].genericName != init[j].genericName
        {
          assert init[i] == meds[i] && init[j] == meds[j];
        }
      }
      PairCountUnique(init, brandName, genericName);
      if meds[n].brandName == brandName && meds[n].genericName == genericName {
        forall i | 0 <= i < |init| ensures init[i].brandName != brandName || init[i].genericName != genericName {
          assert init[i] == meds[i];
        }
      } else {
        forall i | 0 <= i < |meds| && meds[i].brandName == brandName && meds[i].genericName == genericName
          ensures i < |init| && init[i] == meds[i]
        {
        }
      }
    }
  }

  /** Under unique pairs, two entries with the same pair are the same entry. */
  lemma PairIndexUnique(meds: seq<MedicationCache>, i: nat, j: nat)
    requires UniquePairs(meds) && i < |meds| && j < |meds|
    requires meds[i].brandName == meds[j].brandName && meds[i].genericName == meds[j].genericName
    ensures i == j
  {
  }

  /**
   * After a successful `cache_medication` exactly one entry holds the record's pair, and caching
   * the same record a second time leaves the table the same size and returns the same entry id.
   */
  lemma CacheTwiceOneEntry(t: Tables, m: MedicationRecord, e1: Embedding, e2: Embedding)
    requires WellFormed(t)
    ensures var (t1, c1) := CacheCommit(t, m, e1);
      var (t2, c2) := CacheCommit(t1, m, e2);
      && PairCount(t1.medications, m.brandName, m.genericName) == 1
      && PairCount(t2.medications, m.brandName, m.genericName) == 1
      && |t2.medications| == |t1.medications|
      && c2.id == c1.id
  {
    var (t1, c1) := CacheCommit(t, m, e1);
    CachePreservesWellFormed(t, m, e1);
    CachePreservesWellFormed(t1, m, e2);
    var t2 := CacheCommit(t1, m, e2).0;
    var j := if FindByPair(t.medications, m.brandName, m.genericName).Some?
      then FindByPair(t.medications, m.brandName, m.genericName).value else |t.medications|;
    assert t1.medications[j] == c1;
    var found := FindByPair(t1.medications, m.brandName, m.genericName);
    PairCountUnique(t1.medications, m.brandName, m.genericName);
    PairCountUnique(t2.medications, m.brandName, m.genericName);
    CacheUpdatesInPlace(t1, m, e2);
    PairIndexUnique(t1.medications, found.value, j);
  }

  // ---------------------------------------------------------------------------------------------
  // find_similar_medications

  /** The `similarity_scores` rows before ordering: one per cached entry, scored against the query. */
  function ScoreRows(meds: seq<MedicationCache>, query: Embedding, similarity: (Embedding, Embedding) -> real): (rows: seq<ScoredRow>)
    ensures |rows| == |meds|
    ensures forall i :: 0 <= i < |meds| ==> rows[i] == ScoredRow(meds[i].id, meds[i].rawData, similarity(meds[i].embedding, query))
  {
    seq(|meds|, i requires 0 <= i < |meds| => ScoredRow(meds[i].id, meds[i].rawData, similarity(meds[i].embedding, query)))
  }

  /** Every cached entry is scored, and nothing else: the rows carry exactly the cached ids. */
  lemma ScoreRowsCoverCache(meds: seq<MedicationCache>, query: Embedding, similarity: (Embedding, Embedding) -> real)
    ensures var rows := ScoreRows(meds, query, similarity);
      (set k | 0 <= k < |rows| :: rows[k].medicationId) == MedicationIds(meds)
  {
    var rows := ScoreRows(meds, query, similarity);
    var ids := set k | 0 <= k < |rows| :: rows[k].medicationId;
    forall x | x in MedicationIds(meds) ensures x in ids {
      var i :| 0 <= i < |meds| && meds[i].id == x;
      assert rows[i].medicationId == x;
    }
  }

  /** The `search_results` rows of one query: rank k + 1 for the k-th returned row, a fresh id each. */
  function RankedResults(queryId: nat, returned: seq<ScoredRow>): (rs: seq<SearchResult>)
    ensures |rs| == |returned|
  {
    seq(|returned|, k requires 0 <= k < |returned| =>
      SearchResult(queryId + 1 + k, queryId, returned[k].medicationId, returned[k].similarity, k + 1))
  }

  /**
   * The committed effect of a successful search that returned `returned`: the query row with its
   * count, the ranked result rows, and the ids they used.
   */
  function SearchCommit(t: Tables, queryText: string, query: Embedding, returned: seq<ScoredRow>): Tables {
    Tables(
      t.medications,
      t.queries + [QueryHistory(t.nextId, queryText, query, Some(|returned|))],
      t.results + RankedResults(t.nextId, returned),
      t.nextId + 1 + |returned|)
  }

  /** The `(raw_data, similarity)` pairs returned to the caller. */
  function Matches(returned: seq<ScoredRow>): (r: seq<(MedicationRecord, real)>)
    ensures |r| == |returned|
    ensures forall k :: 0 <= k < |r| ==> r[k] == (returned[k].rawData, returned[k].similarity)
  {
    seq(|returned|, k requires 0 <= k < |returned| => (returned[k].rawData, returned[k].similarity))
  }

  lemma {:induction false} ResultsForAppend(a: seq<SearchResult>, b: seq<SearchResult>, queryId: nat)
    ensures ResultsFor(a + b, queryId) == ResultsFor(a, queryId) + ResultsFor(b, queryId)
    decreases |b|
  {
    if b == [] {
      assert a + b == a;
    } else {
      var n := |b| - 1;
      assert (a + b)[..|a + b| - 1] == a + b[..n];
      ResultsForAppend(a, b[..n], queryId);
    }
  }

  lemma {:induction false} ResultsForOther(rs: seq<SearchResult>, queryId: nat)
    requires forall k :: 0 <= k < |rs| ==> rs[k].queryId != queryId
    ensures ResultsFor(rs, queryId) == []
  {
    if rs != [] {
      ResultsForOther(rs[..|rs| - 1], queryId);
    }
  }

  lemma {:induction false} ResultsForSame(rs: seq<SearchResult>, queryId: nat)
    requires forall k :: 0 <= k < |rs| ==> rs[k].queryId == queryId
    ensures ResultsFor(rs, queryId) == rs
  {
    if rs != [] {
      var n := |rs| - 1;
      ResultsForSame(rs[..n], queryId);
      assert rs[..n] + [rs[n]] == rs;
    }
  }

  /**
   * A successful search appends one query row whose `results_count` is the number returned, and
   * exactly one result row per returned row, tied to that query, ranked 1, 2, … in result order;
   * the cache and the earlier rows are unchanged.
   */
  lemma SearchRecordsResults(t: Tables, queryText: string, query: Embedding, returned: seq<ScoredRow>)
    requires WellFormed(t)
    ensures var t' := SearchCommit(t, queryText, query, returned);
      && t'.medications == t.medications
      && t'.queries == t.queries + [QueryHistory(t.nextId, queryText, query, Some(|returned|))]
      && t.nextId !in QueryIds(t.queries)
      && t'.results[..|t.results|] == t.results
      && |ResultsFor(t'.results, t.nextId)| == |returned|
      && forall k :: 0 <= k < |returned| ==>
           && ResultsFor(t'.results, t.nextId)[k].rank == k + 1
           && ResultsFor(t'.results, t.nextId)[k].medicationId == returned[k].medicationId
           && ResultsFor(t'.results, t.nextId)[k].similarityScore == returned[k].similarity
  {
    var added := RankedResults(t.nextId, returned);
    NextIdUnused(t);
    NewResultsFor(t.results, t.nextId, returned);
    assert (t.results + added)[..|t.results|] == t.results;
  }

  /** No recorded query has the next id, so no stored result belongs to it. */
  lemma NextIdUnused(t: Tables)
    requires WellFormed(t)
    ensures t.nextId !in QueryIds(t.queries)
    ensures forall k :: 0 <= k < |t.results| ==> t.results[k].queryId != t.nextId
  {
    if t.nextId in QueryIds(t.queries) {
      var i :| 0 <= i < |t.queries| && t.queries[i].id == t.nextId;
      assert false;
    }
    forall k | 0 <= k < |t.results| ensures t.results[k].queryId != t.nextId {
      assert t.results[k].queryId in QueryIds(t.queries);
    }
  }

  /** The results of a fresh query are exactly the ranked rows appended for it. */
  lemma NewResultsFor(results: seq<SearchResult>, queryId: nat, returned: seq<ScoredRow>)
    requires forall k :: 0 <= k < |results| ==> results[k].queryId != queryId
    ensures ResultsFor(results + RankedResults(queryId, returned), queryId) == RankedResults(queryId, returned)
  {
    var added := RankedResults(queryId, returned);
    ResultsForOther(results, queryId);
    ResultsForSame(added, queryId);
    ResultsForAppend(results, added, queryId);
    assert [] + added == added;
  }

  lemma QueryIdsAppend(queries: seq<QueryHistory>, q: QueryHistory)
    ensures QueryIds(queries + [q]) == QueryIds(queries) + {q.id}
  {
    var queries' := queries + [q];
    forall x | x in QueryIds(queries) ensures x in QueryIds(queries') {
      var i :| 0 <= i < |queries| && queries[i].id == x;
      assert queries'[i].id == x;
    }
    assert queries'[|queries|].id == q.id;
  }

  /** The earlier queries keep their counts: none of the added results belongs to them. */
  lemma SearchKeepsEarlierCounts(t: Tables, queryText: string, query: Embedding, returned: seq<ScoredRow>)
    requires WellFormed(t)
    ensures forall i :: 0 <= i < |t.queries| ==>
      t.queries[i].resultsCount == Some(|ResultsFor(SearchCommit(t, queryText, query, returned).results, t.queries[i].id)|)
  {
    var added := RankedResults(t.nextId, returned);
    forall i | 0 <= i < |t.queries|
      ensures t.queries[i].resultsCount == Some(|ResultsFor(t.results + added, t.queries[i].id)|)
    {
      forall k | 0 <= k < |added| ensures added[k].queryId != t.queries[i].id {
      }
      ResultsForOther(added, t.queries[i].id);
      ResultsForAppend(t.results, added, t.queries[i].id);
    }
  }

  lemma SearchQueriesWellFormed(t: Tables, queryText: string, query: Embedding, returned: seq<ScoredRow>)
    requires WellFormed(t)
    ensures var t' := SearchCommit(t, queryText, query, returned);
      QueriesWellFormed(t'.queries, t'.results, t'.nextId)
  {
    var t' := SearchCommit(t, queryText, query, returned);
    SearchRecordsResults(t, queryText, query, returned);
    SearchKeepsEarlierCounts(t, queryText, query, returned);
    forall i | 0 <= i < |t'.queries|
      ensures t'.queries[i].id < t'.nextId
      ensures t'.queries[i].resultsCount == Some(|ResultsFor(t'.results, t'.queries[i].id)|)
    {
      if i < |t.queries| {
        assert t'.queries[i] == t.queries[i];
      }
    }
  }

  lemma SearchResultsWellFormed(t: Tables, queryText: string, query: Embedding, returned: seq<ScoredRow>)
    requires WellFormed(t)
    requires forall k :: 0 <= k < |returned| ==> returned[k].medicationId in MedicationIds(t.medications)
    ensures var t' := SearchCommit(t, queryText, query, returned);
      ResultsWellFormed(t'.results, t'.medications, t'.queries, t'.nextId)
  {
    SearchResultsRefer(t, queryText, query, returned);
    SearchResultIdsDistinct(t, returned);
  }

  /** After a search every result row still names a cached medication and a recorded query. */
  lemma SearchResultsRefer(t: Tables, queryText: string, query: Embedding, returned: seq<ScoredRow>)
    requires WellFormed(t)
    requires forall k :: 0 <= k < |returned| ==> returned[k].medicationId in MedicationIds(t.medications)
    ensures var t' := SearchCommit(t, queryText, query, returned);
      forall k :: 0 <= k < |t'.results| ==>
        && t'.results[k].id < t'.nextId
        && t'.results[k].medicationId in MedicationIds(t'.medications)
        && t'.results[k].queryId in QueryIds(t'.queries)
  {
    var t' := SearchCommit(t, queryText, query, returned);
    var added := RankedResults(t.nextId, returned);
    QueryIdsAppend(t.queries, QueryHistory(t.nextId, queryText, query, Some(|returned|)));
    forall k | 0 <= k < |t'.results|
      ensures t'.results[k].id < t'.nextId
      ensures t'.results[k].medicationId in MedicationIds(t'.medications)
      ensures t'.results[k].queryId in QueryIds(t'.queries)
    {
      if k >= |t.results| {
        assert t'.results[k] == added[k - |t.results|];
      } else {
        assert t'.results[k] == t.results[k];
      }
    }
  }

  /** The result ids a search allocates are new: no two result rows share an id. */
  lemma SearchResultIdsDistinct(t: Tables, returned: seq<ScoredRow>)
    requires WellFormed(t)
    ensures var rs := t.results + RankedResults(t.nextId, returned);
      forall k, l :: 0 <= k < l < |rs| ==> rs[k].id != rs[l].id
  {
    var added := RankedResults(t.nextId, returned);
    var rs := t.results + added;
    forall k, l | 0 <= k < l < |rs| ensures rs[k].id != rs[l].id {
      if l >= |t.results| {
        assert rs[l] == added[l - |t.results|];
        if k >= |t.results| {
          assert rs[k] == added[k - |t.results|];
        } else {
          assert rs[k] == t.results[k];
        }
      } else {
        assert rs[k] == t.results[k] && rs[l] == t.results[l];
      }
    }
  }

  /** A successful search whose returned rows come from the cache keeps the tables well formed. */
  lemma SearchPreservesWellFormed(t: Tables, queryText: string, query: Embedding, returned: seq<ScoredRow>)
    requires WellFormed(t)
    requires forall k :: 0 <= k < |returned| ==> returned[k].medicationId in MedicationIds(t.medications)
    ensures WellFormed(SearchCommit(t, queryText, query, returned))
  {
    SearchQueriesWellFormed(t, queryText, query, returned);
    SearchResultsWellFormed(t, queryText, query, returned);
    var t' := SearchCommit(t, queryText, query, returned);
    assert MedicationsWellFormed(t'.medications, t'.nextId) by {
      assert t'.medications == t.medications && t'.nextId > t.nextId;
    }
  }

  /**
   * What a successful search returns, whatever the order among equal scores: at most `limit`
   * pairs, in non-increasing similarity, every score above the threshold, and each pair the raw
   * record of a cached entry with that entry's score against the query.
   */
  lemma SearchAnswer(meds: seq<MedicationCache>, query: Embedding, similarity: (Embedding, Embedding) -> real,
                     order: seq<ScoredRow>, limit: nat)
    requires IsRanking(order, ScoreRows(meds, query, similarity))
    ensures var r := Matches(TopThenFilter(order, limit));
      && |r| <= limit
      && (forall k :: 0 <= k < |r| ==> r[k].1 > Threshold)
      && (forall k, l :: 0 <= k < l < |r| ==> r[k].1 >= r[l].1)
      && (forall k :: 0 <= k < |r| ==>
            exists i :: 0 <= i < |meds| && meds[i].rawData == r[k].0 && similarity(meds[i].embedding, query) == r[k].1)
  {
    var rows := ScoreRows(meds, query, similarity);
    var returned := TopThenFilter(order, limit);
    TopThenFilterProperties(order, rows, limit);
    forall k | 0 <= k < |returned|
      ensures exists i ::
        0 <= i < |meds| && meds[i].rawData == returned[k].rawData && similarity(meds[i].embedding, query) == returned[k].similarity
    {
      assert returned[k] in multiset(rows);
      var i :| 0 <= i < |rows| && rows[i] == returned[k];
      assert meds[i].rawData == returned[k].rawData;
    }
  }

  /** The returned rows of a search all name cached entries. */
  lemma ReturnedAreCached(meds: seq<MedicationCache>, query: Embedding, similarity: (Embedding, Embedding) -> real,
                          order: seq<ScoredRow>, limit: nat)
    requires IsRanking(order, ScoreRows(meds, query, similarity))
    ensures forall k :: 0 <= k < |TopThenFilter(order, limit)| ==>
      TopThenFilter(order, limit)[k].medicationId in MedicationIds(meds)
  {
    var rows := ScoreRows(meds, query, similarity);
    var returned := TopThenFilter(order, limit);
    TopThenFilterProperties(order, rows, limit);
    forall k | 0 <= k < |returned| ensures returned[k].medicationId in MedicationIds(meds) {
      assert returned[k] in multiset(rows);
      var i :| 0 <= i < |rows| && rows[i] == returned[k];
      assert meds[i].id == returned[k].medicationId;
    }
  }

  // ---------------------------------------------------------------------------------------------
  // One call of each operation, as a relation between the tables before and after

  /** A committed search for one ordering of the scored rows. */
  ghost predicate ValidSearch(t: Tables, t': Tables, queryText: string, query: Embedding,
                              similarity: (Embedding, Embedding) -> real, limit: nat, order: seq<ScoredRow>,
                              r: seq<(MedicationRecord, real)>) {
    && IsRanking(order, ScoreRows(t.medications, query, similarity))
    && t' == SearchCommit(t, queryText, query, TopThenFilter(order, limit))
    && r == Matches(TopThenFilter(order, limit))
  }

  /** What one `cache_medication` call may do: fail and roll back, or commit its upsert. */
  ghost predicate CacheStep(t: Tables, t': Tables, m: MedicationRecord, embedding: Embedding, r: Option<MedicationCache>) {
    (r.None? && t' == t) || (r.Some? && (t', r.value) == CacheCommit(t, m, embedding))
  }

  /**
   * What one `find_similar_medications` call may do: fail and roll back returning `[]`, or, for
   * a non-negative limit, rank the cache by some ordering of ties and commit the search.
   */
  ghost predicate SearchStep(t: Tables, t': Tables, queryText: string, query: Embedding,
                             similarity: (Embedding, Embedding) -> real, limit: int, r: seq<(MedicationRecord, real)>) {
    (r == [] && t' == t)
    || (limit >= 0 && exists order :: ValidSearch(t, t', queryText, query, similarity, limit, order, r))
  }

  /** The outcome flags of a run of `cache_medication` calls: which calls returned an entry. */
  function Succeeded(entries: seq<Option<MedicationCache>>): (r: seq<bool>)
    ensures |r| == |entries|
    ensures forall i :: 0 <= i < |entries| ==> r[i] == entries[i].Some?
  {
    seq(|entries|, i requires 0 <= i < |entries| => entries[i].Some?)
  }

  /**
   * A run of `cache_medication` calls, one per record in order: `states[i]` are the tables
   * before the i-th call and `entries[i]` is what it returned.
   */
  ghost predicate CacheRun(states: seq<Tables>, meds: seq<MedicationRecord>, embed: string -> Embedding,
                           entries: seq<Option<MedicationCache>>) {
    && |states| == |meds| + 1
    && |entries| == |meds|
    && forall i :: 0 <= i < |meds| ==> CacheStep(states[i], states[i + 1], meds[i], embed(EmbedText(meds[i])), entries[i])
  }

  /** A successful `cache_medication` keeps every pair already cached, and holds its own pair. */
  lemma CacheKeepsPairs(t: Tables, m: MedicationRecord, embedding: Embedding)
    ensures FindByPair(CacheCommit(t, m, embedding).0.medications, m.brandName, m.genericName).Some?
    ensures forall b, g :: FindByPair(t.medications, b, g).Some? ==>
      FindByPair(CacheCommit(t, m, embedding).0.medications, b, g).Some?
  {
    var meds' := CacheCommit(t, m, embedding).0.medications;
    match FindByPair(t.medications, m.brandName, m.genericName)
    case Some(i) =>
      assert meds'[i].brandName == m.brandName && meds'[i].genericName == m.genericName;
      forall b, g | FindByPair(t.medications, b, g).Some? ensures FindByPair(meds', b, g).Some? {
        var j := FindByPair(t.medications, b, g).value;
        assert meds'[j].brandName == b && meds'[j].genericName == g;
      }
    case None =>
      assert meds'[|t.medications|].brandName == m.brandName && meds'[|t.medications|].genericName == m.genericName;
      forall b, g | FindByPair(t.medications, b, g).Some? ensures FindByPair(meds', b, g).Some? {
        var j := FindByPair(t.medications, b, g).value;
        assert meds'[j] == t.medications[j];
      }
  }

  /**
   * After a run of `cache_medication` calls every record whose call returned an entry has its
   * pair in the cache, and the tables are still well formed.
   */
  lemma {:induction false} CacheRunContains(states: seq<Tables>, meds: seq<MedicationRecord>, embed: string -> Embedding,
                                            entries: seq<Option<MedicationCache>>)
    requires CacheRun(states, meds, embed, entries) && WellFormed(states[0])
    ensures WellFormed(states[|meds|])
    ensures forall i :: 0 <= i < |meds| && entries[i].Some? ==>
      FindByPair(states[|meds|].medications, meds[i].brandName, meds[i].genericName).Some?
    decreases |meds|
  {
    if meds != [] {
      var n := |meds| - 1;
      CacheRunPrefix(states, meds, embed, entries);
      CacheRunContains(states[..n + 1], meds[..n], embed, entries[..n]);
      CacheStepKeeps(states[n], states[n + 1], meds[n], embed(EmbedText(meds[n])), entries[n]);
      forall i | 0 <= i < |meds| && entries[i].Some?
        ensures FindByPair(states[n + 1].medications, meds[i].brandName, meds[i].genericName).Some?
      {
        if i < n {
          assert meds[..n][i] == meds[i] && entries[..n][i] == entries[i];
        }
      }
    }
  }

  /** A run over the first `k` records followed by the call for the next one is a run. */
  lemma CacheRunSnoc(states: seq<Tables>, meds: seq<MedicationRecord>, k: nat, embed: string -> Embedding,
                     entries: seq<Option<MedicationCache>>, t': Tables, r: Option<MedicationCache>)
    requires k < |meds| && CacheRun(states, meds[..k], embed, entries)
    requires CacheStep(states[k], t', meds[k], embed(EmbedText(meds[k])), r)
    ensures CacheRun(states + [t'], meds[..k + 1], embed, entries + [r])
  {
    var states', meds', entries' := states + [t'], meds[..k + 1], entries + [r];
    forall i | 0 <= i < k + 1
      ensures CacheStep(states'[i], states'[i + 1], meds'[i], embed(EmbedText(meds'[i])), entries'[i])
    {
      assert meds'[i] == meds[i];
      if i < k {
        assert states'[i] == states[i] && states'[i + 1] == states[i + 1];
        assert meds[..k][i] == meds[i] && entries'[i] == entries[i];
      }
    }
  }

  /** A run without its last call is a run. */
  lemma CacheRunPrefix(states: seq<Tables>, meds: seq<MedicationRecord>, embed: string -> Embedding,
                       entries: seq<Option<MedicationCache>>)
    requires CacheRun(states, meds, embed, entries) && meds != []
    ensures CacheRun(states[..|meds|], meds[..|meds| - 1], embed, entries[..|meds| - 1])
  {
    var n := |meds| - 1;
    forall i | 0 <= i < n
      ensures CacheStep(states[..n + 1][i], states[..n + 1][i + 1], meds[..n][i], embed(EmbedText(meds[..n][i])), entries[..n][i])
    {
      assert CacheStep(states[i], states[i + 1], meds[i], embed(EmbedText(meds[i])), entries[i]);
    }
  }

  /** One `cache_medication` step keeps the tables well formed and every cached pair. */
  lemma CacheStepKeeps(t: Tables, t': Tables, m: MedicationRecord, embedding: Embedding, r: Option<MedicationCache>)
    requires CacheStep(t, t', m, embedding, r) && WellFormed(t)
    ensures WellFormed(t')
    ensures forall b, g :: FindByPair(t.medications, b, g).Some? ==> FindByPair(t'.medications, b, g).Some?
    ensures r.Some? ==> FindByPair(t'.medications, m.brandName, m.genericName).Some?
  {
    if r.Some? {
      CachePreservesWellFormed(t, m, embedding);
      CacheKeepsPairs(t, m, embedding);
    }
  }

  /** Both kinds of step keep the tables well formed. */
  lemma StepsPreserveWellFormed(t: Tables, t': Tables)
    requires WellFormed(t)
    ensures forall m, embedding, r :: CacheStep(t, t', m, embedding, r) ==> WellFormed(t')
    ensures forall queryText, query, similarity, limit, r ::
      SearchStep(t, t', queryText, query, similarity, limit, r) ==> WellFormed(t')
  {
    forall m, embedding, r | CacheStep(t, t', m, embedding, r) ensures WellFormed(t') {
      if r.Some? {
        CachePreservesWellFormed(t, m, embedding);
      }
    }
    forall queryText, query, similarity, limit, r | SearchStep(t, t', queryText, query, similarity, limit, r)
      ensures WellFormed(t')
    {
      if t' != t {
        var order :| ValidSearch(t, t', queryText, query, similarity, limit, order, r);
        ReturnedAreCached(t.medications, query, similarity, order, limit);
        SearchPreservesWellFormed(t, queryText, query, TopThenFilter(order, limit));
      }
    }
  }

  /**
   * The `for rank, … in enumerate(similar_meds, 1)` loop: one result row per returned row, in
   * order, tied to the query, ranked from 1, with consecutive fresh ids after the query's.
   */
  method RecordRanks(queryId: nat, returned: seq<ScoredRow>) returns (recorded: seq<SearchResult>)
    ensures recorded == RankedResults(queryId, returned)
    ensures |recorded| == |returned|
    ensures forall k :: 0 <= k < |recorded| ==>
      && recorded[k].queryId == queryId && recorded[k].rank == k + 1 && recorded[k].id == queryId + 1 + k
      && recorded[k].medicationId == returned[k].medicationId && recorded[k].similarityScore == returned[k].similarity
  {
    recorded := [];
    for k := 0 to |returned|
      invariant |recorded| == k
      invariant forall j :: 0 <= j < k ==>
        recorded[j] == SearchResult(queryId + 1 + j, queryId, returned[j].medicationId, returned[j].similarity, j + 1)
    {
      recorded := recorded + [SearchResult(queryId + 1 + k, queryId, returned[k].medicationId, returned[k].similarity, k + 1)];
    }
  }

  // ---------------------------------------------------------------------------------------------
  // The store

  class HealthcareVectorDB {
    /** `SentenceTransformer("all-MiniLM-L6-v2").encode`. */
    const embed: string -> Embedding
    /** `1 - (a <=> b)`, the cosine similarity of pgvector. */
    const similarity: (Embedding, Embedding) -> real

    var medications: seq<MedicationCache>
    var queries: seq<QueryHistory>
    var searchResults: seq<SearchResult>
    var nextId: nat

    function State(): Tables
      reads this
    {
      Tables(medications, queries, searchResults, nextId)
    }

    predicate Valid()
      reads this
    {
      WellFormed(State())
    }

    /** A connection to a database whose tables already hold `stored`. */
    constructor (embed: string -> Embedding, similarity: (Embedding, Embedding) -> real, stored: Tables)
      requires WellFormed(stored)
      ensures this.embed == embed && this.similarity == similarity
      ensures State() == stored
      ensures Valid()
    {
      this.embed := embed;
      this.similarity := similarity;
      medications := stored.medications;
      queries := stored.queries;
      searchResults := stored.results;
      nextId := stored.nextId;
    }

    /**
     * `cache_medication(medication)`: the upsert keyed on the pair, or `None` with the tables
     * unchanged when the session fails.
     */
    method CacheMedication(medication: MedicationRecord) returns (r: Option<MedicationCache>)
      requires Valid()
      modifies this
      ensures Valid()
      ensures r.None? ==> State() == old(State())
      ensures r.Some? ==> (State(), r.value) == CacheCommit(old(State()), medication, embed(EmbedText(medication)))
      ensures CacheStep(old(State()), State(), medication, embed(EmbedText(medication)), r)
    {
      var embedding := embed(EmbedText(medication));
      var existing := FindByPair(medications, medication.brandName, medication.genericName);
      var failed: bool := *;
      if failed {
        return None;
      }
      CachePreservesWellFormed(State(), medication, embedding);
      match existing
      case Some(i) =>
        var entry := medications[i].(indications := medication.indications, embedding := embedding, rawData := medication);
        medications := medications[i := entry];
        r := Some(entry);
      case None =>
        var entry := MedicationCache(nextId, medication.brandName, medication.genericName, medication.indications, embedding, medication);
        medications := medications + [entry];
        nextId := nextId + 1;
        r := Some(entry);
    }

    /**
     * `find_similar_medications(queryText, limit)`: on success the query row, one result row per
     * returned match and the count are committed and the matches are returned; a failure (always
     * so for a negative `limit`, which the database refuses) returns `[]` and rolls back.
     */
    method FindSimilarMedications(queryText: string, limit: int)
      returns (r: seq<(MedicationRecord, real)>, ghost committed: bool, ghost order: seq<ScoredRow>)
      requires Valid()
      modifies this
      ensures Valid()
      ensures limit < 0 ==> !committed
      ensures !committed ==> r == [] && State() == old(State())
      ensures committed ==>
        && limit >= 0
        && IsRanking(order, ScoreRows(old(medications), embed(queryText), similarity))
        && State() == SearchCommit(old(State()), queryText, embed(queryText), TopThenFilter(order, limit))
        && r == Matches(TopThenFilter(order, limit))
      ensures SearchStep(old(State()), State(), queryText, embed(queryText), similarity, limit, r)
    {
      committed, order := false, [];
      var queryEmbedding := embed(queryText);
      var queryId := nextId;
      var queryRecord := QueryHistory(queryId, queryText, queryEmbedding, None);
      var rows := ScoreRows(medications, queryEmbedding, similarity);
      var failed: bool := *;
      if failed || limit < 0 {
        return [], false, [];
      }
      RankingExists(rows);
      var ranked :| IsRanking(ranked, rows);
      order := ranked;
      var returned := TopThenFilter(ranked, limit);
      var recorded := RecordRanks(queryId, returned);
      queryRecord := queryRecord.(resultsCount := Some(|returned|));
      ReturnedAreCached(medications, queryEmbedding, similarity, ranked, limit);
      SearchPreservesWellFormed(State(), queryText, queryEmbedding, returned);
      queries := queries + [queryRecord];
      searchResults := searchResults + recorded;
      nextId := queryId + 1 + |returned|;
      committed := true;
      r := Matches(returned);
      assert ValidSearch(old(State()), State(), queryText, queryEmbedding, similarity, limit, ranked, r);
    }
  }
}
