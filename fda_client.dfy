/**
 * The OpenFDA drug-label client (`FDAClient`): it builds label-search requests and normalises
 * the JSON answer into total medication records.
 *
 * The HTTP transport is an oracle: a `LabelService` object answers every request with a fixed
 * function `respond` and keeps the list of requests sent to it, so that callers can state how
 * many requests were made and which.
 */
module FdaClient {

  import opened Basics
  import UrlQuote

  // ---------------------------------------------------------------------------------------------
  // Records

  /** The normalised medication dictionary handed to the cache and to the display code. */
  datatype MedicationRecord = MedicationRecord(
    brandName: string,
    genericName: string,
    indications: string,
    warnings: string,
    dosage: string)

  /** The `openfda` object of a label; each key may be absent. */
  datatype OpenFda = OpenFda(brandName: Option<seq<string>>, genericName: Option<seq<string>>)

  /** One element of the `results` array; every field is a list of strings and may be absent. */
  datatype LabelResult = LabelResult(
    openfda: Option<OpenFda>,
    indicationsAndUsage: Option<seq<string>>,
    warnings: Option<seq<string>>,
    dosageAndAdministration: Option<seq<string>>,
    drugInteractions: Option<seq<string>>)

  /** The decoded JSON body; the `results` key may be absent. */
  datatype LabelResponse = LabelResponse(results: Option<seq<LabelResult>>)

  /**
   * What `requests.get` followed by `raise_for_status()` and `json()` yields: either a body, or a
   * `RequestException` (connection failure, HTTP error status, body that is not JSON).
   */
  datatype HttpOutcome = RequestException | Received(body: LabelResponse)

  /** One GET request to the label endpoint with its query parameters. */
  datatype LabelRequest = LabelRequest(url: string, apiKey: string, search: string, limit: int)

  /** The exceptions the client lets escape. */
  datatype ClientError =
    | MissingApiKey   // ValueError from the constructor
    | EmptyFieldList  // IndexError: a field is present but its list is empty

  datatype FDAClient = FDAClient(apiKey: string, baseUrl: string)

  const BaseUrl: string := "https://api.fda.gov/drug"
  const DefaultLimit: int := 5

  const UnknownName: string := "Unknown"
  const NoIndication: string := "No indication available"
  const NoWarnings: string := "No warnings available"
  const NoDosage: string := "No dosage information available"
  const NoInteractionInfo: string := "No interaction information available"
  const InteractionError: string := "Error retrieving interaction information"

  // ---------------------------------------------------------------------------------------------
  // Construction

  /** `FDAClient()`: the key read from `FDA_API_KEY`; an absent or empty value raises ValueError. */
  function NewFDAClient(apiKey: Option<string>): (r: Result<FDAClient, ClientError>)
    ensures r.Err? <==> apiKey == None || apiKey == Some("")
    ensures r.Err? ==> r.error == MissingApiKey
    ensures r.Ok? ==> r.value.apiKey == apiKey.value && r.value.baseUrl == BaseUrl
  {
    if apiKey.None? || apiKey.value == "" then Err(MissingApiKey)
    else Ok(FDAClient(apiKey.value, BaseUrl))
  }

  function LabelUrl(client: FDAClient): string {
    client.baseUrl + "/label.json"
  }

  // ---------------------------------------------------------------------------------------------
  // Search terms

  const AndSeparator: string := " AND "

  /** `" AND ".join(terms)`. */
  function JoinAnd(terms: seq<string>): string {
    if |terms| == 0 then ""
    else if |terms| == 1 then terms[0]
    else terms[0] + AndSeparator + JoinAnd(terms[1..])
  }

  /** `s.split(" AND ")`: cut at every occurrence of the separator, scanning from the left. */
  function SplitAnd(s: string): (parts: seq<string>)
    ensures |parts| >= 1
    decreases |s|
  {
    if |s| == 0 then [""]
    else if |s| >= 5 && s[..5] == AndSeparator then [""] + SplitAnd(s[5..])
    else
      var rest := SplitAnd(s[1..]);
      [[s[0]] + rest[0]] + rest[1..]
  }

  predicate HasNoSpace(t: string) {
    forall i :: 0 <= i < |t| ==> t[i] != ' '
  }

  lemma JoinAndCons(t: string, rest: seq<string>)
    ensures JoinAnd([t] + rest) == if rest == [] then t else t + AndSeparator + JoinAnd(rest)
  {
    assert ([t] + rest)[1..] == rest;
  }

  /** Joining the pieces of a split restores the string, whatever it contains. */
  lemma {:induction false} JoinSplit(s: string)
    ensures JoinAnd(SplitAnd(s)) == s
    decreases |s|
  {
    if |s| == 0 {
    } else if |s| >= 5 && s[..5] == AndSeparator {
      var rest := SplitAnd(s[5..]);
      JoinSplit(s[5..]);
      JoinAndCons("", rest);
      assert s == s[..5] + s[5..];
    } else {
      JoinSplit(s[1..]);
      var rest := SplitAnd(s[1..]);
      JoinPrepend(s[0], rest[0], rest[1..]);
      assert [rest[0]] + rest[1..] == rest;
      assert s == [s[0]] + s[1..];
    }
  }

  /** Putting a character in front of the first piece puts it in front of the join. */
  lemma JoinPrepend(c: char, first: string, tail: seq<string>)
    ensures JoinAnd([[c] + first] + tail) == [c] + JoinAnd([first] + tail)
  {
    JoinAndCons([c] + first, tail);
    JoinAndCons(first, tail);
    if tail != [] {
      var j := JoinAnd(tail);
      assert ([c] + first) + AndSeparator + j == [c] + (first + AndSeparator + j);
    }
  }

  /** A string whose first character is not a space does not start with the separator. */
  lemma SplitAndNonSpace(s: string)
    requires |s| > 0 && s[0] != ' '
    ensures SplitAnd(s) == [[s[0]] + SplitAnd(s[1..])[0]] + SplitAnd(s[1..])[1..]
  {
    if |s| >= 5 {
      assert s[..5][0] == s[0];
      assert AndSeparator[0] == ' ';
    }
  }

  /** A term without spaces is not cut. */
  lemma {:induction false} SplitTermAlone(t: string)
    requires HasNoSpace(t)
    ensures SplitAnd(t) == [t]
    decreases |t|
  {
    if |t| > 0 {
      SplitTermAlone(t[1..]);
      SplitAndNonSpace(t);
      assert [t[0]] + t[1..] == t;
    }
  }

  /** After a term without spaces, the first separator is where the term ends. */
  lemma {:induction false} SplitAfterTerm(t: string, tail: string)
    requires HasNoSpace(t)
    ensures SplitAnd(t + AndSeparator + tail) == [t] + SplitAnd(tail)
    decreases |t|
  {
    var s := t + AndSeparator + tail;
    if |t| == 0 {
      assert s == AndSeparator + tail;
      assert s[..5] == AndSeparator;
      assert s[5..] == tail;
    } else {
      SplitAfterTerm(t[1..], tail);
      assert s[0] == t[0];
      assert s[1..] == t[1..] + AndSeparator + tail;
      SplitAndNonSpace(s);
      assert [t[0]] + t[1..] == t;
    }
  }

  /** Splitting a join gives the terms back when no term contains a space. */
  lemma {:induction false} SplitJoin(terms: seq<string>)
    requires |terms| >= 1
    requires forall i :: 0 <= i < |terms| ==> HasNoSpace(terms[i])
    ensures SplitAnd(JoinAnd(terms)) == terms
  {
    if |terms| == 1 {
      SplitTermAlone(terms[0]);
    } else {
      SplitJoin(terms[1..]);
      SplitAfterTerm(terms[0], JoinAnd(terms[1..]));
      assert [terms[0]] + terms[1..] == terms;
    }
  }

  /** The term list of a symptom search: every term URL-quoted, then joined with `" AND "`. */
  function SearchTerms(symptoms: seq<string>): string {
    JoinAnd(seq(|symptoms|, i requires 0 <= i < |symptoms| => UrlQuote.Quote(symptoms[i])))
  }

  /**
   * The quoted terms can be read back out of the joined string, and each unquotes to the
   * symptom it came from: the join loses nothing.
   */
  lemma SearchTermsRecover(symptoms: seq<string>)
    requires |symptoms| >= 1
    ensures |SplitAnd(SearchTerms(symptoms))| == |symptoms|
    ensures forall i :: 0 <= i < |symptoms| ==>
      UrlQuote.Unquote(SplitAnd(SearchTerms(symptoms))[i]) == Some(symptoms[i])
  {
    var quoted := seq(|symptoms|, i requires 0 <= i < |symptoms| => UrlQuote.Quote(symptoms[i]));
    forall i | 0 <= i < |quoted| ensures HasNoSpace(quoted[i]) {
      UrlQuote.QuoteIsUrlSafe(symptoms[i]);
    }
    SplitJoin(quoted);
    forall i | 0 <= i < |symptoms| ensures UrlQuote.Unquote(quoted[i]) == Some(symptoms[i]) {
      UrlQuote.UnquoteQuote(symptoms[i]);
    }
  }

  /** The request `search_medications(symptoms, limit)` sends. */
  function SymptomRequest(client: FDAClient, symptoms: seq<string>, limit: int): LabelRequest {
    LabelRequest(LabelUrl(client), client.apiKey,
                 "indications_and_usage:\"" + SearchTerms(symptoms) + "\"", limit)
  }

  /** The request `get_drug_interactions(drugName)` sends: brand OR generic name, first match only. */
  function InteractionRequest(client: FDAClient, drugName: string): LabelRequest {
    LabelRequest(LabelUrl(client), client.apiKey,
                 "openfda.brand_name:\"" + drugName + "\" OR openfda.generic_name:\"" + drugName + "\"", 1)
  }

  // ---------------------------------------------------------------------------------------------
  // Normalisation

  /** `result.get(key, [placeholder])[0]`: an empty list raises IndexError. */
  function FirstOr(field: Option<seq<string>>, placeholder: string): (r: Result<string, ClientError>)
    ensures field.None? ==> r == Ok(placeholder)
    ensures field.Some? && |field.value| > 0 ==> r == Ok(field.value[0])
    ensures field.Some? && |field.value| == 0 ==> r == Err(EmptyFieldList)
  {
    match field
    case None => Ok(placeholder)
    case Some(xs) => if |xs| == 0 then Err(EmptyFieldList) else Ok(xs[0])
  }

  function BrandField(r: LabelResult): Option<seq<string>> {
    if r.openfda.None? then None else r.openfda.value.brandName
  }

  function GenericField(r: LabelResult): Option<seq<string>> {
    if r.openfda.None? then None else r.openfda.value.genericName
  }

  /** A field the loop can read: absent, or present with at least one element. */
  predicate Readable(field: Option<seq<string>>) {
    field.None? || |field.value| > 0
  }

  predicate Formattable(r: LabelResult) {
    Readable(BrandField(r)) && Readable(GenericField(r)) && Readable(r.indicationsAndUsage)
    && Readable(r.warnings) && Readable(r.dosageAndAdministration)
  }

  /** The dictionary built for one API result (lines of the `for result in results` body). */
  function FormatResult(r: LabelResult): Result<MedicationRecord, ClientError> {
    var brand := FirstOr(BrandField(r), UnknownName);
    var generic := FirstOr(GenericField(r), UnknownName);
    var indications := FirstOr(r.indicationsAndUsage, NoIndication);
    var warnings := FirstOr(r.warnings, NoWarnings);
    var dosage := FirstOr(r.dosageAndAdministration, NoDosage);
    if brand.Err? || generic.Err? || indications.Err? || warnings.Err? || dosage.Err? then Err(EmptyFieldList)
    else Ok(MedicationRecord(brand.value, generic.value, indications.value, warnings.value, dosage.value))
  }

  /** The value a field contributes to the record: its first element, or the placeholder. */
  function FieldValue(field: Option<seq<string>>, placeholder: string): string
    requires Readable(field)
  {
    if field.None? then placeholder else field.value[0]
  }

  /**
   * A result is normalised exactly when none of its fields is an empty list; then every field of
   * the record is the first element of the API list, or the fixed placeholder where it is absent.
   */
  lemma FormatResultFields(r: LabelResult)
    ensures FormatResult(r).Ok? <==> Formattable(r)
    ensures FormatResult(r).Err? ==> FormatResult(r).error == EmptyFieldList
    ensures Formattable(r) ==> FormatResult(r).value == MedicationRecord(
      FieldValue(BrandField(r), UnknownName),
      FieldValue(GenericField(r), UnknownName),
      FieldValue(r.indicationsAndUsage, NoIndication),
      FieldValue(r.warnings, NoWarnings),
      FieldValue(r.dosageAndAdministration, NoDosage))
  {
  }

  /** The normalised list for a whole `results` array; the first bad result raises. */
  function FormatAll(results: seq<LabelResult>): Result<seq<MedicationRecord>, ClientError>
    decreases |results|
  {
    if results == [] then Ok([])
    else match FormatResult(results[0])
      case Err(e) => Err(e)
      case Ok(m) =>
        match FormatAll(results[1..])
        case Err(e) => Err(e)
        case Ok(ms) => Ok([m] + ms)
  }

  /**
   * One record per API result, in API order, when every result is formattable; otherwise the
   * IndexError escapes.
   */
  lemma {:induction false} FormatAllShape(results: seq<LabelResult>)
    ensures FormatAll(results).Ok? <==> forall i :: 0 <= i < |results| ==> Formattable(results[i])
    ensures FormatAll(results).Err? ==> FormatAll(results).error == EmptyFieldList
    ensures FormatAll(results).Ok? ==>
      |FormatAll(results).value| == |results| &&
      forall i :: 0 <= i < |results| ==> FormatAll(results).value[i] == FormatResult(results[i]).value
    decreases |results|
  {
    if results != [] {
      FormatResultFields(results[0]);
      FormatAllShape(results[1..]);
      if FormatResult(results[0]).Ok? && FormatAll(results[1..]).Ok? {
        forall i | 0 <= i < |results| ensures FormatAll(results).value[i] == FormatResult(results[i]).value {
          if i > 0 { assert results[1..][i - 1] == results[i]; }
        }
      } else if FormatResult(results[0]).Ok? {
        var j :| 0 <= j < |results[1..]| && !Formattable(results[1..][j]);
        assert !Formattable(results[j + 1]);
      }
    }
  }

  /** `done` followed by the records of `rest`, or the error `rest` raises. */
  function AfterPrefix(done: seq<MedicationRecord>, rest: Result<seq<MedicationRecord>, ClientError>)
    : Result<seq<MedicationRecord>, ClientError>
  {
    match rest
    case Err(e) => Err(e)
    case Ok(ms) => Ok(done + ms)
  }

  lemma AfterPrefixAppend(done: seq<MedicationRecord>, m: MedicationRecord, rest: Result<seq<MedicationRecord>, ClientError>)
    ensures AfterPrefix(done, AfterPrefix([m], rest)) == AfterPrefix(done + [m], rest)
    ensures AfterPrefix([], rest) == rest
  {
    if rest.Ok? {
      assert done + ([m] + rest.value) == done + [m] + rest.value;
      assert [] + rest.value == rest.value;
    }
  }

  /** The loop of `search_medications` that appends one dictionary per result. */
  method FormatResults(results: seq<LabelResult>) returns (r: Result<seq<MedicationRecord>, ClientError>)
    ensures r == FormatAll(results)
  {
    var medications: seq<MedicationRecord> := [];
    var i := 0;
    assert results[i..] == results;
    AfterPrefixAppend([], MedicationRecord("", "", "", "", ""), FormatAll(results));
    while i < |results|
      invariant 0 <= i <= |results|
      invariant FormatAll(results) == AfterPrefix(medications, FormatAll(results[i..]))
    {
      assert results[i..][0] == results[i];
      assert results[i..][1..] == results[i + 1..];
      var m := FormatResult(results[i]);
      if m.Err? {
        assert FormatAll(results[i..]) == Err(m.error);
        return Err(m.error);
      }
      assert FormatAll(results[i..]) == AfterPrefix([m.value], FormatAll(results[i + 1..]));
      AfterPrefixAppend(medications, m.value, FormatAll(results[i + 1..]));
      medications := medications + [m.value];
      i := i + 1;
    }
    assert results[i..] == [];
    assert medications + [] == medications;
    r := Ok(medications);
  }

  /** What `search_medications` returns for one transport outcome. */
  function SearchOutcome(response: HttpOutcome): Result<seq<MedicationRecord>, ClientError> {
    match response
    case RequestException => Ok([])
    case Received(body) =>
      match body.results
      case None => Ok([])
      case Some(results) => FormatAll(results)
  }

  /**
   * A transport error and an answer without `results` both degrade to the empty list; otherwise
   * the list has one record per API result, in the API's order.
   */
  lemma SearchOutcomeShape(response: HttpOutcome)
    ensures response.RequestException? ==> SearchOutcome(response) == Ok([])
    ensures response.Received? && response.body.results.None? ==> SearchOutcome(response) == Ok([])
    ensures response.Received? && response.body.results.Some? ==>
      var results := response.body.results.value;
      (SearchOutcome(response).Ok? <==> forall i :: 0 <= i < |results| ==> Formattable(results[i])) &&
      (SearchOutcome(response).Ok? ==>
        && |SearchOutcome(response).value| == |results|
        && forall i :: 0 <= i < |results| ==> SearchOutcome(response).value[i] == FormatResult(results[i]).value)
  {
    if response.Received? && response.body.results.Some? {
      FormatAllShape(response.body.results.value);
    }
  }

  /** What `get_drug_interactions` returns for one transport outcome. */
  function InteractionsOutcome(response: HttpOutcome): seq<string> {
    match response
    case RequestException => [InteractionError]
    case Received(body) =>
      var results := if body.results.None? then [] else body.results.value;
      if |results| == 0 then [NoInteractionInfo]
      else if results[0].drugInteractions.None? then [NoInteractionInfo]
      else results[0].drugInteractions.value
  }

  /**
   * Only the first result is consulted: the answer is the error singleton on a transport error,
   * the placeholder singleton when there is no first result or it has no `drug_interactions`,
   * and that list itself otherwise; later results never matter.
   */
  lemma InteractionsOutcomeShape(response: HttpOutcome, later: seq<LabelResult>)
    ensures response.RequestException? ==> InteractionsOutcome(response) == [InteractionError]
    ensures response.Received? && (response.body.results.None? || response.body.results.value == []) ==>
      InteractionsOutcome(response) == [NoInteractionInfo]
    ensures response.Received? && response.body.results.Some? && |response.body.results.value| > 0 ==>
      var first := response.body.results.value[0];
      InteractionsOutcome(response) == (if first.drugInteractions.None? then [NoInteractionInfo] else first.drugInteractions.value)
      && InteractionsOutcome(Received(LabelResponse(Some([first] + later)))) == InteractionsOutcome(response)
  {
  }

  // ---------------------------------------------------------------------------------------------
  // The remote service and the two client operations

  /** The label endpoint: answers with `respond` and records every request it receives. */
  class LabelService {
    const respond: LabelRequest -> HttpOutcome
    var sent: seq<LabelRequest>

    constructor (respond: LabelRequest -> HttpOutcome)
      ensures this.respond == respond && sent == []
    {
      this.respond := respond;
      sent := [];
    }

    /** `requests.get(url, params)` with `raise_for_status()` and `json()`. */
    method Get(request: LabelRequest) returns (outcome: HttpOutcome)
      modifies this
      ensures sent == old(sent) + [request]
      ensures outcome == respond(request)
    {
      sent := sent + [request];
      outcome := respond(request);
    }
  }

  /** `FDAClient.search_medications(symptoms, limit)`: one request, then the normalising loop. */
  method SearchMedications(client: FDAClient, service: LabelService, symptoms: seq<string>, limit: int)
    returns (r: Result<seq<MedicationRecord>, ClientError>)
    modifies service
    ensures service.sent == old(service.sent) + [SymptomRequest(client, symptoms, limit)]
    ensures r == SearchOutcome(service.respond(SymptomRequest(client, symptoms, limit)))
  {
    var response := service.Get(SymptomRequest(client, symptoms, limit));
    match response
    case RequestException =>
      r := Ok([]);
    case Received(body) =>
      var results := if body.results.None? then [] else body.results.value;
      r := FormatResults(results);
  }

  /** `FDAClient.get_drug_interactions(drugName)`. */
  method GetDrugInteractions(client: FDAClient, service: LabelService, drugName: string)
    returns (interactions: seq<string>)
    modifies service
    ensures service.sent == old(service.sent) + [InteractionRequest(client, drugName)]
    ensures interactions == InteractionsOutcome(service.respond(InteractionRequest(client, drugName)))
  {
    var response := service.Get(InteractionRequest(client, drugName));
    interactions := InteractionsOutcome(response);
  }
}
