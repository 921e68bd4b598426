/**
 * What the command-line front ends show for one query: the medications listed, each with its
 * brand and generic name, its similarity score when it came from the cache, and the first 200
 * characters of its indications and warnings.
 */
module Presentation {

  import opened Basics
  import opened FdaClient

  /** The number of characters shown of the indications and of the warnings. */
  const ExcerptLength: nat := 200

  /** `text[:200]`. */
  function Excerpt(text: string): (r: string)
    ensures |r| <= ExcerptLength && |r| <= |text|
    ensures r == text[..|r|]
    ensures |text| <= ExcerptLength ==> r == text
    ensures |text| > ExcerptLength ==> |r| == ExcerptLength
  {
    Prefix(text, ExcerptLength)
  }

  /** One listed medication. */
  datatype Shown = Shown(
    brandName: string,
    genericName: string,
    similarity: Option<real>,
    indications: string,
    warnings: string)

  /** Where a listing came from. */
  datatype Source =
    | Cache        // "Recommended Medications (from cache)"
    | NewlyCached  // "Recommended Medications (from newly cached data)"
    | Fda          // "Recommended Medications (from FDA)", listed without a score

  /** What one processed query shows. */
  datatype Display =
    | Recommended(source: Source, entries: seq<Shown>)
    | NoMedicationsFound            // "No medications found for your query."
    | ErrorReported(error: ClientError)  // "An error occurred: …"

  /** A `(medication, similarity)` pair as listed from a search. */
  function ShowMatch(m: (MedicationRecord, real)): (s: Shown)
    ensures s.brandName == m.0.brandName && s.genericName == m.0.genericName
    ensures s.similarity == Some(m.1)
    ensures s.indications == Excerpt(m.0.indications) && s.warnings == Excerpt(m.0.warnings)
  {
    Shown(m.0.brandName, m.0.genericName, Some(m.1), Excerpt(m.0.indications), Excerpt(m.0.warnings))
  }

  /** A raw FDA record as listed without a score. */
  function ShowRecord(m: MedicationRecord): (s: Shown)
    ensures s.brandName == m.brandName && s.genericName == m.genericName
    ensures s.similarity == None
    ensures s.indications == Excerpt(m.indications) && s.warnings == Excerpt(m.warnings)
  {
    Shown(m.brandName, m.genericName, None, Excerpt(m.indications), Excerpt(m.warnings))
  }

  function ShowMatches(ms: seq<(MedicationRecord, real)>): (r: seq<Shown>)
    ensures |r| == |ms|
    ensures forall k :: 0 <= k < |ms| ==> r[k] == ShowMatch(ms[k])
  {
    seq(|ms|, k requires 0 <= k < |ms| => ShowMatch(ms[k]))
  }

  function ShowRecords(ms: seq<MedicationRecord>): (r: seq<Shown>)
    ensures |r| == |ms|
    ensures forall k :: 0 <= k < |ms| ==> r[k] == ShowRecord(ms[k])
  {
    seq(|ms|, k requires 0 <= k < |ms| => ShowRecord(ms[k]))
  }

  /**
   * The cached matches are listed in order, each with its own names and score and with its
   * indications and warnings cut to their first 200 characters.
   */
  lemma ShowMatchesListing(ms: seq<(MedicationRecord, real)>)
    ensures var r := ShowMatches(ms);
      && |r| == |ms|
      && forall k :: 0 <= k < |ms| ==>
           && r[k].brandName == ms[k].0.brandName && r[k].genericName == ms[k].0.genericName
           && r[k].similarity == Some(ms[k].1)
           && |r[k].indications| <= ExcerptLength && r[k].indications <= ms[k].0.indications
           && |r[k].warnings| <= ExcerptLength && r[k].warnings <= ms[k].0.warnings
  {
  }

  /**
   * The raw FDA records are listed in order, each with its own names, without a score, and with
   * its indications and warnings cut to their first 200 characters.
   */
  lemma ShowRecordsListing(ms: seq<MedicationRecord>)
    ensures var r := ShowRecords(ms);
      && |r| == |ms|
      && forall k :: 0 <= k < |ms| ==>
           && r[k].brandName == ms[k].brandName && r[k].genericName == ms[k].genericName
           && r[k].similarity.None?
           && |r[k].indications| <= ExcerptLength && r[k].indications <= ms[k].indications
           && |r[k].warnings| <= ExcerptLength && r[k].warnings <= ms[k].warnings
  {
  }
}
