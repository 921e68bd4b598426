/**
 * The similarity query of `find_similar_medications`: score every cached entry, order the rows
 * by descending similarity, keep the first `limit` rows, and only then drop the rows whose
 * similarity is not above the threshold.
 *
 * The database does not specify an order among rows of equal similarity, so an ordering is
 * ANY non-increasing arrangement of the rows (`IsRanking`); nothing here fixes the order of ties.
 */
module Ranking {

  import opened Basics
  import opened FdaClient

  /** One row of the `similarity_scores` expression: the entry's id, its raw record, its score. */
  datatype ScoredRow = ScoredRow(medicationId: nat, rawData: MedicationRecord, similarity: real)

  /** The `:threshold` parameter bound by the query. */
  const Threshold: real := 0.3

  predicate NonIncreasing(rows: seq<ScoredRow>) {
    forall i, j :: 0 <= i < j < |rows| ==> rows[i].similarity >= rows[j].similarity
  }

  /** `ORDER BY similarity DESC`: a non-increasing arrangement of exactly the given rows. */
  predicate IsRanking(order: seq<ScoredRow>, rows: seq<ScoredRow>) {
    multiset(order) == multiset(rows) && NonIncreasing(order)
  }

  /** `WHERE similarity > :threshold`, keeping the order of the rows. */
  function AboveThreshold(rows: seq<ScoredRow>): (r: seq<ScoredRow>)
    ensures |r| <= |rows|
    ensures forall i :: 0 <= i < |r| ==> r[i].similarity > Threshold
    ensures multiset(r) <= multiset(rows)
  {
    if rows == [] then []
    else
      assert rows == [rows[0]] + rows[1..];
      if rows[0].similarity > Threshold then [rows[0]] + AboveThreshold(rows[1..])
      else AboveThreshold(rows[1..])
  }

  /** Which rows pass `WHERE similarity > :threshold`. */
  function AboveFlags(rows: seq<ScoredRow>): (keep: seq<bool>)
    ensures |keep| == |rows|
    ensures forall i :: 0 <= i < |rows| ==> keep[i] == (rows[i].similarity > Threshold)
  {
    seq(|rows|, i requires 0 <= i < |rows| => rows[i].similarity > Threshold)
  }

  /** A row survives the filter exactly when it is above the threshold. */
  lemma {:induction false} AboveThresholdKeepsAbove(rows: seq<ScoredRow>)
    ensures forall x :: x in rows ==> (x in AboveThreshold(rows) <==> x.similarity > Threshold)
  {
    if rows != [] {
      var tail := rows[1..];
      AboveThresholdKeepsAbove(tail);
      AboveFlagsCons(rows);
      forall x | x in rows ensures x in AboveThreshold(rows) <==> x.similarity > Threshold {
        if x != rows[0] {
          assert x in tail;
        }
      }
    }
  }

  /** The filter keeps exactly the rows above the threshold, in the order they came. */
  lemma {:induction false} AboveThresholdSelects(rows: seq<ScoredRow>)
    ensures AboveThreshold(rows) == Select(rows, AboveFlags(rows))
  {
    if rows != [] {
      var tail := rows[1..];
      AboveThresholdSelects(tail);
      AboveFlagsCons(rows);
      SelectCons(rows[0], tail, rows[0].similarity > Threshold, AboveFlags(tail));
    }
  }

  lemma AboveFlagsCons(rows: seq<ScoredRow>)
    requires rows != []
    ensures [rows[0]] + rows[1..] == rows
    ensures AboveFlags(rows) == [rows[0].similarity > Threshold] + AboveFlags(rows[1..])
  {
    assert [rows[0]] + rows[1..] == rows;
    var flags, tail := AboveFlags(rows), AboveFlags(rows[1..]);
    var cons := [rows[0].similarity > Threshold] + tail;
    forall i | 0 <= i < |flags| ensures flags[i] == cons[i] {
      if i > 0 {
        assert cons[i] == tail[i - 1] && rows[1..][i - 1] == rows[i];
      }
    }
  }

  /** The rows the query returns for one ordering: the first `limit`, then the threshold filter. */
  function TopThenFilter(order: seq<ScoredRow>, limit: nat): seq<ScoredRow> {
    AboveThreshold(Prefix(order, limit))
  }

  // ---------------------------------------------------------------------------------------------
  // The filter keeps a prefix of a non-increasing sequence

  lemma NonIncreasingTail(rows: seq<ScoredRow>)
    requires NonIncreasing(rows) && rows != []
    ensures NonIncreasing(rows[1..])
  {
    forall i, j | 0 <= i < j < |rows[1..]| ensures rows[1..][i].similarity >= rows[1..][j].similarity {
      assert rows[1..][i] == rows[i + 1] && rows[1..][j] == rows[j + 1];
    }
  }

  /** The position where the threshold cuts `rows`: every row before it is above, none after. */
  predicate IsCut(rows: seq<ScoredRow>, k: nat) {
    k <= |rows| && forall i :: 0 <= i < |rows| ==> (rows[i].similarity > Threshold <==> i < k)
  }

  /** A sequence has at most one cut. */
  lemma CutUnique(rows: seq<ScoredRow>, a: nat, b: nat)
    requires IsCut(rows, a) && IsCut(rows, b)
    ensures a == b
  {
    var i := if a < b then a else b;
    if i < |rows| {
      assert rows[i].similarity > Threshold <==> i < a;
      assert rows[i].similarity > Threshold <==> i < b;
    }
  }

  /**
   * On a non-increasing sequence the rows above the threshold form a prefix: every row before
   * the cut is above it and every row after the cut is not.
   */
  lemma {:induction false} AboveThresholdIsPrefix(rows: seq<ScoredRow>)
    requires NonIncreasing(rows)
    ensures AboveThreshold(rows) == rows[..|AboveThreshold(rows)|]
    ensures IsCut(rows, |AboveThreshold(rows)|)
  {
    if rows != [] {
      var tail := rows[1..];
      NonIncreasingTail(rows);
      AboveThresholdIsPrefix(tail);
      var k := |AboveThreshold(tail)|;
      if rows[0].similarity > Threshold {
        assert rows[..k + 1] == [rows[0]] + tail[..k];
        forall i | 1 <= i < |rows| ensures (rows[i].similarity > Threshold <==> i < k + 1) {
          assert rows[i] == tail[i - 1];
        }
      } else {
        forall i | 0 <= i < |rows| ensures rows[i].similarity <= Threshold {
          assert rows[i].similarity <= rows[0].similarity;
        }
        IsCutEmpty(tail, k);
      }
    }
  }

  lemma IsCutEmpty(tail: seq<ScoredRow>, k: nat)
    requires IsCut(tail, k)
    requires forall i :: 0 <= i < |tail| ==> tail[i].similarity <= Threshold
    ensures k == 0
  {
    if |tail| > 0 {
      assert tail[0].similarity <= Threshold;
    }
  }

  lemma PrefixNonIncreasing(rows: seq<ScoredRow>, n: nat)
    requires NonIncreasing(rows)
    ensures NonIncreasing(Prefix(rows, n))
  {
  }

  /**
   * For a non-increasing ordering, limiting before the threshold filter returns the same rows as
   * filtering first and limiting afterwards: no row above the threshold is lost by the order in
   * which the query applies `LIMIT` and `WHERE`.
   */
  lemma LimitThenFilterIsFilterThenLimit(order: seq<ScoredRow>, limit: nat)
    requires NonIncreasing(order)
    ensures TopThenFilter(order, limit) == Prefix(AboveThreshold(order), limit)
  {
    var a := AboveThreshold(order);
    AboveThresholdIsPrefix(order);
    if limit < |order| {
      var p := order[..limit];
      var m := if |a| < limit then |a| else limit;
      PrefixNonIncreasing(order, limit);
      AboveThresholdIsPrefix(p);
      CutOfPrefix(order, |a|, limit);
      CutUnique(p, |AboveThreshold(p)|, m);
      PrefixOfPrefix(order, |a|, m);
      PrefixOfPrefix(order, limit, m);
    }
  }

  /** Cutting the first `limit` rows moves the threshold's cut to at most `limit`. */
  lemma CutOfPrefix(rows: seq<ScoredRow>, c: nat, limit: nat)
    requires IsCut(rows, c) && limit <= |rows|
    ensures IsCut(rows[..limit], if c < limit then c else limit)
  {
    var p := rows[..limit];
    forall i | 0 <= i < |p| ensures p[i] == rows[i] {
    }
  }

  lemma PrefixOfPrefix(rows: seq<ScoredRow>, n: nat, m: nat)
    requires m <= n <= |rows|
    ensures rows[..n][..m] == rows[..m]
  {
  }

  // ---------------------------------------------------------------------------------------------
  // What the query returns

  /**
   * The rows the query returns: at most `limit` of them, in non-increasing similarity order,
   * every one above the threshold, the leading rows of the ordering, and each a scored cached
   * entry.
   */
  lemma TopThenFilterProperties(order: seq<ScoredRow>, rows: seq<ScoredRow>, limit: nat)
    requires IsRanking(order, rows)
    ensures |TopThenFilter(order, limit)| <= limit
    ensures NonIncreasing(TopThenFilter(order, limit))
    ensures forall i :: 0 <= i < |TopThenFilter(order, limit)| ==> TopThenFilter(order, limit)[i].similarity > Threshold
    ensures TopThenFilter(order, limit) == order[..|TopThenFilter(order, limit)|]
    ensures multiset(TopThenFilter(order, limit)) <= multiset(rows)
  {
    var r := TopThenFilter(order, limit);
    TopIsPrefix(order, limit);
    PrefixNonIncreasing(order, |r|);
    assert order == r + order[|r|..];
    assert multiset(order) == multiset(r) + multiset(order[|r|..]);
  }

  /** The returned rows are the leading rows of the ordering, at most `limit` of them. */
  lemma TopIsPrefix(order: seq<ScoredRow>, limit: nat)
    requires NonIncreasing(order)
    ensures |TopThenFilter(order, limit)| <= limit
    ensures TopThenFilter(order, limit) == order[..|TopThenFilter(order, limit)|]
  {
    var c := AboveThreshold(order);
    var r := Prefix(c, limit);
    LimitThenFilterIsFilterThenLimit(order, limit);
    assert TopThenFilter(order, limit) == r;
    AboveThresholdIsPrefix(order);
    assert c == order[..|c|];
    assert |r| <= |c| && r == c[..|r|];
    assert order[..|c|][..|r|] == order[..|r|];
  }

  /**
   * When fewer than `limit` rows come back, no cached entry above the threshold was left out;
   * in every case each returned row scores at least as high as each row of the ordering that was
   * not returned.
   */
  lemma TopThenFilterComplete(order: seq<ScoredRow>, rows: seq<ScoredRow>, limit: nat)
    requires IsRanking(order, rows)
    ensures |TopThenFilter(order, limit)| < limit ==>
      forall j :: 0 <= j < |rows| && rows[j].similarity > Threshold ==> rows[j] in TopThenFilter(order, limit)
    ensures forall i, j :: 0 <= i < |TopThenFilter(order, limit)| <= j < |order| ==>
      TopThenFilter(order, limit)[i].similarity >= order[j].similarity
  {
    var r := TopThenFilter(order, limit);
    TopThenFilterProperties(order, rows, limit);
    LimitThenFilterIsFilterThenLimit(order, limit);
    AboveThresholdIsPrefix(order);
    forall i, j | 0 <= i < |r| <= j < |order| ensures r[i].similarity >= order[j].similarity {
      assert r[i] == order[i];
    }
    if |r| < limit {
      forall j | 0 <= j < |rows| && rows[j].similarity > Threshold ensures rows[j] in r {
        assert rows[j] in multiset(order);
        var i :| 0 <= i < |order| && order[i] == rows[j];
        assert r[i] == rows[j];
      }
    }
  }

  // ---------------------------------------------------------------------------------------------
  // Some ordering always exists

  function InsertDescending(x: ScoredRow, s: seq<ScoredRow>): (r: seq<ScoredRow>)
    ensures multiset(r) == multiset(s) + multiset{x}
    ensures forall y :: y in r ==> y == x || y in s
  {
    if s == [] then [x]
    else if x.similarity >= s[0].similarity then [x] + s
    else
      assert s == [s[0]] + s[1..];
      [s[0]] + InsertDescending(x, s[1..])
  }

  /** An insertion sort by descending similarity, used only to show that an ordering exists. */
  function SortDescending(rows: seq<ScoredRow>): (r: seq<ScoredRow>)
    ensures multiset(r) == multiset(rows)
  {
    if rows == [] then []
    else
      assert rows == [rows[0]] + rows[1..];
      InsertDescending(rows[0], SortDescending(rows[1..]))
  }

  lemma {:induction false} InsertDescendingSorted(x: ScoredRow, s: seq<ScoredRow>)
    requires NonIncreasing(s)
    ensures NonIncreasing(InsertDescending(x, s))
  {
    if s != [] && x.similarity < s[0].similarity {
      NonIncreasingTail(s);
      InsertDescendingSorted(x, s[1..]);
      var rest := InsertDescending(x, s[1..]);
      forall k | 0 <= k < |rest| ensures s[0].similarity >= rest[k].similarity {
        assert rest[k] in rest;
        if rest[k] != x {
          var j :| 0 <= j < |s[1..]| && s[1..][j] == rest[k];
          assert s[1..][j] == s[j + 1];
        }
      }
      var r := [s[0]] + rest;
      forall i, j | 0 <= i < j < |r| ensures r[i].similarity >= r[j].similarity {
        if i > 0 { assert r[i] == rest[i - 1] && r[j] == rest[j - 1]; }
        else { assert r[j] == rest[j - 1]; }
      }
    }
  }

  /** Every set of rows has an ordering, so the query can always answer. */
  lemma {:induction false} RankingExists(rows: seq<ScoredRow>)
    ensures IsRanking(SortDescending(rows), rows)
  {
    if rows != [] {
      RankingExists(rows[1..]);
      InsertDescendingSorted(rows[0], SortDescending(rows[1..]));
    }
  }

  // ---------------------------------------------------------------------------------------------
  // The order of ties does not change what is returned, up to rows of equal score

  /** Removing one element keeps a sequence non-increasing. */
  lemma RemoveAtNonIncreasing(s: seq<ScoredRow>, j: nat)
    requires NonIncreasing(s) && j < |s|
    ensures NonIncreasing(s[..j] + s[j + 1..])
  {
    var rest := s[..j] + s[j + 1..];
    forall a, b | 0 <= a < b < |rest| ensures rest[a].similarity >= rest[b].similarity {
      var ia := if a < j then a else a + 1;
      var ib := if b < j then b else b + 1;
      assert rest[a] == s[ia] && rest[b] == s[ib];
    }
  }

  /** Two non-increasing arrangements of the same rows start with the same score. */
  lemma FirstScoresAgree(o1: seq<ScoredRow>, o2: seq<ScoredRow>)
    requires NonIncreasing(o1) && NonIncreasing(o2) && multiset(o1) == multiset(o2) && |o1| > 0
    ensures |o2| > 0 && o1[0].similarity == o2[0].similarity
  {
    assert o1[0] in multiset(o2);
    var j :| 0 <= j < |o2| && o2[j] == o1[0];
    assert o2[0] in multiset(o1);
    var k :| 0 <= k < |o1| && o1[k] == o2[0];
  }

  lemma RemoveAtMultiset(s: seq<ScoredRow>, j: nat)
    requires j < |s|
    ensures multiset(s[..j] + s[j + 1..]) == multiset(s) - multiset{s[j]}
  {
    assert s == s[..j] + [s[j]] + s[j + 1..];
  }

  /**
   * After removing position `j` of `o2`, whose score equals the first score, the remaining rows
   * line up with `o2` shifted by one.
   */
  lemma RemoveAtShift(o1: seq<ScoredRow>, o2: seq<ScoredRow>, j: nat, rest: seq<ScoredRow>)
    requires NonIncreasing(o2) && j < |o2| && |o1| == |o2| && rest == o2[..j] + o2[j + 1..]
    requires o2[0].similarity == o2[j].similarity
    requires forall i :: 0 < i < |o1| ==> o1[i].similarity == rest[i - 1].similarity
    ensures forall i :: 0 < i < |o1| ==> o1[i].similarity == o2[i].similarity
  {
    forall i | 0 < i < |o1| ensures o1[i].similarity == o2[i].similarity {
      assert o1[i].similarity == rest[i - 1].similarity;
      if i - 1 >= j {
        assert rest[i - 1] == o2[i];
      } else {
        assert rest[i - 1] == o2[i - 1];
        assert o2[0].similarity >= o2[i - 1].similarity >= o2[i].similarity >= o2[j].similarity;
      }
    }
  }

  /** Two orderings of the same rows carry the same similarity at every position. */
  lemma {:induction false} RankingsAgree(o1: seq<ScoredRow>, o2: seq<ScoredRow>)
    requires NonIncreasing(o1) && NonIncreasing(o2) && multiset(o1) == multiset(o2)
    ensures |o1| == |o2|
    ensures forall i :: 0 <= i < |o1| ==> o1[i].similarity == o2[i].similarity
    decreases |o1|
  {
    assert |o1| == |multiset(o1)| == |multiset(o2)| == |o2|;
    if |o1| > 0 {
      var x := o1[0];
      FirstScoresAgree(o1, o2);
      assert x in multiset(o2);
      var j :| 0 <= j < |o2| && o2[j] == x;
      var rest := o2[..j] + o2[j + 1..];
      RemoveAtMultiset(o2, j);
      RemoveAtMultiset(o1, 0);
      assert o1[..0] + o1[1..] == o1[1..];
      RemoveAtNonIncreasing(o2, j);
      NonIncreasingTail(o1);
      RankingsAgree(o1[1..], rest);
      assert forall i :: 0 < i < |o1| ==> o1[i] == o1[1..][i - 1];
      RemoveAtShift(o1, o2, j, rest);
    }
  }

  /**
   * Whichever order the database picks among equal scores, the query returns the same number
   * of rows with the same similarity at every rank.
   */
  lemma TieOrderIrrelevant(o1: seq<ScoredRow>, o2: seq<ScoredRow>, rows: seq<ScoredRow>, limit: nat)
    requires IsRanking(o1, rows) && IsRanking(o2, rows)
    ensures |TopThenFilter(o1, limit)| == |TopThenFilter(o2, limit)|
    ensures forall i :: 0 <= i < |TopThenFilter(o1, limit)| ==>
      TopThenFilter(o1, limit)[i].similarity == TopThenFilter(o2, limit)[i].similarity
  {
    RankingsAgree(o1, o2);
    LimitThenFilterIsFilterThenLimit(o1, limit);
    LimitThenFilterIsFilterThenLimit(o2, limit);
    AboveThresholdIsPrefix(o1);
    AboveThresholdIsPrefix(o2);
    var c1, c2 := |AboveThreshold(o1)|, |AboveThreshold(o2)|;
    forall i | 0 <= i < |o2| ensures (o2[i].similarity > Threshold <==> i < c1) {
      assert o1[i].similarity == o2[i].similarity;
    }
    CutUnique(o2, c1, c2);
    forall i | 0 <= i < |TopThenFilter(o1, limit)|
      ensures TopThenFilter(o1, limit)[i].similarity == TopThenFilter(o2, limit)[i].similarity
    {
      assert TopThenFilter(o1, limit)[i] == o1[i] && TopThenFilter(o2, limit)[i] == o2[i];
    }
  }
}
