/** The structured part of the audit summary: each module's finding gets a
    score and a note by a fixed precedence of the keys it carries, and the
    average score is reported to one decimal (held here in tenths). */
module Auditor {
  import opened Money
  import PeriodKeys

  /** A module's finding: the keys of its dictionary (none: the finding is
      empty, so falsy) and the number of items under `"errors"`. */
  datatype Finding = Finding(fields: set<string>, errorCount: nat)

  /** The score of one finding: empty 0, then by precedence `"errors"` 40,
      `"total_interest"` 90, `"gross"` 85, `"forecast"` 80, anything else 70. */
  function Score(v: Finding): (s: int)
    ensures s == 0 <==> v.fields == {}
    ensures v.fields != {} && "errors" in v.fields ==> s == 40
    ensures v.fields != {} && "errors" !in v.fields && "total_interest" in v.fields ==> s == 90
    ensures v.fields != {} && "errors" !in v.fields && "total_interest" !in v.fields && "gross" in v.fields ==> s == 85
    ensures (v.fields != {} && "errors" !in v.fields && "total_interest" !in v.fields && "gross" !in v.fields
             && "forecast" in v.fields) ==> s == 80
    ensures (v.fields != {} && "errors" !in v.fields && "total_interest" !in v.fields && "gross" !in v.fields
             && "forecast" !in v.fields) ==> s == 70
    ensures 0 <= s <= 90
  {
    if v.fields == {} then 0
    else if "errors" in v.fields then 40
    else if "total_interest" in v.fields then 90
    else if "gross" in v.fields then 85
    else if "forecast" in v.fields then 80
    else 70
  }

  /** The note for module `k`, chosen by the same precedence as the score. */
  function Note(k: string, v: Finding): (n: string)
    ensures |n| > |k| + 2 && n[..|k| + 2] == k + ": "
  {
    var text :=
      if v.fields == {} then "missing data."
      else if "errors" in v.fields then "found " + PeriodKeys.DecimalText(v.errorCount) + " error(s)."
      else if "total_interest" in v.fields then "lease schedule OK."
      else if "gross" in v.fields then "deferred tax calculated."
      else if "forecast" in v.fields then "forecast generated."
      else "generic OK.";
    assert (k + ": " + text)[..|k| + 2] == k + ": ";
    k + ": " + text
  }

  /** The keys of a dictionary are distinct. */
  predicate DistinctKeys<T>(items: seq<(string, T)>)
  {
    forall i, j :: 0 <= i < j < |items| ==> items[i].0 != items[j].0
  }

  /** `scores.values()`, in the order the findings came. */
  function Scores(findings: seq<(string, Finding)>): (r: seq<int>)
    ensures |r| == |findings|
    ensures forall i :: 0 <= i < |r| ==> r[i] == Score(findings[i].1)
  {
    if findings == [] then [] else Scores(findings[..|findings| - 1]) + [Score(findings[|findings| - 1].1)]
  }

  /** `round(sum(scores) / len(scores), 1) if scores else 0`, in tenths. */
  function AverageTenths(scores: seq<int>): int
  {
    if scores == [] then 0 else RoundHalfEven(10.0 * Sum(scores) as real / |scores| as real)
  }

  /** Scores in `0..90` total within `0..90n`. */
  lemma {:induction false} ScoresTotal(s: seq<int>)
    requires forall i :: 0 <= i < |s| ==> 0 <= s[i] <= 90
    ensures 0 <= Sum(s) <= 90 * |s|
  {
    if s != [] {
      ScoresTotal(s[..|s| - 1]);
    }
  }

  /** The average lies between 0 and 90, and is 0 when every finding is
      empty. */
  lemma AverageBounds(findings: seq<(string, Finding)>)
    ensures 0 <= AverageTenths(Scores(findings)) <= 900
    ensures AverageTenths(Scores(findings)) == 0 <== forall i :: 0 <= i < |findings| ==> findings[i].1.fields == {}
  {
    var s := Scores(findings);
    assert forall i :: 0 <= i < |s| ==> 0 <= s[i] <= 90;
    MeanOfScores(s);
    if forall i :: 0 <= i < |findings| ==> findings[i].1.fields == {} {
      assert forall i :: 0 <= i < |s| ==> s[i] == 0;
      UniformAverage(s, 0);
    }
  }

  /** The mean of scores in `0..90`, in tenths, lies in `0..900`. */
  lemma MeanOfScores(s: seq<int>)
    requires forall i :: 0 <= i < |s| ==> 0 <= s[i] <= 90
    ensures 0 <= AverageTenths(s) <= 900
  {
    if s != [] {
      ScoresTotal(s);
      MeanBounds(Sum(s), |s|);
    }
  }

  /** A total of `n` scores in `0..90` has a mean, in tenths, in `0..900`. */
  lemma MeanBounds(total: int, n: nat)
    requires n > 0 && 0 <= total <= 90 * n
    ensures 0.0 <= 10.0 * total as real / n as real <= 900.0
  {
    var q := 10.0 * total as real / n as real;
    assert q * n as real == 10.0 * total as real;
    if q > 900.0 {
      assert q * n as real > 900.0 * n as real;
    }
  }

  /** A uniform audit averages its common score. */
  lemma UniformAverage(scores: seq<int>, x: int)
    requires forall i :: 0 <= i < |scores| ==> scores[i] == x
    ensures scores != [] ==> AverageTenths(scores) == 10 * x
    ensures scores == [] ==> AverageTenths(scores) == 0
  {
    if scores == [] {
      return;
    }
    SumUniform(scores, x);
    var n := |scores| as real;
    assert 10.0 * Sum(scores) as real / n == 10.0 * x as real;
    RoundWhole(10 * x);
  }

  lemma {:induction false} SumUniform(s: seq<int>, x: int)
    requires forall i :: 0 <= i < |s| ==> s[i] == x
    ensures Sum(s) == |s| * x
  {
    if s != [] {
      SumUniform(s[..|s| - 1], x);
    }
  }

  /** The `(module, score)` items of the findings, in order. */
  function ScoreItems(findings: seq<(string, Finding)>): (r: seq<(string, int)>)
    ensures |r| == |findings|
    ensures forall i :: 0 <= i < |findings| ==> r[i] == (findings[i].0, Score(findings[i].1))
  {
    seq(|findings|, i requires 0 <= i < |findings| => (findings[i].0, Score(findings[i].1)))
  }

  /** The notes of the findings, in order. */
  function Notes(findings: seq<(string, Finding)>): (r: seq<string>)
    ensures |r| == |findings|
    ensures forall i :: 0 <= i < |findings| ==> r[i] == Note(findings[i].0, findings[i].1)
  {
    seq(|findings|, i requires 0 <= i < |findings| => Note(findings[i].0, findings[i].1))
  }

  /** One more finding appends its score, its item and its note. */
  lemma SummaryStep(findings: seq<(string, Finding)>, i: nat)
    requires i < |findings|
    ensures Scores(findings[..i + 1]) == Scores(findings[..i]) + [Score(findings[i].1)]
    ensures ScoreItems(findings[..i + 1]) == ScoreItems(findings[..i]) + [(findings[i].0, Score(findings[i].1))]
    ensures Notes(findings[..i + 1]) == Notes(findings[..i]) + [Note(findings[i].0, findings[i].1)]
  {
    assert findings[..i + 1][..i] == findings[..i];
  }

  /** The loop of `summarize_audit`: one score and one note per finding, in
      the findings' order, then the average. */
  method SummarizeAudit(findings: seq<(string, Finding)>)
    returns (scores: seq<(string, int)>, notes: seq<string>, avgTenths: int)
    requires DistinctKeys(findings)
    ensures |scores| == |findings| && |notes| == |findings|
    ensures forall i :: 0 <= i < |findings| ==> scores[i] == (findings[i].0, Score(findings[i].1))
    ensures forall i :: 0 <= i < |findings| ==> notes[i] == Note(findings[i].0, findings[i].1)
    ensures DistinctKeys(scores)
    ensures avgTenths == AverageTenths(Scores(findings))
  {
    scores := [];
    notes := [];
    var values: seq<int> := [];
    var i := 0;
    while i < |findings|
      invariant 0 <= i <= |findings|
      invariant scores == ScoreItems(findings[..i])
      invariant notes == Notes(findings[..i])
      invariant values == Scores(findings[..i])
    {
      SummaryStep(findings, i);
      var s := Score(findings[i].1);
      scores := scores + [(findings[i].0, s)];
      notes := notes + [Note(findings[i].0, findings[i].1)];
      values := values + [s];
      i := i + 1;
    }
    assert findings[..i] == findings;
    ItemsKeepKeys(findings);
    avgTenths := if values == [] then 0 else RoundHalfEven(10.0 * Sum(values) as real / |values| as real);
  }

  /** Items keyed like distinct findings have distinct keys. */
  lemma ItemsKeepKeys(findings: seq<(string, Finding)>)
    requires DistinctKeys(findings)
    ensures DistinctKeys(ScoreItems(findings))
  {
    var r := ScoreItems(findings);
    forall a, b | 0 <= a < b < |r| ensures r[a].0 != r[b].0 {
      assert r[a].0 == findings[a].0 && r[b].0 == findings[b].0;
    }
  }
}
