/**
 * The analysis result contract shared by the frontend and the backend
 * (`PestDetection`, `AnalysisResult`) and the statistics the frontend computes
 * over a list of results (`getAnalysisStats`).
 */
module PestResults {
  import opened Common
  import opened Seqs

  datatype Severity = Low | Medium | High

  datatype Quality = Good | Fair | Poor

  /** One identified pest or disease. Confidences are exact reals here. */
  datatype PestDetection = PestDetection(
    pestType: string,
    confidence: real,
    description: string,
    treatment: string,
    severity: Severity)

  datatype Dimensions = Dimensions(width: nat, height: nat)

  datatype ImageAnalysis = ImageAnalysis(
    brightness: real,
    contrast: real,
    quality: Quality,
    dimensions: Dimensions,
    fileSize: nat)

  datatype AnalysisResult = AnalysisResult(
    hasPest: bool,
    detections: seq<PestDetection>,
    imageAnalysis: ImageAnalysis,
    recommendations: seq<string>)

  /**
   * The invariant the backend establishes for a result
   * (backend/src/controllers/pestAnalysisController.ts:148): it reports a pest
   * exactly when it lists a detection.
   */
  predicate Consistent(r: AnalysisResult)
  {
    r.hasPest == (|r.detections| > 0)
  }

  predicate Infested(r: AnalysisResult)
  {
    r.hasPest
  }

  /** `detections.map(d => d.pestType)`. */
  function Labels(r: AnalysisResult): (labels: seq<string>)
    ensures |labels| == |r.detections|
    ensures forall j :: 0 <= j < |labels| ==> labels[j] == r.detections[j].pestType
  {
    seq(|r.detections|, j requires 0 <= j < |r.detections| => r.detections[j].pestType)
  }

  /** `analyses.flatMap(a => a.detections.map(d => d.pestType))`. */
  function PestLabels(rs: seq<AnalysisResult>): (labels: seq<string>)
    ensures labels == [] <==> forall i :: 0 <= i < |rs| ==> rs[i].detections == []
  {
    if rs == [] then [] else Labels(rs[0]) + PestLabels(rs[1..])
  }

  /** How often `x` occurs in `s`. */
  function Occurrences(s: seq<string>, x: string): nat
  {
    multiset(s)[x]
  }

  /** Position of the first occurrence of `x` in `s`. */
  function IndexOf(s: seq<string>, x: string): (i: nat)
    requires x in s
    ensures i < |s| && s[i] == x
    ensures forall k :: 0 <= k < i ==> s[k] != x
  {
    if s[0] == x then 0 else 1 + IndexOf(s[1..], x)
  }

  lemma {:induction false} IndexOfExtend(s: seq<string>, y: string, x: string)
    requires x in s
    ensures x in s + [y] && IndexOf(s + [y], x) == IndexOf(s, x)
  {
    if s[0] != x {
      assert (s + [y])[1..] == s[1..] + [y];
      IndexOfExtend(s[1..], y, x);
    }
  }

  lemma {:induction false} IndexOfLast(s: seq<string>, y: string)
    requires y !in s
    ensures IndexOf(s + [y], y) == |s|
  {
    if s != [] {
      assert (s + [y])[1..] == s[1..] + [y];
      IndexOfLast(s[1..], y);
    }
  }

  /**
   * The keys of the count record built by `reduce`, in the order `Object.keys`
   * lists them: each label once, in the order of its first appearance.
   */
  function Keys(s: seq<string>): (k: seq<string>)
    ensures forall x :: x in k <==> x in s
    ensures forall i, j :: 0 <= i < j < |k| ==> k[i] != k[j]
    ensures forall i, j :: 0 <= i < j < |k| ==> IndexOf(s, k[i]) < IndexOf(s, k[j])
  {
    if s == [] then []
    else
      var p := s[..|s| - 1];
      var y := s[|s| - 1];
      var k := Keys(p);
      assert s == p + [y];
      assert forall x :: x in p ==> IndexOf(s, x) == IndexOf(p, x) by {
        forall x | x in p ensures IndexOf(s, x) == IndexOf(p, x) {
          IndexOfExtend(p, y, x);
        }
      }
      if y in k then k
      else
        IndexOfLast(p, y);
        k + [y]
  }

  /** `allPests.reduce((acc, pest) => { acc[pest] = (acc[pest] || 0) + 1; ... }, {})`. */
  function Tally(s: seq<string>): (counts: map<string, nat>)
    ensures forall x :: x in counts <==> x in s
    ensures forall x :: x in counts ==> counts[x] == Occurrences(s, x)
  {
    if s == [] then map[]
    else
      var p := s[..|s| - 1];
      var y := s[|s| - 1];
      var m := Tally(p);
      assert s == p + [y];
      assert multiset(s) == multiset(p) + multiset{y};
      m[y := (if y in m then m[y] else 0) + 1]
  }

  /**
   * `keys.reduce((a, b) => counts[a] > counts[b] ? a : b)`: because the comparison
   * is strict, a later key with an equal count replaces the current choice, so the
   * result is the LAST key of maximal count.
   */
  function PickMax(keys: seq<string>, counts: map<string, nat>): (r: string)
    requires |keys| > 0
    requires forall i :: 0 <= i < |keys| ==> keys[i] in counts
    ensures r in keys && r in counts
    ensures forall i :: 0 <= i < |keys| ==> counts[keys[i]] <= counts[r]
    ensures exists j :: 0 <= j < |keys| && keys[j] == r && forall i :: j < i < |keys| ==> counts[keys[i]] < counts[r]
  {
    if |keys| == 1 then keys[0]
    else
      var a := PickMax(keys[..|keys| - 1], counts);
      var b := keys[|keys| - 1];
      if counts[a] > counts[b] then a else b
  }

  /** The most frequent label (`null` when there is none), with the tie rule of `PickMax`. */
  function MostCommonPest(labels: seq<string>): (r: Option<string>)
    ensures r.None? <==> labels == []
    ensures r.Some? ==> r.value in labels
  {
    var keys := Keys(labels);
    if |keys| > 0 then Some(PickMax(keys, Tally(labels))) else None
  }

  /** The most common pest occurs at least as often as any other label. */
  lemma MostCommonPestIsMaximal(labels: seq<string>, p: string)
    requires MostCommonPest(labels) == Some(p)
    ensures forall x :: x in labels ==> Occurrences(labels, x) <= Occurrences(labels, p)
  {
    var keys := Keys(labels);
    var counts := Tally(labels);
    forall x | x in labels
      ensures Occurrences(labels, x) <= Occurrences(labels, p)
    {
      KeyPosition(labels, keys, x);
      var i :| 0 <= i < |keys| && keys[i] == x;
      assert counts[keys[i]] <= counts[p];
    }
  }

  /**
   * Ties: among the labels sharing the highest count, the most common pest is the
   * one whose first appearance comes last.
   */
  lemma MostCommonPestTieBreak(labels: seq<string>, p: string, x: string)
    requires MostCommonPest(labels) == Some(p)
    requires x in labels && Occurrences(labels, x) == Occurrences(labels, p)
    ensures IndexOf(labels, x) <= IndexOf(labels, p)
  {
    var keys := Keys(labels);
    var counts := Tally(labels);
    KeyPosition(labels, keys, x);
    var i :| 0 <= i < |keys| && keys[i] == x;
    LastMaximalKey(labels, keys, counts, p, i);
  }

  lemma KeyPosition(labels: seq<string>, keys: seq<string>, x: string)
    requires keys == Keys(labels) && x in labels
    ensures exists i :: 0 <= i < |keys| && keys[i] == x
  {
    assert x in keys;
  }

  lemma LastMaximalKey(labels: seq<string>, keys: seq<string>, counts: map<string, nat>, p: string, i: nat)
    requires keys == Keys(labels) && counts == Tally(labels) && |keys| > 0
    requires p == PickMax(keys, counts)
    requires i < |keys| && counts[keys[i]] == counts[p]
    ensures IndexOf(labels, keys[i]) <= IndexOf(labels, p)
  {
    var j :| 0 <= j < |keys| && keys[j] == p && forall k :: j < k < |keys| ==> counts[keys[k]] < counts[p];
    if i < j {
      assert IndexOf(labels, keys[i]) < IndexOf(labels, keys[j]);
    } else {
      assert i == j;
    }
  }

  function SumConfidence(ds: seq<PestDetection>): real
  {
    if ds == [] then 0.0 else ds[0].confidence + SumConfidence(ds[1..])
  }

  /** Mean confidence of one result, with an empty detection list divided by 1 instead of 0. */
  function MeanConfidence(r: AnalysisResult): real
  {
    SumConfidence(r.detections) / (Max(|r.detections|, 1) as real)
  }

  function SumOfMeans(rs: seq<AnalysisResult>): real
  {
    if rs == [] then 0.0 else MeanConfidence(rs[0]) + SumOfMeans(rs[1..])
  }

  /** The mean over results of their mean confidences (0 for no results). */
  function AverageConfidence(rs: seq<AnalysisResult>): real
  {
    if |rs| > 0 then SumOfMeans(rs) / (|rs| as real) else 0.0
  }

  lemma QuotientAtMostOne(a: real, b: real)
    requires 0.0 <= a <= b && b > 0.0
    ensures 0.0 <= a / b <= 1.0
  {
  }

  datatype AnalysisStats = AnalysisStats(
    totalAnalyses: nat,
    pestDetections: nat,
    mostCommonPest: Option<string>,
    averageConfidence: real)

  /** The number of infested results is 0 exactly when none is infested, and all of them exactly when all are. */
  lemma InfestedCount(analyses: seq<AnalysisResult>)
    ensures |Filter(analyses, Infested)| == 0 <==> forall i :: 0 <= i < |analyses| ==> !analyses[i].hasPest
    ensures |Filter(analyses, Infested)| == |analyses| <==> forall i :: 0 <= i < |analyses| ==> analyses[i].hasPest
  {
    var infested := Filter(analyses, Infested);
    FilterKeepsAll(analyses, Infested);
    if i :| 0 <= i < |analyses| && analyses[i].hasPest {
      assert analyses[i] in infested;
    }
    if |infested| > 0 {
      assert infested[0] in analyses && Infested(infested[0]);
    }
  }

  /** `getAnalysisStats`. */
  function GetAnalysisStats(analyses: seq<AnalysisResult>): (s: AnalysisStats)
    ensures s.totalAnalyses == |analyses|
    ensures s.pestDetections <= s.totalAnalyses
    ensures s.pestDetections == 0 <==> forall i :: 0 <= i < |analyses| ==> !analyses[i].hasPest
    ensures s.pestDetections == s.totalAnalyses <==> forall i :: 0 <= i < |analyses| ==> analyses[i].hasPest
    ensures s.mostCommonPest.None? <==> forall i :: 0 <= i < |analyses| ==> analyses[i].detections == []
    ensures s.averageConfidence == AverageConfidence(analyses)
    ensures analyses == [] ==> s == AnalysisStats(0, 0, None, 0.0)
  {
    var infested := Filter(analyses, Infested);
    InfestedCount(analyses);
    AnalysisStats(
      |analyses|,
      |infested|,
      MostCommonPest(PestLabels(analyses)),
      AverageConfidence(analyses))
  }

  /** Every confidence of the result lies in [0, 1]. */
  predicate ConfidencesInRange(r: AnalysisResult)
  {
    forall j :: 0 <= j < |r.detections| ==> 0.0 <= r.detections[j].confidence <= 1.0
  }

  lemma {:induction false} SumConfidenceBounds(ds: seq<PestDetection>)
    requires forall j :: 0 <= j < |ds| ==> 0.0 <= ds[j].confidence <= 1.0
    ensures 0.0 <= SumConfidence(ds) <= |ds| as real
  {
    if ds != [] {
      SumConfidenceBounds(ds[1..]);
    }
  }

  lemma MeanConfidenceBounds(r: AnalysisResult)
    requires ConfidencesInRange(r)
    ensures 0.0 <= MeanConfidence(r) <= 1.0
  {
    SumConfidenceBounds(r.detections);
    QuotientAtMostOne(SumConfidence(r.detections), Max(|r.detections|, 1) as real);
  }

  lemma {:induction false} SumOfMeansBounds(rs: seq<AnalysisResult>)
    requires forall i :: 0 <= i < |rs| ==> ConfidencesInRange(rs[i])
    ensures 0.0 <= SumOfMeans(rs) <= |rs| as real
  {
    if rs != [] {
      MeanConfidenceBounds(rs[0]);
      SumOfMeansBounds(rs[1..]);
    }
  }

  /** The average of per-result mean confidences stays within [0, 1] when every confidence does. */
  lemma AverageConfidenceInRange(analyses: seq<AnalysisResult>)
    requires forall i :: 0 <= i < |analyses| ==> ConfidencesInRange(analyses[i])
    ensures 0.0 <= AverageConfidence(analyses) <= 1.0
  {
    if analyses != [] {
      SumOfMeansBounds(analyses);
      QuotientAtMostOne(SumOfMeans(analyses), |analyses| as real);
    }
  }
}
