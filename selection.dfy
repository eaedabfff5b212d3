/**
 * Choosing the winner from the score report: the highest score, the first
 * family in report order that reached it, and the fixed acceptance floor.
 */
module Selection {
  import opened Entries

  /** The name-to-score report, in the order the dict iterates it. */
  type Report = seq<(string, real)>

  /** The minimum held-out score a winner must reach. */
  const Threshold: real := 0.6

  /** `max(...)` over a non-empty sequence, scanning left to right. */
  function Max(s: seq<real>): (m: real)
    requires |s| > 0
    ensures m in s
    ensures forall i :: 0 <= i < |s| ==> s[i] <= m
  {
    if |s| == 1 then s[0]
    else
      var m := Max(s[..|s| - 1]);
      assert s == s[..|s| - 1] + [s[|s| - 1]];
      if s[|s| - 1] > m then s[|s| - 1] else m
  }

  /** `list.index(x)`: the position of the first occurrence of `x`. */
  function IndexOf(s: seq<real>, x: real): (k: nat)
    requires x in s
    ensures k < |s| && s[k] == x
    ensures forall j :: 0 <= j < k ==> s[j] != x
  {
    if s[0] == x then 0 else 1 + IndexOf(s[1..], x)
  }

  /** The best score: `max(sorted(model_report.values()))`; sorting first does not change the maximum. */
  function BestScore(report: Report): real
    requires report != []
  {
    Max(Values(report))
  }

  /** The position of the winner: the first entry whose score equals the best score. */
  function BestIndex(report: Report): (k: nat)
    requires report != []
    ensures k < |report|
    ensures report[k].1 == BestScore(report)
    ensures forall j :: 0 <= j < |report| ==> report[j].1 <= report[k].1
    ensures forall j :: 0 <= j < k ==> report[j].1 < report[k].1
  {
    IndexOf(Values(report), BestScore(report))
  }

  /** `list(model_report.keys())[...]` at the winner's position: the name of the first best entry. */
  function BestName(report: Report): (name: string)
    requires report != []
    ensures exists k :: IsFirstArgmax(report, k) && report[k].0 == name
  {
    var k := BestIndex(report);
    assert IsFirstArgmax(report, k);
    report[k].0
  }

  /** The acceptance gate: a best score below the floor is rejected; the floor itself passes. */
  predicate Accepts(score: real)
    ensures Accepts(score) <==> Threshold <= score
  {
    !(score < Threshold)
  }

  /**
   * Entry `k` is the first maximum: nothing in the report beats it, and every
   * earlier entry is strictly lower.
   */
  ghost predicate IsFirstArgmax(report: Report, k: int)
  {
    && 0 <= k < |report|
    && (forall j :: 0 <= j < |report| ==> report[j].1 <= report[k].1)
    && (forall j :: 0 <= j < k ==> report[j].1 < report[k].1)
  }

  /** Among entries of a non-empty report, exactly one is the first maximum. */
  lemma FirstArgmaxUnique(report: Report, k: int, k': int)
    requires IsFirstArgmax(report, k) && IsFirstArgmax(report, k')
    ensures k == k'
  {
    assert report[k].1 == report[k'].1;
  }

  /**
   * The winner's name is the name at position `k` if and only if `k` is the
   * first maximum of the report (names being unique, as dict keys are).
   */
  lemma BestNameIsFirstArgmax(report: Report, k: int)
    requires UniqueKeys(report) && 0 <= k < |report|
    ensures BestName(report) == report[k].0 <==> IsFirstArgmax(report, k)
  {
    var b := BestIndex(report);
    assert IsFirstArgmax(report, b);
    if IsFirstArgmax(report, k) {
      FirstArgmaxUnique(report, k, b);
    }
    if BestName(report) == report[k].0 {
      assert b == k;
    }
  }

  /** When two entries tie at the top, the one earlier in report order wins. */
  lemma TieGoesToEarlier(report: Report, i: nat, j: nat)
    requires UniqueKeys(report)
    requires i < j < |report|
    requires report[i].1 == report[j].1 == BestScore(report)
    ensures BestIndex(report) <= i
    ensures BestName(report) != report[j].0
  {
  }

  /** The best score is a score in the report and no score in the report exceeds it. */
  lemma BestScoreIsMaximum(report: Report)
    requires report != []
    ensures exists i :: 0 <= i < |report| && report[i].1 == BestScore(report)
    ensures forall i :: 0 <= i < |report| ==> report[i].1 <= BestScore(report)
  {
    var b := BestIndex(report);
    assert report[b].1 == BestScore(report);
  }

  /** Gate boundary: the floor itself is accepted, and a score just below it is rejected. */
  lemma GateBoundary()
    ensures Accepts(0.6) && !Accepts(0.59)
  {
  }
}
