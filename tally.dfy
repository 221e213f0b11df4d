/**
 * The dimension tally (`getDimensionStats`): per axis, how many answered
 * scenes picked the left and the right letter, the left share as a
 * percentage, the dominant letter, and the number of answered slots.
 */
module Tally {
  import opened Wrappers
  import opened Dimensions
  import opened Catalog
  import opened Choices

  /** Scene k of the axis d is answered with the letter l. */
  predicate Scores(scenes: seq<Scene>, choices: ChoiceSeq, d: Dimension, l: Letter, k: nat)
  {
    k < |scenes| && scenes[k].dimension == d && Slot(choices, k).Some? && Slot(choices, k).value.letter == l
  }

  /** Among the first n scenes, the number of scenes of the axis d answered with l. */
  function Count(scenes: seq<Scene>, choices: ChoiceSeq, d: Dimension, l: Letter, n: nat): nat
    requires n <= |scenes|
  {
    if n == 0 then 0
    else Count(scenes, choices, d, l, n - 1) + (if Scores(scenes, choices, d, l, n - 1) then 1 else 0)
  }

  /** Among the first n scenes, the number with a filled slot. */
  function Answered(choices: ChoiceSeq, n: nat): nat
  {
    if n == 0 then 0
    else Answered(choices, n - 1) + (if Slot(choices, n - 1).Some? then 1 else 0)
  }

  /** Among the first n scenes, the number that belong to the axis d. */
  function AxisCount(scenes: seq<Scene>, d: Dimension, n: nat): nat
    requires n <= |scenes|
  {
    if n == 0 then 0
    else AxisCount(scenes, d, n - 1) + (if scenes[n - 1].dimension == d then 1 else 0)
  }

  /** The per-axis summary the tally reports (`DimensionStatsItem`). */
  datatype DimensionStatsItem = DimensionStatsItem(
    leftLetter: Letter,
    rightLetter: Letter,
    leftScore: nat,
    rightScore: nat,
    percent: real,
    dominant: Option<Letter>)

  /**
   * The item reports the counts l and r of the axis d: an unvisited axis
   * reads 50 with no dominant letter; otherwise the percentage is the left
   * share of the total and the dominant letter is the one with the strictly
   * larger count, none on a tie.
   */
  predicate Summarises(item: DimensionStatsItem, d: Dimension, l: nat, r: nat)
  {
    item.leftLetter == LeftLetter(d) && item.rightLetter == RightLetter(d) &&
    item.leftScore == l && item.rightScore == r &&
    (l + r == 0 ==> item.percent == 50.0 && item.dominant == None) &&
    (l + r > 0 ==>
       item.percent == (l as real / (l + r) as real) * 100.0 &&
       item.dominant == (if l == r then None
                         else if l > r then Some(LeftLetter(d))
                         else Some(RightLetter(d))))
  }

  const AllDimensions: set<Dimension> := {EI, SN, TF, JP}

  /** The statistics before any scene is counted: zero scores, 50 and no dominant letter. */
  function Initial(d: Dimension): DimensionStatsItem
  {
    DimensionStatsItem(LeftLetter(d), RightLetter(d), 0, 0, 50.0, None)
  }

  /** The statistics after counting, before percentages and dominant letters are derived. */
  predicate Counted(stats: map<Dimension, DimensionStatsItem>, sceneList: seq<Scene>, choices: ChoiceSeq, n: nat)
    requires n <= |sceneList|
  {
    stats.Keys == AllDimensions &&
    forall d :: d in stats ==>
      stats[d] == Initial(d).(leftScore := Count(sceneList, choices, d, LeftLetter(d), n),
                              rightScore := Count(sceneList, choices, d, RightLetter(d), n))
  }

  /**
   * `getDimensionStats(sceneList, choices)`: every axis is summarised from
   * its left and right counts over the whole scene list, and answeredCount
   * is the number of filled slots among the first |sceneList|.
   */
  method GetDimensionStats(sceneList: seq<Scene>, choices: ChoiceSeq)
    returns (stats: map<Dimension, DimensionStatsItem>, answeredCount: nat)
    ensures stats.Keys == AllDimensions
    ensures answeredCount == Answered(choices, |sceneList|)
    ensures forall d :: d in stats ==>
              Summarises(stats[d], d, Count(sceneList, choices, d, LeftLetter(d), |sceneList|),
                                      Count(sceneList, choices, d, RightLetter(d), |sceneList|))
  {
    stats := InitialStats();
    stats, answeredCount := CountAnswers(sceneList, choices, stats);
    stats := DerivePercentages(stats, sceneList, choices);
  }

  /** The `dimensionOrder.reduce` that seeds one zeroed item per axis. */
  method InitialStats() returns (stats: map<Dimension, DimensionStatsItem>)
    ensures Counted(stats, [], [], 0)
  {
    stats := map[];
    for j := 0 to 4
      invariant forall k :: 0 <= k < 4 ==> (DimensionOrder[k] in stats <==> k < j)
      invariant stats.Keys <= AllDimensions
      invariant forall d :: d in stats ==> stats[d] == Initial(d)
    {
      var dim := DimensionOrder[j];
      stats := stats[dim := Initial(dim)];
    }
    forall d | d in AllDimensions ensures d in stats { AxisOrderIsPermutation(d); }
  }

  /** The `sceneList.forEach` that counts the answered slots and the letters of each axis. */
  method CountAnswers(sceneList: seq<Scene>, choices: ChoiceSeq, stats0: map<Dimension, DimensionStatsItem>)
    returns (stats: map<Dimension, DimensionStatsItem>, answeredCount: nat)
    requires Counted(stats0, [], [], 0)
    ensures Counted(stats, sceneList, choices, |sceneList|)
    ensures answeredCount == Answered(choices, |sceneList|)
  {
    stats, answeredCount := stats0, 0;
    for i := 0 to |sceneList|
      invariant Counted(stats, sceneList, choices, i)
      invariant answeredCount == Answered(choices, i)
    {
      var choice := Slot(choices, i);
      if choice.Some? {
        answeredCount := answeredCount + 1;
        var dim := sceneList[i].dimension;
        assert dim in AllDimensions by { AxisOrderIsPermutation(dim); }
        var stat := stats[dim];
        if choice.value.letter == LeftLetter(dim) {
          stats := stats[dim := stat.(leftScore := stat.leftScore + 1)];
        } else if choice.value.letter == RightLetter(dim) {
          stats := stats[dim := stat.(rightScore := stat.rightScore + 1)];
        }
      }
    }
  }

  /** The `dimensionOrder.forEach` that derives each axis's percentage and dominant letter. */
  method DerivePercentages(counted: map<Dimension, DimensionStatsItem>, sceneList: seq<Scene>, choices: ChoiceSeq)
    returns (stats: map<Dimension, DimensionStatsItem>)
    requires Counted(counted, sceneList, choices, |sceneList|)
    ensures stats.Keys == AllDimensions
    ensures forall d :: d in stats ==>
              Summarises(stats[d], d, Count(sceneList, choices, d, LeftLetter(d), |sceneList|),
                                      Count(sceneList, choices, d, RightLetter(d), |sceneList|))
  {
    stats := counted;
    for j := 0 to 4
      invariant stats.Keys == AllDimensions
      invariant forall k :: 0 <= k < j ==>
                  Summarises(stats[DimensionOrder[k]], DimensionOrder[k],
                             counted[DimensionOrder[k]].leftScore, counted[DimensionOrder[k]].rightScore)
      invariant forall k :: j <= k < 4 ==> stats[DimensionOrder[k]] == counted[DimensionOrder[k]]
    {
      var dim := DimensionOrder[j];
      var stat := stats[dim];
      var total := stat.leftScore + stat.rightScore;
      if total == 0 {
        stats := stats[dim := stat.(percent := 50.0, dominant := None)];
      } else {
        var dominant := if stat.leftScore == stat.rightScore then None
                        else if stat.leftScore > stat.rightScore then Some(stat.leftLetter)
                        else Some(stat.rightLetter);
        stats := stats[dim := stat.(percent := (stat.leftScore as real / total as real) * 100.0,
                                    dominant := dominant)];
      }
    }
    forall d | d in stats
      ensures Summarises(stats[d], d, Count(sceneList, choices, d, LeftLetter(d), |sceneList|),
                                      Count(sceneList, choices, d, RightLetter(d), |sceneList|))
    {
      AxisOrderIsPermutation(d);
    }
  }

  /** The indices below n of the scenes of the axis d answered with l. */
  ghost function ScoringIndices(scenes: seq<Scene>, choices: ChoiceSeq, d: Dimension, l: Letter, n: nat): set<nat>
    requires n <= |scenes|
  {
    set k: nat | k < n && Scores(scenes, choices, d, l, k)
  }

  /** The indices below n of the filled slots. */
  ghost function AnsweredIndices(choices: ChoiceSeq, n: nat): set<nat>
  {
    set k: nat | k < n && Slot(choices, k).Some?
  }

  /** The indices below n of the scenes of the axis d answered with a letter of that axis. */
  ghost function AxisAnsweredIndices(scenes: seq<Scene>, choices: ChoiceSeq, d: Dimension, n: nat): set<nat>
    requires n <= |scenes|
  {
    set k: nat | k < n && scenes[k].dimension == d && Slot(choices, k).Some? &&
                 InAxis(d, Slot(choices, k).value.letter)
  }

  /** A letter's score is the number of scenes of the axis answered with that letter. */
  lemma {:induction false} CountIsCardinality(scenes: seq<Scene>, choices: ChoiceSeq, d: Dimension, l: Letter, n: nat)
    requires n <= |scenes|
    ensures Count(scenes, choices, d, l, n) == |ScoringIndices(scenes, choices, d, l, n)|
  {
    if n == 0 {
      assert ScoringIndices(scenes, choices, d, l, 0) == {};
    } else {
      CountIsCardinality(scenes, choices, d, l, n - 1);
      var before := ScoringIndices(scenes, choices, d, l, n - 1);
      var after := ScoringIndices(scenes, choices, d, l, n);
      if Scores(scenes, choices, d, l, n - 1) {
        assert n - 1 !in before;
        assert after == before + {n - 1};
      } else {
        assert after == before;
      }
    }
  }

  /** answeredCount is the number of filled slots among the first n. */
  lemma {:induction false} AnsweredIsCardinality(choices: ChoiceSeq, n: nat)
    ensures Answered(choices, n) == |AnsweredIndices(choices, n)|
  {
    if n == 0 {
      assert AnsweredIndices(choices, 0) == {};
    } else {
      AnsweredIsCardinality(choices, n - 1);
      if Slot(choices, n - 1).Some? {
        assert AnsweredIndices(choices, n) == AnsweredIndices(choices, n - 1) + {n - 1};
      } else {
        assert AnsweredIndices(choices, n) == AnsweredIndices(choices, n - 1);
      }
    }
  }

  /**
   * The two scores of an axis add up to the number of its scenes answered
   * with one of its letters: a slot holding a foreign letter still counts
   * as answered but scores for neither side.
   */
  lemma AxisScoresAddUp(scenes: seq<Scene>, choices: ChoiceSeq, d: Dimension, n: nat)
    requires n <= |scenes|
    ensures Count(scenes, choices, d, LeftLetter(d), n) + Count(scenes, choices, d, RightLetter(d), n) ==
            |AxisAnsweredIndices(scenes, choices, d, n)|
    ensures |AxisAnsweredIndices(scenes, choices, d, n)| <= Answered(choices, n)
  {
    CountIsCardinality(scenes, choices, d, LeftLetter(d), n);
    CountIsCardinality(scenes, choices, d, RightLetter(d), n);
    AnsweredIsCardinality(choices, n);
    var left := ScoringIndices(scenes, choices, d, LeftLetter(d), n);
    var right := ScoringIndices(scenes, choices, d, RightLetter(d), n);
    AxisOrderIsPermutation(d);
    assert left * right == {};
    assert AxisAnsweredIndices(scenes, choices, d, n) == left + right;
    assert AxisAnsweredIndices(scenes, choices, d, n) <= AnsweredIndices(choices, n);
    assert |AxisAnsweredIndices(scenes, choices, d, n)| <= |AnsweredIndices(choices, n)| by {
      SubsetCardinality(AxisAnsweredIndices(scenes, choices, d, n), AnsweredIndices(choices, n));
    }
  }

  /** A subset is no larger than its superset. */
  lemma SubsetCardinality(a: set<nat>, b: set<nat>)
    requires a <= b
    ensures |a| <= |b|
  {
    assert b == a + (b - a);
  }

  /**
   * Once every slot is filled with a letter of its scene's axis, the two
   * scores of an axis add up to the number of scenes of that axis.
   */
  lemma {:induction false} CompleteAxisTotal(scenes: seq<Scene>, choices: ChoiceSeq, d: Dimension, n: nat)
    requires n <= |scenes|
    requires Complete(scenes, choices) && LettersInAxis(scenes, choices)
    ensures Count(scenes, choices, d, LeftLetter(d), n) + Count(scenes, choices, d, RightLetter(d), n) ==
            AxisCount(scenes, d, n)
  {
    if n > 0 {
      CompleteAxisTotal(scenes, choices, d, n - 1);
      AxisOrderIsPermutation(d);
    }
  }

  /** In a scene list that walks the axes cyclically, each block of four scenes holds one scene per axis. */
  lemma {:induction false} CyclicAxisCount(scenes: seq<Scene>, d: Dimension, m: nat)
    requires Cyclic(scenes) && 4 * m <= |scenes|
    ensures AxisCount(scenes, d, 4 * m) == m
  {
    if m > 0 {
      CyclicAxisCount(scenes, d, m - 1);
      var b := 4 * (m - 1);
      assert scenes[b].dimension == EI && scenes[b + 1].dimension == SN &&
             scenes[b + 2].dimension == TF && scenes[b + 3].dimension == JP by {
        assert b % 4 == 0 && (b + 1) % 4 == 1 && (b + 2) % 4 == 2 && (b + 3) % 4 == 3;
      }
      var one := (if scenes[b].dimension == d then 1 else 0);
      var two := (if scenes[b + 1].dimension == d then 1 else 0);
      var three := (if scenes[b + 2].dimension == d then 1 else 0);
      var four := (if scenes[b + 3].dimension == d then 1 else 0);
      assert AxisCount(scenes, d, b + 1) == m - 1 + one;
      assert AxisCount(scenes, d, b + 2) == m - 1 + one + two;
      assert AxisCount(scenes, d, b + 3) == m - 1 + one + two + three;
      assert AxisCount(scenes, d, b + 4) == m - 1 + one + two + three + four;
      assert one + two + three + four == 1;
    }
  }

  /**
   * What a summary says about the counts: the percentage lies in [0, 100];
   * the left letter dominates exactly when it is above 50, the right exactly
   * when it is below, and no letter dominates exactly when it is 50.
   */
  lemma SummaryMeaning(item: DimensionStatsItem, d: Dimension, l: nat, r: nat)
    requires Summarises(item, d, l, r)
    ensures 0.0 <= item.percent <= 100.0
    ensures item.dominant == Some(LeftLetter(d)) <==> item.percent > 50.0
    ensures item.dominant == Some(RightLetter(d)) <==> item.percent < 50.0
    ensures item.dominant == None <==> item.percent == 50.0
    ensures item.percent == 100.0 <==> l > 0 && r == 0
  {
    AxisOrderIsPermutation(d);
    if l + r > 0 {
      var t := (l + r) as real;
      var q := l as real / t;
      QuotientCompare(l as real, 1.0, t);
      QuotientCompare(l as real, 0.5, t);
      QuotientCompare(0.5 * t, l as real, t);
      assert q == 1.0 <==> r == 0;
    }
  }

  /** Comparing a quotient by a positive divisor is comparing the dividend with the product. */
  lemma QuotientCompare(a: real, c: real, t: real)
    requires t > 0.0
    ensures a / t < c <==> a < c * t
    ensures a / t == c <==> a == c * t
    ensures 0.0 <= a ==> 0.0 <= a / t
  {
    var q := a / t;
    assert q * t == a;
    if q < c { assert (c - q) * t > 0.0; }
    if q > c { assert (q - c) * t > 0.0; }
  }
}
