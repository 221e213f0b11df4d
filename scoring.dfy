/**
 * The result computation (`computeMbtiResult`): once every slot is filled,
 * each axis is resolved by strict majority, a tie goes to the letter of the
 * last answered scene of that axis (or to the left letter), the four winners
 * are joined in the fixed axis order and the type is looked up in the
 * profile table.
 */
module Scoring {
  import opened Wrappers
  import opened Dimensions
  import opened Catalog
  import opened Choices
  import opened Profiles
  import opened Tally

  /** `MbtiResult`: the type string, its four letters and the resolved profile. */
  datatype MbtiResult = MbtiResult(typeName: string, letters: seq<Letter>, profile: Profile)

  /**
   * `choices.some((c, index) => index < sceneList.length && !c)`: some slot
   * that exists in `choices` and lies below |scenes| is empty. Slots past the
   * end of `choices` are not looked at.
   */
  predicate HasUnanswered(scenes: seq<Scene>, choices: ChoiceSeq)
    ensures HasUnanswered(scenes, choices) ==> !Complete(scenes, choices)
    ensures |choices| >= |scenes| && !Complete(scenes, choices) ==> HasUnanswered(scenes, choices)
  {
    exists k :: 0 <= k < |choices| && k < |scenes| && Slot(choices, k).None?
  }

  /** A result is produced: the scene list is non-empty and no existing slot below it is empty. */
  predicate Ready(scenes: seq<Scene>, choices: ChoiceSeq)
    ensures |scenes| > 0 && Complete(scenes, choices) ==> Ready(scenes, choices)
    ensures Ready(scenes, choices) && |choices| >= |scenes| ==> |scenes| > 0 && Complete(scenes, choices)
  {
    |scenes| > 0 && !HasUnanswered(scenes, choices)
  }

  /**
   * `lastPick[dim]` after the walk over the first n scenes: the letter of the
   * highest-indexed answered scene of the axis d, whatever that letter is.
   */
  function LastPick(scenes: seq<Scene>, choices: ChoiceSeq, d: Dimension, n: nat): (r: Option<Letter>)
    requires n <= |scenes|
    ensures r.None? <==> forall k :: 0 <= k < n ==> !(scenes[k].dimension == d && Slot(choices, k).Some?)
    ensures r.Some? ==> exists k :: 0 <= k < n && scenes[k].dimension == d && Slot(choices, k).Some? && Slot(choices, k).value.letter == r.value &&
                                    forall j :: k < j < n ==> !(scenes[j].dimension == d && Slot(choices, j).Some?)
  {
    if n == 0 then None
    else if scenes[n - 1].dimension == d && Slot(choices, n - 1).Some? then Some(Slot(choices, n - 1).value.letter)
    else LastPick(scenes, choices, d, n - 1)
  }

  /**
   * The letter chosen for the axis d over the whole scene list: the strictly
   * larger count wins; on a tie, the last pick if it is a letter of the axis,
   * otherwise the left letter.
   */
  function Winner(scenes: seq<Scene>, choices: ChoiceSeq, d: Dimension): (w: Letter)
    ensures InAxis(d, w)
  {
    var left := Count(scenes, choices, d, LeftLetter(d), |scenes|);
    var right := Count(scenes, choices, d, RightLetter(d), |scenes|);
    if left > right then LeftLetter(d)
    else if right > left then RightLetter(d)
    else
      match LastPick(scenes, choices, d, |scenes|)
      case Some(last) => if InAxis(d, last) then last else LeftLetter(d)
      case None => LeftLetter(d)
  }

  /** The winners of the four axes, in the fixed axis order. */
  function WinningLetters(scenes: seq<Scene>, choices: ChoiceSeq): (letters: seq<Letter>)
    ensures AxisLetters(letters)
  {
    [Winner(scenes, choices, EI), Winner(scenes, choices, SN),
     Winner(scenes, choices, TF), Winner(scenes, choices, JP)]
  }

  /**
   * What `computeMbtiResult` returns: nothing unless ready; otherwise the
   * joined winning letters, their letters, and the profile of that type.
   * The profile is always a catalogued one, never the default.
   */
  function MbtiResultOf(scenes: seq<Scene>, choices: ChoiceSeq): (r: Option<MbtiResult>)
    ensures r.Some? <==> Ready(scenes, choices)
    ensures r.Some? ==> r.value.letters == WinningLetters(scenes, choices) &&
                        r.value.typeName == Join(r.value.letters)
    ensures r.Some? ==> AxisLetters(r.value.letters) && |r.value.typeName| == 4 &&
                        r.value.typeName in ProfileKeys && r.value.profile == Catalogued(r.value.typeName)
  {
    if !Ready(scenes, choices) then None
    else
      var letters := WinningLetters(scenes, choices);
      EveryTypeCatalogued(letters);
      Some(MbtiResult(Join(letters), letters, LookupProfile(Join(letters))))
  }

  /** The `dimScores` entry of an axis after counting the first n scenes. */
  predicate ScoresCounted(dimScores: map<Dimension, map<Letter, nat>>, scenes: seq<Scene>, choices: ChoiceSeq, n: nat)
    requires n <= |scenes|
  {
    dimScores.Keys == AllDimensions &&
    forall d :: d in dimScores ==>
      dimScores[d].Keys == {LeftLetter(d), RightLetter(d)} &&
      dimScores[d][LeftLetter(d)] == Count(scenes, choices, d, LeftLetter(d), n) &&
      dimScores[d][RightLetter(d)] == Count(scenes, choices, d, RightLetter(d), n)
  }

  /** The `lastPick` record after the first n scenes. */
  predicate PicksRecorded(lastPick: map<Dimension, Letter>, scenes: seq<Scene>, choices: ChoiceSeq, n: nat)
    requires n <= |scenes|
  {
    forall d :: (d in lastPick <==> LastPick(scenes, choices, d, n).Some?) &&
                (d in lastPick ==> lastPick[d] == LastPick(scenes, choices, d, n).value)
  }

  /**
   * `computeMbtiResult(sceneList, choices)`: the readiness check, the walk
   * that fills `dimScores` and `lastPick`, the walk over the axis order that
   * pushes each winner, and the profile lookup.
   */
  method ComputeMbtiResult(sceneList: seq<Scene>, choices: ChoiceSeq) returns (r: Option<MbtiResult>)
    ensures r == MbtiResultOf(sceneList, choices)
  {
    if |sceneList| == 0 { return None; }
    if HasUnanswered(sceneList, choices) { return None; }
    var dimScores, lastPick := TallyLetters(sceneList, choices);
    var letters := ResolveAxes(sceneList, choices, dimScores, lastPick);
    var typeName := Join(letters);
    r := Some(MbtiResult(typeName, letters, LookupProfile(typeName)));
  }

  /** The `sceneList.forEach` that counts each chosen letter and records the last pick of each axis. */
  method TallyLetters(sceneList: seq<Scene>, choices: ChoiceSeq)
    returns (dimScores: map<Dimension, map<Letter, nat>>, lastPick: map<Dimension, Letter>)
    ensures ScoresCounted(dimScores, sceneList, choices, |sceneList|)
    ensures PicksRecorded(lastPick, sceneList, choices, |sceneList|)
  {
    dimScores := ZeroScores;
    lastPick := map[];
    ZeroScoresCounted(sceneList, choices);
    for i := 0 to |sceneList|
      invariant ScoresCounted(dimScores, sceneList, choices, i)
      invariant PicksRecorded(lastPick, sceneList, choices, i)
    {
      ghost var scoresBefore, picksBefore := dimScores, lastPick;
      var choice := Slot(choices, i);
      if choice.Some? {
        var dim := sceneList[i].dimension;
        var letter := choice.value.letter;
        assert dim in AllDimensions by { AxisOrderIsPermutation(dim); }
        // A letter outside the axis creates an entry that is never read again.
        if letter in dimScores[dim] {
          dimScores := dimScores[dim := dimScores[dim][letter := dimScores[dim][letter] + 1]];
        }
        lastPick := lastPick[dim := letter];
      }
      ScoresStep(scoresBefore, dimScores, sceneList, choices, i);
      PicksStep(picksBefore, lastPick, sceneList, choices, i);
    }
  }

  /** The initial `dimScores`: both letters of every axis at zero. */
  const ZeroScores: map<Dimension, map<Letter, nat>> := map[
    EI := map[E := 0, I := 0],
    SN := map[S := 0, N := 0],
    TF := map[T := 0, F := 0],
    JP := map[J := 0, P := 0]
  ]

  /** Before any scene is counted, every score is zero and no pick is recorded. */
  lemma ZeroScoresCounted(scenes: seq<Scene>, choices: ChoiceSeq)
    ensures ScoresCounted(ZeroScores, scenes, choices, 0)
    ensures PicksRecorded(map[], scenes, choices, 0)
  {
    forall d | d in ZeroScores
      ensures ZeroScores[d].Keys == {LeftLetter(d), RightLetter(d)}
    {
    }
  }

  /** Counting the answer of scene i takes the counts over the first i scenes to those over the first i + 1. */
  lemma ScoresStep(before: map<Dimension, map<Letter, nat>>, after: map<Dimension, map<Letter, nat>>,
                   scenes: seq<Scene>, choices: ChoiceSeq, i: nat)
    requires i < |scenes| && ScoresCounted(before, scenes, choices, i)
    requires Slot(choices, i).None? ==> after == before
    requires Slot(choices, i).Some? ==>
               var dim, letter := scenes[i].dimension, Slot(choices, i).value.letter;
               dim in before && after == if letter in before[dim] then before[dim := before[dim][letter := before[dim][letter] + 1]] else before
    ensures ScoresCounted(after, scenes, choices, i + 1)
  {
    forall d | d in after
      ensures after[d].Keys == {LeftLetter(d), RightLetter(d)}
      ensures after[d][LeftLetter(d)] == Count(scenes, choices, d, LeftLetter(d), i + 1)
      ensures after[d][RightLetter(d)] == Count(scenes, choices, d, RightLetter(d), i + 1)
    {
      AxisOrderIsPermutation(d);
      var scores := before[d];
      assert d in before;
      if Slot(choices, i).Some? && scenes[i].dimension == d {
        var letter := Slot(choices, i).value.letter;
        if letter == LeftLetter(d) {
          assert after[d] == scores[letter := scores[letter] + 1];
        } else if letter == RightLetter(d) {
          assert after[d] == scores[letter := scores[letter] + 1];
        } else {
          assert after[d] == scores;
        }
      } else {
        assert after[d] == scores;
      }
    }
  }

  /** Recording the answer of scene i takes the last picks over the first i scenes to those over the first i + 1. */
  lemma PicksStep(before: map<Dimension, Letter>, after: map<Dimension, Letter>,
                  scenes: seq<Scene>, choices: ChoiceSeq, i: nat)
    requires i < |scenes| && PicksRecorded(before, scenes, choices, i)
    requires Slot(choices, i).None? ==> after == before
    requires Slot(choices, i).Some? ==> after == before[scenes[i].dimension := Slot(choices, i).value.letter]
    ensures PicksRecorded(after, scenes, choices, i + 1)
  {
    forall d
      ensures d in after <==> LastPick(scenes, choices, d, i + 1).Some?
      ensures d in after ==> after[d] == LastPick(scenes, choices, d, i + 1).value
    {
    }
  }

  /** The `dimensionOrder.forEach` that pushes the winning letter of each axis. */
  method ResolveAxes(sceneList: seq<Scene>, choices: ChoiceSeq,
                     dimScores: map<Dimension, map<Letter, nat>>, lastPick: map<Dimension, Letter>)
    returns (letters: seq<Letter>)
    requires ScoresCounted(dimScores, sceneList, choices, |sceneList|)
    requires PicksRecorded(lastPick, sceneList, choices, |sceneList|)
    ensures letters == WinningLetters(sceneList, choices)
  {
    letters := [];
    for j := 0 to 4
      invariant |letters| == j
      invariant forall k :: 0 <= k < j ==> letters[k] == Winner(sceneList, choices, DimensionOrder[k])
    {
      var dim := DimensionOrder[j];
      assert dim in AllDimensions by { AxisOrderIsPermutation(dim); }
      var left, right := LeftLetter(dim), RightLetter(dim);
      var leftScore, rightScore := dimScores[dim][left], dimScores[dim][right];
      var chosen: Letter;
      if leftScore > rightScore {
        chosen := left;
      } else if rightScore > leftScore {
        chosen := right;
      } else if dim in lastPick && (lastPick[dim] == left || lastPick[dim] == right) {
        chosen := lastPick[dim];
      } else {
        chosen := left;
      }
      letters := letters + [chosen];
    }
  }

  /**
   * When the choice sequence is as long as the scene list (as the session
   * keeps it), a result is produced exactly when there is at least one scene
   * and every slot is filled.
   */
  lemma ReadyIffComplete(scenes: seq<Scene>, choices: ChoiceSeq)
    requires |choices| == |scenes|
    ensures MbtiResultOf(scenes, choices).Some? <==> |scenes| > 0 && Complete(scenes, choices)
  {
    if |scenes| > 0 && Complete(scenes, choices) {
      forall k | 0 <= k < |choices| && k < |scenes| ensures choices[k].Some? {
        assert Slot(choices, k) == choices[k];
      }
    }
    if !Complete(scenes, choices) {
      var k :| 0 <= k < |scenes| && Slot(choices, k).None?;
      assert choices[k].None?;
    }
  }

  /**
   * Resolution of an axis by the counts: the left letter wins exactly when
   * it has more votes, or the votes are level and the last pick of the axis
   * is not the right letter; symmetrically for the right letter.
   */
  lemma WinnerByCounts(scenes: seq<Scene>, choices: ChoiceSeq, d: Dimension)
    ensures var left := Count(scenes, choices, d, LeftLetter(d), |scenes|);
            var right := Count(scenes, choices, d, RightLetter(d), |scenes|);
            var last := LastPick(scenes, choices, d, |scenes|);
            (Winner(scenes, choices, d) == LeftLetter(d) <==>
               left > right || (left == right && last != Some(RightLetter(d)))) &&
            (Winner(scenes, choices, d) == RightLetter(d) <==>
               right > left || (left == right && last == Some(RightLetter(d))))
  {
    AxisOrderIsPermutation(d);
  }

  /**
   * On a tie, the axis goes to the letter of its highest-indexed answered
   * scene when that letter belongs to the axis, and to the left letter
   * otherwise (also when the axis has no answered scene).
   */
  lemma {:induction false} TieGoesToLastScene(scenes: seq<Scene>, choices: ChoiceSeq, d: Dimension, k: nat)
    requires Count(scenes, choices, d, LeftLetter(d), |scenes|) == Count(scenes, choices, d, RightLetter(d), |scenes|)
    requires k < |scenes| && scenes[k].dimension == d && Slot(choices, k).Some?
    requires forall j :: k < j < |scenes| ==> !(scenes[j].dimension == d && Slot(choices, j).Some?)
    ensures InAxis(d, Slot(choices, k).value.letter) ==> Winner(scenes, choices, d) == Slot(choices, k).value.letter
    ensures !InAxis(d, Slot(choices, k).value.letter) ==> Winner(scenes, choices, d) == LeftLetter(d)
  {
    LastPickOfLastScene(scenes, choices, d, k, |scenes|);
  }

  /** The last pick over the first n scenes is the letter of the last answered scene of the axis among them. */
  lemma {:induction false} LastPickOfLastScene(scenes: seq<Scene>, choices: ChoiceSeq, d: Dimension, k: nat, n: nat)
    requires k < n <= |scenes| && scenes[k].dimension == d && Slot(choices, k).Some?
    requires forall j :: k < j < n ==> !(scenes[j].dimension == d && Slot(choices, j).Some?)
    ensures LastPick(scenes, choices, d, n) == Some(Slot(choices, k).value.letter)
  {
    if n - 1 != k {
      LastPickOfLastScene(scenes, choices, d, k, n - 1);
    }
  }

  /**
   * Once every slot is filled, every axis that has a scene has a last pick:
   * the left-letter fallback of a tie is only reached for an axis with no
   * scene at all.
   */
  lemma {:induction false} CompleteHasLastPick(scenes: seq<Scene>, choices: ChoiceSeq, d: Dimension, k: nat)
    requires Complete(scenes, choices)
    requires k < |scenes| && scenes[k].dimension == d
    ensures LastPick(scenes, choices, d, |scenes|).Some?
  {
    assert scenes[k].dimension == d && Slot(choices, k).Some?;
  }

  /**
   * For every story of the catalog answered in full with letters of each
   * scene's axis, no axis is ever tied: each axis has five scenes, an odd
   * number, so the winner of each axis is its strict majority letter.
   */
  lemma StoryNeverTies(scenes: seq<Scene>, choices: ChoiceSeq, d: Dimension)
    requires |scenes| == 20 && Cyclic(scenes)
    requires Complete(scenes, choices) && LettersInAxis(scenes, choices)
    ensures Count(scenes, choices, d, LeftLetter(d), 20) + Count(scenes, choices, d, RightLetter(d), 20) == 5
    ensures Count(scenes, choices, d, LeftLetter(d), 20) != Count(scenes, choices, d, RightLetter(d), 20)
    ensures var left := Count(scenes, choices, d, LeftLetter(d), 20);
            Winner(scenes, choices, d) == if left >= 3 then LeftLetter(d) else RightLetter(d)
  {
    CompleteAxisTotal(scenes, choices, d, 20);
    CyclicAxisCount(scenes, d, 5);
  }

  /** Every slot holds the option of its scene that carries the axis's left letter (option 'A'). */
  predicate AllLeft(scenes: seq<Scene>, choices: ChoiceSeq)
  {
    |choices| == |scenes| &&
    forall k :: 0 <= k < |scenes| ==> choices[k] == Some(SceneOption('A', LeftLetter(scenes[k].dimension)))
  }

  /** With every scene answered by its left letter, each axis scores only on the left. */
  lemma {:induction false} AllLeftCounts(scenes: seq<Scene>, choices: ChoiceSeq, d: Dimension, n: nat)
    requires AllLeft(scenes, choices) && n <= |scenes|
    ensures Count(scenes, choices, d, LeftLetter(d), n) == AxisCount(scenes, d, n)
    ensures Count(scenes, choices, d, RightLetter(d), n) == 0
  {
    AxisOrderIsPermutation(d);
    if n > 0 {
      AllLeftCounts(scenes, choices, d, n - 1);
      assert Slot(choices, n - 1) == choices[n - 1];
    }
  }

  /**
   * A story answered entirely with option 'A' (the left letter of every
   * scene) yields the type "ESTJ" with its catalogued profile, and every
   * axis reads 100 per cent with the left letter dominant.
   */
  lemma AllLeftAnswersGiveESTJ(choices: ChoiceSeq)
    requires AllLeft(StoryScenes(20), choices)
    ensures MbtiResultOf(StoryScenes(20), choices) == Some(MbtiResult("ESTJ", [E, S, T, J], Catalogued("ESTJ")))
    ensures forall d, item :: Summarises(item, d, Count(StoryScenes(20), choices, d, LeftLetter(d), 20),
                                                  Count(StoryScenes(20), choices, d, RightLetter(d), 20)) ==>
                              item.percent == 100.0 && item.dominant == Some(LeftLetter(d))
  {
    var scenes := StoryScenes(20);
    StoryScenesWellFormed(20);
    assert !HasUnanswered(scenes, choices);
    forall d | true
      ensures Count(scenes, choices, d, LeftLetter(d), 20) == 5
      ensures Count(scenes, choices, d, RightLetter(d), 20) == 0
    {
      AllLeftCounts(scenes, choices, d, 20);
      CyclicAxisCount(scenes, d, 5);
    }
    assert WinningLetters(scenes, choices) == [E, S, T, J];
    assert Join([E, S, T, J]) == "ESTJ";
  }

  /**
   * With one slot per scene, a choice sequence that is not fully answered
   * (fewer answered slots than scenes, as in 5 of 20) produces no result.
   */
  lemma PartialGivesNoResult(scenes: seq<Scene>, choices: ChoiceSeq)
    requires |choices| == |scenes| && Answered(choices, |scenes|) < |scenes|
    ensures MbtiResultOf(scenes, choices).None?
  {
    if Complete(scenes, choices) {
      CompleteAnswered(scenes, choices, |scenes|);
    }
    ReadyIffComplete(scenes, choices);
  }

  /** When every slot is filled, every one of the first n slots counts as answered. */
  lemma {:induction false} CompleteAnswered(scenes: seq<Scene>, choices: ChoiceSeq, n: nat)
    requires Complete(scenes, choices) && n <= |scenes|
    ensures Answered(choices, n) == n
  {
    if n > 0 {
      CompleteAnswered(scenes, choices, n - 1);
    }
  }

  /**
   * The tie-break on four scenes of the EI axis answered 2 to 2: the axis
   * goes to the letter of the later answer, I for E, I, E, I and E for
   * I, E, I, E, although both sequences hold the same letters.
   */
  lemma TieBreakExample()
    ensures var scenes := [StoryScene(0), StoryScene(4), StoryScene(8), StoryScene(12)];
            var pickE, pickI := Some(SceneOption('A', E)), Some(SceneOption('B', I));
            Winner(scenes, [pickE, pickI, pickE, pickI], EI) == I &&
            Winner(scenes, [pickI, pickE, pickI, pickE], EI) == E
  {
    var scenes := [StoryScene(0), StoryScene(4), StoryScene(8), StoryScene(12)];
    var pickE, pickI := Some(SceneOption('A', E)), Some(SceneOption('B', I));
    var c1 := [pickE, pickI, pickE, pickI];
    var c2 := [pickI, pickE, pickI, pickE];
    assert forall k :: 0 <= k < 4 ==> scenes[k].dimension == EI;
    assert Slot(c1, 0) == pickE;
    assert Count(scenes, c1, EI, E, 1) == 1 && Count(scenes, c1, EI, I, 1) == 0;
    assert Slot(c1, 1) == pickI;
    assert Count(scenes, c1, EI, E, 2) == 1 && Count(scenes, c1, EI, I, 2) == 1;
    assert Slot(c1, 2) == pickE;
    assert Count(scenes, c1, EI, E, 3) == 2 && Count(scenes, c1, EI, I, 3) == 1;
    assert Slot(c1, 3) == pickI;
    assert Count(scenes, c1, EI, E, 4) == 2 && Count(scenes, c1, EI, I, 4) == 2;
    assert Slot(c2, 0) == pickI;
    assert Count(scenes, c2, EI, E, 1) == 0 && Count(scenes, c2, EI, I, 1) == 1;
    assert Slot(c2, 1) == pickE;
    assert Count(scenes, c2, EI, E, 2) == 1 && Count(scenes, c2, EI, I, 2) == 1;
    assert Slot(c2, 2) == pickI;
    assert Count(scenes, c2, EI, E, 3) == 1 && Count(scenes, c2, EI, I, 3) == 2;
    assert Slot(c2, 3) == pickE;
    assert Count(scenes, c2, EI, E, 4) == 2 && Count(scenes, c2, EI, I, 4) == 2;
  }
}
