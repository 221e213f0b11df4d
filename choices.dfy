/**
 * The choice sequence: one slot per scene, each empty or holding an option.
 * Reads and writes follow the semantics of a JavaScript array: reading past
 * the end yields `undefined`, which the quiz treats like an empty slot, and
 * writing past the end grows the array with empty holes.
 */
module Choices {
  import opened Wrappers
  import opened Dimensions
  import opened Catalog

  type ChoiceSeq = seq<Option<SceneOption>>

  /** `choices[i]`: the slot at i, empty past the end of the array. */
  function Slot(choices: ChoiceSeq, i: nat): (r: Option<SceneOption>)
    ensures i < |choices| ==> r == choices[i]
    ensures i >= |choices| ==> r.None?
  {
    if i < |choices| then choices[i] else None
  }

  /** `Array(n).fill(null)`: n empty slots. */
  function EmptyChoices(n: nat): (c: ChoiceSeq)
    ensures |c| == n
    ensures forall k :: 0 <= k < n ==> c[k].None?
  {
    seq(n, _ => None)
  }

  /** `next[i] = v` on a copy of the array: later reads see v at i and nothing else moves. */
  function WriteSlot(choices: ChoiceSeq, i: nat, v: Option<SceneOption>): (r: ChoiceSeq)
    ensures |r| == if i < |choices| then |choices| else i + 1
    ensures r[i] == v
    ensures forall k :: 0 <= k < |choices| && k != i ==> r[k] == choices[k]
    ensures forall k :: |choices| <= k < i ==> r[k].None?
  {
    if i < |choices| then choices[i := v] else choices + EmptyChoices(i - |choices|) + [v]
  }

  /** Writing the same slot twice: the second write wins and the first leaves no trace. */
  lemma WriteSlotLastWins(choices: ChoiceSeq, i: nat, first: Option<SceneOption>, second: Option<SceneOption>)
    ensures WriteSlot(WriteSlot(choices, i, first), i, second) == WriteSlot(choices, i, second)
  {
    var once := WriteSlot(choices, i, second);
    var twice := WriteSlot(WriteSlot(choices, i, first), i, second);
    assert |twice| == |once|;
    forall k | 0 <= k < |once| ensures twice[k] == once[k] {
    }
  }

  /** Every filled slot among the first |scenes| holds an option of the scene at the same index. */
  predicate Consistent(scenes: seq<Scene>, choices: ChoiceSeq)
  {
    forall k :: 0 <= k < |scenes| && k < |choices| && choices[k].Some? ==>
      choices[k].value in scenes[k].options
  }

  /** Every filled slot among the first |scenes| carries a letter of its scene's axis. */
  predicate LettersInAxis(scenes: seq<Scene>, choices: ChoiceSeq)
  {
    forall k :: 0 <= k < |scenes| && Slot(choices, k).Some? ==>
      InAxis(scenes[k].dimension, Slot(choices, k).value.letter)
  }

  /** Every one of the first |scenes| slots is filled. */
  predicate Complete(scenes: seq<Scene>, choices: ChoiceSeq)
  {
    forall k :: 0 <= k < |scenes| ==> Slot(choices, k).Some?
  }

  /** Choices made among well-formed scenes' own options carry letters of the scene's axis. */
  lemma ConsistentLettersInAxis(scenes: seq<Scene>, choices: ChoiceSeq)
    requires WellFormedScenes(scenes) && Consistent(scenes, choices)
    ensures LettersInAxis(scenes, choices)
  {
    forall k | 0 <= k < |scenes| && Slot(choices, k).Some?
      ensures InAxis(scenes[k].dimension, Slot(choices, k).value.letter)
    {
      assert WellFormedScene(scenes[k]);
      var o := choices[k].value;
      assert o == scenes[k].options[0] || o == scenes[k].options[1];
    }
  }
}
