/**
 * The quiz session: the four pieces of state the app keeps (the selected
 * scenario, the index of the current scene, the choice sequence and the
 * result flag) and the five handlers that move between choosing a
 * scenario, playing through its scenes and showing the result.
 */
module Session {
  import opened Wrappers
  import opened Catalog
  import opened Choices
  import opened Profiles
  import opened Scoring

  class QuizSession {
    var selectedScenarioId: Option<char>
    var currentIndex: nat
    var choices: ChoiceSeq
    var showResult: bool

    /** The state the app starts in: no scenario, no choices, first scene, no result. */
    constructor ()
      ensures selectedScenarioId == None && currentIndex == 0 && choices == [] && !showResult
      ensures Valid()
    {
      selectedScenarioId := None;
      currentIndex := 0;
      choices := [];
      showResult := false;
    }

    /** `activeScenario`: the catalog entry of the selected id, if any. */
    function ActiveScenario(): (r: Option<Scenario>)
      reads this
      ensures r.Some? <==> selectedScenarioId.Some? && selectedScenarioId.value in {'A', 'B', 'C', 'D'}
      ensures r.Some? ==> r.value.id == selectedScenarioId.value && |r.value.scenes| == 20 &&
                          Cyclic(r.value.scenes) && WellFormedScenes(r.value.scenes)
    {
      if selectedScenarioId.None? then None
      else
        FindScenarioKnown(selectedScenarioId.value);
        FindScenario(selectedScenarioId.value)
    }

    /** `totalScenes`: the number of scenes of the active scenario, 0 without one. */
    function TotalScenes(): (n: nat)
      reads this
      ensures n == if ActiveScenario().Some? then 20 else 0
    {
      if ActiveScenario().Some? then |ActiveScenario().value.scenes| else 0
    }

    /** `currentChoice`: the slot of the current scene, empty when there is no such scene. */
    function CurrentChoice(): (r: Option<SceneOption>)
      reads this
      ensures r.Some? ==> ActiveScenario().Some? && currentIndex < TotalScenes() &&
                          currentIndex < |choices| && r == choices[currentIndex]
      ensures ActiveScenario().Some? && currentIndex < TotalScenes() && currentIndex < |choices| ==>
                r == choices[currentIndex]
    {
      if ActiveScenario().Some? && currentIndex < TotalScenes() then Slot(choices, currentIndex) else None
    }

    /** `isLastScene`: a scenario is active, it has scenes, and the current one is its last. */
    function IsLastScene(): (b: bool)
      reads this
      ensures b <==> ActiveScenario().Some? && currentIndex + 1 == TotalScenes()
    {
      ActiveScenario().Some? && TotalScenes() > 0 && currentIndex == TotalScenes() - 1
    }

    /** `mbtiResult`: the computed result while the result is shown, nothing otherwise. */
    function ShownResult(): (r: Option<MbtiResult>)
      reads this
      ensures r.Some? <==> showResult && ActiveScenario().Some? && Ready(ActiveScenario().value.scenes, choices)
      ensures r.Some? ==> AxisLetters(r.value.letters) && r.value.typeName in ProfileKeys &&
                          r.value.profile == Catalogued(r.value.typeName)
    {
      if showResult && ActiveScenario().Some? then MbtiResultOf(ActiveScenario().value.scenes, choices) else None
    }

    /**
     * The session invariant. Without a scenario the index is 0, no choice is
     * recorded and no result is shown. With one, the scenario is in the
     * catalog, there is one slot per scene, the index names a scene, each
     * filled slot holds an option of its own scene, and every scene before
     * the current one is answered.
     */
    ghost predicate Valid()
      reads this
    {
      (selectedScenarioId.None? ==> currentIndex == 0 && choices == [] && !showResult) &&
      (selectedScenarioId.Some? ==>
         ActiveScenario().Some? &&
         |choices| == TotalScenes() && currentIndex < TotalScenes() &&
         Consistent(ActiveScenario().value.scenes, choices) &&
         forall k :: 0 <= k < currentIndex ==> choices[k].Some?)
    }

    /**
     * In a valid session playing a scenario, `isLastScene` holds exactly on
     * the final scene; on any other scene the next index is still a scene,
     * so the `Math.min` clamp of `handleNext` never takes effect.
     */
    lemma IsLastSceneMeaning()
      requires Valid() && selectedScenarioId.Some?
      ensures IsLastScene() <==> currentIndex + 1 == TotalScenes()
      ensures !IsLastScene() ==> currentIndex + 1 < TotalScenes()
    {
    }

    /**
     * `handleSelectScenario(id)`: a known id starts that scenario with one
     * empty slot per scene at the first scene with the result hidden; an
     * unknown id changes nothing.
     */
    method SelectScenario(id: char)
      modifies this
      ensures FindScenario(id).None? ==>
                selectedScenarioId == old(selectedScenarioId) && currentIndex == old(currentIndex) &&
                choices == old(choices) && showResult == old(showResult)
      ensures FindScenario(id).Some? ==>
                selectedScenarioId == Some(id) && choices == EmptyChoices(|FindScenario(id).value.scenes|) &&
                currentIndex == 0 && !showResult
      ensures FindScenario(id).Some? || old(Valid()) ==> Valid()
    {
      var scenario := FindScenario(id);
      if scenario.None? { return; }
      FindScenarioKnown(id);
      selectedScenarioId := Some(id);
      choices := EmptyChoices(|scenario.value.scenes|);
      currentIndex := 0;
      showResult := false;
    }

    /**
     * `handleSelectOption(sceneIndex, option)`: slot sceneIndex now holds the
     * option and nothing else changes. Choosing one of the current scene's
     * own options keeps the session valid and fills the current choice.
     */
    method SelectOption(sceneIndex: nat, option: SceneOption)
      modifies this
      ensures choices == WriteSlot(old(choices), sceneIndex, Some(option))
      ensures selectedScenarioId == old(selectedScenarioId) && currentIndex == old(currentIndex) &&
              showResult == old(showResult)
      ensures sceneIndex < |old(choices)| ==> |choices| == |old(choices)|
      ensures old(Valid()) && ActiveScenario().Some? && sceneIndex == currentIndex &&
              option in ActiveScenario().value.scenes[currentIndex].options ==>
                Valid() && CurrentChoice() == Some(option)
    {
      choices := WriteSlot(choices, sceneIndex, Some(option));
    }

    /**
     * `handleNext()`: without an active scenario or a choice for the current
     * scene nothing happens; on the last scene the result is shown; otherwise
     * the index moves to the next scene. The choices never change.
     */
    method Next()
      modifies this
      ensures selectedScenarioId == old(selectedScenarioId) && choices == old(choices)
      ensures old(ActiveScenario()).None? || old(CurrentChoice()).None? ==>
                currentIndex == old(currentIndex) && showResult == old(showResult)
      ensures old(ActiveScenario()).Some? && old(CurrentChoice()).Some? && old(IsLastScene()) ==>
                currentIndex == old(currentIndex) && showResult
      ensures old(ActiveScenario()).Some? && old(CurrentChoice()).Some? && !old(IsLastScene()) ==>
                currentIndex == old(currentIndex) + 1 && currentIndex < TotalScenes() &&
                showResult == old(showResult)
      ensures old(Valid()) ==> Valid()
      ensures old(Valid()) && showResult && !old(showResult) ==>
                Complete(ActiveScenario().value.scenes, choices) && ShownResult().Some?
    {
      var active := ActiveScenario();
      if active.None? { return; }
      if CurrentChoice().None? { return; }
      if IsLastScene() {
        showResult := true;
        if Valid() { ShownResultReady(); }
        return;
      }
      var n := |active.value.scenes|;
      var next: int := if currentIndex + 1 <= n - 1 then currentIndex + 1 else n - 1;
      currentIndex := next;
    }

    /** A valid session on its last scene with that scene answered has every slot filled, so a result exists. */
    lemma ShownResultReady()
      requires Valid() && IsLastScene() && CurrentChoice().Some?
      ensures Complete(ActiveScenario().value.scenes, choices)
      ensures MbtiResultOf(ActiveScenario().value.scenes, choices).Some?
    {
      var scenes := ActiveScenario().value.scenes;
      forall k | 0 <= k < |scenes| ensures Slot(choices, k).Some? {
        if k < currentIndex { assert choices[k].Some?; }
      }
      ReadyIffComplete(scenes, choices);
    }

    /**
     * `handlePrev()`: without an active scenario or on the first scene
     * nothing happens; otherwise the slot of the previous scene, the one
     * being returned to, is cleared and the index moves back to it, so
     * advancing again needs a fresh choice.
     */
    method Prev()
      modifies this
      ensures old(ActiveScenario()).None? || old(currentIndex) == 0 ==>
                selectedScenarioId == old(selectedScenarioId) && currentIndex == old(currentIndex) &&
                choices == old(choices) && showResult == old(showResult)
      ensures old(ActiveScenario()).Some? && old(currentIndex) > 0 ==>
                choices == WriteSlot(old(choices), old(currentIndex) - 1, None) &&
                currentIndex == old(currentIndex) - 1 &&
                selectedScenarioId == old(selectedScenarioId) && showResult == old(showResult) &&
                CurrentChoice().None?
      ensures old(Valid()) ==> Valid()
    {
      if ActiveScenario().None? { return; }
      if currentIndex == 0 { return; }
      var prevIndex := currentIndex - 1;
      choices := WriteSlot(choices, prevIndex, None);
      // `Math.max(prev - 1, 0)` never clamps here, since the index is positive.
      currentIndex := prevIndex;
    }

    /** `handleRestart()`: back to choosing a scenario, with every piece of state reset. */
    method Restart()
      modifies this
      ensures selectedScenarioId == None && choices == [] && currentIndex == 0 && !showResult
      ensures Valid()
    {
      selectedScenarioId := None;
      choices := [];
      currentIndex := 0;
      showResult := false;
    }
  }
}
