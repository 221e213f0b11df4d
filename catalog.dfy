/**
 * The immutable content store: scenarios, their scenes and the options of
 * each scene, reduced to what scoring reads (a scene's axis and the letter
 * of each option). Narrative, titles and hints are not modelled.
 */
module Catalog {
  import opened Wrappers
  import opened Dimensions

  /** One of a scene's two answers; `id` is 'A' or 'B'. */
  datatype SceneOption = SceneOption(id: char, letter: Letter)

  /** A scene: its ordinal id, the axis it probes and its options. */
  datatype Scene = Scene(id: nat, dimension: Dimension, options: seq<SceneOption>)

  /** A scenario: its id ('A' to 'D') and its ordered scenes. */
  datatype Scenario = Scenario(id: char, scenes: seq<Scene>)

  /** A scene offers exactly two options carrying the two letters of its axis. */
  predicate WellFormedScene(s: Scene)
  {
    |s.options| == 2 &&
    InAxis(s.dimension, s.options[0].letter) &&
    InAxis(s.dimension, s.options[1].letter) &&
    s.options[0].letter != s.options[1].letter
  }

  /** Every scene of a scene list is well formed. */
  predicate WellFormedScenes(scenes: seq<Scene>)
  {
    forall k :: 0 <= k < |scenes| ==> WellFormedScene(scenes[k])
  }

  /** The scene list walks the axes in the fixed cycle EI, SN, TF, JP. */
  predicate Cyclic(scenes: seq<Scene>)
  {
    forall k :: 0 <= k < |scenes| ==> scenes[k].dimension == DimensionOrder[k % 4]
  }

  /**
   * The scene at position k of every story: ordinal k + 1, axis
   * DimensionOrder[k % 4], option 'A' the left letter, option 'B' the right.
   */
  function StoryScene(k: nat): Scene
  {
    var d := DimensionOrder[k % 4];
    Scene(k + 1, d, [SceneOption('A', LeftLetter(d)), SceneOption('B', RightLetter(d))])
  }

  /** The first n scenes of a story. */
  function StoryScenes(n: nat): (scenes: seq<Scene>)
    ensures |scenes| == n
    ensures forall k :: 0 <= k < n ==> scenes[k] == StoryScene(k)
  {
    seq(n, (k: int) requires 0 <= k => StoryScene(k))
  }

  /** The four stories of the catalog, each twenty scenes long. */
  const NeonCityScenes: seq<Scene> := StoryScenes(20)
  const StarportFleetScenes: seq<Scene> := StoryScenes(20)
  const OasisScenes: seq<Scene> := StoryScenes(20)
  const SnowMountainRescueScenes: seq<Scene> := StoryScenes(20)

  /** The catalog of scenarios, in display order. */
  const Scenarios: seq<Scenario> := [
    Scenario('A', NeonCityScenes),
    Scenario('B', StarportFleetScenes),
    Scenario('C', OasisScenes),
    Scenario('D', SnowMountainRescueScenes)
  ]

  /** `list.find(s => s.id === id)`: the first scenario with that id, if any. */
  function FindIn(list: seq<Scenario>, id: char): (r: Option<Scenario>)
    ensures r.Some? ==> exists k :: 0 <= k < |list| && list[k] == r.value && r.value.id == id &&
                                    (forall j :: 0 <= j < k ==> list[j].id != id)
    ensures r.None? <==> forall k :: 0 <= k < |list| ==> list[k].id != id
  {
    if list == [] then None
    else if list[0].id == id then Some(list[0])
    else
      var r := FindIn(list[1..], id);
      assert r.Some? ==> exists k :: 0 <= k < |list| && list[k] == r.value && r.value.id == id &&
                                    (forall j :: 0 <= j < k ==> list[j].id != id) by {
        if r.Some? {
          var k :| 0 <= k < |list[1..]| && list[1..][k] == r.value && r.value.id == id &&
                   (forall j :: 0 <= j < k ==> list[1..][j].id != id);
          assert list[k + 1] == r.value;
          assert forall j :: 0 <= j < k + 1 ==> list[j].id != id by {
            forall j | 0 <= j < k + 1 ensures list[j].id != id {
              if j > 0 { assert list[j] == list[1..][j - 1]; }
            }
          }
        }
      }
      assert r.None? ==> forall k :: 0 <= k < |list| ==> list[k].id != id by {
        if r.None? {
          forall k | 0 <= k < |list| ensures list[k].id != id {
            if k > 0 { assert list[k] == list[1..][k - 1]; }
          }
        }
      }
      r
  }

  /** `scenarios.find(s => s.id === id)` over the catalog. */
  function FindScenario(id: char): (r: Option<Scenario>)
    ensures r.Some? ==> r.value.id == id && r.value in Scenarios
    ensures r.None? <==> forall k :: 0 <= k < |Scenarios| ==> Scenarios[k].id != id
  {
    FindIn(Scenarios, id)
  }

  /** The story scenes are cyclic and well formed. */
  lemma StoryScenesWellFormed(n: nat)
    ensures Cyclic(StoryScenes(n)) && WellFormedScenes(StoryScenes(n))
  {
    forall k | 0 <= k < n ensures WellFormedScene(StoryScenes(n)[k]) {
      AxisOrderIsPermutation(DimensionOrder[k % 4]);
    }
  }

  /**
   * Exactly the ids 'A' to 'D' are known; each known scenario has that id,
   * twenty well-formed scenes, and walks the axes in the fixed cycle.
   */
  lemma {:induction false} FindScenarioKnown(id: char)
    ensures FindScenario(id).Some? <==> id in {'A', 'B', 'C', 'D'}
    ensures FindScenario(id).Some? ==>
              var s := FindScenario(id).value;
              s.id == id && |s.scenes| == 20 && Cyclic(s.scenes) && WellFormedScenes(s.scenes)
  {
    StoryScenesWellFormed(20);
    var r := FindScenario(id);
    if id in {'A', 'B', 'C', 'D'} {
      var k := if id == 'A' then 0 else if id == 'B' then 1 else if id == 'C' then 2 else 3;
      assert Scenarios[k].id == id;
    } else {
      assert forall k :: 0 <= k < |Scenarios| ==> Scenarios[k].id != id;
    }
    if r.Some? {
      var k :| 0 <= k < |Scenarios| && Scenarios[k] == r.value;
      assert r.value.scenes == StoryScenes(20);
    }
  }
}
