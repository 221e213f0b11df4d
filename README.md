# Story-driven personality quiz: scoring engine and session

This project models the logic core of a single-page personality quiz. A player
picks one of four story scenarios (ids 'A' to 'D'), answers its twenty scenes
one after another, each with one of two options, and gets a four-letter type
(one letter per axis EI, SN, TF, JP) with a descriptive profile.

The model covers:

- **The axes** (`dimensions.dfy`). The four axes, their left and right letters,
  the fixed axis order, and the joining of letters into the type string.
- **The content store** (`catalog.dfy`). It is reduced to what scoring reads:
  each scene's axis and each option's id and letter. All four stories share one
  shape. Scene k probes axis `DimensionOrder[k % 4]`. Its option 'A' carries the
  left letter and its option 'B' the right letter.
- **The choice sequence** (`choices.dfy`). One slot per scene, with the reading
  and writing rules of a JavaScript array.
- **The profile table** (`profiles.dfy`). Its sixteen keys and the default
  profile.
- **The dimension tally** (`tally.dfy`, `getDimensionStats`). It is written as
  loops over accumulator maps and proved against the counting functions `Count`
  and `Answered`.
- **The result computation** (`scoring.dfy`, `computeMbtiResult`). It is written
  as loops over `dimScores`, `lastPick` and `letters` and proved equal to the
  specification function `MbtiResultOf`.
- **The session state machine** (`session.dfy`). A class whose four fields are
  the app's four pieces of state. Its methods are the five handlers. Its derived
  values (`activeScenario`, `currentChoice`, `isLastScene`, the shown result)
  are functions.

The percentage of the tally is an exact `real`, not an IEEE double.

## Model

| member | source | states |
|---|---|---|
| Dimensions.Join | src/App.tsx:2160 | the type string has one character per letter, the k-th being the k-th letter |
| Dimensions.AxisOrderIsPermutation | src/App.tsx:17-85 | every axis occurs exactly once in the axis order, and its two letters differ |
| Dimensions.LetterHasOneAxis | src/App.tsx:80-85 | a letter belongs to at most one axis |
| Catalog.FindIn | src/App.tsx:2172-2175 | `find` returns the first scenario with the id, and returns nothing exactly when no scenario has that id |
| Catalog.StoryScenes | src/App.tsx:119-561 | only spells out the generated list (n scenes, scene k the k-th of the cycle); the catalog facts are in StoryScenesWellFormed and FindScenarioKnown |
| Catalog.StoryScenesWellFormed | src/App.tsx:119-561 | story scenes cycle EI, SN, TF, JP, and each offers two options carrying the two letters of its axis |
| Catalog.FindScenario | src/App.tsx:2202-2204 | a found scenario has the requested id and is in the catalog; nothing is found exactly when no catalog entry has that id |
| Catalog.FindScenarioKnown | src/App.tsx:1892-1925 | exactly ids A-D are known; each known scenario has that id and 20 well-formed scenes that cycle through the axes |
| Choices.Slot | src/App.tsx:2127-2128 | reading slot i gives the stored entry when i is inside the array and nothing (JavaScript's `undefined`) past its end |
| Choices.EmptyChoices | src/App.tsx:2206 | only spells out the filled array: `Array(n).fill(null)` has n slots, all empty |
| Choices.WriteSlot | src/App.tsx:2211-2217 | after writing slot i, slot i holds the new value, every other slot is unchanged, and the array grows only when i is past its end |
| Choices.WriteSlotLastWins | src/App.tsx:2211-2217 | re-selecting an option on the same scene leaves only the last write |
| Choices.ConsistentLettersInAxis | src/App.tsx:20-37 | a slot holding one of its own scene's options carries a letter of that scene's axis |
| Profiles.LookupProfile | src/App.tsx:2161 | the lookup yields the table entry of the type exactly when the type is a key of the table, and the default profile otherwise |
| Profiles.EveryTypeCatalogued | src/App.tsx:1928-2041 | each of the 16 axis-letter combinations is a key of the profile table, so the lookup never falls back to the default |
| Profiles.EveryKeyIsAType | src/App.tsx:1928-2041 | every key of the profile table is one of those 16 combinations |
| Profiles.UnknownTypeGetsDefault | src/App.tsx:2161 | every four-character type that is not a key resolves to the default profile |
| Tally.GetDimensionStats | src/App.tsx:2051-2105 | every axis is summarised from its left and right counts over the scene list, and answeredCount is the number of filled slots among the first N |
| Tally.InitialStats | src/App.tsx:2058-2069 | each axis starts with its two letters, zero scores, percent 50 and no dominant letter |
| Tally.CountAnswers | src/App.tsx:2073-2085 | after the walk, each axis's scores are its left and right counts, and answeredCount counts the filled slots |
| Tally.DerivePercentages | src/App.tsx:2087-2102 | an axis with no votes reads 50 with no dominant letter; otherwise percent = 100 x left / total and the dominant letter is the strictly larger side, none on a tie |
| Tally.CountIsCardinality | src/App.tsx:2075-2084 | a letter's score is the size of the set of scenes of the axis answered with that letter |
| Tally.AnsweredIsCardinality | src/App.tsx:2075-2078 | answeredCount is the size of the set of filled slots below N |
| Tally.AxisScoresAddUp | src/App.tsx:2075-2084 | left + right is the number of scenes of the axis answered with one of its letters; a foreign letter counts as answered but scores nothing |
| Tally.CompleteAxisTotal | src/App.tsx:2075-2084 | with every slot filled with letters of the scenes' axes, left + right is the number of scenes of the axis |
| Tally.CyclicAxisCount | src/App.tsx:119-215 | in a scene list that cycles through the axes, every block of four scenes holds one scene of each axis |
| Tally.SummaryMeaning | src/App.tsx:2087-2102 | percent lies in [0, 100]; the left letter dominates exactly when percent > 50, the right exactly when percent < 50, and no letter dominates exactly when percent = 50 |
| Scoring.HasUnanswered | src/App.tsx:2113-2115 | an empty existing slot below N means not every scene is answered; with at least N slots, any unanswered scene is found |
| Scoring.Ready | src/App.tsx:2111-2115 | a non-empty, fully answered scene list is ready; with at least N slots, ready means non-empty and fully answered |
| Scoring.LastPick | src/App.tsx:2124-2133 | the recorded last pick of an axis is the letter of its highest-indexed answered scene, and there is none exactly when no scene of the axis is answered |
| Scoring.Winner | src/App.tsx:2137-2155 | the letter chosen for an axis is one of the axis's two letters |
| Scoring.WinningLetters | src/App.tsx:2135-2158 | the winning letters are four, one per axis in the fixed order |
| Scoring.MbtiResultOf | src/App.tsx:2107-2164 | a result exists exactly when the list is non-empty and no slot below N is empty; its letters are the per-axis winners, its type is their concatenation; its letters follow the axis order, its type has 4 characters and is a table key, and its profile is that key's entry |
| Scoring.ComputeMbtiResult | src/App.tsx:2107-2164 | the loop implementation returns exactly the specified result |
| Scoring.TallyLetters | src/App.tsx:2117-2133 | after the walk, `dimScores` holds each axis's letter counts and `lastPick` the last pick of each answered axis |
| Scoring.ResolveAxes | src/App.tsx:2135-2158 | the walk over the axis order pushes the winner of each axis, in order |
| Scoring.ZeroScoresCounted | src/App.tsx:2117-2124 | the initial `dimScores` and `lastPick` are the counts and picks over no scenes |
| Scoring.ScoresStep | src/App.tsx:2126-2131 | counting scene i extends the counts from the first i scenes to the first i + 1 |
| Scoring.PicksStep | src/App.tsx:2126-2132 | recording scene i extends the last picks from the first i scenes to the first i + 1 |
| Scoring.ReadyIffComplete | src/App.tsx:2111-2115 | with one slot per scene, a result exists exactly when there is a scene and every slot is filled |
| Scoring.PartialGivesNoResult | src/App.tsx:2111-2115 | with one slot per scene, fewer answered slots than scenes (such as 5 of 20) gives no result |
| Scoring.CompleteAnswered | src/App.tsx:2075-2078 | with every slot filled, the answered count over the first n scenes is n |
| Scoring.WinnerByCounts | src/App.tsx:2137-2155 | the left letter wins iff it has more votes, or the votes tie and the last pick is not the right letter; the right letter wins iff it has more votes, or they tie and the last pick is the right letter |
| Scoring.TieGoesToLastScene | src/App.tsx:2148-2155 | on a tie the axis goes to the letter of its last answered scene, or to the left letter when that letter is foreign to the axis |
| Scoring.LastPickOfLastScene | src/App.tsx:2126-2133 | the last pick is the letter of the highest-indexed answered scene of the axis, not the most recently clicked answer |
| Scoring.CompleteHasLastPick | src/App.tsx:2149-2154 | with every slot filled, an axis that has a scene has a last pick, so the left-letter fallback is reached only for an axis with no scene |
| Scoring.StoryNeverTies | src/App.tsx:119-561 | a fully answered 20-scene story has 5 votes per axis, never a tie, and each axis goes to its majority letter |
| Scoring.AllLeftCounts | src/App.tsx:2126-2133 | answering every scene with its left letter scores every scene of an axis on the left and none on the right |
| Scoring.AllLeftAnswersGiveESTJ | src/App.tsx:2107-2164 | answering every scene of a story with option 'A' gives type ESTJ with its profile, and every axis reads 100 with the left letter dominant |
| Scoring.TieBreakExample | src/App.tsx:2148-2155 | a 2-2 tie on EI goes to I after E, I, E, I and to E after I, E, I, E |
| Session.QuizSession.constructor | src/App.tsx:2167-2171 | the session starts with no scenario, no choices, index 0 and no result, and satisfies the session invariant |
| Session.QuizSession.SelectScenario | src/App.tsx:2202-2209 | a known id selects that scenario with N empty slots, index 0 and the result hidden, which satisfies the invariant from any state; an unknown id changes nothing |
| Session.QuizSession.SelectOption | src/App.tsx:2211-2217 | slot i holds the option and nothing else changes; choosing an option of the current scene keeps the invariant and fills the current choice |
| Session.QuizSession.ActiveScenario | src/App.tsx:2173-2176 | a scenario is active exactly when the selected id is one of A-D; it then has that id and 20 well-formed scenes cycling through the axes |
| Session.QuizSession.TotalScenes | src/App.tsx:2178 | the active scenario's scene count, which is 20, and 0 without a scenario |
| Session.QuizSession.CurrentChoice | src/App.tsx:2193-2195 | the current choice is present only for an active scenario with the index inside its scenes and its choices, and it then is that slot's entry |
| Session.QuizSession.IsLastScene | src/App.tsx:2197-2200 | `isLastScene` holds exactly when a scenario is active and the index is its final scene |
| Session.QuizSession.ShownResult | src/App.tsx:2252-2258 | a result is shown exactly when the result flag is set, a scenario is active and its answers are ready; it then has one letter per axis and a catalogued profile |
| Session.QuizSession.IsLastSceneMeaning | src/App.tsx:2197-2200 | in a valid session playing a scenario, `isLastScene` holds exactly on the final scene, and otherwise the next index is still a scene |
| Session.QuizSession.Next | src/App.tsx:2219-2229 | with no scenario or no current choice nothing changes; on the last scene the result is shown and a result exists; otherwise the index advances by one and stays within the scenes |
| Session.QuizSession.ShownResultReady | src/App.tsx:2197-2226 | in a valid session, answering the last scene means every slot is filled, so a result exists |
| Session.QuizSession.Prev | src/App.tsx:2231-2243 | with no scenario or at index 0 nothing changes; otherwise slot i-1 is cleared, the index moves to i-1, and the current choice is empty, so advancing is blocked until a new choice is made; the invariant is kept |
| Session.QuizSession.Restart | src/App.tsx:2245-2250 | the scenario, choices, index and result flag are reset to null, [], 0 and false |

## Left out

- Rendering, presentation texts, hero text and `dimensionMeta` labels are UI and are not modelled. This also drops the narrative, titles and hints of scenes, options and profiles. Only the profile keys and the default profile remain.
- The scene catalog is modelled by its shape, not its text. All four stories in src/App.tsx:119-1890 have the same shape: 20 scenes that cycle EI, SN, TF, JP, with option 'A' carrying the left letter and option 'B' the right letter.
- React `useState` and `useMemo` are not modelled. State updates are immediate field assignments. Derived values are functions of the current fields.
- `overallProgress` and the rounding for display (src/App.tsx:2188-2191) are floating-point presentation and are not modelled. The tally's `percent` is an exact rational, not an IEEE double.
- Scenario ids are modelled as `char`, so the "unknown id" branch of `handleSelectScenario` can be reached. The TypeScript type only admits 'A' to 'D'.
- A foreign letter in `computeMbtiResult` would add a NaN-valued entry to `dimScores`. That entry is never read, so the model drops it. The letter is still recorded as the axis's last pick.
- `Choices.WriteSlot` reads holes as empty slots. Holes come from writing past the end of the array, which the app never does. JavaScript's `some` skips holes, so the readiness check would not see them.
- Profiles.LookupProfile: keys are compared as strings only. In JavaScript, `mbtiProfiles[type]` also finds inherited Object.prototype names such as "toString" or "constructor", which then do not fall back to the default. Joined axis letters are never such a name, so Profiles.UnknownTypeGetsDefault is stated for four-character types.
- Session.QuizSession.SelectOption: the invariant is only promised when the option belongs to the current scene and is written at the current index. That is the only way the UI calls the handler (src/App.tsx:2456).
- The session invariant does not include "result shown implies all answered". `handlePrev` and `handleSelectOption` have no guard against being called while the result is shown. The UI only renders the option, Prev and Next buttons under `!showResult && currentScene` (src/App.tsx:2433, with the calls at 2456, 2486 and 2495), so on every path the UI can reach a shown result does have every slot filled. Session.QuizSession.Next proves the property at the moment the result is first shown.
- vite.config.ts and src/assets/scenesImages.ts are build configuration and static image tables. They are not part of this model.
