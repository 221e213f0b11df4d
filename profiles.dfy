/**
 * The profile catalog: sixteen profiles keyed by their four-letter type,
 * and the designated default profile. Only the keys are modelled; the
 * name, description and cooperation texts are presentation.
 */
module Profiles {
  import opened Dimensions

  /** The keys of the profile table. */
  const ProfileKeys: set<string> := {
    "INTJ", "INTP", "ENTJ", "ENTP", "INFJ", "INFP", "ENFJ", "ENFP",
    "ISTJ", "ISFJ", "ESTJ", "ESFJ", "ISTP", "ISFP", "ESTP", "ESFP"
  }

  /** A resolved profile: the table entry of a key, or the default profile. */
  datatype Profile = Catalogued(key: string) | DefaultProfile

  /** `mbtiProfiles[type] ?? defaultProfile`. */
  function LookupProfile(typeName: string): (p: Profile)
    ensures p.Catalogued? <==> typeName in ProfileKeys
    ensures p.Catalogued? ==> p.key == typeName
  {
    if typeName in ProfileKeys then Catalogued(typeName) else DefaultProfile
  }

  /** A letter sequence with one letter per axis, in the fixed axis order. */
  predicate AxisLetters(letters: seq<Letter>)
  {
    |letters| == 4 && forall k :: 0 <= k < 4 ==> InAxis(DimensionOrder[k], letters[k])
  }

  /**
   * Every one of the sixteen letter combinations is a key of the table, so
   * such a type never resolves to the default profile.
   */
  lemma EveryTypeCatalogued(letters: seq<Letter>)
    requires AxisLetters(letters)
    ensures Join(letters) in ProfileKeys
    ensures LookupProfile(Join(letters)) == Catalogued(Join(letters))
  {
    assert InAxis(EI, letters[0]) && InAxis(SN, letters[1]) &&
           InAxis(TF, letters[2]) && InAxis(JP, letters[3]);
    var s := Join(letters);
    assert s == [LetterChar(letters[0]), LetterChar(letters[1]),
                 LetterChar(letters[2]), LetterChar(letters[3])];
  }

  /** Conversely, every key of the table is one of the sixteen combinations. */
  lemma EveryKeyIsAType(key: string)
    requires key in ProfileKeys
    ensures exists letters :: AxisLetters(letters) && Join(letters) == key
  {
    var a := if key[0] == 'E' then E else I;
    var b := if key[1] == 'S' then S else N;
    var c := if key[2] == 'T' then T else F;
    var d := if key[3] == 'J' then J else P;
    var letters := [a, b, c, d];
    assert AxisLetters(letters);
    assert Join(letters) == key;
  }

  /** Any four-character type outside the sixteen combinations falls back to the default profile. */
  lemma UnknownTypeGetsDefault(t: string)
    requires |t| == 4 && t !in ProfileKeys
    ensures LookupProfile(t) == DefaultProfile
  {
  }
}
