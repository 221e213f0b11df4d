/** The four personality axes, their letters and the fixed axis order. */
module Dimensions {

  /** The eight letters an option can carry. */
  datatype Letter = E | I | S | N | T | F | J | P

  /** The four binary axes. */
  datatype Dimension = EI | SN | TF | JP

  /** The fixed order in which the type string is assembled. */
  const DimensionOrder: seq<Dimension> := [EI, SN, TF, JP]

  /** The left (first) letter of an axis. */
  function LeftLetter(d: Dimension): Letter
  {
    match d
    case EI => E
    case SN => S
    case TF => T
    case JP => J
  }

  /** The right (second) letter of an axis. */
  function RightLetter(d: Dimension): Letter
  {
    match d
    case EI => I
    case SN => N
    case TF => F
    case JP => P
  }

  /** A letter belongs to an axis when it is one of the axis's two letters. */
  predicate InAxis(d: Dimension, l: Letter)
  {
    l == LeftLetter(d) || l == RightLetter(d)
  }

  /** The character a letter is written as. */
  function LetterChar(l: Letter): char
  {
    match l
    case E => 'E'
    case I => 'I'
    case S => 'S'
    case N => 'N'
    case T => 'T'
    case F => 'F'
    case J => 'J'
    case P => 'P'
  }

  /** `letters.join('')`: the letters written one after another. */
  function Join(letters: seq<Letter>): (s: string)
    ensures |s| == |letters|
    ensures forall k :: 0 <= k < |letters| ==> s[k] == LetterChar(letters[k])
  {
    if letters == [] then "" else [LetterChar(letters[0])] + Join(letters[1..])
  }

  /** Every axis appears exactly once in the axis order, and its two letters differ. */
  lemma AxisOrderIsPermutation(d: Dimension)
    ensures d in DimensionOrder
    ensures exists k :: 0 <= k < 4 && DimensionOrder[k] == d &&
                        (forall j :: 0 <= j < 4 && j != k ==> DimensionOrder[j] != d)
    ensures LeftLetter(d) != RightLetter(d)
  {
    var k := match d case EI => 0 case SN => 1 case TF => 2 case JP => 3;
    assert DimensionOrder[k] == d;
  }

  /** Every letter belongs to exactly one axis. */
  lemma LetterHasOneAxis(l: Letter, d1: Dimension, d2: Dimension)
    requires InAxis(d1, l) && InAxis(d2, l)
    ensures d1 == d2
  {
  }
}
