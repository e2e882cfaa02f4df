/** One surveyed citizen (Respondent.cs). */
module Respondents {
  /** Number of checkpoints on a utility curve: Death, LS 2, 4, 6, 8 and 10. */
  const CurveLength: nat := 6

  class Respondent {
    /** The respondent's id; assigned once by the constructor. */
    const id: int
    /** Utility the respondent derives from their own life satisfaction. */
    const personalUtilities: array<real>
    /** Utility the respondent ascribes to someone else being at each checkpoint. */
    const societalUtilities: array<real>
    /** Life satisfaction, written by the simulation controller. */
    var currentLS: real
    /** Wealth tier on a 0-10 scale. */
    var wealthTier: int

    /** Both curves have six entries and are two different arrays. */
    ghost predicate Valid()
    {
      personalUtilities.Length == CurveLength &&
      societalUtilities.Length == CurveLength &&
      personalUtilities != societalUtilities
    }

    constructor (id: int)
      ensures this.id == id && Valid()
      ensures fresh(personalUtilities) && fresh(societalUtilities)
      ensures personalUtilities[..] == [0.0, 0.0, 0.0, 0.0, 0.0, 0.0]
      ensures societalUtilities[..] == [0.0, 0.0, 0.0, 0.0, 0.0, 0.0]
      ensures currentLS == 0.0 && wealthTier == 0
    {
      this.id := id;
      personalUtilities := new real[CurveLength](_ => 0.0);
      societalUtilities := new real[CurveLength](_ => 0.0);
      currentLS := 0.0;
      wealthTier := 0;
    }
  }
}
