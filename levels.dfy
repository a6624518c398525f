/** Fitness-level labels and the gender categories the classifiers recognise. */
module Levels {
  import opened Text

  /** The labels the classifiers return; `NotApplicable` is the `"N/A"` fall-through. */
  datatype Level = Excellent | AboveAverage | Average | BelowAverage | Poor | NotApplicable {

    /** The exact string the source returns for this level. */
    function Label(): string {
      match this
      case Excellent => "Excellent"
      case AboveAverage => "Above Average"
      case Average => "Average"
      case BelowAverage => "Below Average"
      case Poor => "Poor"
      case NotApplicable => "N/A"
    }

    /** Position in the order Poor < Below Average < Average < Above Average < Excellent; 0 for N/A. */
    function Rank(): nat {
      match this
      case Poor => 1
      case BelowAverage => 2
      case Average => 3
      case AboveAverage => 4
      case Excellent => 5
      case NotApplicable => 0
    }
  }

  /** The gender categories; anything that does not lower-case to `male` or `female` is `Unrecognised`. */
  datatype Sex = Male | Female | Unrecognised

  /** `gender.lower() == 'male'`, then `gender.lower() == 'female'`, tested in that order. */
  function SexOf(gender: string): Sex {
    if Lower(gender) == "male" then Male
    else if Lower(gender) == "female" then Female
    else Unrecognised
  }

  /** Gender is matched character by character, ignoring case: exactly four letters spelling `male`, or six spelling `female`. */
  lemma SexOfSpelling(gender: string)
    ensures SexOf(gender) == Male <==>
      |gender| == 4 && forall i :: 0 <= i < 4 ==> LowerChar(gender[i]) == "male"[i]
    ensures SexOf(gender) == Female <==>
      |gender| == 6 && forall i :: 0 <= i < 6 ==> LowerChar(gender[i]) == "female"[i]
  {
    if |gender| == 4 && forall i :: 0 <= i < 4 ==> LowerChar(gender[i]) == "male"[i] {
      assert Lower(gender) == "male";
    }
    if |gender| == 6 && forall i :: 0 <= i < 6 ==> LowerChar(gender[i]) == "female"[i] {
      assert Lower(gender) == "female";
    }
  }
}
