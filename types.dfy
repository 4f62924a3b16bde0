/** The records the application passes around (types.ts), with the JavaScript
    notions of "null" and "truthy" they are read with. */
module Types {

  /** A value that may be null or undefined. */
  datatype Option<+T> = None | Some(value: T)

  /** The outcome of a call that may throw: the thrown error's `message`, or the value. */
  datatype Result<+T> = Failure(message: string) | Success(value: T)

  /** A JavaScript string that may be null: it is truthy when present and non-empty. */
  predicate Truthy(s: Option<string>) {
    s.Some? && s.value != ""
  }

  /** The user's health profile. `gender` is whatever string the form stored
      (the form writes 'male', 'female' or 'other'). */
  datatype UserProfile = UserProfile(
    age: int,
    gender: string,
    conditions: seq<string>,
    allergies: seq<string>,
    medications: seq<string>)

  /** What the vision service read off the label. */
  datatype DrugIdentity = DrugIdentity(
    brandName: Option<string>,
    genericName: Option<string>,
    strength: Option<string>,
    confidence: real)

  /** The reasoning service's verdict. `riskLevel` arrives through an unchecked
      cast of parsed JSON, so it is any string, not only the four levels.
      `sideEffects` is not among the fields the service is told are required,
      so it may be missing. */
  datatype SafetyAnalysis = SafetyAnalysis(
    isSafe: bool,
    riskLevel: string,
    summary: string,
    contraindications: seq<string>,
    sideEffects: Option<seq<string>>,
    purpose: string,
    recommendation: string)

  /** An OpenFDA drug-label record; every field may be absent. */
  datatype FdaData = FdaData(
    purpose: Option<seq<string>>,
    warnings: Option<seq<string>>,
    contraindications: Option<seq<string>>,
    boxedWarning: Option<seq<string>>,
    indicationsAndUsage: Option<seq<string>>,
    brandName: Option<seq<string>>,
    genericName: Option<seq<string>>)

  /** The five screens of the application. */
  datatype AppState = PROFILE | SCAN | ANALYZING | RESULT | ERROR
}
