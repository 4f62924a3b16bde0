/** The two calls to the Gemini model (geminiService.ts). What the model
    answers is an input here: a vision model maps the image to a parsed
    identity or to nothing usable, a reasoning model maps identity, profile
    and label record to a parsed verdict or to nothing usable. What this
    module keeps of the source is how a failure surfaces: each wrapper throws
    one fixed message. */
module GeminiService {
  import opened Types

  const IdentifyFailedMessage: string := "Failed to identify medication from image."
  const AnalyzeFailedMessage: string := "Failed to analyze drug safety."

  /** The vision call and JSON.parse of its answer; None is any failure. */
  type VisionModel = string -> Option<DrugIdentity>

  /** The reasoning call and JSON.parse of its answer; None is any failure. */
  type ReasoningModel = (DrugIdentity, UserProfile, Option<FdaData>) -> Option<SafetyAnalysis>

  /** identifyDrugFromImage: the parsed identity, or the fixed failure message. */
  function IdentifyDrugFromImage(model: VisionModel, base64Image: string): (r: Result<DrugIdentity>)
    ensures r.Success? <==> model(base64Image).Some?
    ensures r.Failure? ==> r.message == IdentifyFailedMessage
    ensures r.Success? ==> model(base64Image) == Some(r.value)
  {
    match model(base64Image)
    case None => Failure(IdentifyFailedMessage)
    case Some(identity) => Success(identity)
  }

  /** analyzeDrugSafety: the parsed verdict, or the fixed failure message. */
  function AnalyzeDrugSafety(model: ReasoningModel, identity: DrugIdentity, profile: UserProfile,
                             fdaData: Option<FdaData>): (r: Result<SafetyAnalysis>)
    ensures r.Success? <==> model(identity, profile, fdaData).Some?
    ensures r.Failure? ==> r.message == AnalyzeFailedMessage
    ensures r.Success? ==> model(identity, profile, fdaData) == Some(r.value)
  {
    match model(identity, profile, fdaData)
    case None => Failure(AnalyzeFailedMessage)
    case Some(analysis) => Success(analysis)
  }
}
