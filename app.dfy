/** The application controller (App.tsx): seven pieces of screen state, a
    startup rule that restores a saved profile, and handlers for saving the
    profile, scanning a label, resetting and navigating. Each handler is a
    pure transition on a snapshot of the state, and the class `App` performs
    it field by field; the services are parameters. */
module AppController {
  import opened Types
  import Constants
  import FdaService
  import GeminiService
  import ResultCard

  /** The storage slot that holds the saved profile. */
  const ProfileKey: string := "safeMedsProfile"

  const InvalidIdentityMessage: string := "Could not read the medication label. Please try scanning again."
  const UnexpectedErrorMessage: string := "An unexpected error occurred."
  const ErrorFallbackText: string := "We couldn't process this image. Please ensure the medication label is clearly visible and well-lit."

  /** The three progress labels of a scan. */
  const ReadingStep: string := "Reading medication label..."
  const LookupStep: string := "Consulting FDA database..."
  const CompatibilityStep: string := "Checking your health compatibility..."

  /** The seven state fields of the controller. */
  datatype AppSnapshot = AppSnapshot(
    appState: AppState,
    profile: UserProfile,
    scannedImage: Option<string>,
    drugIdentity: Option<DrugIdentity>,
    safetyAnalysis: Option<SafetyAnalysis>,
    errorMsg: Option<string>,
    loadingStep: string)

  /** The state before the startup rule runs. */
  const Initial: AppSnapshot := AppSnapshot(PROFILE, Constants.DefaultProfile, None, None, None, None, "")

  /** The outside world a scan talks to: the vision model, the HTTP fetch
      behind the label lookup and the reasoning model. */
  datatype Services = Services(
    vision: GeminiService.VisionModel,
    fetch: string -> FdaService.FetchOutcome,
    reasoning: GeminiService.ReasoningModel)

  /** A call a scan makes to one of its three services. */
  datatype ServiceCall =
    | IdentifyCall(image: string)
    | LookupCall(drugName: string)
    | AnalyzeCall(identity: DrugIdentity, profile: UserProfile, fdaData: Option<FdaData>)

  /** What a scan leaves behind: the new state and the calls made, in order. */
  datatype PipelineRun = PipelineRun(after: AppSnapshot, calls: seq<ServiceCall>)

  /** The startup rule: a truthy saved value that parses replaces the profile
      and opens the scanner; anything else leaves the state alone. */
  function LoadEffect(s: AppSnapshot, saved: Option<string>, parse: string -> Option<UserProfile>): (r: AppSnapshot)
    ensures Truthy(saved) && parse(saved.value).Some? ==>
      r == s.(profile := parse(saved.value).value, appState := SCAN)
    ensures !(Truthy(saved) && parse(saved.value).Some?) ==> r == s
  {
    if Truthy(saved) then
      match parse(saved.value)
      case Some(p) => s.(profile := p, appState := SCAN)
      case None => s
    else s
  }

  /** handleSaveProfile's effect on the state: the new profile, and the scanner. */
  function SaveProfile(s: AppSnapshot, newProfile: UserProfile): AppSnapshot {
    s.(profile := newProfile, appState := SCAN)
  }

  /** A profile saved under a serialisation that parses back is what the
      next start restores, and the next start opens the scanner. */
  lemma SavedProfileIsRestored(p: UserProfile, serialize: UserProfile -> string,
                               parse: string -> Option<UserProfile>)
    requires serialize(p) != "" && parse(serialize(p)) == Some(p)
    ensures LoadEffect(Initial, Some(serialize(p)), parse) == SaveProfile(Initial, p)
  {
  }

  /** The catch block: the thrown message, or the generic one when it is
      empty, and the error screen. */
  function FailWith(s: AppSnapshot, message: string): (r: AppSnapshot)
    ensures r.appState == ERROR && r.errorMsg.Some? && r.errorMsg.value != ""
    ensures message != "" ==> r.errorMsg == Some(message)
    ensures message == "" ==> r.errorMsg == Some(UnexpectedErrorMessage)
    ensures r == s.(errorMsg := r.errorMsg, appState := ERROR)
  {
    s.(errorMsg := Some(if message != "" then message else UnexpectedErrorMessage), appState := ERROR)
  }

  /** The first three updates of a scan, before any service is called: the
      image is kept, the analysing screen shown and the old error cleared;
      the previous identity and verdict stay. */
  function CaptureStart(s: AppSnapshot, image: string): AppSnapshot {
    s.(scannedImage := Some(image), appState := ANALYZING, errorMsg := None)
  }

  /** An identity is usable when its brand or its generic name is truthy. */
  predicate HasUsableName(identity: DrugIdentity) {
    Truthy(identity.brandName) || Truthy(identity.genericName)
  }

  /** The name given to the label lookup: the generic name if truthy, else
      the brand name if truthy, else the empty string. */
  function LookupKey(identity: DrugIdentity): (key: string)
    ensures HasUsableName(identity) <==> key != ""
    ensures key == "" || Some(key) == identity.genericName || Some(key) == identity.brandName
    ensures Truthy(identity.genericName) ==> key == identity.genericName.value
  {
    if Truthy(identity.genericName) then identity.genericName.value
    else if Truthy(identity.brandName) then identity.brandName.value
    else ""
  }

  /** Where the try block of a scan stopped: the state so far, the message
      of the error it threw if it threw one, and the calls made. */
  datatype TryOutcome = TryOutcome(state: AppSnapshot, thrown: Option<string>, calls: seq<ServiceCall>)

  /** The analysis step of the try block: its progress label, then the
      reasoning call; a verdict shows the result screen. */
  function Analyse(s: AppSnapshot, identity: DrugIdentity, fdaData: Option<FdaData>,
                   reasoning: GeminiService.ReasoningModel): TryOutcome {
    var analysing := s.(loadingStep := CompatibilityStep);
    var calls := [AnalyzeCall(identity, s.profile, fdaData)];
    match GeminiService.AnalyzeDrugSafety(reasoning, identity, s.profile, fdaData)
    case Failure(message) => TryOutcome(analysing, Some(message), calls)
    case Success(analysis) => TryOutcome(analysing.(safetyAnalysis := Some(analysis), appState := RESULT), None, calls)
  }

  /** The try block after a usable identity: the label lookup, which cannot
      throw, then the analysis. */
  function LookupAndAnalyse(s: AppSnapshot, identity: DrugIdentity, svc: Services): TryOutcome {
    var drugName := LookupKey(identity);
    var fdaData := FdaService.FetchDrugData(drugName, svc.fetch);
    var rest := Analyse(s.(loadingStep := LookupStep), identity, fdaData, svc.reasoning);
    TryOutcome(rest.state, rest.thrown, [LookupCall(drugName)] + rest.calls)
  }

  /** The try block of handleImageCaptured: identification, whose result is
      stored before it is checked, then lookup and analysis. */
  function TryBlock(s: AppSnapshot, image: string, svc: Services): TryOutcome {
    var reading := s.(loadingStep := ReadingStep);
    match GeminiService.IdentifyDrugFromImage(svc.vision, image)
    case Failure(message) => TryOutcome(reading, Some(message), [IdentifyCall(image)])
    case Success(identity) =>
      var identified := reading.(drugIdentity := Some(identity));
      if !HasUsableName(identity) then TryOutcome(identified, Some(InvalidIdentityMessage), [IdentifyCall(image)])
      else
        var rest := LookupAndAnalyse(identified, identity, svc);
        TryOutcome(rest.state, rest.thrown, [IdentifyCall(image)] + rest.calls)
  }

  /** The catch block: a thrown error ends on the error screen. */
  function CatchBlock(outcome: TryOutcome): PipelineRun {
    match outcome.thrown
    case Some(message) => PipelineRun(FailWith(outcome.state, message), outcome.calls)
    case None => PipelineRun(outcome.state, outcome.calls)
  }

  /** handleImageCaptured, run to completion. */
  function Capture(s: AppSnapshot, image: string, svc: Services): PipelineRun {
    CatchBlock(TryBlock(CaptureStart(s, image), image, svc))
  }

  /** resetScan: image, identity, verdict and error cleared, the scanner
      shown, profile and progress label kept. */
  function Reset(s: AppSnapshot): AppSnapshot {
    s.(scannedImage := None, drugIdentity := None, safetyAnalysis := None, errorMsg := None, appState := SCAN)
  }

  /** navigateToProfile: only the screen changes. */
  function ToProfile(s: AppSnapshot): AppSnapshot {
    s.(appState := PROFILE)
  }

  /** The header logo: the scanner, except while a scan is being analysed. */
  function HeaderClick(s: AppSnapshot): AppSnapshot {
    if s.appState == ANALYZING then s else s.(appState := SCAN)
  }

  /** What the controller keeps true between handlers: a result screen has a
      usable identity and a verdict to show, an error screen has a message,
      and no handler leaves the analysing screen up. */
  ghost predicate Consistent(s: AppSnapshot) {
    && s.appState != ANALYZING
    && (s.appState == RESULT ==>
          s.drugIdentity.Some? && HasUsableName(s.drugIdentity.value) && s.safetyAnalysis.Some?)
    && (s.appState == ERROR ==> s.errorMsg.Some? && s.errorMsg.value != "")
  }

  /** Every handler keeps the controller consistent. */
  lemma TransitionsPreserveConsistency(s: AppSnapshot, saved: Option<string>, parse: string -> Option<UserProfile>,
                                       p: UserProfile, image: string, svc: Services)
    requires Consistent(s)
    ensures Consistent(Initial)
    ensures Consistent(LoadEffect(s, saved, parse))
    ensures Consistent(SaveProfile(s, p))
    ensures Consistent(Capture(s, image, svc).after)
    ensures Consistent(Reset(s))
    ensures Consistent(ToProfile(s))
    ensures Consistent(HeaderClick(s))
  {
  }

  /** A scan ends on the result screen or on the error screen. */
  lemma CaptureEndsInResultOrError(s: AppSnapshot, image: string, svc: Services)
    ensures Capture(s, image, svc).after.appState in {RESULT, ERROR}
    ensures Capture(s, image, svc).after.scannedImage == Some(image)
    ensures Capture(s, image, svc).after.profile == s.profile
    ensures |Capture(s, image, svc).calls| >= 1 && Capture(s, image, svc).calls[0] == IdentifyCall(image)
  {
  }

  /** An identity with no usable name ends the scan on the error screen with
      the fixed message; nothing is looked up or analysed, and the unusable
      identity stays in the state. */
  lemma InvalidIdentityStops(s: AppSnapshot, image: string, svc: Services)
    requires svc.vision(image).Some? && !HasUsableName(svc.vision(image).value)
    ensures var run := Capture(s, image, svc);
      && run.after.appState == ERROR
      && run.after.errorMsg == Some(InvalidIdentityMessage)
      && run.calls == [IdentifyCall(image)]
      && run.after.drugIdentity == Some(svc.vision(image).value)
      && run.after.safetyAnalysis == s.safetyAnalysis
  {
  }

  /** A failed identification ends the scan on the error screen with the
      vision call's own message; nothing is looked up or analysed, and the
      previous identity and verdict stay. */
  lemma IdentifyFailureStops(s: AppSnapshot, image: string, svc: Services)
    requires svc.vision(image).None?
    ensures var run := Capture(s, image, svc);
      && run.after.appState == ERROR
      && run.after.errorMsg == Some(GeminiService.IdentifyFailedMessage)
      && run.calls == [IdentifyCall(image)]
      && run.after.drugIdentity == s.drugIdentity
      && run.after.safetyAnalysis == s.safetyAnalysis
  {
  }

  /** A failed analysis ends the scan on the error screen with the reasoning
      call's own message after exactly the three calls; the new identity is
      kept and the previous verdict stays. */
  lemma AnalysisFailureStops(s: AppSnapshot, image: string, svc: Services)
    requires svc.vision(image).Some? && HasUsableName(svc.vision(image).value)
    requires svc.reasoning(svc.vision(image).value, s.profile,
               FdaService.FetchDrugData(LookupKey(svc.vision(image).value), svc.fetch)).None?
    ensures var identity := svc.vision(image).value;
      var run := Capture(s, image, svc);
      && run.after.appState == ERROR
      && run.after.errorMsg == Some(GeminiService.AnalyzeFailedMessage)
      && run.calls == [IdentifyCall(image), LookupCall(LookupKey(identity)),
                       AnalyzeCall(identity, s.profile, FdaService.FetchDrugData(LookupKey(identity), svc.fetch))]
      && run.after.drugIdentity == Some(identity)
      && run.after.safetyAnalysis == s.safetyAnalysis
  {
    LookupAndAnalysisInputs(s, image, svc);
  }

  /** Once identification passes, the label lookup is asked for a non-empty
      name, the generic one when it is truthy, and the analysis is asked
      with the record the lookup returned, null included, and the current
      profile. */
  lemma LookupAndAnalysisInputs(s: AppSnapshot, image: string, svc: Services)
    requires svc.vision(image).Some? && HasUsableName(svc.vision(image).value)
    ensures var identity := svc.vision(image).value;
      var run := Capture(s, image, svc);
      && |run.calls| == 3
      && run.calls[1].LookupCall? && run.calls[1].drugName != ""
      && run.calls[1].drugName == LookupKey(identity)
      && run.calls[2] == AnalyzeCall(identity, s.profile, FdaService.FetchDrugData(LookupKey(identity), svc.fetch))
  {
    var identity := svc.vision(image).value;
    var identified := CaptureStart(s, image).(loadingStep := ReadingStep, drugIdentity := Some(identity));
    var fdaData := FdaService.FetchDrugData(LookupKey(identity), svc.fetch);
    var rest := Analyse(identified.(loadingStep := LookupStep), identity, fdaData, svc.reasoning);
    AnalyseCalls(identified.(loadingStep := LookupStep), identity, fdaData, svc.reasoning);
    CallsShape(IdentifyCall(image), LookupCall(LookupKey(identity)), rest.calls);
  }

  /** The analysis step makes exactly one call, with the profile and the
      label record it is given. */
  lemma AnalyseCalls(s: AppSnapshot, identity: DrugIdentity, fdaData: Option<FdaData>,
                     reasoning: GeminiService.ReasoningModel)
    ensures Analyse(s, identity, fdaData, reasoning).calls == [AnalyzeCall(identity, s.profile, fdaData)]
  {
  }

  /** Indexing a call list of the form first, second, rest. */
  lemma CallsShape(first: ServiceCall, second: ServiceCall, rest: seq<ServiceCall>)
    ensures var calls := [first] + ([second] + rest);
      |calls| == 2 + |rest| && calls[0] == first && calls[1] == second && calls[2..] == rest
  {
  }

  /** A label record that is not found does not stop the scan: the analysis
      still runs, with no record. */
  lemma MissingLabelStillAnalysed(s: AppSnapshot, image: string, svc: Services)
    requires svc.vision(image).Some? && HasUsableName(svc.vision(image).value)
    requires FdaService.FetchDrugData(LookupKey(svc.vision(image).value), svc.fetch) == None
    ensures Capture(s, image, svc).calls[2] == AnalyzeCall(svc.vision(image).value, s.profile, None)
  {
    LookupAndAnalysisInputs(s, image, svc);
  }

  /** The result screen is reached exactly when all three steps succeed,
      and it then shows the identity and the verdict just returned. */
  lemma ResultExactlyWhenAllStepsSucceed(s: AppSnapshot, image: string, svc: Services)
    ensures var run := Capture(s, image, svc);
      run.after.appState == RESULT <==>
        && svc.vision(image).Some?
        && HasUsableName(svc.vision(image).value)
        && svc.reasoning(svc.vision(image).value, s.profile,
             FdaService.FetchDrugData(LookupKey(svc.vision(image).value), svc.fetch)).Some?
    ensures var run := Capture(s, image, svc);
      run.after.appState == RESULT ==>
        && run.after.drugIdentity == svc.vision(image)
        && run.after.safetyAnalysis == svc.reasoning(svc.vision(image).value, s.profile,
             FdaService.FetchDrugData(LookupKey(svc.vision(image).value), svc.fetch))
        && run.after.errorMsg == None
  {
  }

  /** The error screen shows one of three messages: a failed identification
      or an unusable identity after one call, a failed analysis after three.
      The label lookup never causes it. */
  lemma ErrorMessages(s: AppSnapshot, image: string, svc: Services)
    ensures var run := Capture(s, image, svc);
      run.after.appState == ERROR ==>
        || (|run.calls| == 1 && run.after.errorMsg == Some(GeminiService.IdentifyFailedMessage))
        || (|run.calls| == 1 && run.after.errorMsg == Some(InvalidIdentityMessage))
        || (|run.calls| == 3 && run.after.errorMsg == Some(GeminiService.AnalyzeFailedMessage))
  {
  }

  /** A failed scan leaves the previous verdict in the state, and a failed
      identification the previous identity too. */
  lemma FailureKeepsStaleResults(s: AppSnapshot, image: string, svc: Services)
    ensures var run := Capture(s, image, svc);
      run.after.appState == ERROR ==> run.after.safetyAnalysis == s.safetyAnalysis
    ensures svc.vision(image).None? ==> Capture(s, image, svc).after.drugIdentity == s.drugIdentity
  {
  }

  /** Resetting twice is resetting once; resetting keeps the profile. */
  lemma ResetIdempotent(s: AppSnapshot)
    ensures Reset(Reset(s)) == Reset(s)
    ensures Reset(s).profile == s.profile && Reset(s).appState == SCAN
  {
  }

  /** The header logo does nothing while analysing and opens the scanner
      from every other screen. */
  lemma HeaderClickGuard(s: AppSnapshot)
    ensures s.appState == ANALYZING ==> HeaderClick(s) == s
    ensures s.appState != ANALYZING ==> HeaderClick(s) == s.(appState := SCAN)
  {
  }

  /** The text of the error screen: the message, or a fixed fallback. */
  function ErrorViewText(s: AppSnapshot): (text: string)
    ensures text != ""
    ensures Truthy(s.errorMsg) ==> text == s.errorMsg.value
  {
    if Truthy(s.errorMsg) then s.errorMsg.value else ErrorFallbackText
  }

  /** On a consistent error screen the fallback text is never shown. */
  lemma ErrorFallbackUnreachable(s: AppSnapshot)
    requires Consistent(s) && s.appState == ERROR
    ensures ErrorViewText(s) == s.errorMsg.value
  {
  }

  /** The result card is drawn on the result screen when an identity and a
      verdict are present. */
  predicate ShowsResultCard(s: AppSnapshot) {
    s.appState == RESULT && s.drugIdentity.Some? && s.safetyAnalysis.Some?
  }

  /** On a consistent result screen the card is drawn, and its heading is
      one of the identity's own names. */
  lemma ResultScreenShowsCard(s: AppSnapshot)
    requires Consistent(s) && s.appState == RESULT
    ensures ShowsResultCard(s)
    ensures Some(ResultCard.Headline(s.drugIdentity.value)) == s.drugIdentity.value.brandName
         || Some(ResultCard.Headline(s.drugIdentity.value)) == s.drugIdentity.value.genericName
  {
  }

  /** The browser's local storage. */
  class Storage {
    var items: map<string, string>

    constructor(items: map<string, string>)
      ensures this.items == items
    {
      this.items := items;
    }

    /** localStorage.getItem: the stored value, or null. */
    method GetItem(key: string) returns (value: Option<string>)
      ensures key in items <==> value.Some?
      ensures value.Some? ==> value.value == items[key]
    {
      if key in items {
        value := Some(items[key]);
      } else {
        value := None;
      }
    }

    /** localStorage.setItem. */
    method SetItem(key: string, value: string)
      modifies this
      ensures items == old(items)[key := value]
    {
      items := items[key := value];
    }
  }

  /** The stored value under a key, or null. */
  function StoredValue(items: map<string, string>, key: string): Option<string> {
    if key in items then Some(items[key]) else None
  }

  /** The controller and its seven state fields. */
  class App {
    var appState: AppState
    var profile: UserProfile
    var scannedImage: Option<string>
    var drugIdentity: Option<DrugIdentity>
    var safetyAnalysis: Option<SafetyAnalysis>
    var errorMsg: Option<string>
    var loadingStep: string
    const storage: Storage

    function Snapshot(): AppSnapshot
      reads this
    {
      AppSnapshot(appState, profile, scannedImage, drugIdentity, safetyAnalysis, errorMsg, loadingStep)
    }

    /** The first render: the profile screen with the default profile. */
    constructor(storage: Storage)
      ensures Snapshot() == Initial && Consistent(Snapshot())
      ensures this.storage == storage
    {
      appState := PROFILE;
      profile := Constants.DefaultProfile;
      scannedImage := None;
      drugIdentity := None;
      safetyAnalysis := None;
      errorMsg := None;
      loadingStep := "";
      this.storage := storage;
    }

    /** The startup effect, with `parse` standing for JSON.parse (None when
        it throws). */
    method LoadSavedProfile(parse: string -> Option<UserProfile>)
      modifies this
      ensures Snapshot() == LoadEffect(old(Snapshot()), StoredValue(storage.items, ProfileKey), parse)
    {
      var saved := storage.GetItem(ProfileKey);
      if saved.Some? && saved.value != "" {
        var parsed := parse(saved.value);
        if parsed.Some? {
          profile := parsed.value;
          appState := SCAN;
        }
      }
    }

    /** handleSaveProfile, with `serialize` standing for JSON.stringify. */
    method HandleSaveProfile(newProfile: UserProfile, serialize: UserProfile -> string)
      modifies this, storage
      ensures Snapshot() == SaveProfile(old(Snapshot()), newProfile)
      ensures storage.items == old(storage.items)[ProfileKey := serialize(newProfile)]
    {
      profile := newProfile;
      storage.SetItem(ProfileKey, serialize(newProfile));
      appState := SCAN;
    }

    /** handleImageCaptured: the three steps in order, a thrown error
        carried in `thrown` to the catch block at the end. `calls` is not
        program state: it records the service calls made, in order, so that
        the contract can say which services were asked and with what. */
    method HandleImageCaptured(base64: string, svc: Services) returns (calls: seq<ServiceCall>)
      modifies this
      ensures PipelineRun(Snapshot(), calls) == Capture(old(Snapshot()), base64, svc)
    {
      scannedImage := Some(base64);
      appState := ANALYZING;
      errorMsg := None;
      ghost var started := Snapshot();
      var thrown: Option<string> := None;
      loadingStep := ReadingStep;
      calls := [IdentifyCall(base64)];
      var identified := GeminiService.IdentifyDrugFromImage(svc.vision, base64);
      if identified.Failure? {
        thrown := Some(identified.message);
      } else {
        var identity := identified.value;
        drugIdentity := Some(identity);
        if !HasUsableName(identity) {
          thrown := Some(InvalidIdentityMessage);
        } else {
          var laterCalls;
          thrown, laterCalls := LookupAndAnalyseStep(identity, svc);
          calls := calls + laterCalls;
        }
      }
      assert TryOutcome(Snapshot(), thrown, calls) == TryBlock(started, base64, svc);
      if thrown.Some? {
        errorMsg := Some(if thrown.value != "" then thrown.value else UnexpectedErrorMessage);
        appState := ERROR;
      }
    }

    /** The part of the try block after a usable identity. */
    method LookupAndAnalyseStep(identity: DrugIdentity, svc: Services) returns (thrown: Option<string>, calls: seq<ServiceCall>)
      modifies this
      ensures TryOutcome(Snapshot(), thrown, calls) == LookupAndAnalyse(old(Snapshot()), identity, svc)
    {
      var drugName := LookupKey(identity);
      var fdaData := LookUpLabel(drugName, svc.fetch);
      var laterCalls;
      thrown, laterCalls := AnalyseStep(identity, fdaData, svc.reasoning);
      calls := [LookupCall(drugName)] + laterCalls;
    }

    /** The analysis step, with the current profile. */
    method AnalyseStep(identity: DrugIdentity, fdaData: Option<FdaData>, reasoning: GeminiService.ReasoningModel)
      returns (thrown: Option<string>, calls: seq<ServiceCall>)
      modifies this
      ensures TryOutcome(Snapshot(), thrown, calls) == Analyse(old(Snapshot()), identity, fdaData, reasoning)
    {
      loadingStep := CompatibilityStep;
      calls := [AnalyzeCall(identity, profile, fdaData)];
      var analysed := GeminiService.AnalyzeDrugSafety(reasoning, identity, profile, fdaData);
      if analysed.Failure? {
        thrown := Some(analysed.message);
      } else {
        thrown := None;
        safetyAnalysis := Some(analysed.value);
        appState := RESULT;
      }
    }

    /** The label lookup step: its progress label, then fetchDrugData. */
    method LookUpLabel(drugName: string, fetch: string -> FdaService.FetchOutcome) returns (fdaData: Option<FdaData>)
      modifies this
      ensures fdaData == FdaService.FetchDrugData(drugName, fetch)
      ensures Snapshot() == old(Snapshot()).(loadingStep := LookupStep)
    {
      loadingStep := LookupStep;
      fdaData := FdaService.FetchDrugData(drugName, fetch);
    }

    /** resetScan. */
    method ResetScan()
      modifies this
      ensures Snapshot() == Reset(old(Snapshot()))
    {
      scannedImage := None;
      drugIdentity := None;
      safetyAnalysis := None;
      errorMsg := None;
      appState := SCAN;
    }

    /** navigateToProfile. */
    method NavigateToProfile()
      modifies this
      ensures Snapshot() == ToProfile(old(Snapshot()))
    {
      appState := PROFILE;
    }

    /** The header logo's click handler. */
    method ClickHeader()
      modifies this
      ensures Snapshot() == HeaderClick(old(Snapshot()))
    {
      if appState != ANALYZING {
        appState := SCAN;
      }
    }

    /** The text the error screen shows. */
    function ErrorView(): (text: string)
      reads this
      ensures text != ""
      ensures Truthy(errorMsg) ==> text == errorMsg.value
    {
      ErrorViewText(Snapshot())
    }
  }
}
