# Safe-meds in Dafny

A verified model of the logic inside Safe-meds. Safe-meds is a React client that
reads a medication label from a photo with a vision model, looks the drug up in
the OpenFDA label database, and asks a reasoning model whether the drug is safe
for the user's health profile. The model covers four parts of it:

- **The scan controller** (`App.tsx`, module `AppController`). It has five
  screens and seven state fields. There is a startup rule that restores a
  saved profile, plus the save, capture, reset and navigation handlers.
  Every handler is a pure transition on an `AppSnapshot`. The class
  `AppController.App` holds the seven fields, and each of its methods is proved
  to perform its transition. The capture pipeline runs identify, label lookup
  and safety analysis, with one catch block. It is proved end to end: which
  screen it ends on, which message it shows, which services it calls and with
  what, and what stale state it leaves behind.
- **The label lookup** (`fdaService.ts`, module `FdaService`). It covers the
  name sanitiser, the search query, the request URL, and how an HTTP outcome
  is classified into a label record or null.
- **The profile editor** (`UserProfileForm.tsx`, module `ProfileForm`). It
  covers toggling a chip, adding a custom item on Enter, the medications text
  box (parsed by split, trim and filter and shown by `join(', ')`), age
  coercion and the gender buttons. The pure helpers are functions. The editor
  itself is the class `ProfileForm.Form`, whose handlers update its state.
- **The verdict card** (`components/ResultCard.tsx`, module `ResultCard`). It
  covers the risk-level lookup with its "Unknown Risk" fallback, the heading
  and subtitle choices, the risk-factors panel and the side-effect chips.

The supporting modules are:

- `Types`: the records of `types.ts`, with JavaScript null as `Option` and
  truthiness as `Truthy`.
- `Constants`: `constants.ts`.
- `GeminiService`: the two model calls. The call itself is a parameter; the
  module keeps only the fixed failure messages.
- `JsString`: the JavaScript string primitives the logic uses, namely `trim`,
  `split`, `join`, `parseInt`, `String(n)`, `toLowerCase` and
  `encodeURIComponent`. Each one comes with the facts the other modules need.

The outside world enters as parameters:

- the vision model: image to `Option<DrugIdentity>`;
- the reasoning model: identity, profile and label to `Option<SafetyAnalysis>`;
- `fetch`: URL to `FetchOutcome`;
- `JSON.parse`: string to `Option<UserProfile>`;
- `JSON.stringify`.

Local storage is the class `AppController.Storage`, which holds a map.

## Model

| member | source | states |
|---|---|---|
| AppController.App.constructor | App.tsx:12-18 | the controller starts on the profile screen with the default profile, nothing scanned, no identity, verdict or error, and an empty progress label; that state is consistent |
| AppController.LoadEffect | App.tsx:20-30 | a truthy saved value that parses replaces the profile and opens the scanner; an absent, empty or unparseable value leaves the whole state unchanged |
| AppController.App.LoadSavedProfile | App.tsx:20-30 | reads the `safeMedsProfile` slot of storage and performs `LoadEffect` on the controller's fields |
| AppController.StoredValue | App.tsx:21 | what `localStorage.getItem` returns for a key; `Storage.GetItem` returns it and `LoadSavedProfile` feeds it to `LoadEffect` |
| AppController.Storage.GetItem | App.tsx:21 | returns the stored value exactly when the key is present, and null otherwise |
| AppController.Storage.SetItem | App.tsx:34 | the slot holds the new value and every other slot is unchanged |
| AppController.App.HandleSaveProfile | App.tsx:32-36 | the profile becomes the new one, the scanner opens, nothing else changes, and the `safeMedsProfile` slot holds the serialised new profile with the other slots unchanged |
| AppController.SavedProfileIsRestored | App.tsx:20-36 | under a serialisation that parses back, a saved profile is what the next start restores, and the next start opens the scanner exactly as saving did |
| AppController.SaveProfile | App.tsx:32-36 | the state change of handleSaveProfile: the new profile and the scanner; `HandleSaveProfile` performs it and `SavedProfileIsRestored` relates it to the next start |
| AppController.FailWith | App.tsx:63-67 | the catch block ends on the error screen, showing the thrown message when it is non-empty and the generic message otherwise, and changes nothing else |
| AppController.CaptureStart | App.tsx:39-41 | the three updates before any service call: image kept, analysing screen, error cleared, identity and verdict untouched; `FailureKeepsStaleResults` states the consequence |
| AppController.Analyse | App.tsx:57-61 | the analysis step; `AnalyseCalls` and `AnalyseStep` state its calls and state change |
| AppController.LookupAndAnalyse | App.tsx:52-61 | the lookup, which cannot throw, then the analysis; `LookupAndAnalysisInputs` and `MissingLabelStillAnalysed` state its inputs |
| AppController.TryBlock | App.tsx:43-62 | identification stored before the validity check, then lookup and analysis; `InvalidIdentityStops` and `ResultExactlyWhenAllStepsSucceed` state its outcomes |
| AppController.CatchBlock | App.tsx:63-67 | a thrown error ends on the error screen through `FailWith`; `ErrorMessages` states which messages can appear |
| AppController.Capture | App.tsx:38-68 | handleImageCaptured run to completion; `HandleImageCaptured` performs it and `CaptureEndsInResultOrError`, `ResultExactlyWhenAllStepsSucceed`, `ErrorMessages` and `TransitionsPreserveConsistency` state its properties |
| AppController.LookupKey | App.tsx:52 | the lookup key is non-empty exactly when the identity has a truthy brand or generic name; it is the generic name when that is truthy, and otherwise the brand name or empty |
| AppController.App.HandleImageCaptured | App.tsx:38-68 | the handler, run statement by statement, leaves the state and the list of service calls that `Capture` specifies; the returned call list records the calls and is not program state |
| AppController.App.LookupAndAnalyseStep | App.tsx:52-61 | the lookup and analysis part of the try block, proved equal to `LookupAndAnalyse` |
| AppController.App.AnalyseStep | App.tsx:57-61 | the progress label, then one analysis call with the current profile; a verdict is stored and opens the result screen, and a failure leaves both alone |
| AppController.App.LookUpLabel | App.tsx:54-55 | the progress label changes, nothing else does, and the record is what `fetchDrugData` returns for the name |
| AppController.AnalyseCalls | App.tsx:58 | the analysis step makes exactly one call, with the identity, the current profile and the label record it is given |
| AppController.TransitionsPreserveConsistency | App.tsx:12-96 | the initial state is consistent, and startup, save, capture, reset, navigation and the header click all keep it consistent: a result screen has a usable identity and a verdict, an error screen has a non-empty message, and no handler leaves the analysing screen up |
| AppController.Consistent | App.tsx:165-181 | the invariant the views rely on: the result screen has a usable identity and a verdict, the error screen a non-empty message, and no handler leaves the analysing screen up; `TransitionsPreserveConsistency` proves every handler keeps it |
| AppController.CaptureEndsInResultOrError | App.tsx:38-68 | a scan ends on the result or the error screen, keeps the image and the profile, and always calls identification first |
| AppController.InvalidIdentityStops | App.tsx:45-50 | an identity without a truthy brand or generic name ends on the error screen with the fixed message after one call; nothing is looked up or analysed, the invalid identity stays in state and the old verdict is kept |
| AppController.LookupAndAnalysisInputs | App.tsx:52-58 | after a usable identity, exactly three calls are made: the lookup gets the non-empty key and the analysis gets the identity, the profile and the lookup's record |
| AppController.MissingLabelStillAnalysed | App.tsx:55-58 | a null label record does not stop the scan: the analysis is still called, with null |
| AppController.ResultExactlyWhenAllStepsSucceed | App.tsx:43-61 | the result screen is reached if and only if identification returns a usable identity and the analysis returns a verdict; it then shows that identity and that verdict and no error |
| AppController.ErrorMessages | App.tsx:63-67 | the error screen shows the identification failure or the invalid-label message after one call, or the analysis failure after three; the label lookup never causes it; `IdentifyFailureStops`, `InvalidIdentityStops` and `AnalysisFailureStops` state which failure gives which message |
| AppController.IdentifyFailureStops | App.tsx:43-47 | a vision call without an answer ends the scan on the error screen with "Failed to identify medication from image." (geminiService.ts:54) after that one call; nothing is looked up or analysed, and the previous identity and verdict stay |
| AppController.AnalysisFailureStops | App.tsx:57-66 | a reasoning call without an answer ends the scan on the error screen with "Failed to analyze drug safety." (geminiService.ts:132) after exactly the identify, lookup and analysis calls; the new identity is kept and the previous verdict stays |
| AppController.HasUsableName | App.tsx:48 | the validity check on an identity: a truthy brand or generic name; `LookupKey` and `InvalidIdentityStops` state what follows from it |
| AppController.FailureKeepsStaleResults | App.tsx:39-41 | capture clears only the error: a failed scan keeps the previous verdict, and a failed identification keeps the previous identity |
| AppController.App.ResetScan | App.tsx:70-76 | clears image, identity, verdict and error, opens the scanner, and keeps the profile and progress label |
| AppController.ResetIdempotent | App.tsx:70-76 | resetting twice is resetting once, and a reset keeps the profile and opens the scanner |
| AppController.Reset | App.tsx:70-76 | the state change of resetScan; `ResetScan` performs it and `ResetIdempotent` states its properties |
| AppController.App.NavigateToProfile | App.tsx:78-80 | only the screen changes, to the profile editor |
| AppController.ToProfile | App.tsx:78-80 | the state change of navigateToProfile: only the screen, to the profile editor |
| AppController.App.ClickHeader | App.tsx:96 | performs `HeaderClick` on the controller's fields |
| AppController.HeaderClick | App.tsx:96 | the header guard; `HeaderClickGuard` states both cases |
| AppController.HeaderClickGuard | App.tsx:96 | the header logo does nothing while analysing and opens the scanner from every other screen, changing nothing else |
| AppController.ErrorViewText | App.tsx:181 | the error text is never empty, and it is the error message whenever that is truthy |
| AppController.App.ErrorView | App.tsx:181 | the same, read from the controller's fields |
| AppController.ErrorFallbackUnreachable | App.tsx:174-181 | on a consistent error screen the fallback text is never shown |
| AppController.ShowsResultCard | App.tsx:165 | the guard of the result view: the result screen with an identity and a verdict; `ResultScreenShowsCard` states that a consistent result screen meets it |
| AppController.ResultScreenShowsCard | App.tsx:165-171 | on a consistent result screen the card is drawn, and its heading is one of the identity's own names |
| GeminiService.IdentifyDrugFromImage | geminiService.ts:10-56 | succeeds if and only if the model yields a parsed answer, and then returns that answer; any failure surfaces as "Failed to identify medication from image." |
| GeminiService.AnalyzeDrugSafety | geminiService.ts:61-134 | succeeds if and only if the model yields a parsed verdict for that identity, profile and record, and then returns it; any failure surfaces as "Failed to analyze drug safety." |
| FdaService.FetchDrugData | fdaService.ts:5-37 | fetchDrugData: sanitise, build the query and URL, classify the response; `ClassifyResponse`, `QueryStructure`, `UrlParameters` and `SanitizedNameSameLookup` state its properties |
| FdaService.KeepSearchChars | fdaService.ts:8 | the regular-expression replace; `KeptAreSearchChars`, `KeptCounts` and `KeepSearchCharsUnchanged` state it |
| FdaService.SanitizeName | fdaService.ts:8 | replace, then trim; `SanitizedCharacters` and `SanitizeIdempotent` state it |
| FdaService.FieldClause | fdaService.ts:13 | one `field:"name"` clause of the query; `ClauseQuotesName` states that it splits at its quotes into the field and the name |
| FdaService.SearchQuery | fdaService.ts:13 | the brand and generic clauses joined by `+OR+`; `QueryStructure` and `QueryDeterminesName` state it |
| FdaService.RequestUrl | fdaService.ts:14 | the base URL with the encoded search and `limit=1`; `UrlParameters` states it |
| FdaService.IsOk | fdaService.ts:18 | `response.ok`: a status from 200 to 299; `ClassifyResponse` states the record is returned only for such a status |
| FdaService.TryClassify | fdaService.ts:16-32 | the try block: 404 is null, another non-2xx status throws, a 2xx body gives `results[0]` or null, an unreadable or null body throws; `ClassifyResponse` states the outcome after the catch |
| FdaService.KeptAreSearchChars | fdaService.ts:8 | the regular-expression replace keeps only ASCII letters, digits and spaces |
| FdaService.KeptCounts | fdaService.ts:8 | the replace keeps every letter, digit and space as often as it occurs |
| FdaService.KeepSearchCharsUnchanged | fdaService.ts:8 | a string of letters, digits and spaces is left alone by the replace |
| FdaService.SanitizedCharacters | fdaService.ts:8 | the sanitised name holds only ASCII letters, digits and spaces, and has no space at either end |
| FdaService.SanitizeIdempotent | fdaService.ts:8 | sanitising a sanitised name returns it unchanged |
| FdaService.SanitizedHasNoDelimiters | fdaService.ts:8 | the sanitised name holds neither '+' nor '"' |
| FdaService.ClauseQuotesName | fdaService.ts:13 | a field clause splits at its quotes into the field, the name and nothing else |
| FdaService.QuerySplitsAtOr | fdaService.ts:13 | a query about a name without '+' splits at '+' into the brand clause, `OR` and the generic clause |
| FdaService.QueryStructure | fdaService.ts:8-13 | for every drug name, the query is exactly a brand-name clause, `OR` and a generic-name clause, and each clause holds the sanitised name between its two quotes |
| FdaService.QueryDeterminesName | fdaService.ts:13 | different names give different queries |
| FdaService.EncodedHasNoDelimiters | fdaService.ts:14 | the encoded query holds neither '?' nor '&' |
| FdaService.UrlSplitsAtQuestionMark | fdaService.ts:14 | the base URL and a parameter string without '?' split back apart at the '?' |
| FdaService.ParametersSplitAtAmpersand | fdaService.ts:14 | a search parameter without '&' followed by `&limit=1` splits back into the two parameters |
| FdaService.UrlParameters | fdaService.ts:14 | the URL is the base URL and exactly two parameters, the encoded search and `limit=1` |
| FdaService.ClassifyResponse | fdaService.ts:16-36 | a record comes back if and only if the status is 2xx and `results` is present and non-empty, and it is then `results[0]`; a 404, another status, a network failure, an unreadable body or a null body all give null |
| FdaService.SanitizedNameSameLookup | fdaService.ts:5-14 | a drug name and its sanitised form send the same request and get the same record |
| ProfileForm.Form.constructor | UserProfileForm.tsx:12-14 | the editor opens on the profile it is given, with both "add other" boxes empty |
| ProfileForm.RemoveAll | UserProfileForm.tsx:18 | the filter removes every occurrence of the item and keeps every other value as often as it occurs; an absent item changes nothing |
| ProfileForm.RemoveAllDistributes | UserProfileForm.tsx:18 | filtering a concatenation filters each part, so what is kept stays in its original order |
| ProfileForm.ToggleItem | UserProfileForm.tsx:16-20 | membership of the item flips and every other value keeps its count; a present item is filtered out everywhere and an absent one is appended at the end |
| ProfileForm.ToggleTwiceRestores | UserProfileForm.tsx:16-20 | toggling an absent item twice restores the list |
| ProfileForm.ToggleTwiceMovesToEnd | UserProfileForm.tsx:16-20 | toggling a present item twice leaves one copy of it, at the end |
| ProfileForm.Form.ToggleCondition | UserProfileForm.tsx:92 | a condition chip toggles that condition and changes nothing else |
| ProfileForm.Form.ToggleAllergy | UserProfileForm.tsx:140 | an allergy chip toggles that allergy and changes nothing else |
| ProfileForm.AddCustomItem | UserProfileForm.tsx:115-120 | Enter with a non-empty box appends its text, even if it is already present, and clears the box; any other key or an empty box changes nothing |
| ProfileForm.AddCustomItemCounts | UserProfileForm.tsx:117 | an added item occurs once more than before |
| ProfileForm.Form.EditNewCondition | UserProfileForm.tsx:113-114 | typing sets the condition box and changes nothing else |
| ProfileForm.Form.EditNewAllergy | UserProfileForm.tsx:161-162 | typing sets the allergy box and changes nothing else |
| ProfileForm.Form.ConditionKeyDown | UserProfileForm.tsx:115-120 | the conditions and the condition box change as `AddCustomItem` says, and nothing else changes |
| ProfileForm.Form.AllergyKeyDown | UserProfileForm.tsx:163-168 | the allergies and the allergy box change as `AddCustomItem` says, and nothing else changes |
| ProfileForm.TrimEach | UserProfileForm.tsx:186 | `.map(s => s.trim())`; `TrimEachElements` states it |
| ProfileForm.TrimEachElements | UserProfileForm.tsx:186 | `.map(s => s.trim())` gives as many strings, the i-th being the trimmed i-th piece |
| ProfileForm.DropEmpty | UserProfileForm.tsx:186 | `.filter(s => s)` leaves no empty string and keeps every other string as often as it occurs; a list without empty strings is unchanged |
| ProfileForm.DropEmptyDistributes | UserProfileForm.tsx:186 | filtering a concatenation filters each part, so the kept strings stay in their original order |
| ProfileForm.ParseMedications | UserProfileForm.tsx:186 | split at commas, trim each piece, drop empty pieces; `ParsedEntriesWellFormed`, `MedicationsRoundTrip` and `ParseStable` state it |
| ProfileForm.MedicationsText | UserProfileForm.tsx:185 | `join(', ')`; `MedicationsRoundTrip` states that parsing it gives the list back |
| ProfileForm.TrimmedPiecesHaveNoComma | UserProfileForm.tsx:186 | trimmed pieces of a comma split hold no comma |
| ProfileForm.ParsedEntriesWellFormed | UserProfileForm.tsx:186 | every parsed medication is non-empty, has no white space at either end and holds no comma |
| ProfileForm.SplitJoined | UserProfileForm.tsx:185-186 | splitting a `, `-joined list of comma-free strings at commas gives the first string, then every other one behind a space |
| ProfileForm.TrimJoinedPieces | UserProfileForm.tsx:185-186 | trimming those pieces gives back the well-formed entries |
| ProfileForm.EmptyTextParsesToNothing | UserProfileForm.tsx:186 | an empty box parses to no medications |
| ProfileForm.MedicationsRoundTrip | UserProfileForm.tsx:185-186 | parsing the shown text of a list of non-empty, trimmed, comma-free entries returns the same list |
| ProfileForm.ParseStable | UserProfileForm.tsx:185-186 | whatever is typed, the text re-shown from the parsed list parses to the same list |
| ProfileForm.MedicationsFieldStable | UserProfileForm.tsx:185-186 | after one edit, the box's text is a fixed point of parse-then-show |
| ProfileForm.Form.EditMedications | UserProfileForm.tsx:186 | the medications become the parse of the text, and nothing else changes |
| ProfileForm.CoerceAge | UserProfileForm.tsx:50 | `parseInt(text) or 0` as read: the leading integer or 0; `NoLeadingIntegerIsZero` and `AgeRoundTrip` state it |
| ProfileForm.AgeText | UserProfileForm.tsx:49 | the age box is empty exactly when the age is 0 |
| ProfileForm.AgeRoundTrip | UserProfileForm.tsx:49-50 | reading back the shown age gives the age |
| ProfileForm.NoLeadingIntegerIsZero | UserProfileForm.tsx:50 | text with no leading integer, such as a cleared box, "abc5" or "0x", is stored as age 0 |
| ProfileForm.Form.EditAge | UserProfileForm.tsx:50 | the age becomes the leading integer of the text, or 0 when there is none, and nothing else changes |
| ProfileForm.GenderValue | UserProfileForm.tsx:58 | a button's value is its label lower-cased character by character, of the same length |
| ProfileForm.GenderValues | UserProfileForm.tsx:57-58 | the three buttons store exactly 'male', 'female' and 'other' |
| ProfileForm.Form.SelectGender | UserProfileForm.tsx:57-63 | a gender button stores its lower-cased label, which is one of 'male', 'female' and 'other', and changes nothing else |
| ProfileForm.Form.Save | UserProfileForm.tsx:22-24 | Save hands over exactly the edited profile |
| ProfileForm.Form.AgeField | UserProfileForm.tsx:49 | the age box's text, `AgeText` of the profile's age |
| ProfileForm.Form.MedicationsField | UserProfileForm.tsx:185 | the medications box's text; `MedicationsFieldStable` states it is stable under editing |
| ProfileForm.ControlledTyping | UserProfileForm.tsx:185-186 | the medications list after typing keys one at a time into the box as written, each keystroke re-parsing the re-shown text; `ControlledTypingHoldsOneEntry` states what it can reach |
| ProfileForm.KeystrokeKeepsOneEntry | UserProfileForm.tsx:185-186 | one keystroke into a box showing at most one entry leaves at most one entry |
| ProfileForm.TrailingCommaDropped | UserProfileForm.tsx:186 | a comma typed after comma-free text parses to the same list as the text alone |
| ProfileForm.ControlledTypingHoldsOneEntry | UserProfileForm.tsx:185-186 | typed key by key, the box as written never holds more than one medication |
| ProfileForm.ControlledTypingLosesSecondEntry | UserProfileForm.tsx:185-186 | typing the text of two medications does not give those two medications |
| ProfileForm.RawTypingShowsKeys | UserProfileForm.tsx:185-186 | a box that keeps its own text shows exactly the keys typed |
| ProfileForm.RawTypingReachesEveryList | UserProfileForm.tsx:185-186 | with a box that keeps its own text, typing the shown form of any list of well-formed entries gives that list |
| ResultCard.TableEntry | components/ResultCard.tsx:13-49 | the table has an entry exactly for LOW, MODERATE, HIGH and CRITICAL |
| ResultCard.RiskConfigFor | components/ResultCard.tsx:13-58 | the four levels get their table entry, and every other string gets the "Unknown Risk" entry, so the lookup is total |
| ResultCard.RiskTitles | components/ResultCard.tsx:20-47 | LOW, MODERATE, HIGH and CRITICAL are titled 'Safe to Use', 'Use with Caution', 'High Risk Warning' and 'Do Not Take' |
| ResultCard.UnknownTitleExactlyOutsideTable | components/ResultCard.tsx:50-58 | "Unknown Risk" is shown if and only if the level is outside the table, and different table levels show different titles |
| ResultCard.LookupLevel | components/ResultCard.tsx:13-50 | indexing the object literal finds an own entry exactly for the four levels, and an inherited member exactly for the Object.prototype names outside them |
| ResultCard.CardConfigAsWritten | components/ResultCard.tsx:13-60 | as written, the card throws (its banner icon is undefined) exactly for the Object.prototype names outside the table |
| ResultCard.PrototypeLevelSkipsFallback | components/ResultCard.tsx:50-60 | the level "toString" makes the written card throw, where the total lookup gives "Unknown Risk" |
| ResultCard.AsWrittenAgreesElsewhere | components/ResultCard.tsx:13-58 | on every level that is not an Object.prototype name, the written lookup and the total one agree |
| ResultCard.Headline | components/ResultCard.tsx:79 | the heading is the brand name if truthy, else the generic name if truthy, else "Unknown Drug", and it is never empty |
| ResultCard.HeadlineIsAName | components/ResultCard.tsx:79 | the heading is one of the identity's names, or the placeholder; with a usable name it is a name |
| ResultCard.SubtitleRepeatsHeadline | components/ResultCard.tsx:79-85 | when the generic subtitle is shown, it repeats the heading exactly when the brand name is missing or empty |
| ResultCard.RiskPanel | components/ResultCard.tsx:132-146 | the panel is shown if and only if there are contraindications; it lists them in order, and it is amber exactly for a LOW level |
| ResultCard.LowVerdictWithRiskFactors | components/ResultCard.tsx:14-22 | a LOW verdict with contraindications shows the 'Safe to Use' banner above an amber risk-factors panel |
| ResultCard.Chips | components/ResultCard.tsx:175-179 | one chip per entry, in order, keyed by position |
| ResultCard.ChipTextsAreEffects | components/ResultCard.tsx:175-179 | the chip texts are the side effects, in order |
| ResultCard.SideEffectChipsAsWritten | components/ResultCard.tsx:175 | as written, the card throws exactly when the verdict has no side-effect list |
| ResultCard.MissingSideEffectsThrow | components/ResultCard.tsx:175 | a verdict without a side-effect list makes the card throw |
| ResultCard.SideEffectChips | components/ResultCard.tsx:175-179 | a missing list shows no chips, and a present one shows one chip per entry |
| ResultCard.SideEffectChipsAgree | components/ResultCard.tsx:175-179 | wherever the written card renders, it shows the same chips |
| JsString.LeadingWhiteSpace | fdaService.ts:8 | the number of leading white-space characters: all before it are white space, the next is not |
| JsString.TrailingWhiteSpace | fdaService.ts:8 | the same count for the end of the string |
| JsString.Trim | fdaService.ts:8 | `trim()` leaves no white space at either end and leaves a trimmed string alone; its result is the text right behind the leading white space, and everything after it in the input is white space, so only white space is removed |
| JsString.TrimEndsSlice | fdaService.ts:8 | removing leading then trailing white space keeps the characters right behind the leading white space, and only white space follows them |
| JsString.TrimSlice | UserProfileForm.tsx:186 | the trimmed string is the slice of the input behind its leading white space |
| JsString.TrimKeepsCharacters | UserProfileForm.tsx:186 | every character of a trimmed string comes from the input, so any property all input characters have, it has too |
| JsString.TrimBlank | UserProfileForm.tsx:186 | trimming leaves nothing if and only if the input is all white space |
| JsString.Join | UserProfileForm.tsx:185 | `Array.prototype.join`; `JoinSplit` and `JoinCons` state it |
| JsString.Split | UserProfileForm.tsx:186 | `split` gives one more piece than there are separators, and no piece holds the separator |
| JsString.JoinSplit | UserProfileForm.tsx:185-186 | joining the pieces of a split with the separator gives back the string |
| JsString.SplitAtFirstSeparator | UserProfileForm.tsx:186 | splitting at a first separator peels off the text before it |
| JsString.SplitWithoutSeparator | UserProfileForm.tsx:186 | a string without the separator splits into itself alone |
| JsString.JoinCons | UserProfileForm.tsx:185 | `join` puts the separator after the first string of a list of two or more |
| JsString.ParseInt | UserProfileForm.tsx:50 | `parseInt` without a radix: white space, one sign, an optional `0x`, the longest digit run; `ParseIntNaNExactly` and `ParseIntOfDecimal` state it |
| JsString.ParseMagnitude | UserProfileForm.tsx:50 | the unsigned part of `parseInt`; `ParseMagnitudeOfDigits` states it |
| JsString.DigitRun | UserProfileForm.tsx:50 | the longest prefix made of digits of the radix |
| JsString.NoDigitsParsesToNaN | UserProfileForm.tsx:50 | `parseInt` of a string with no decimal digit is NaN |
| JsString.ParseIntNaNExactly | UserProfileForm.tsx:50 | `parseInt` is NaN if and only if, behind leading white space and one sign, there is no decimal digit, or a `0x` prefix with no hexadecimal digit after it |
| JsString.NatToDecimal | UserProfileForm.tsx:49 | the decimal numeral of a natural number is a non-empty digit string with that value, with no leading zero: it starts with '0' exactly for zero |
| JsString.IntToDecimal | UserProfileForm.tsx:49 | `String(n)`: a minus sign for negatives, then the numeral; `ParseIntOfDecimal` states it reads back |
| JsString.ParseMagnitudeOfDigits | UserProfileForm.tsx:50 | an unsigned digit string is read as its decimal value |
| JsString.ParseIntOfDecimal | UserProfileForm.tsx:49-50 | `parseInt(String(n))` is n for every integer n |
| JsString.ToLowerAscii | UserProfileForm.tsx:58 | `toLowerCase` keeps the length and lower-cases each ASCII letter in place |
| JsString.PercentEncode | fdaService.ts:14 | every byte becomes three characters, each unreserved or '%' |
| JsString.PercentEncodeEscapes | fdaService.ts:14 | the k-th byte is written at position 3k as '%' followed by its high and its low upper-case hexadecimal digit |
| JsString.HexDigitUpper | fdaService.ts:14 | the digit is an upper-case hexadecimal digit whose value is n |
| JsString.Utf8Bytes | fdaService.ts:14 | each character encodes to one to four bytes |
| JsString.EncodeUriComponent | fdaService.ts:14 | unreserved characters kept, every other character as the percent escapes of its UTF-8 bytes; `EncodedCharacters` and `EncodeUnreserved` state it |
| JsString.EncodedCharacters | fdaService.ts:14 | `encodeURIComponent` output holds only unreserved characters and '%' |
| JsString.EncodeUnreserved | fdaService.ts:14 | `encodeURIComponent` leaves a string of unreserved characters as it is |

## Left out

- The prompts, schemas, model names and settings of the two Gemini calls,
  including temperature and thinking budget, are left out. Each call is a
  parameter that returns a parsed answer or nothing. A missing text, a thrown
  SDK error and a JSON parse error are all "nothing", and all surface as the
  wrapper's fixed message.
- `fetch`, `JSON.parse`, `JSON.stringify` and `localStorage` are I/O or
  library calls, so they are parameters or the `Storage` class. What
  `JSON.parse` returns for a saved value is assumed to be a profile or to
  throw. A saved JSON `null` or a non-profile value, both of which the source
  would store, is not modelled.
- Async interleaving is not modelled. `handleImageCaptured` runs as one
  atomic step, so a click on "My Profile" while the analysing screen is up,
  and the later overwrite of the screen by the pending scan, are not
  captured. For the same reason the analysis sees the profile as it was when
  the scan started, which is what the source's closure sees too.
- A Gemini answer that parses to JSON `null` is not modelled: each model
  answers with a parsed record or with nothing usable. In the source, a null
  identity is stored (App.tsx:46) and reading its `brandName` (App.tsx:48)
  throws a TypeError whose message the error screen shows. That would be a
  fourth error message besides the three `ErrorMessages` lists. A null
  verdict is stored and the result screen is entered (App.tsx:59-61) with
  no card drawn (App.tsx:165), which `Consistent` excludes. Both need the
  model to return the JSON value null for a schema whose top-level type is
  an object.
- The response body of the label lookup is the JSON value null, an object,
  or unreadable. An object whose `results` is not an array is not modelled.
- fetchDrugData throws on a status other than 2xx and 404
  (fdaService.ts:23), but the catch block at fdaService.ts:33-36 turns that
  error, like every other, into null. The label step therefore can never
  reach the error screen.
- `components/Scanner.tsx` (file reading, drag and drop, the data-URL split)
  is not part of this model.
- The low-confidence badge is left out. It compares a floating-point
  confidence with 0.8, and the model keeps the confidence as a `real`
  without using it.
- Rendering is left out: CSS classes, colours and icons beyond the panel and
  banner tone that tell the verdicts apart, and the analysing screen's
  animation. The progress label is kept.
- `ProfileForm.Form.EditAge`: `parseInt` is modelled with unbounded integers,
  with optional sign, leading white space and a `0x` prefix. It does not
  model the loss of precision of numbers beyond 2^53. It also does not model
  the `type="number"` input, which in a browser hands only numeric text to
  the handler.
- `JsString.ToLowerAscii`: only ASCII letters are lower-cased, because the
  gender labels are ASCII. Unicode case mapping is not modelled.
- `JsString.IsWhiteSpace`: the white-space set is the ECMA-262 list. No
  Unicode category lookup beyond that list is modelled.
- PercentEncode: its own contract gives the length and the character
  class; the escape layout ('%' and the two digits of each byte) is stated
  by `PercentEncodeEscapes`, which keeps the nonlinear index reasoning out
  of every caller.
- `ResultCard.ShowStrength` and `ResultCard.ShowGenericSubtitle` are
  predicates with no contract of their own. Their content is exactly the
  visibility conditions at components/ResultCard.tsx:83-88, and
  `SubtitleRepeatsHeadline` states their consequence.

## Findings

| source | as written | input that shows it | evidently intended | confidence | as-written member | corrected member |
|---|---|---|---|---|---|---|
| components/ResultCard.tsx:13-60 | the level is looked up by indexing a plain object literal, with the fallback taken only when the result is falsy, so a level naming an inherited Object.prototype member yields that truthy member instead of the "Unknown Risk" fallback; its `icon` is undefined, so rendering the banner icon (components/ResultCard.tsx:100) throws | riskLevel "toString" | every level outside LOW, MODERATE, HIGH and CRITICAL gets "Unknown Risk" | not executed; low, because the response schema lists the four levels, though the cast at geminiService.ts:128 does not check them | ResultCard.PrototypeLevelSkipsFallback | ResultCard.UnknownTitleExactlyOutsideTable |
| components/ResultCard.tsx:175 | `analysis.sideEffects.map(...)` is called unguarded, but `sideEffects` is not in the reasoning call's required fields (geminiService.ts:110), so it may be missing and the card throws while rendering | a verdict whose JSON has no `sideEffects` | a missing list shows no chips | not executed; medium | ResultCard.MissingSideEffectsThrow | ResultCard.SideEffectChipsAgree |
| UserProfileForm.tsx:185-186 | the medications box is controlled: it shows `medications.join(', ')`, and every change re-parses the text by split, trim and drop-empty, so a comma typed at the end leaves an empty piece that is dropped, and the next render shows the text without it | typing "Aspirin, Ibuprofen" key by key: after "Aspirin," the box shows "Aspirin" again, and the list ends as the single entry "AspirinIbuprofen" | typing a comma-separated list gives those medications, as with a box that keeps its own text and parses it | not executed; high, since the erasure follows from the render alone | ProfileForm.ControlledTypingLosesSecondEntry | ProfileForm.RawTypingReachesEveryList |
