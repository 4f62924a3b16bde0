/** The verdict card (components/ResultCard.tsx): which verdict banner a
    risk level selects, which name heads the card, and which of the optional
    parts of the card are shown. Colours and icons are kept only as far as
    they tell the parts apart. */
module ResultCard {
  import opened Types

  /** The banner colour of a verdict. */
  datatype Tone = SafeGreen | Amber | Orange | Red | Gray

  /** The banner icon of a verdict. */
  datatype Icon = ShieldCheck | ShieldAlert | AlertOctagon | Info

  /** One entry of the verdict table. */
  datatype RiskConfig = RiskConfig(tone: Tone, icon: Icon, title: string, desc: string)

  /** The four levels the verdict table has an entry for. */
  const RiskLevels: seq<string> := ["LOW", "MODERATE", "HIGH", "CRITICAL"]

  /** The entry used for any other level. */
  const UnknownRisk: RiskConfig := RiskConfig(Gray, Info, "Unknown Risk", "Consult a professional.")

  /** The own properties of the verdict table's object literal. */
  function TableEntry(level: string): (r: Option<RiskConfig>)
    ensures r.Some? <==> level in RiskLevels
  {
    if level == "LOW" then Some(RiskConfig(SafeGreen, ShieldCheck, "Safe to Use", "No significant interactions found."))
    else if level == "MODERATE" then Some(RiskConfig(Amber, ShieldAlert, "Use with Caution", "Potential interactions detected."))
    else if level == "HIGH" then Some(RiskConfig(Orange, AlertOctagon, "High Risk Warning", "Significant health risks detected."))
    else if level == "CRITICAL" then Some(RiskConfig(Red, AlertOctagon, "Do Not Take", "Dangerous contraindications found."))
    else None
  }

  /** The verdict for a risk level: the table entry for the four levels,
      "Unknown Risk" for every other string. */
  function RiskConfigFor(level: string): (r: RiskConfig)
    ensures level in RiskLevels ==> Some(r) == TableEntry(level)
    ensures level !in RiskLevels ==> r == UnknownRisk
  {
    match TableEntry(level)
    case Some(config) => config
    case None => UnknownRisk
  }

  /** The four titles of the table, level by level. */
  lemma RiskTitles()
    ensures RiskConfigFor("LOW").title == "Safe to Use"
    ensures RiskConfigFor("MODERATE").title == "Use with Caution"
    ensures RiskConfigFor("HIGH").title == "High Risk Warning"
    ensures RiskConfigFor("CRITICAL").title == "Do Not Take"
  {
  }

  /** "Unknown Risk" is shown exactly for the levels outside the table, and
      different levels of the table show different titles. */
  lemma UnknownTitleExactlyOutsideTable(level: string, other: string)
    ensures RiskConfigFor(level).title == "Unknown Risk" <==> level !in RiskLevels
    ensures level in RiskLevels && other in RiskLevels && level != other ==>
      RiskConfigFor(level).title != RiskConfigFor(other).title
  {
  }

  /** The names every object inherits from Object.prototype. */
  const ObjectPrototypeMembers: set<string> := {
    "constructor", "hasOwnProperty", "isPrototypeOf", "propertyIsEnumerable",
    "toString", "valueOf", "toLocaleString", "__proto__",
    "__defineGetter__", "__defineSetter__", "__lookupGetter__", "__lookupSetter__"
  }

  /** Indexing the object literal with a level: an own entry, an inherited
      Object.prototype member, or undefined. */
  datatype Lookup = Own(config: RiskConfig) | Inherited(name: string) | Undefined

  function LookupLevel(level: string): (r: Lookup)
    ensures r.Own? <==> level in RiskLevels
    ensures r.Inherited? <==> level !in RiskLevels && level in ObjectPrototypeMembers
  {
    match TableEntry(level)
    case Some(config) => Own(config)
    case None => if level in ObjectPrototypeMembers then Inherited(level) else Undefined
  }

  /** React's message for drawing an undefined component. */
  const InvalidElementMessage: string := "Element type is invalid: expected a string (for built-in components) or a class/function (for composite components) but got: undefined."

  /** `table[level] || fallback` as written: an inherited member is a
      truthy function or object, so it is taken in place of the fallback;
      it has no `icon`, so drawing the banner icon throws. */
  function CardConfigAsWritten(level: string): (r: Result<RiskConfig>)
    ensures r.Failure? <==> level !in RiskLevels && level in ObjectPrototypeMembers
  {
    match LookupLevel(level)
    case Own(config) => Success(config)
    case Inherited(_) => Failure(InvalidElementMessage)
    case Undefined => Success(UnknownRisk)
  }

  /** A level naming an Object.prototype member, such as "toString", makes
      the card throw instead of showing "Unknown Risk". */
  lemma PrototypeLevelSkipsFallback()
    ensures CardConfigAsWritten("toString").Failure?
    ensures RiskConfigFor("toString") == UnknownRisk
  {
    assert "toString" in ObjectPrototypeMembers;
  }

  /** The written lookup and the total one agree on every other level. */
  lemma AsWrittenAgreesElsewhere(level: string)
    requires level !in ObjectPrototypeMembers
    ensures CardConfigAsWritten(level) == Success(RiskConfigFor(level))
  {
  }

  /** The card's heading: the brand name if truthy, else the generic name if
      truthy, else "Unknown Drug"; never empty. */
  function Headline(identity: DrugIdentity): (r: string)
    ensures r != ""
    ensures Truthy(identity.brandName) ==> r == identity.brandName.value
    ensures !Truthy(identity.brandName) && Truthy(identity.genericName) ==> r == identity.genericName.value
    ensures !Truthy(identity.brandName) && !Truthy(identity.genericName) ==> r == "Unknown Drug"
  {
    if Truthy(identity.brandName) then identity.brandName.value
    else if Truthy(identity.genericName) then identity.genericName.value
    else "Unknown Drug"
  }

  /** The heading is one of the identity's names, or the placeholder exactly
      when it has no usable name. */
  lemma HeadlineIsAName(identity: DrugIdentity)
    ensures Some(Headline(identity)) == identity.brandName || Some(Headline(identity)) == identity.genericName
            || Headline(identity) == "Unknown Drug"
    ensures Truthy(identity.brandName) || Truthy(identity.genericName) ==>
      Some(Headline(identity)) in [identity.brandName, identity.genericName]
  {
  }

  /** The generic-name subtitle: shown when the generic name is truthy and
      differs from the brand name. */
  predicate ShowGenericSubtitle(identity: DrugIdentity) {
    Truthy(identity.genericName) && identity.genericName != identity.brandName
  }

  /** The strength badge: shown when the strength is truthy. */
  predicate ShowStrength(identity: DrugIdentity) {
    Truthy(identity.strength)
  }

  /** When the subtitle is shown it repeats the heading exactly when the
      brand name is missing or empty. */
  lemma SubtitleRepeatsHeadline(identity: DrugIdentity)
    requires ShowGenericSubtitle(identity)
    ensures identity.genericName.value == Headline(identity) <==> !Truthy(identity.brandName)
  {
  }

  /** The colour of the risk-factors panel. */
  datatype PanelTone = AmberPanel | RedPanel

  /** The risk-factors panel: its colour and its rows. */
  datatype Panel = Panel(tone: PanelTone, items: seq<string>)

  /** The panel is shown exactly when there are contraindications; it lists
      them in order, amber for a "LOW" level and red otherwise. */
  function RiskPanel(analysis: SafetyAnalysis): (r: Option<Panel>)
    ensures r.Some? <==> |analysis.contraindications| > 0
    ensures r.Some? ==> r.value.items == analysis.contraindications
    ensures r.Some? ==> (r.value.tone == AmberPanel <==> analysis.riskLevel == "LOW")
  {
    if |analysis.contraindications| > 0 then
      Some(Panel(if analysis.riskLevel == "LOW" then AmberPanel else RedPanel, analysis.contraindications))
    else None
  }

  /** A "LOW" verdict with contraindications shows the green "Safe to Use"
      banner above an amber panel of risk factors. */
  lemma LowVerdictWithRiskFactors(analysis: SafetyAnalysis)
    requires analysis.riskLevel == "LOW" && |analysis.contraindications| > 0
    ensures RiskConfigFor(analysis.riskLevel).title == "Safe to Use"
    ensures RiskPanel(analysis) == Some(Panel(AmberPanel, analysis.contraindications))
  {
  }

  /** One side-effect chip, keyed by its position. */
  datatype Chip = Chip(key: nat, text: string)

  /** One chip per entry, in order. */
  function Chips(effects: seq<string>): (r: seq<Chip>)
    ensures |r| == |effects|
    ensures forall i :: 0 <= i < |r| ==> r[i] == Chip(i, effects[i])
  {
    seq(|effects|, i requires 0 <= i < |effects| => Chip(i, effects[i]))
  }

  /** The chip texts are the side effects, in order. */
  lemma ChipTextsAreEffects(effects: seq<string>)
    ensures forall i :: 0 <= i < |Chips(effects)| ==> Chips(effects)[i].text == effects[i]
    ensures |Chips(effects)| == |effects|
  {
  }

  /** `analysis.sideEffects.map(...)` as written: a missing list (the
      field is optional in the reasoning service's answer) throws. */
  function SideEffectChipsAsWritten(analysis: SafetyAnalysis): (r: Result<seq<Chip>>)
    ensures r.Failure? <==> analysis.sideEffects.None?
  {
    match analysis.sideEffects
    case None => Failure("TypeError: Cannot read properties of undefined (reading 'map')")
    case Some(effects) => Success(Chips(effects))
  }

  /** A verdict without side effects makes the card throw. */
  lemma MissingSideEffectsThrow(analysis: SafetyAnalysis)
    requires analysis.sideEffects == None
    ensures SideEffectChipsAsWritten(analysis).Failure?
  {
  }

  /** The side-effect chips with a missing list read as an empty one: no
      chip for a missing list, one per entry otherwise. */
  function SideEffectChips(analysis: SafetyAnalysis): (r: seq<Chip>)
    ensures analysis.sideEffects.None? ==> r == []
    ensures analysis.sideEffects.Some? ==> r == Chips(analysis.sideEffects.value)
  {
    match analysis.sideEffects
    case None => []
    case Some(effects) => Chips(effects)
  }

  /** Wherever the written card renders, it renders the same chips. */
  lemma SideEffectChipsAgree(analysis: SafetyAnalysis)
    ensures SideEffectChipsAsWritten(analysis).Success? ==>
      SideEffectChipsAsWritten(analysis).value == SideEffectChips(analysis)
  {
  }
}
