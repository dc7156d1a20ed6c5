/**
 * What the proposal generator reads: the caller's sparse configuration record
 * and the bundled static reference content. Every field the generator may
 * find missing is a `JsValue`, `Undefined` when absent; nested records that
 * the generator destructures with a `= {}` default are given as records whose
 * fields are all `Undefined`.
 */
module ProposalContent {
  import opened JsValues

  datatype ClientInfo = ClientInfo(
    clientName: JsValue,
    referenceNumber: JsValue,
    proposalTitle: JsValue,
    industry: JsValue,
    productionCapacity: JsValue,
    specificCOD: JsValue,
    calcCODLoad: JsValue,
    rawMaterial: JsValue,
    finalProducts: JsValue,
    designFlow: JsValue)

  /** An entry of the caller's `params` or `anaerobicFeedParams` list. */
  datatype UserParam = UserParam(id: JsValue, name: JsValue, value: JsValue)

  /** `{ qty, capacity }` of the polymer dosing tank or pump. */
  datatype QtyCapacity = QtyCapacity(qty: JsValue, capacity: JsValue)

  datatype SludgeDetails = SludgeDetails(
    dewateringMechanism: JsValue,
    screwPressRequired: JsValue,
    dewateringCapacityTons: JsValue,
    dewateringProcessingCapacityKgHr: JsValue,
    dosingTankSpecs: Option<QtyCapacity>,
    dosingPumpSpecs: Option<QtyCapacity>)

  /** `sludgeCalculationDetails || {}` when the caller gives none. */
  const NoSludgeDetails := SludgeDetails(Undefined, Undefined, Undefined, Undefined, None, None)

  /**
   * The fields of the configuration record that the generator reads. Equipment
   * records contribute one field each (`preAcid.capacity`, …); the record's
   * other destructured fields are never read and are not represented.
   */
  datatype ProposalInput = ProposalInput(
    clientInfo: ClientInfo,
    params: seq<UserParam>,
    anaerobicFeedParams: seq<UserParam>,
    preAcidCapacity: JsValue,
    anaerobicFeedPumpCapacity: JsValue,
    anaerobicTankCapacity: JsValue,
    biomassPumpCapacity: JsValue,
    biogasFlareCapacity: JsValue,
    biomassHoldingTankCapacity: JsValue,
    aerationTankCapacity: JsValue,
    secondaryClarifierDimensions: JsValue,
    sludgeRecircPumpCapacity: JsValue,
    treatedWaterTankCapacity: JsValue,
    treatedWaterPumpCapacity: JsValue,
    sludgeCalculationDetails: Option<SludgeDetails>,
    instruments: seq<string>,
    techOverview: seq<string>,
    processDesc: seq<string>,
    selectedSections: seq<string>)

  // ---------------------------------------------------------------------------
  // Static reference content (opaque data bundled with the generator)
  // ---------------------------------------------------------------------------

  /** A row of the design-basis parameter table. */
  datatype DesignParam = DesignParam(sn: JsValue, param: JsValue, unit: JsValue, raw: JsValue, anaInlet: JsValue)

  datatype DesignBasis = DesignBasis(parameters: seq<DesignParam>, notes: seq<JsValue>)

  datatype TitledText = TitledText(title: JsValue, text: JsValue)

  datatype Subsection = Subsection(heading: JsValue, text: JsValue, bullets: Option<seq<JsValue>>)

  datatype TechSection = TechSection(
    title: JsValue,
    intro: JsValue,
    subsections: Option<seq<Subsection>>,
    bullets: Option<seq<TitledText>>)

  datatype TechnologyOverview = TechnologyOverview(title: JsValue, sections: seq<TechSection>)

  datatype ProcessDescription = ProcessDescription(title: JsValue, items: seq<TitledText>)

  datatype GuaranteeEntry = GuaranteeEntry(param: JsValue, val: JsValue)

  datatype GuaranteeTable = GuaranteeTable(title: JsValue, headers: Option<seq<JsValue>>, data: seq<GuaranteeEntry>)

  datatype Considerations = Considerations(title: JsValue, bullets: seq<JsValue>)

  datatype PerformanceGuarantees = PerformanceGuarantees(
    title: JsValue,
    anaerobic: GuaranteeTable,
    aerobic: GuaranteeTable,
    importantConsiderations: Considerations)

  datatype BromideRow = BromideRow(compound: JsValue, effect: JsValue, notes: JsValue)

  datatype Bromide = Bromide(title: JsValue, intro: JsValue, headers: Option<seq<JsValue>>, table: seq<BromideRow>)

  datatype MetalRow = MetalRow(metal: JsValue, role: JsValue, beneficial: JsValue, toxic: JsValue, comments: JsValue)

  datatype HeavyMetals = HeavyMetals(title: JsValue, headers: Option<seq<JsValue>>, table: seq<MetalRow>)

  datatype Vfa = Vfa(
    title: JsValue,
    text: JsValue,
    equation: JsValue,
    consequencesTitle: JsValue,
    consequences: seq<JsValue>,
    controlMeasure: JsValue)

  datatype TheoryContent = TheoryContent(title: JsValue, bromide: Bromide, heavyMetals: HeavyMetals, vfa: Vfa)

  datatype Exclusion = Exclusion(title: JsValue, desc: JsValue)

  datatype StaticContent = StaticContent(
    designBasis: DesignBasis,
    technologyOverview: TechnologyOverview,
    processDescription: ProcessDescription,
    performanceGuarantees: PerformanceGuarantees,
    theoryContent: TheoryContent,
    exclusions: seq<Exclusion>,
    exclusionsConclusion: JsValue)

  /**
   * Everything one export depends on besides the logo: the caller's record, the
   * static content, the current date as `toLocaleDateString` renders it, and the
   * start-up biomass quantity as the floating-point expression renders it.
   */
  datatype GenContext = GenContext(input: ProposalInput, content: StaticContent, today: string, vssQuantity: string)
}
