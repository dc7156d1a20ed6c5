/**
 * Section 4 of the proposal, the process equipment specifications: the
 * generic equipment block (`createEquipSection`), the detailed chemical
 * dosing block (`renderDosingDetailed`) with its five fixed systems, and the
 * data of every numbered equipment subsection.
 */
module ProposalEquipment {
  import opened JsValues
  import opened ProposalBlocks
  import opened ProposalContent

  // ---------------------------------------------------------------------------
  // Literal tables
  // ---------------------------------------------------------------------------

  /** A row of literal cells. */
  function Texts(xs: seq<string>): seq<JsValue> {
    seq(|xs|, i requires 0 <= i < |xs| => Str(xs[i]))
  }

  function TextRows(rows: seq<seq<string>>): seq<seq<JsValue>> {
    seq(|rows|, i requires 0 <= i < |rows| => Texts(rows[i]))
  }

  function Percents(ps: seq<int>): seq<Width> {
    seq(|ps|, i requires 0 <= i < |ps| => Percent(ps[i]))
  }

  const ParameterSpecification := Texts(["Parameter", "Specification"])

  const Bold := NoParaOptions.(textOptions := BoldText)

  /** The bold 11 pt caption above a dosing table. */
  const Caption := NoParaOptions.(textOptions := BoldText.(size := Some(22)))

  const QuarterWidths := Percents([25, 25, 25, 25])

  // ---------------------------------------------------------------------------
  // First match in the caller's parameter lists
  // ---------------------------------------------------------------------------

  /** `up.name === name || up.id === id`; without an id only the name is compared. */
  predicate ParamMatches(up: UserParam, name: JsValue, id: Option<JsValue>) {
    up.name == name || (id.Some? && up.id == id.value)
  }

  /** `params.find(…)`: the index of the first matching entry, if any. */
  function FindParam(params: seq<UserParam>, name: JsValue, id: Option<JsValue>): (r: Option<nat>)
    ensures r.Some? ==> r.value < |params| && ParamMatches(params[r.value], name, id)
    ensures r.Some? ==> forall j :: 0 <= j < r.value ==> !ParamMatches(params[j], name, id)
    ensures r.None? <==> forall j :: 0 <= j < |params| ==> !ParamMatches(params[j], name, id)
  {
    if params == [] then None
    else if ParamMatches(params[0], name, id) then Some(0)
    else
      match FindParam(params[1..], name, id)
      case None => None
      case Some(k) => Some(k + 1)
  }

  /** `params.find(p => p.name === 'TSS')?.value || "4000"`. */
  function InletTss(params: seq<UserParam>): (r: JsValue)
    ensures Truthy(r)
    ensures (forall j :: 0 <= j < |params| ==> params[j].name != Str("TSS")) ==> r == Str("4000")
    ensures forall j ::
      (0 <= j < |params| && params[j].name == Str("TSS") && Truthy(params[j].value) &&
       forall i :: 0 <= i < j ==> params[i].name != Str("TSS")) ==> r == params[j].value
    ensures forall j ::
      (0 <= j < |params| && params[j].name == Str("TSS") && !Truthy(params[j].value) &&
       forall i :: 0 <= i < j ==> params[i].name != Str("TSS")) ==> r == Str("4000")
  {
    var found := FindParam(params, Str("TSS"), None);
    Or(if found.Some? then params[found.value].value else Undefined, Str("4000"))
  }

  // ---------------------------------------------------------------------------
  // createEquipSection
  // ---------------------------------------------------------------------------

  /** The `details` argument: an array gives one paragraph per item, any other value one paragraph when truthy. */
  datatype Details = DetailList(items: seq<JsValue>) | DetailValue(v: JsValue)

  const NoDetails := DetailValue(Null)

  /** The arguments of one `createEquipSection` call. */
  datatype EquipSpec = EquipSpec(
    number: string,
    title: string,
    scope: JsValue,
    details: Details,
    headers: seq<JsValue>,
    rows: seq<seq<JsValue>>)

  function ScopeLabel(scope: JsValue): string {
    if Truthy(scope) then " [Scope: " + JsString(scope) + "]" else ""
  }

  function DetailBlocks(d: Details): seq<Block> {
    match d
    case DetailList(items) => seq(|items|, i requires 0 <= i < |items| => TextPara(items[i], NoParaOptions))
    case DetailValue(v) => if Truthy(v) then [TextPara(v, NoParaOptions)] else []
  }

  /** `tableHeaders.map(() => 100 / tableHeaders.length)`. */
  function EqualWidths(n: nat): seq<Width> {
    seq(n, _ => EqualShare(n))
  }

  /** The blocks `createEquipSection` appends. */
  function EquipBlocks(e: EquipSpec): (r: seq<Block>)
    ensures |r| > 0 && r[0] == CreateHeading(Str(e.number + " " + e.title + ScopeLabel(e.scope)), 2)
  {
    [CreateHeading(Str(e.number + " " + e.title + ScopeLabel(e.scope)), 2)]
    + DetailBlocks(e.details)
    + (if |e.rows| > 0 then [SimpleTable(Some(e.headers), e.rows, EqualWidths(|e.headers|))] else [])
  }

  /**
   * The shape of an equipment section: the level-2 heading "<number> <title>",
   * with " [Scope: …]" when a scope is given; then the details, one paragraph
   * each; then the table, exactly when there are rows.
   */
  lemma EquipBlocksShape(e: EquipSpec)
    ensures var r := EquipBlocks(e);
      && |r| >= 1 && r[0].Heading? && r[0].level == Heading2 && r[0].run.TextRun?
      && e.number + " " + e.title <= r[0].run.text
      && (!Truthy(e.scope) ==> r[0].run.text == e.number + " " + e.title)
      && (Truthy(e.scope) ==> r[0].run.text == e.number + " " + e.title + " [Scope: " + JsString(e.scope) + "]")
      && |r| == 1 + (if |e.rows| > 0 then 1 else 0) +
                (match e.details case DetailList(items) => |items| case DetailValue(v) => if Truthy(v) then 1 else 0)
      && (e.details.DetailList? ==>
            forall i :: 0 <= i < |e.details.items| ==> r[1 + i] == TextPara(e.details.items[i], NoParaOptions))
      && (e.details.DetailValue? && Truthy(e.details.v) ==> r[1] == TextPara(e.details.v, NoParaOptions))
      && (r[|r| - 1].Table? <==> |e.rows| > 0)
      && (|e.rows| > 0 ==> r[|r| - 1] == SimpleTable(Some(e.headers), e.rows, EqualWidths(|e.headers|)))
  {
  }

  // ---------------------------------------------------------------------------
  // renderDosingDetailed and the five dosing systems
  // ---------------------------------------------------------------------------

  /** A dosing pump or dosing tank record. */
  datatype DosingUnit = DosingUnit(capacity: JsValue, make: JsValue, kind: JsValue, moc: JsValue, qty: JsValue)

  datatype Agitator = Agitator(rpm: JsValue, make: JsValue, kind: JsValue, moc: JsValue, qty: JsValue)

  /** The arguments of one `renderDosingDetailed` call; the calculations are the entries of an object, in order. */
  datatype DosingSystem = DosingSystem(
    name: string,
    calculations: Option<seq<(string, JsValue)>>,
    pump: DosingUnit,
    tank: Option<DosingUnit>,
    agitator: Option<Agitator>)

  function CalculationRows(entries: seq<(string, JsValue)>): seq<seq<JsValue>> {
    seq(|entries|, i requires 0 <= i < |entries| => [Str(entries[i].0), entries[i].1])
  }

  function PumpRows(p: DosingUnit): seq<seq<JsValue>> {
    [[Str("Capacity"), p.capacity, Str("Make"), p.make],
     [Str("Type"), p.kind, Str("MOC"), p.moc],
     [Str("Quantity"), p.qty, Str("-"), Str("-")]]
  }

  function TankRows(t: DosingUnit): seq<seq<JsValue>> {
    [[Str("Capacity"), t.capacity, Str("Type"), t.kind],
     [Str("MOC"), t.moc, Str("Make"), t.make],
     [Str("Quantity"), t.qty, Str("-"), Str("-")]]
  }

  /** An agitator without a speed shows "80-90". */
  function AgitatorRows(a: Agitator): seq<seq<JsValue>> {
    [[Str("RPM"), Or(a.rpm, Str("80-90")), Str("Make"), a.make],
     [Str("Type"), a.kind, Str("MOC"), a.moc],
     [Str("Quantity"), a.qty, Str("-"), Str("-")]]
  }

  /** The tables among a list of blocks, in order. */
  function TablesIn(bs: seq<Block>): seq<Block> {
    if bs == [] then [] else (if bs[0].Table? then [bs[0]] else []) + TablesIn(bs[1..])
  }

  lemma {:induction false} TablesInAppend(a: seq<Block>, b: seq<Block>)
    ensures TablesIn(a + b) == TablesIn(a) + TablesIn(b)
    decreases |a|
  {
    if a != [] {
      assert (a + b)[0] == a[0] && (a + b)[1..] == a[1..] + b;
      TablesInAppend(a[1..], b);
    } else {
      assert a + b == b;
    }
  }

  function CalculationBlocks(d: DosingSystem): seq<Block> {
    if d.calculations.Some? then
      [TextPara(Str("Calculations:"), Caption),
       SimpleTable(None, CalculationRows(d.calculations.value), Percents([50, 50])),
       Spacer(120)]
    else []
  }

  function PumpBlocks(d: DosingSystem): seq<Block> {
    [TextPara(Str("A) Dosing Pump [Scope: EDI]"), Caption), SimpleTable(None, PumpRows(d.pump), QuarterWidths), Spacer(120)]
  }

  function TankBlocks(d: DosingSystem): seq<Block> {
    if d.tank.Some? then
      [TextPara(Str("B) Dosing Tank [Scope: EDI]"), Caption), SimpleTable(None, TankRows(d.tank.value), QuarterWidths), Spacer(120)]
    else []
  }

  function AgitatorBlocks(d: DosingSystem): seq<Block> {
    if d.agitator.Some? then
      [TextPara(Str("C) Agitator [Scope: EDI]"), Caption), SimpleTable(None, AgitatorRows(d.agitator.value), QuarterWidths), Spacer(120)]
    else []
  }

  /** The blocks `renderDosingDetailed` appends. */
  function DosingBlocks(d: DosingSystem): seq<Block> {
    [CreateHeading(Str(d.name), 3)] + CalculationBlocks(d) + PumpBlocks(d) + TankBlocks(d) + AgitatorBlocks(d)
  }

  /** A caption, a table and a spacer hold exactly one table. */
  lemma CaptionedTable(caption: Block, table: Block, spacer: Block)
    requires !caption.Table? && table.Table? && !spacer.Table?
    ensures TablesIn([caption, table, spacer]) == [table]
  {
    assert [spacer][1..] == [];
    assert TablesIn([spacer]) == [];
    assert [table, spacer][1..] == [spacer];
    assert TablesIn([table, spacer]) == [table];
    assert [caption, table, spacer][1..] == [table, spacer];
  }

  /** The tables of a block list that opens without one are those of the four stretches after it. */
  lemma TablesInAfterHeading(h: seq<Block>, c: seq<Block>, p: seq<Block>, t: seq<Block>, a: seq<Block>)
    requires TablesIn(h) == []
    ensures TablesIn(h + c + p + t + a) == TablesIn(c) + TablesIn(p) + TablesIn(t) + TablesIn(a)
  {
    TablesInAppend(h, c);
    TablesInAppend(h + c, p);
    TablesInAppend(h + c + p, t);
    TablesInAppend(h + c + p + t, a);
    assert [] + TablesIn(c) == TablesIn(c);
  }

  /** Each captioned group of a dosing system holds its one table, or nothing when it is left out. */
  lemma GroupTables(d: DosingSystem)
    ensures TablesIn(CalculationBlocks(d)) ==
              if d.calculations.Some? then [SimpleTable(None, CalculationRows(d.calculations.value), Percents([50, 50]))] else []
    ensures TablesIn(PumpBlocks(d)) == [SimpleTable(None, PumpRows(d.pump), QuarterWidths)]
    ensures TablesIn(TankBlocks(d)) ==
              if d.tank.Some? then [SimpleTable(None, TankRows(d.tank.value), QuarterWidths)] else []
    ensures TablesIn(AgitatorBlocks(d)) ==
              if d.agitator.Some? then [SimpleTable(None, AgitatorRows(d.agitator.value), QuarterWidths)] else []
  {
    var c, p, t, a := CalculationBlocks(d), PumpBlocks(d), TankBlocks(d), AgitatorBlocks(d);
    CaptionedTable(p[0], p[1], p[2]);
    if d.calculations.Some? {
      CaptionedTable(c[0], c[1], c[2]);
    }
    if d.tank.Some? {
      CaptionedTable(t[0], t[1], t[2]);
    }
    if d.agitator.Some? {
      CaptionedTable(a[0], a[1], a[2]);
    }
  }

  /**
   * A dosing system shows its tables in the order calculations, pump, tank,
   * agitator: the pump table always, each of the others exactly when its data
   * is given; none of them has a header row.
   */
  lemma DosingTables(d: DosingSystem)
    ensures TablesIn(DosingBlocks(d)) ==
              (if d.calculations.Some? then [SimpleTable(None, CalculationRows(d.calculations.value), Percents([50, 50]))] else [])
              + [SimpleTable(None, PumpRows(d.pump), QuarterWidths)]
              + (if d.tank.Some? then [SimpleTable(None, TankRows(d.tank.value), QuarterWidths)] else [])
              + (if d.agitator.Some? then [SimpleTable(None, AgitatorRows(d.agitator.value), QuarterWidths)] else [])
  {
    var h := [CreateHeading(Str(d.name), 3)];
    assert TablesIn(h) == [] by { assert h[1..] == []; }
    TablesInAfterHeading(h, CalculationBlocks(d), PumpBlocks(d), TankBlocks(d), AgitatorBlocks(d));
    GroupTables(d);
  }

  /** A dosing system opens with a level-3 heading of its name, followed by three blocks per group shown. */
  lemma DosingBlocksShape(d: DosingSystem)
    ensures var r := DosingBlocks(d);
      && r[0] == CreateHeading(Str(d.name), 3) && r[0].level == Heading3
      && |r| == 4 + (if d.calculations.Some? then 3 else 0) + (if d.tank.Some? then 3 else 0)
                  + (if d.agitator.Some? then 3 else 0)
  {
  }

  function PumpMakes(): JsValue {
    Str("Miltonroy / Prominent / EQT")
  }

  function StandardAgitator(): Agitator {
    Agitator(Str("80-90"), Str("Ceecons/Verito/EQT"), Str("Turbine"), Str("SS316"), Str("1"))
  }

  function UreaDosingSystem(): DosingSystem {
    DosingSystem(
    "Urea Dosing System",
    Some([("N Required", Str("Calculated Value")), ("Dosing Tank", Str("2500 Lit")), ("Dosing Pump", Str("110 LPH"))]),
    DosingUnit(Str("110 LPH"), PumpMakes(), Str("Diaphragm"), Str("PP"), Str("2 (1W+1S)")),
    Some(DosingUnit(Str("2500 Lit"), Str("Sintex/EQT"), Str("Vertical"), Str("HDPE"), Str("1"))),
    Some(StandardAgitator()))
  }

  function PhosphoricAcidDosingSystem(): DosingSystem {
    DosingSystem(
    "Phosphoric Acid Dosing System",
    Some([("P Required", Str("Calculated Value")), ("Dosing Tank", Str("500 Lit")), ("Dosing Pump", Str("25 LPH"))]),
    DosingUnit(Str("25 LPH"), PumpMakes(), Str("Diaphragm"), Str("PP"), Str("2 (1W+1S)")),
    Some(DosingUnit(Str("500 Lit"), Str("Sintex/EQT"), Str("Vertical"), Str("HDPE"), Str("1"))),
    None)
  }

  function CausticDosingSystem(): DosingSystem {
    DosingSystem(
    "Caustic Dosing System",
    None,
    DosingUnit(Str("100 LPH"), PumpMakes(), Str("Diaphragm"), Str("SS316"), Str("2 (1W+1S)")),
    Some(DosingUnit(Str("1000 Lit"), Str("Site Fabrication"), Str("Vertical"), Str("MS"), Str("1"))),
    Some(StandardAgitator()))
  }

  function HclDosingSystem(): DosingSystem {
    DosingSystem(
    "HCl Dosing System",
    None,
    DosingUnit(Str("10 LPH"), PumpMakes(), Str("Diaphragm"), Str("PP"), Str("2 (1W+1S)")),
    Some(DosingUnit(Str("500 Lit"), Str("Site Fabrication"), Str("Vertical"), Str("MSRL"), Str("1"))),
    None)
  }

  function MicronutrientsDosingSystem(): DosingSystem {
    DosingSystem(
    "Micronutrients Dosing System",
    None,
    DosingUnit(Str("10 LPH"), PumpMakes(), Str("Diaphragm"), Str("PP"), Str("2 (1W+1S)")),
    Some(DosingUnit(Str("500 Lit"), Str("Sintex/EQT"), Str("Vertical"), Str("HDPE"), Str("1"))),
    Some(StandardAgitator()))
  }

  // ---------------------------------------------------------------------------
  // The numbered equipment subsections
  // ---------------------------------------------------------------------------

  /** `safeString(clientInfo.designFlow || "250 m3/hr")`. */
  function DesignFlow(input: ProposalInput): string {
    SafeString(Or(input.clientInfo.designFlow, Str("250 m3/hr")))
  }

  function DafSpec(input: ProposalInput): EquipSpec {
    EquipSpec("4.1", "Dissolved Air Flotation (DAF)", Str("EDI"), NoDetails, ParameterSpecification,
      TextRows([["Flow Rate", DesignFlow(input)],
                ["Make", "Krofta / DAFTech / Ishan / Kpack"],
                ["Inlet / Outlet TSS", SafeString(InletTss(input.params)) + " / <300 mg/l"],
                ["Quantity", "1 No."]]))
  }

  function ScreeningSpec(input: ProposalInput): EquipSpec {
    EquipSpec("4.3", "Screening System", Str("EDI"), NoDetails, ParameterSpecification,
      TextRows([["Type", "Fine Screen"], ["Capacity", DesignFlow(input)], ["MOC", "SS304"], ["Pore Size", "2mm"]]))
  }

  function PrimaryClarificationSpec(): EquipSpec {
    EquipSpec("4.4", "Primary Clarification System", Str("Client"), NoDetails,
    ParameterSpecification,
    TextRows([["Tank MOC", "RCC (Concrete)"],
              ["Mechanism", "Central Driven, MSEP (Make: Indofab/EQT)"],
              ["Sludge Pump", "Centrifugal, Make: KSB/Abirami/Johnson"]]))
  }

  function CoolingSpec(input: ProposalInput): EquipSpec {
    EquipSpec("4.5", "Cooling System (PHE)", Str("EDI"), NoDetails, ParameterSpecification,
      TextRows([["Capacity", DesignFlow(input)], ["MOC", "SS304"], ["Temp Out", "35\U{00B0}C"],
                ["Quantity", "2 Nos (1W+1S)"]]))
  }

  function PreAcidificationSpec(input: ProposalInput): EquipSpec {
    EquipSpec("4.6", "Pre-acidification Tank", Str("Client"), NoDetails, ParameterSpecification,
      TextRows([["Capacity", SafeString(Or(input.preAcidCapacity, Str("300 m3"))) + ", RCC"],
                ["Agitator", "Submersible / Top Mounted, SS316 (Make: Sulzer/Ceecons/EQT)"]]))
  }

  function AnaerobicFeedPumpSpec(input: ProposalInput): EquipSpec {
    EquipSpec("4.7", "Anaerobic Feed Pump", Str("EDI"), NoDetails, ParameterSpecification,
      TextRows([["Capacity", SafeString(Or(input.anaerobicFeedPumpCapacity, Str("225 m3/hr")))],
                ["Type", "Centrifugal Semi-open"], ["MOC", "CI / SS304"], ["Make", "KSB / Kirloskar / Johnson"],
                ["Quantity", "2 Nos (1W+1S)"]]))
  }

  function AnaerobicReactorSpec(input: ProposalInput): EquipSpec {
    EquipSpec("4.8", "Anaerobic Reactor System", Null, NoDetails, ParameterSpecification,
      TextRows([["Capacity", SafeString(Or(input.anaerobicTankCapacity, Str("1527 m3")))],
                ["Type", "Vertical, MSEP (Site Fabrication)"], ["Stand Pipe", "MSEP"]]))
  }

  function BiomassTransferPumpSpec(input: ProposalInput): EquipSpec {
    EquipSpec("4.9", "Biomass Transfer Pump", Str("EDI"), NoDetails, ParameterSpecification,
      TextRows([["Capacity", SafeString(Or(input.biomassPumpCapacity, Str("10 m3/hr")))],
                ["Type", "Positive Displacement (Screw), Nitrile Stator"], ["Make", "Netzsch / Hydroprokav / EQT"]]))
  }

  function BiogasHandlingSpec(input: ProposalInput): EquipSpec {
    EquipSpec("4.10", "Biogas Handling System", Null, NoDetails, ParameterSpecification,
      TextRows([["Biogas Holder", "Floating Dome type, MSEP Dome / RCC Tank"],
                ["Flare Stack", SafeString(Or(input.biogasFlareCapacity, Str("700"))) + " Nm3/hr, 10m Height, Open Flare"],
                ["Accessories", "Flame Arrestor, Pilot/Main SOV, Moisture Separator"]]))
  }

  function BiomassHoldingTankSpec(input: ProposalInput): EquipSpec {
    EquipSpec("4.11", "Biomass Holding Tank", Str("EDI"), NoDetails, ParameterSpecification,
      TextRows([["Capacity", SafeString(Or(input.biomassHoldingTankCapacity, Str("200 m3")))],
                ["MOC", "MSEP"], ["Shape", "Rectangular"]]))
  }

  /** 4.12: the start-up biomass quantity is given already rendered (it is computed in floating point). */
  function StartupBiomassBlocks(vssQuantity: string): (r: seq<Block>)
    ensures |r| > 0 && r[0] == CreateHeading(Str("4.12 Start-up Granular Biomass"), 2)
  {
    [CreateHeading(Str("4.12 Start-up Granular Biomass"), 2),
     Plain("Start-up granular biomass during commissioning stage."),
     SimpleTable(None,
                 TextRows([["Calculated Quantity", vssQuantity + " m\U{00B3}"],
                           ["Requirement", "60 kg VSS (VSS/TSS ratio >60%)"]]),
                 Percents([40, 60]))]
  }

  function AerationTankBlocks(input: ProposalInput): (r: seq<Block>)
    ensures |r| > 0 && r[0] == CreateHeading(Str("4.13 Aeration Tank System [Scope: Client]"), 2)
  {
    [CreateHeading(Str("4.13 Aeration Tank System [Scope: Client]"), 2),
     TextPara(Str("A) Capacity Design"), Bold),
     SimpleTable(None,
                 TextRows([["Anaerobic Inlet BOD", "2500 mg/l", "Anaerobic Removal", "80%"],
                           ["Anaerobic Outlet BOD", "500.00 mg/l", "BOD Load to Aeration", "1717.75 kg/day"],
                           ["F/M Ratio", "0.15", "MLSS", "3500 mg/l"],
                           ["Calculated Capacity", SafeString(Or(input.aerationTankCapacity, Str("3271.90 m\U{00B3}"))), "-", "-"]]),
                 QuarterWidths),
     Spacer(120),
     TextPara(Str("B) Dimensions & Details"), Bold),
     SimpleTable(None,
                 TextRows([["Shape", "Rectangular", "Dimensions", "40.45m (L) x 20.22m (W) x 4m (H)"],
                           ["HRT", "11.43 hours", "MOC", "RCC"],
                           ["Quantity", "1", "Type", "Extended Aeration"]]),
                 Percents([20, 30, 20, 30]))]
  }

  function AerationComponentsBlocks(): (r: seq<Block>)
    ensures |r| > 0 && r[0] == CreateHeading(Str("4.14 Aeration System Components"), 2)
  {
    [
    CreateHeading(Str("4.14 Aeration System Components"), 2),
    TextPara(Str("A) Surface Aerators [Scope: EDI]"), Bold),
    SimpleTable(None,
                TextRows([["Motor HP", "5 HP", "Make", "Indofab"], ["Type", "Surface aerator", "Quantity", "9"]]),
                QuarterWidths),
    Spacer(120),
    TextPara(Str("B) Air Blowers [Scope: EDI]"), Bold),
    SimpleTable(None,
                TextRows([["Total Air Req", "17177.50 Nm\U{00B3}/day", "Air Flow", "715.73 Nm\U{00B3}/hr"],
                          ["Head", "5000 mWC", "Make", "KPT"],
                          ["Type", "Tri lobe", "Quantity", "2 (1W+1S)"]]),
                QuarterWidths)]
  }

  function SecondaryClarifierSpec(input: ProposalInput): EquipSpec {
    EquipSpec("4.15", "Secondary Clarifier System", Null, NoDetails, ParameterSpecification,
      TextRows([["Tank", SafeString(Or(input.secondaryClarifierDimensions, Str("Dia 17.6m"))) + ", RCC [Scope: Client]"],
                ["Mechanism", "Central Driven, MSEP [Scope: EDI]"]]))
  }

  function SludgeRecirculationSpec(input: ProposalInput): EquipSpec {
    EquipSpec("4.16", "Sludge Recirculation Pump", Str("EDI"), NoDetails, ParameterSpecification,
      TextRows([["Capacity", SafeString(Or(input.sludgeRecircPumpCapacity, Str("200 m3/hr")))],
                ["Type", "Centrifugal Semi-open, CI"], ["Quantity", "2 Nos (1W+1S)"]]))
  }

  /** `spec?.field`: undefined when the nested record is absent. */
  function QtyOf(spec: Option<QtyCapacity>): JsValue {
    if spec.Some? then spec.value.qty else Undefined
  }

  function CapacityOf(spec: Option<QtyCapacity>): JsValue {
    if spec.Some? then spec.value.capacity else Undefined
  }

  /** The rows of the 4.17 sludge table; every missing figure falls back to a default. */
  function SludgeRows(details: Option<SludgeDetails>): (rows: seq<seq<JsValue>>)
  {
    var s := if details.Some? then details.value else NoSludgeDetails;
    [[Str("Dewatering Mechanism"),
      Or(s.dewateringMechanism, Str(if Truthy(s.screwPressRequired) then "Screw Press" else "Decanter Centrifuge"))],
     [Str("Capacity"), Str(JsString(Or(s.dewateringCapacityTons, Int(0))) + " Tons/day Solids")],
     [Str("Processing Rate"), Str(JsString(Or(s.dewateringProcessingCapacityKgHr, Int(0))) + " kg/hr")],
     [Str("Polymer Dosing System"), Str("Auto Dosing System")],
     [Str("Dosing Tank"),
      Str(JsString(Or(QtyOf(s.dosingTankSpecs), Int(1))) + " No. x " + JsString(Or(CapacityOf(s.dosingTankSpecs), Int(500))) + " Lit")],
     [Str("Dosing Pump"),
      Str(JsString(Or(QtyOf(s.dosingPumpSpecs), Str("2 Nos"))) + " x " + JsString(Or(CapacityOf(s.dosingPumpSpecs), Int(50))) + " LPH")]]
  }

  /**
   * Six rows of two cells under the labels Dewatering Mechanism, Capacity,
   * Processing Rate, Polymer Dosing System, Dosing Tank and Dosing Pump; a
   * given mechanism is shown as given, and without one the screw-press flag
   * picks the machine. Capacity and processing rate carry their units.
   */
  lemma SludgeRowsShape(details: Option<SludgeDetails>)
    ensures var rows := SludgeRows(details);
      var s := if details.Some? then details.value else NoSludgeDetails;
      && |rows| == 6
      && |rows[0]| == 2 && |rows[1]| == 2 && |rows[2]| == 2 && |rows[3]| == 2 && |rows[4]| == 2 && |rows[5]| == 2
      && rows[0][0] == Str("Dewatering Mechanism") && rows[1][0] == Str("Capacity")
      && rows[2][0] == Str("Processing Rate") && rows[3][0] == Str("Polymer Dosing System")
      && rows[4][0] == Str("Dosing Tank") && rows[5][0] == Str("Dosing Pump")
      && (Truthy(s.dewateringMechanism) ==> rows[0][1] == s.dewateringMechanism)
      && (!Truthy(s.dewateringMechanism) ==>
           rows[0][1] == Str(if Truthy(s.screwPressRequired) then "Screw Press" else "Decanter Centrifuge"))
      && (Truthy(s.dewateringCapacityTons) ==>
           rows[1][1] == Str(JsString(s.dewateringCapacityTons) + " Tons/day Solids"))
      && (Truthy(s.dewateringProcessingCapacityKgHr) ==>
           rows[2][1] == Str(JsString(s.dewateringProcessingCapacityKgHr) + " kg/hr"))
      && rows[3][1] == Str("Auto Dosing System")
  {
  }

  /** Without sludge calculation details the table shows a decanter centrifuge and the default dosing figures. */
  lemma SludgeRowsDefaults()
    ensures SludgeRows(None) ==
      [[Str("Dewatering Mechanism"), Str("Decanter Centrifuge")],
       [Str("Capacity"), Str("0 Tons/day Solids")],
       [Str("Processing Rate"), Str("0 kg/hr")],
       [Str("Polymer Dosing System"), Str("Auto Dosing System")],
       [Str("Dosing Tank"), Str("1 No. x 500 Lit")],
       [Str("Dosing Pump"), Str("2 Nos x 50 LPH")]]
  {
    DefaultFigures();
    assert "0" + " Tons/day Solids" == "0 Tons/day Solids";
    assert "0" + " kg/hr" == "0 kg/hr";
    assert "1" + " No. x " + "500" + " Lit" == "1 No. x 500 Lit";
    assert "2 Nos" + " x " + "50" + " LPH" == "2 Nos x 50 LPH";
  }

  lemma DefaultFigures()
    ensures JsString(Int(0)) == "0" && JsString(Int(1)) == "1"
    ensures JsString(Int(50)) == "50" && JsString(Int(500)) == "500"
  {
    assert NatToString(5) == "5";
    assert NatToString(50) == "50";
  }

  function SludgeManagementBlocks(input: ProposalInput): (r: seq<Block>)
    ensures |r| > 0 && r[0] == CreateHeading(Str("4.17 Sludge Management System"), 2)
  {
    [CreateHeading(Str("4.17 Sludge Management System"), 2),
     SimpleTable(Some(ParameterSpecification), SludgeRows(input.sludgeCalculationDetails), Percents([50, 50]))]
  }

  function TreatedWaterSpec(input: ProposalInput): EquipSpec {
    EquipSpec("4.18", "Treated Water Handling", Null, NoDetails, ParameterSpecification,
      TextRows([["Tank", SafeString(Or(input.treatedWaterTankCapacity, Str("300 m3"))) + ", RCC [Scope: Client]"],
                ["Transfer Pump", "Centrifugal, " + SafeString(Or(input.treatedWaterPumpCapacity, Str("250 m3/hr"))) + ", CI [Scope: EDI]"]]))
  }

  function OtherEquipmentBlocks(): (r: seq<Block>)
    ensures |r| > 0 && r[0] == CreateHeading(Str("4.19 Other Major Equipment"), 2)
  {
    [
    CreateHeading(Str("4.19 Other Major Equipment"), 2),
    SimpleTable(Some(Texts(["Equipment Name", "Specifications", "Scope"])),
                TextRows([["Sludge Dewatering", "Screw Press / Centrifuge", "EDI"],
                          ["Tertiary Filters", "MGF + ACF, MS Epoxy", "EDI"]]),
                Percents([35, 45, 20]))]
  }

  // ---------------------------------------------------------------------------
  // 4.20 Instrumentation
  // ---------------------------------------------------------------------------

  const FieldSeparator := " - "

  /** `inst.split(' - ')` read as name, location and range, with fallbacks for missing or empty parts. */
  function InstrumentRow(inst: string): (row: seq<JsValue>)
  {
    var parts := Split(inst, FieldSeparator);
    [Str(if parts[0] != "" then parts[0] else inst),
     Str(if |parts| > 1 && parts[1] != "" then parts[1] else "-"),
     Str(if |parts| > 2 && parts[2] != "" then parts[2] else "-")]
  }

  /**
   * A field that another field follows: it holds no separator, and it does
   * not end in " -", which would form a separator with the space after it.
   * Hyphens elsewhere, as in a range "4-20 mA", are allowed.
   */
  predicate LeadingField(s: string) {
    !Contains(s, FieldSeparator) && !(|s| >= 2 && s[|s| - 2..] == " -")
  }

  /** A separator starting well inside `a` would be one of `a`'s own. */
  lemma NoSeparatorWithinField(a: string, rest: string, j: nat)
    requires !OccursAt(a, FieldSeparator, j) && j + 3 <= |a|
    ensures !OccursAt(a + FieldSeparator + rest, FieldSeparator, j)
  {
    assert (a + FieldSeparator + rest)[j..j + 3] == a[j..j + 3];
  }

  /** A separator starting two characters before the end of `a` would need `a` to end in " -". */
  lemma NoSeparatorAtFieldEnd(a: string, rest: string)
    requires |a| >= 2 && a[|a| - 2..] != " -"
    ensures !OccursAt(a + FieldSeparator + rest, FieldSeparator, |a| - 2)
  {
    assert a[|a| - 2..] == [a[|a| - 2], a[|a| - 1]];
    assert (a + FieldSeparator + rest)[|a| - 2..|a| + 1] == [a[|a| - 2], a[|a| - 1], ' '];
  }

  /** A separator starting at the last character of `a` would need a hyphen where the separator's space is. */
  lemma NoSeparatorAtLastChar(a: string, rest: string)
    requires |a| >= 1
    ensures !OccursAt(a + FieldSeparator + rest, FieldSeparator, |a| - 1)
  {
    assert (a + FieldSeparator + rest)[|a|] == ' ';
  }

  /** No separator of `a + " - " + rest` starts inside a leading field `a`. */
  lemma NoSeparatorInLeadingField(a: string, rest: string, j: nat)
    requires LeadingField(a) && j < |a|
    ensures !OccursAt(a + FieldSeparator + rest, FieldSeparator, j)
  {
    if j + 3 <= |a| {
      NoSeparatorWithinField(a, rest, j);
    } else if j + 2 == |a| {
      NoSeparatorAtFieldEnd(a, rest);
    } else {
      NoSeparatorAtLastChar(a, rest);
    }
  }

  /** `a.split(' - ')` when `a` is a leading field, a separator and the rest. */
  lemma SplitAfterField(a: string, rest: string)
    requires LeadingField(a)
    ensures Split(a + FieldSeparator + rest, FieldSeparator) == [a] + Split(rest, FieldSeparator)
  {
    var s := a + FieldSeparator + rest;
    assert OccursAt(s, FieldSeparator, |a|) by {
      assert s[|a|..|a| + 3] == FieldSeparator;
    }
    forall j | 0 <= j < |a| ensures !OccursAt(s, FieldSeparator, j) {
      NoSeparatorInLeadingField(a, rest, j);
    }
    match IndexOf(s, FieldSeparator)
    case None =>
      assert false;
    case Some(k) =>
      assert k == |a|;
      assert s[..k] == a;
      assert s[k + 3..] == rest;
  }

  /** Every instrument gives three text cells, and the location and range cells are never empty. */
  lemma InstrumentRowShape(inst: string)
    ensures var row := InstrumentRow(inst);
      |row| == 3 && row[0].Str? && row[1].Str? && row[2].Str? && row[1].s != "" && row[2].s != ""
  {
  }

  /**
   * An instrument written as "name - location - range" with non-empty fields
   * that hold no separator of their own gives exactly those three cells.
   */
  lemma InstrumentRowOfThreeFields(name: string, location: string, range: string)
    requires LeadingField(name) && LeadingField(location) && !Contains(range, FieldSeparator)
    requires name != "" && location != "" && range != ""
    ensures InstrumentRow(name + FieldSeparator + location + FieldSeparator + range) ==
            [Str(name), Str(location), Str(range)]
  {
    var tail := location + FieldSeparator + range;
    var inst := name + FieldSeparator + location + FieldSeparator + range;
    assert inst == name + FieldSeparator + tail;
    SplitAfterField(name, tail);
    SplitAfterField(location, range);
    assert IndexOf(range, FieldSeparator).None?;
    var parts := Split(inst, FieldSeparator);
    assert parts == [name] + ([location] + [range]);
    assert parts[0] == name && parts[1] == location && parts[2] == range && |parts| == 3;
  }

  /** An instrument without the separator is its own name, with "-" for location and range. */
  lemma InstrumentRowWithoutSeparator(inst: string)
    requires !Contains(inst, FieldSeparator)
    ensures InstrumentRow(inst) == [Str(inst), Str("-"), Str("-")]
  {
  }

  /** An instrument that starts with the separator has an empty first part, so the whole text is shown as its name. */
  lemma InstrumentRowEmptyName(rest: string)
    ensures InstrumentRow(FieldSeparator + rest)[0] == Str(FieldSeparator + rest)
  {
    var s := FieldSeparator + rest;
    assert OccursAt(s, FieldSeparator, 0) by { assert s[0..3] == FieldSeparator; }
    assert IndexOf(s, FieldSeparator) == Some(0);
  }

  function InstrumentationBlocks(instruments: seq<string>): (r: seq<Block>)
    ensures |r| > 0 && r[0] == CreateHeading(Str("4.20 Instrumentation"), 2)
  {
    [CreateHeading(Str("4.20 Instrumentation"), 2),
     SimpleTable(Some(Texts(["Instrument", "Location", "Range / Type"])),
                 seq(|instruments|, i requires 0 <= i < |instruments| => InstrumentRow(instruments[i])),
                 Percents([30, 40, 30]))]
  }

  // ---------------------------------------------------------------------------
  // 4.21 Pipings and 4.22 Valves
  // ---------------------------------------------------------------------------

  function PipingsBlocks(): (r: seq<Block>)
    ensures |r| > 0 && r[0] == CreateHeading(Str("4.21 Pipings"), 2)
  {
    [
    CreateHeading(Str("4.21 Pipings"), 2),
    SimpleTable(Some(Texts(["Service Line", "Material (MOC)"])),
                TextRows([["Conditioning to ELAR", "HDPE"], ["Biogas Line", "SS304"], ["ELAR to Aeration", "HDPE"],
                          ["Chemical Dosing", "PP / PVC / SS304"], ["Service Water", "MS"]]),
                Percents([50, 50]))]
  }

  /** The valves table closes section 4 with a page break. */
  function ValvesBlocks(): (r: seq<Block>)
    ensures |r| > 0 && r[0] == CreateHeading(Str("4.22 Valves"), 2)
  {
    [
    CreateHeading(Str("4.22 Valves"), 2),
    SimpleTable(Some(Texts(["Valve Type", "MOC"])),
                TextRows([["Ball Valve", "PP or CI/SS316"], ["Butterfly Valve", "CI/SS316"],
                          ["Knife Edge Gate Valve", "CI/SS316"]]),
                Percents([50, 50])),
    PageBreak]
  }
}
