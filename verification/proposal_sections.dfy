/**
 * The document the proposal generator assembles: the cover, the static table
 * of contents, sections 1 to 5, the page header and footer and the file name.
 * The body is described as a fixed outline of parts, some of them present only
 * for the selected treatment sections, each part rendering to a run of blocks.
 */
module ProposalSections {
  import opened JsValues
  import opened ProposalBlocks
  import opened ProposalContent
  import opened ProposalEquipment

  // ---------------------------------------------------------------------------
  // Selections made by the caller
  // ---------------------------------------------------------------------------

  /** `list.includes(title)` for a list of selected titles: only a string title can be selected. */
  predicate Selected(sel: seq<string>, title: JsValue) {
    title.Str? && title.s in sel
  }

  /** `items.filter(item => sel.includes(item.title))`. */
  function KeepSelected<T(==,!new)>(xs: seq<T>, title: T -> JsValue, sel: seq<string>): (r: seq<T>)
    ensures |r| <= |xs|
    ensures forall x :: x in r <==> x in xs && Selected(sel, title(x))
  {
    if xs == [] then []
    else (if Selected(sel, title(xs[0])) then [xs[0]] else []) + KeepSelected(xs[1..], title, sel)
  }

  /** `a` is obtained from `b` by deleting elements. */
  ghost predicate SubsequenceOf<T>(a: seq<T>, b: seq<T>)
    decreases |b|
  {
    if a == [] then true
    else if b == [] then false
    else (a[0] == b[0] && SubsequenceOf(a[1..], b[1..])) || SubsequenceOf(a, b[1..])
  }

  /** The kept items appear in the order of the static content, not in the order of the selection. */
  lemma {:induction false} KeepSelectedKeepsContentOrder<T(!new)>(xs: seq<T>, title: T -> JsValue, sel: seq<string>)
    ensures SubsequenceOf(KeepSelected(xs, title, sel), xs)
    decreases |xs|
  {
    if xs != [] {
      KeepSelectedKeepsContentOrder(xs[1..], title, sel);
      var rest := KeepSelected(xs[1..], title, sel);
      if Selected(sel, title(xs[0])) {
        assert KeepSelected(xs, title, sel) == [xs[0]] + rest;
        assert ([xs[0]] + rest)[1..] == rest;
      } else {
        assert KeepSelected(xs, title, sel) == rest;
      }
    }
  }

  /** Only which titles are selected matters: reordering or repeating selections changes nothing. */
  lemma {:induction false} KeepSelectedIgnoresSelectionOrder<T(!new)>(
    xs: seq<T>, title: T -> JsValue, sel1: seq<string>, sel2: seq<string>)
    requires forall s :: s in sel1 <==> s in sel2
    ensures KeepSelected(xs, title, sel1) == KeepSelected(xs, title, sel2)
    decreases |xs|
  {
    if xs != [] {
      KeepSelectedIgnoresSelectionOrder(xs[1..], title, sel1, sel2);
    }
  }

  /** Which optional parts of the document are present. */
  datatype Selection = Selection(anaerobic: bool, aerobic: bool, instrumentation: bool)

  function SelectionOf(input: ProposalInput): Selection {
    Selection("Anaerobic Section" in input.selectedSections,
              "Aerobic Section" in input.selectedSections,
              |input.instruments| > 0)
  }

  // ---------------------------------------------------------------------------
  // Common paragraph styles
  // ---------------------------------------------------------------------------

  const Indented := NoParaOptions.(indentLeft := Some(360))

  function Centered(t: TextOptions): ParaOptions {
    NoParaOptions.(textOptions := t, alignment := Some(Center))
  }

  const BrandGreen := "006400"

  /** `• text`, indented. */
  function Bullet(text: string): Block {
    TextPara(Str("\U{2022} " + text), Indented)
  }

  function Bullets(items: seq<JsValue>): (r: seq<Block>)
    ensures |r| == |items|
  {
    seq(|items|, i requires 0 <= i < |items| => Bullet(JsString(items[i])))
  }

  /** `${i + 1}. text`. */
  function Numbered(i: nat, text: string): string {
    NatToString(i + 1) + ". " + text
  }

  function Concat(xss: seq<seq<Block>>): seq<Block> {
    if xss == [] then [] else xss[0] + Concat(xss[1..])
  }

  // ---------------------------------------------------------------------------
  // Cover, table of contents, section 1
  // ---------------------------------------------------------------------------

  function CoverBlocks(ctx: GenContext): seq<Block> {
    var info := ctx.input.clientInfo;
    [Spacer(2000),
     TextPara(Str("TECHNICAL PROPOSAL"), Centered(BoldText.(size := Some(48), color := Some(BrandGreen)))),
     TextPara(Str("FOR"), Centered(NoTextOptions.(size := Some(24)))),
     TextPara(Or(info.proposalTitle, Str("WASTEWATER TREATMENT PLANT")),
              Centered(BoldText.(size := Some(36), color := Some(BrandGreen))).(spacingAfter := Some(800))),
     Spacer(1500),
     TextPara(Str("Client: " + SafeString(info.clientName)), Centered(BoldText.(size := Some(28)))),
     TextPara(Str("Reference: " + SafeString(info.referenceNumber)), Centered(NoTextOptions.(size := Some(24)))),
     TextPara(Str("Date: " + ctx.today), Centered(NoTextOptions.(size := Some(24)))),
     PageBreak]
  }

  /** The static table of contents; its page numbers and entries are fixed text. */
  function ContentsRows(): seq<seq<string>> {
    [
    ["1", "Client Details & Design Basis", "3"],
    ["2", "Influent Parameters", "4"],
    ["  2.1", "Technology Overview", "5"],
    ["  2.2", "Process Description", "5"],
    ["  2.3", "Performance Guarantees", "6"],
    ["3", "Process Impact Analysis", "7"],
    ["  3.1", "Impact of Bromide", "7"],
    ["  3.2", "Impact of Heavy Metals", "8"],
    ["  3.3", "Impact of Higher VFA", "8"],
    ["4", "Process Equipment Specifications", "9"],
    ["  4.1", "Dissolved Air Flotation (DAF) [Scope: EDI]", "9"],
    ["  4.2", "Chemical Dosing Systems", "10"],
    ["  4.3", "Screening System [Scope: EDI]", "12"],
    ["  4.4", "Primary Clarification System [Scope: Client]", "12"],
    ["  4.5", "Cooling System (PHE) [Scope: EDI]", "13"],
    ["  4.6", "Pre-acidification Tank [Scope: Client]", "13"],
    ["  4.7", "Anaerobic Feed Pump [Scope: EDI]", "14"],
    ["  4.8", "Anaerobic Reactor System", "14"],
    ["  4.9", "Biomass Transfer Pump [Scope: EDI]", "15"],
    ["  4.10", "Biogas Handling System", "15"],
    ["  4.11", "Biomass Holding Tank [Scope: EDI]", "16"],
    ["  4.12", "Start-up Granular Biomass", "16"],
    ["  4.13", "Aeration Tank System [Scope: Client]", "17"],
    ["  4.14", "Aeration System Components", "17"],
    ["  4.15", "Secondary Clarifier System", "18"],
    ["  4.16", "Sludge Recirculation Pump [Scope: EDI]", "18"],
    ["  4.17", "Sludge Management System [Scope: EDI]", "19"],
    ["  4.18", "Treated Water Handling", "19"],
    ["  4.19", "Other Major Equipment", "20"],
    ["  4.20", "Pipings", "21"],
    ["  4.21", "Valves", "21"],
    ["5", "Exclusions from Scope of Supply & Services", "22"]]
  }

  function ContentsBlocks(): seq<Block> {
    [
    CreateHeading(Str("Table of Contents"), 1),
    SimpleTable(Some(Texts(["Section", "Title", "Page"])), TextRows(ContentsRows()), Percents([10, 75, 15])),
    PageBreak]
  }

  /** `safeString(v) || "-"`. */
  function OrDash(s: string): (r: string)
    ensures r != ""
    ensures s != "" ==> r == s
  {
    if s == "" then "-" else s
  }

  function DesignBasisBlocks(ctx: GenContext): (r: seq<Block>)
    ensures |r| > 0 && r[0] == CreateHeading(Str("1. Client Details & Design Basis"), 1)
  {
    var info := ctx.input.clientInfo;
    [CreateHeading(Str("1. Client Details & Design Basis"), 1),
     SimpleTable(Some(ParameterValue),
                 TextRows([["Client Name", SafeString(info.clientName)],
                           ["Industry", SafeString(info.industry)],
                           ["Production Capacity", SafeString(info.productionCapacity) + " TPD"],
                           ["Specific COD", SafeString(info.specificCOD) + " kg/ton"],
                           ["Calculated COD Load", SafeString(info.calcCODLoad) + " kg/day"],
                           ["Raw Material", OrDash(SafeString(info.rawMaterial))],
                           ["Final Products", OrDash(SafeString(info.finalProducts))],
                           ["Date", ctx.today]]),
                 Percents([40, 60])),
     PageBreak]
  }

  const ParameterValue := Texts(["Parameter", "Value"])

  // ---------------------------------------------------------------------------
  // Section 2: influent parameters, technology, process, guarantees
  // ---------------------------------------------------------------------------

  /**
   * One characteristic column of the influent table: the value of the first
   * caller entry whose name equals the parameter or whose id equals its serial
   * number, and the static figure when no entry matches.
   */
  function InfluentCell(entries: seq<UserParam>, p: DesignParam, fallback: JsValue): (r: string)
    ensures (forall j :: 0 <= j < |entries| ==> !ParamMatches(entries[j], p.param, Some(p.sn))) ==>
              r == SafeString(fallback)
    ensures forall j :: (0 <= j < |entries| && ParamMatches(entries[j], p.param, Some(p.sn)) &&
                         forall i :: 0 <= i < j ==> !ParamMatches(entries[i], p.param, Some(p.sn))) ==>
              r == SafeString(entries[j].value)
  {
    match FindParam(entries, p.param, Some(p.sn))
    case Some(k) => SafeString(entries[k].value)
    case None => SafeString(fallback)
  }

  function InfluentRow(input: ProposalInput, p: DesignParam): seq<JsValue> {
    Texts([SafeString(p.param), SafeString(p.unit),
           InfluentCell(input.params, p, p.raw),
           InfluentCell(input.anaerobicFeedParams, p, p.anaInlet)])
  }

  function InfluentBlocks(ctx: GenContext): (r: seq<Block>)
    ensures |r| > 0 && r[0] == CreateHeading(Str("2. Influent Parameters"), 1)
  {
    var basis := ctx.content.designBasis;
    [CreateHeading(Str("2. Influent Parameters"), 1),
     SimpleTable(Some(Texts(["Parameter", "Unit", "Inlet Water Characteristics", "Anaerobic Feed Water Characteristics"])),
                 seq(|basis.parameters|, i requires 0 <= i < |basis.parameters| => InfluentRow(ctx.input, basis.parameters[i])),
                 Percents([25, 15, 30, 30])),
     TextPara(Str("Notes:"), NoParaOptions.(spacingBefore := Some(240), textOptions := BoldText))]
    + seq(|basis.notes|, i requires 0 <= i < |basis.notes| =>
            TextPara(Str(Numbered(i, JsString(basis.notes[i]))), NoParaOptions.(spacingBefore := Some(60))))
    + [Spacer(240)]
  }

  function SubsectionBlocks(sub: Subsection): seq<Block> {
    [TextPara(Str(JsString(sub.heading) + ":"), NoParaOptions.(textOptions := BoldText.(size := Some(24))))]
    + (if Truthy(sub.text) then [TextPara(sub.text, Indented)] else [])
    + (if sub.bullets.Some? then Bullets(sub.bullets.value) else [])
  }

  function TechSectionBlocks(sec: TechSection): seq<Block> {
    [TextPara(sec.title, NoParaOptions.(textOptions := BoldText.(size := Some(26))))]
    + (if Truthy(sec.intro) then [TextPara(sec.intro, NoParaOptions)] else [])
    + (if sec.subsections.Some? then
         var subs := sec.subsections.value;
         Concat(seq(|subs|, i requires 0 <= i < |subs| => SubsectionBlocks(subs[i])))
       else [])
    + (if sec.bullets.Some? then
         var bs := sec.bullets.value;
         seq(|bs|, i requires 0 <= i < |bs| => Bullet(JsString(bs[i].title) + ": " + JsString(bs[i].text)))
       else [])
  }

  function TechnologyOverviewBlocks(ctx: GenContext): seq<Block> {
    var overview := ctx.content.technologyOverview;
    var kept := KeepSelected(overview.sections, (s: TechSection) => s.title, ctx.input.techOverview);
    [CreateHeading(overview.title, 2)]
    + Concat(seq(|kept|, i requires 0 <= i < |kept| => TechSectionBlocks(kept[i])))
    + [Spacer(240)]
  }

  function ProcessDescriptionBlocks(ctx: GenContext): seq<Block> {
    var desc := ctx.content.processDescription;
    var kept := KeepSelected(desc.items, (t: TitledText) => t.title, ctx.input.processDesc);
    [CreateHeading(desc.title, 2)]
    + seq(|kept|, i requires 0 <= i < |kept| => Bullet(JsString(kept[i].title) + ": " + JsString(kept[i].text)))
    + [Spacer(240)]
  }

  function GuaranteeRows(data: seq<GuaranteeEntry>): seq<seq<JsValue>> {
    seq(|data|, i requires 0 <= i < |data| => [data[i].param, data[i].val])
  }

  function GuaranteeBlocks(g: GuaranteeTable): seq<Block> {
    [CreateHeading(g.title, 3), SimpleTable(g.headers, GuaranteeRows(g.data), Percents([50, 50]))]
  }

  function ConsiderationsBlocks(c: Considerations): seq<Block> {
    [Spacer(240), TextPara(c.title, NoParaOptions.(textOptions := BoldText.(size := Some(26))))]
    + Bullets(c.bullets)
    + [PageBreak]
  }

  // ---------------------------------------------------------------------------
  // Section 3: process impact analysis
  // ---------------------------------------------------------------------------

  function ImpactAnalysisBlocks(theory: TheoryContent): seq<Block> {
    var br, hm, vfa := theory.bromide, theory.heavyMetals, theory.vfa;
    [CreateHeading(theory.title, 1),
     CreateHeading(br.title, 2),
     TextPara(br.intro, NoParaOptions),
     SimpleTable(br.headers,
                 seq(|br.table|, i requires 0 <= i < |br.table| => [br.table[i].compound, br.table[i].effect, br.table[i].notes]),
                 Percents([30, 30, 40])),
     Spacer(240),
     CreateHeading(hm.title, 2),
     SimpleTable(hm.headers,
                 seq(|hm.table|, i requires 0 <= i < |hm.table| =>
                       [hm.table[i].metal, hm.table[i].role, hm.table[i].beneficial, hm.table[i].toxic, hm.table[i].comments]),
                 Percents([20, 20, 20, 20, 20])),
     Spacer(240),
     CreateHeading(vfa.title, 2),
     TextPara(vfa.text, NoParaOptions),
     TextPara(vfa.equation, Centered(BoldText.(size := Some(24)))),
     Spacer(120),
     TextPara(vfa.consequencesTitle, Bold)]
    + Bullets(vfa.consequences)
    + [Spacer(120), TextPara(vfa.controlMeasure, Bold), PageBreak]
  }

  // ---------------------------------------------------------------------------
  // Section 5: exclusions
  // ---------------------------------------------------------------------------

  function ExclusionParagraph(i: nat, exc: Exclusion): Block {
    TextPara(Str(Numbered(i, JsString(exc.title) + ": " + JsString(exc.desc))),
             NoParaOptions.(spacingBefore := Some(60), indentLeft := Some(360)))
  }

  function ExclusionParagraphs(list: seq<Exclusion>): (r: seq<Block>)
    ensures |r| == |list| && forall i :: 0 <= i < |list| ==> r[i] == ExclusionParagraph(i, list[i])
  {
    seq(|list|, i requires 0 <= i < |list| => ExclusionParagraph(i, list[i]))
  }

  /** The paragraphs of a prefix of the list, extended by one entry. */
  lemma ExclusionParagraphsSnoc(list: seq<Exclusion>, i: nat)
    requires i < |list|
    ensures ExclusionParagraphs(list[..i + 1]) == ExclusionParagraphs(list[..i]) + [ExclusionParagraph(i, list[i])]
  {
    var longer, shorter := ExclusionParagraphs(list[..i + 1]), ExclusionParagraphs(list[..i]);
    forall j | 0 <= j < i + 1
      ensures longer[j] == (shorter + [ExclusionParagraph(i, list[i])])[j]
    {
      if j < i {
        assert list[..i + 1][j] == list[..i][j];
      }
    }
  }

  function ExclusionsIntro(): string {
    "Unless specifically mentioned in the scope of supply, "
    + "the following items and activities are excluded "
    + "from this proposal and shall be in the Client's scope:"
  }

  function ConclusionBlocks(conclusion: JsValue): seq<Block> {
    if Truthy(conclusion) then [Spacer(240), TextPara(conclusion, NoParaOptions.(alignment := Some(Justified)))] else []
  }

  /**
   * The heading, the fixed introduction, one numbered paragraph per excluded
   * item in list order, and the conclusion after a spacer only when one is given.
   */
  function ExclusionsBlocks(content: StaticContent): (r: seq<Block>)
    ensures var n := |content.exclusions|;
      && |r| == 2 + n + (if Truthy(content.exclusionsConclusion) then 2 else 0)
      && r[0] == CreateHeading(Str("5. Exclusions from Scope of Supply & Services"), 1)
      && r[1] == Plain(ExclusionsIntro())
      && r[2..2 + n] == ExclusionParagraphs(content.exclusions)
      && (Truthy(content.exclusionsConclusion) ==>
            r[2 + n] == Spacer(240) && r[3 + n] == TextPara(content.exclusionsConclusion, NoParaOptions.(alignment := Some(Justified))))
  {
    [CreateHeading(Str("5. Exclusions from Scope of Supply & Services"), 1), Plain(ExclusionsIntro())]
    + ExclusionParagraphs(content.exclusions)
    + ConclusionBlocks(content.exclusionsConclusion)
  }

  // ---------------------------------------------------------------------------
  // The outline of the body
  // ---------------------------------------------------------------------------

  /**
   * A part of the body: the blocks one stretch of the generator appends. A
   * part is named by its rank, its place in the document; a part that opens
   * with a heading numbered major.minor sits at 1000 × major + 10 × minor,
   * the unnumbered ones in the gaps after the part they follow.
   */
  type Part = nat

  const Cover: Part := 0
  const Contents: Part := 1
  const DesignBasisPart: Part := 1000
  const Influent: Part := 2000
  const TechnologyOverviewPart: Part := 2001
  const ProcessDescriptionPart: Part := 2002
  const GuaranteesHeading: Part := 2003
  const AnaerobicGuarantee: Part := 2004
  const AerobicGuarantee: Part := 2005
  const ConsiderationsPart: Part := 2006
  const ImpactAnalysis: Part := 3001
  const EquipmentHeading: Part := 4000
  const Daf: Part := 4010
  const DosingHeading: Part := 4020
  const UreaDosing: Part := 4021
  const PhosphoricAcidDosing: Part := 4022
  const CausticDosing: Part := 4023
  const HclDosing: Part := 4024
  const MicronutrientsDosing: Part := 4025
  const Screening: Part := 4030
  const PrimaryClarification: Part := 4040
  const Cooling: Part := 4050
  const PreAcidification: Part := 4060
  const AnaerobicFeedPump: Part := 4070
  const AnaerobicReactor: Part := 4080
  const BiomassTransferPump: Part := 4090
  const BiogasHandling: Part := 4100
  const BiomassHoldingTank: Part := 4110
  const StartupBiomass: Part := 4120
  const AerationTank: Part := 4130
  const AerationComponents: Part := 4140
  const SecondaryClarifier: Part := 4150
  const SludgeRecirculation: Part := 4160
  const SludgeManagement: Part := 4170
  const TreatedWater: Part := 4180
  const OtherEquipment: Part := 4190
  const Instrumentation: Part := 4200
  const Pipings: Part := 4210
  const Valves: Part := 4220
  const Exclusions: Part := 5000

  /**
   * Whether a part is present for the given selection: the anaerobic guarantee
   * table and subsections 4.6 to 4.12 need the anaerobic section, the aerobic
   * guarantee table and subsections 4.13 to 4.16 the aerobic section, and
   * instrumentation a non-empty instrument list.
   */
  predicate Emitted(p: Part, sel: Selection) {
    if p == AnaerobicGuarantee || PreAcidification <= p < AerationTank then sel.anaerobic
    else if p == AerobicGuarantee || AerationTank <= p < SludgeManagement then sel.aerobic
    else if p == Instrumentation then sel.instrumentation
    else true
  }

  /** Every optional part selected. */
  const FullSelection := Selection(true, true, true)

  /** The number a part's opening heading carries, as (major, minor); minor 0 for a top-level section. */
  function SectionNumber(p: Part): Option<(nat, nat)> {
    if p == DesignBasisPart then Some((1, 0))
    else if p == Influent then Some((2, 0))
    else if p == EquipmentHeading then Some((4, 0))
    else if p == Daf then Some((4, 1))
    else if p == DosingHeading then Some((4, 2))
    else if p == Screening then Some((4, 3))
    else if p == PrimaryClarification then Some((4, 4))
    else if p == Cooling then Some((4, 5))
    else if p == PreAcidification then Some((4, 6))
    else if p == AnaerobicFeedPump then Some((4, 7))
    else if p == AnaerobicReactor then Some((4, 8))
    else if p == BiomassTransferPump then Some((4, 9))
    else if p == BiogasHandling then Some((4, 10))
    else if p == BiomassHoldingTank then Some((4, 11))
    else if p == StartupBiomass then Some((4, 12))
    else if p == AerationTank then Some((4, 13))
    else if p == AerationComponents then Some((4, 14))
    else if p == SecondaryClarifier then Some((4, 15))
    else if p == SludgeRecirculation then Some((4, 16))
    else if p == SludgeManagement then Some((4, 17))
    else if p == TreatedWater then Some((4, 18))
    else if p == OtherEquipment then Some((4, 19))
    else if p == Instrumentation then Some((4, 20))
    else if p == Pipings then Some((4, 21))
    else if p == Valves then Some((4, 22))
    else if p == Exclusions then Some((5, 0))
    else None
  }

  /** The text a heading numbered (major, minor) opens with: "M. " for a section, "M.N " for a subsection. */
  function NumberLabel(n: (nat, nat)): string {
    NatToString(n.0) + (if n.1 == 0 then ". " else "." + NatToString(n.1) + " ")
  }

  /** Section numbers in reading order: major first, then minor. */
  predicate NumberBefore(a: (nat, nat), b: (nat, nat)) {
    a.0 < b.0 || (a.0 == b.0 && a.1 < b.1)
  }

  /** Consecutive parts rank upwards, the first from `lo` on and the last below `hi`. */
  ghost predicate Ranked(o: seq<Part>, lo: int, hi: int) {
    && (forall i, j :: 0 <= i < j < |o| && j == i + 1 ==> o[i] < o[j])
    && (|o| > 0 ==> lo <= o[0] && o[|o| - 1] < hi)
  }

  predicate Increasing(o: seq<Part>) {
    forall i, j :: 0 <= i < j < |o| ==> o[i] < o[j]
  }

  // The outline, cut where optional parts may be left out. "PartsToX" is the
  // stretch of always-present parts that ends with X. Each stretch ranks
  // upwards within its own band of ranks.

  function PartsToGuarantees(): (r: seq<Part>)
    ensures Ranked(r, 0, 2004)
  {
    [Cover, Contents, DesignBasisPart, Influent, TechnologyOverviewPart, ProcessDescriptionPart, GuaranteesHeading]
  }

  function GuaranteeTableParts(sel: Selection): (r: seq<Part>)
    ensures Ranked(r, 2004, 2006)
  {
    (if sel.anaerobic then [AnaerobicGuarantee] else []) + (if sel.aerobic then [AerobicGuarantee] else [])
  }

  function PartsToDaf(): (r: seq<Part>)
    ensures Ranked(r, 2006, 4020)
  {
    [ConsiderationsPart, ImpactAnalysis, EquipmentHeading, Daf]
  }

  function DosingParts(): (r: seq<Part>)
    ensures Ranked(r, 4020, 4030)
  {
    [DosingHeading, UreaDosing, PhosphoricAcidDosing, CausticDosing, HclDosing, MicronutrientsDosing]
  }

  function PartsToCooling(): (r: seq<Part>)
    ensures Ranked(r, 4030, 4060)
  {
    [Screening, PrimaryClarification, Cooling]
  }

  function AnaerobicEquipmentParts(sel: Selection): (r: seq<Part>)
    ensures Ranked(r, 4060, 4130)
  {
    if sel.anaerobic then
      [PreAcidification, AnaerobicFeedPump, AnaerobicReactor, BiomassTransferPump, BiogasHandling,
       BiomassHoldingTank, StartupBiomass]
    else []
  }

  function AerobicEquipmentParts(sel: Selection): (r: seq<Part>)
    ensures Ranked(r, 4130, 4170)
  {
    if sel.aerobic then [AerationTank, AerationComponents, SecondaryClarifier, SludgeRecirculation] else []
  }

  function PartsToOtherEquipment(): (r: seq<Part>)
    ensures Ranked(r, 4170, 4200)
  {
    [SludgeManagement, TreatedWater, OtherEquipment]
  }

  function InstrumentationParts(sel: Selection): (r: seq<Part>)
    ensures Ranked(r, 4200, 4210)
  {
    if sel.instrumentation then [Instrumentation] else []
  }

  function PartsToExclusions(): (r: seq<Part>)
    ensures Ranked(r, 4210, 5001)
  {
    [Pipings, Valves, Exclusions]
  }

  /** The parts of the body, in the order the generator appends them. */
  function Outline(sel: Selection): seq<Part> {
    PartsToGuarantees() + GuaranteeTableParts(sel) + PartsToDaf() + DosingParts() + PartsToCooling()
    + AnaerobicEquipmentParts(sel) + AerobicEquipmentParts(sel) + PartsToOtherEquipment()
    + InstrumentationParts(sel) + PartsToExclusions()
  }

  /** `s` holds exactly the parts of `full` whose selection condition holds. */
  ghost predicate Filtered(s: seq<Part>, full: seq<Part>, sel: Selection) {
    forall p :: p in s <==> p in full && Emitted(p, sel)
  }

  lemma FilteredConcat(a: seq<Part>, fa: seq<Part>, b: seq<Part>, fb: seq<Part>, sel: Selection)
    requires Filtered(a, fa, sel) && Filtered(b, fb, sel)
    ensures Filtered(a + b, fa + fb, sel)
  {
  }

  lemma FrontFiltered(sel: Selection)
    ensures Filtered(PartsToGuarantees(), PartsToGuarantees(), sel)
  {
  }

  lemma GuaranteeTableFiltered(sel: Selection)
    ensures Filtered(GuaranteeTableParts(sel), GuaranteeTableParts(FullSelection), sel)
  {
  }

  lemma ToDafFiltered(sel: Selection)
    ensures Filtered(PartsToDaf(), PartsToDaf(), sel)
  {
  }

  lemma DosingFiltered(sel: Selection)
    ensures Filtered(DosingParts(), DosingParts(), sel)
  {
  }

  lemma ToCoolingFiltered(sel: Selection)
    ensures Filtered(PartsToCooling(), PartsToCooling(), sel)
  {
  }

  lemma AnaerobicEquipmentFiltered(sel: Selection)
    ensures Filtered(AnaerobicEquipmentParts(sel), AnaerobicEquipmentParts(FullSelection), sel)
  {
  }

  lemma AerobicEquipmentFiltered(sel: Selection)
    ensures Filtered(AerobicEquipmentParts(sel), AerobicEquipmentParts(FullSelection), sel)
  {
  }

  lemma ToOtherEquipmentFiltered(sel: Selection)
    ensures Filtered(PartsToOtherEquipment(), PartsToOtherEquipment(), sel)
  {
  }

  lemma InstrumentationFiltered(sel: Selection)
    ensures Filtered(InstrumentationParts(sel), InstrumentationParts(FullSelection), sel)
  {
  }

  lemma ToExclusionsFiltered(sel: Selection)
    ensures Filtered(PartsToExclusions(), PartsToExclusions(), sel)
  {
  }

  /**
   * The outline of any selection is the outline with every optional part
   * selected, less the parts whose selection condition fails: a part is in
   * the body exactly when its condition holds.
   */
  lemma OutlineMembership(sel: Selection)
    ensures Filtered(Outline(sel), Outline(FullSelection), sel)
  {
    FrontFiltered(sel);
    var o, full := PartsToGuarantees(), PartsToGuarantees();
    GuaranteeTableFiltered(sel);
    FilteredConcat(o, full, GuaranteeTableParts(sel), GuaranteeTableParts(FullSelection), sel);
    o, full := o + GuaranteeTableParts(sel), full + GuaranteeTableParts(FullSelection);
    ToDafFiltered(sel);
    FilteredConcat(o, full, PartsToDaf(), PartsToDaf(), sel);
    o, full := o + PartsToDaf(), full + PartsToDaf();
    DosingFiltered(sel);
    FilteredConcat(o, full, DosingParts(), DosingParts(), sel);
    o, full := o + DosingParts(), full + DosingParts();
    ToCoolingFiltered(sel);
    FilteredConcat(o, full, PartsToCooling(), PartsToCooling(), sel);
    o, full := o + PartsToCooling(), full + PartsToCooling();
    AnaerobicEquipmentFiltered(sel);
    FilteredConcat(o, full, AnaerobicEquipmentParts(sel), AnaerobicEquipmentParts(FullSelection), sel);
    o, full := o + AnaerobicEquipmentParts(sel), full + AnaerobicEquipmentParts(FullSelection);
    AerobicEquipmentFiltered(sel);
    FilteredConcat(o, full, AerobicEquipmentParts(sel), AerobicEquipmentParts(FullSelection), sel);
    o, full := o + AerobicEquipmentParts(sel), full + AerobicEquipmentParts(FullSelection);
    ToOtherEquipmentFiltered(sel);
    FilteredConcat(o, full, PartsToOtherEquipment(), PartsToOtherEquipment(), sel);
    o, full := o + PartsToOtherEquipment(), full + PartsToOtherEquipment();
    InstrumentationFiltered(sel);
    FilteredConcat(o, full, InstrumentationParts(sel), InstrumentationParts(FullSelection), sel);
    o, full := o + InstrumentationParts(sel), full + InstrumentationParts(FullSelection);
    ToExclusionsFiltered(sel);
    FilteredConcat(o, full, PartsToExclusions(), PartsToExclusions(), sel);
    o, full := o + PartsToExclusions(), full + PartsToExclusions();
  }

  /** Two adjacent bands of ranks make one. */
  lemma RankedConcat(a: seq<Part>, b: seq<Part>, lo: int, mid: int, hi: int)
    requires lo <= mid <= hi && Ranked(a, lo, mid) && Ranked(b, mid, hi)
    ensures Ranked(a + b, lo, hi)
  {
    var ab := a + b;
    forall i, j | 0 <= i < j < |ab| && j == i + 1 ensures ab[i] < ab[j] {
      if i + 1 < |a| {
        assert ab[i] == a[i] && ab[i + 1] == a[i + 1];
      } else if i + 1 == |a| {
        assert ab[i] == a[|a| - 1] && ab[i + 1] == b[0];
      } else {
        assert ab[i] == b[i - |a|] && ab[i + 1] == b[i - |a| + 1];
      }
    }
    if |ab| > 0 {
      if |a| > 0 {
        assert ab[0] == a[0];
      } else {
        assert ab[0] == b[0];
      }
      if |b| > 0 {
        assert ab[|ab| - 1] == b[|b| - 1];
      } else {
        assert ab[|ab| - 1] == a[|a| - 1];
      }
    }
  }

  lemma RankedConcat4(a: seq<Part>, b: seq<Part>, c: seq<Part>, d: seq<Part>,
                      l0: int, l1: int, l2: int, l3: int, l4: int)
    requires l0 <= l1 <= l2 <= l3 <= l4
    requires Ranked(a, l0, l1) && Ranked(b, l1, l2) && Ranked(c, l2, l3) && Ranked(d, l3, l4)
    ensures Ranked(a + b + c + d, l0, l4)
  {
    RankedConcat(a, b, l0, l1, l2);
    RankedConcat(a + b, c, l0, l2, l3);
    RankedConcat(a + b + c, d, l0, l3, l4);
  }

  /** The outline up to subsection 4.2 ranks upwards. */
  lemma OutlineFrontRanked(sel: Selection)
    ensures Ranked(PartsToGuarantees() + GuaranteeTableParts(sel) + PartsToDaf() + DosingParts(), 0, 4030)
  {
    RankedConcat4(PartsToGuarantees(), GuaranteeTableParts(sel), PartsToDaf(), DosingParts(),
                  0, 2004, 2006, 4020, 4030);
  }

  /** The outline up to subsection 4.16 ranks upwards. */
  lemma OutlineMiddleRanked(sel: Selection)
    ensures Ranked(PartsToGuarantees() + GuaranteeTableParts(sel) + PartsToDaf() + DosingParts()
                   + PartsToCooling() + AnaerobicEquipmentParts(sel) + AerobicEquipmentParts(sel), 0, 4170)
  {
    OutlineFrontRanked(sel);
    RankedConcat4(PartsToGuarantees() + GuaranteeTableParts(sel) + PartsToDaf() + DosingParts(),
                  PartsToCooling(), AnaerobicEquipmentParts(sel), AerobicEquipmentParts(sel),
                  0, 4030, 4060, 4130, 4170);
  }

  /** The whole outline ranks upwards. */
  lemma OutlineRanked(sel: Selection)
    ensures Ranked(Outline(sel), 0, 5001)
  {
    OutlineMiddleRanked(sel);
    RankedConcat4(PartsToGuarantees() + GuaranteeTableParts(sel) + PartsToDaf() + DosingParts()
                  + PartsToCooling() + AnaerobicEquipmentParts(sel) + AerobicEquipmentParts(sel),
                  PartsToOtherEquipment(), InstrumentationParts(sel), PartsToExclusions(),
                  0, 4170, 4200, 4210, 5001);
  }

  lemma {:induction false} RankedIsIncreasing(o: seq<Part>, lo: int, hi: int)
    requires Ranked(o, lo, hi)
    ensures Increasing(o)
    decreases |o|
  {
    if |o| >= 2 {
      RankedIsIncreasing(o[1..], lo, hi);
      forall i, j | 0 <= i < j < |o| ensures o[i] < o[j] {
        if i > 0 {
          assert o[1..][i - 1] < o[1..][j - 1];
        } else if j > 1 {
          assert o[0] < o[1];
          assert o[1..][0] < o[1..][j - 1];
        }
      }
    }
  }

  /** Every part comes after the ones before it: no part appears twice and the order never varies. */
  lemma OutlineInOrder(sel: Selection)
    ensures Increasing(Outline(sel))
  {
    OutlineRanked(sel);
    RankedIsIncreasing(Outline(sel), 0, 5001);
  }

  lemma RankOfNumbered(p: Part)
    requires SectionNumber(p).Some?
    ensures var n := SectionNumber(p).value; p == 1000 * n.0 + 10 * n.1 && n.1 < 100 && n.0 >= 1
  {
  }

  /** A part below 1000 or off the tens is not numbered. */
  lemma UnnumberedRank(p: Part)
    requires p < 1000 || p % 10 != 0
    ensures SectionNumber(p).None?
  {
  }

  /** The numbers of the numbered headings increase through the body, gaps where parts are left out. */
  lemma HeadingNumbersIncrease(sel: Selection)
    ensures var o := Outline(sel);
      forall i, j :: 0 <= i < j < |o| && SectionNumber(o[i]).Some? && SectionNumber(o[j]).Some? ==>
        NumberBefore(SectionNumber(o[i]).value, SectionNumber(o[j]).value)
  {
    var o := Outline(sel);
    OutlineInOrder(sel);
    forall i, j | 0 <= i < j < |o| && SectionNumber(o[i]).Some? && SectionNumber(o[j]).Some?
      ensures NumberBefore(SectionNumber(o[i]).value, SectionNumber(o[j]).value)
    {
      RankOfNumbered(o[i]);
      RankOfNumbered(o[j]);
    }
  }

  // ---------------------------------------------------------------------------
  // Page header and footer, file name
  // ---------------------------------------------------------------------------

  /** The header: the logo or the company name on the left, three client lines on the right. */
  datatype PageHeader = PageHeader(brand: Run, clientLines: seq<Paragraph>)

  datatype PageFooter = PageFooter(runs: seq<Run>, alignment: Align)

  datatype Document = Document(header: PageHeader, footer: PageFooter, body: seq<Block>)

  function HeaderLine(text: string, size: int, last: bool): Paragraph {
    var options := NoParaOptions.(alignment := Some(Right),
                                  textOptions := NoTextOptions.(size := Some(size), color := Some("555555")));
    CreateParagraph(Value(Str(text)), if last then options else options.(spacingAfter := Some(0)))
  }

  /**
   * The page header. The first two client lines ask for no spacing after
   * them, but `0 || 120` gives them the default 120 like the third.
   */
  function PageHeaderOf(info: ClientInfo, today: string, logoLoaded: bool): (h: PageHeader)
    ensures logoLoaded <==> h.brand.LogoRun?
    ensures logoLoaded ==> h.brand == LogoRun(150, 50)
    ensures !logoLoaded ==> h.brand.TextRun? && h.brand.text == "EDI Enviro and Engineering" && h.brand.bold &&
                            h.brand.size == 24 && h.brand.color == BrandGreen
    ensures |h.clientLines| == 3
    ensures forall i :: 0 <= i < 3 ==>
      var line := h.clientLines[i];
      line.alignment == Right && line.spacingAfter == 120 && |line.runs| == 1 &&
      line.runs[0].TextRun? && line.runs[0].color == "555555"
    ensures h.clientLines[0].runs[0].text == SafeString(info.clientName)
    ensures h.clientLines[1].runs[0].text == "Ref: " + SafeString(info.referenceNumber)
    ensures h.clientLines[2].runs[0].text == "Date: " + today
  {
    PageHeader(
      if logoLoaded then LogoRun(150, 50)
      else CreateText(Str("EDI Enviro and Engineering"), BoldText.(size := Some(24), color := Some(BrandGreen))),
      [HeaderLine(SafeString(info.clientName), 16, false),
       HeaderLine("Ref: " + SafeString(info.referenceNumber), 14, false),
       HeaderLine("Date: " + today, 14, true)])
  }

  const FooterText := NoTextOptions.(size := Some(14), color := Some("888888"))

  /** "EDI Enviro & Engineering | Page <current> of <total>", centred. */
  const Footer := PageFooter(
    [CreateText(Str("EDI Enviro & Engineering | Page "), FooterText), PageNumberRun(false),
     CreateText(Str(" of "), FooterText), PageNumberRun(true)],
    Center)

  const FilePrefix := "Technical_Proposal_"

  const FileSuffix := ".docx"

  /** The name the document is saved under. */
  function FileName(info: ClientInfo): string {
    FilePrefix + SafeString(Or(info.clientName, Str("Draft"))) + FileSuffix
  }

  /**
   * The name is the prefix, a non-empty stem and the ".docx" extension: the
   * client name as it is, without any sanitising, or "Draft" when there is none.
   */
  lemma FileNameShape(info: ClientInfo)
    ensures var r := FileName(info);
      FilePrefix <= r && |r| > |FilePrefix| + |FileSuffix| && r[|r| - |FileSuffix|..] == FileSuffix
    ensures !Truthy(info.clientName) ==> FileName(info) == FilePrefix + "Draft" + FileSuffix
    ensures info.clientName.Str? && info.clientName.s != "" ==> FileName(info) == FilePrefix + info.clientName.s + FileSuffix
  {
  }
}
