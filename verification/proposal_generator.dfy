/**
 * `generateProposalWord` as the imperative procedure it is: one array of
 * document blocks that every step of the generator appends to, in the order
 * of the outline, and the finished document with its header, footer and
 * file name. Each stretch of the outline is written by one method, specified
 * by the function that appends that stretch's blocks to a given prefix.
 */
module ProposalGenerator {
  import opened JsValues
  import opened ProposalBlocks
  import opened ProposalContent
  import opened ProposalEquipment
  import opened ProposalSections

  // ---------------------------------------------------------------------------
  // The body, stretch by stretch
  // ---------------------------------------------------------------------------

  /** The cover, the contents, section 1 and section 2 up to the heading of the guarantees, after `b`. */
  function WithOpening(b: seq<Block>, ctx: GenContext): seq<Block> {
    b + CoverBlocks(ctx) + ContentsBlocks() + DesignBasisBlocks(ctx) + InfluentBlocks(ctx)
    + TechnologyOverviewBlocks(ctx) + ProcessDescriptionBlocks(ctx)
    + [CreateHeading(ctx.content.performanceGuarantees.title, 2)]
  }

  /** The anaerobic guarantee table (with a spacer) and the aerobic one, each only when its section is selected. */
  function WithGuaranteeTables(b: seq<Block>, ctx: GenContext): seq<Block> {
    var pg := ctx.content.performanceGuarantees;
    var sel := SelectionOf(ctx.input);
    var b' := if sel.anaerobic then b + GuaranteeBlocks(pg.anaerobic) + [Spacer(240)] else b;
    if sel.aerobic then b' + GuaranteeBlocks(pg.aerobic) else b'
  }

  /** The considerations, section 3, the heading of section 4 and subsection 4.1. */
  function WithPartsToDaf(b: seq<Block>, ctx: GenContext): seq<Block> {
    b + ConsiderationsBlocks(ctx.content.performanceGuarantees.importantConsiderations)
    + ImpactAnalysisBlocks(ctx.content.theoryContent)
    + [CreateHeading(Str("4. Process Equipment Specifications"), 1)]
    + EquipBlocks(DafSpec(ctx.input))
  }

  /** Subsection 4.2: its heading and the five dosing systems. */
  function WithDosing(b: seq<Block>): seq<Block> {
    b + [CreateHeading(Str("4.2 Chemical Dosing Systems"), 2)]
    + DosingBlocks(UreaDosingSystem()) + DosingBlocks(PhosphoricAcidDosingSystem())
    + DosingBlocks(CausticDosingSystem()) + DosingBlocks(HclDosingSystem())
    + DosingBlocks(MicronutrientsDosingSystem())
  }

  /** Subsections 4.3 to 4.5. */
  function WithPartsToCooling(b: seq<Block>, ctx: GenContext): seq<Block> {
    b + EquipBlocks(ScreeningSpec(ctx.input)) + EquipBlocks(PrimaryClarificationSpec())
    + EquipBlocks(CoolingSpec(ctx.input))
  }

  /** Subsections 4.6 to 4.12, only when the anaerobic section is selected. */
  function WithAnaerobicEquipment(b: seq<Block>, ctx: GenContext): seq<Block> {
    var input := ctx.input;
    if SelectionOf(input).anaerobic then
      b + EquipBlocks(PreAcidificationSpec(input)) + EquipBlocks(AnaerobicFeedPumpSpec(input))
      + EquipBlocks(AnaerobicReactorSpec(input)) + EquipBlocks(BiomassTransferPumpSpec(input))
      + EquipBlocks(BiogasHandlingSpec(input)) + EquipBlocks(BiomassHoldingTankSpec(input))
      + StartupBiomassBlocks(ctx.vssQuantity)
    else b
  }

  /** Subsections 4.13 to 4.16, only when the aerobic section is selected. */
  function WithAerobicEquipment(b: seq<Block>, ctx: GenContext): seq<Block> {
    var input := ctx.input;
    if SelectionOf(input).aerobic then
      b + AerationTankBlocks(input) + AerationComponentsBlocks()
      + EquipBlocks(SecondaryClarifierSpec(input)) + EquipBlocks(SludgeRecirculationSpec(input))
    else b
  }

  /** Subsections 4.17 to 4.19. */
  function WithPartsToOtherEquipment(b: seq<Block>, ctx: GenContext): seq<Block> {
    b + SludgeManagementBlocks(ctx.input) + EquipBlocks(TreatedWaterSpec(ctx.input)) + OtherEquipmentBlocks()
  }

  /** Subsection 4.20, only when instruments are listed. */
  function WithInstrumentation(b: seq<Block>, ctx: GenContext): seq<Block> {
    if SelectionOf(ctx.input).instrumentation then b + InstrumentationBlocks(ctx.input.instruments) else b
  }

  /** Subsections 4.21 and 4.22 and section 5. */
  function WithPartsToExclusions(b: seq<Block>, ctx: GenContext): seq<Block> {
    b + PipingsBlocks() + ValvesBlocks() + ExclusionsBlocks(ctx.content)
  }

  /** The body of the document: every stretch, in outline order. */
  function Body(ctx: GenContext): seq<Block> {
    var b := WithOpening([], ctx);
    var b := WithGuaranteeTables(b, ctx);
    var b := WithPartsToDaf(b, ctx);
    var b := WithDosing(b);
    var b := WithPartsToCooling(b, ctx);
    var b := WithAnaerobicEquipment(b, ctx);
    var b := WithAerobicEquipment(b, ctx);
    var b := WithPartsToOtherEquipment(b, ctx);
    var b := WithInstrumentation(b, ctx);
    WithPartsToExclusions(b, ctx)
  }

  // ---------------------------------------------------------------------------
  // The body is the outline, part by part
  // ---------------------------------------------------------------------------

  /** A part of the outline with the blocks the generator appends for it. */
  datatype Chunk = Chunk(part: Part, blocks: seq<Block>)

  /** The cover, the contents, section 1 and section 2 up to the heading of the guarantees. */
  function OpeningChunks(ctx: GenContext): seq<Chunk> {
    [Chunk(Cover, CoverBlocks(ctx)),
     Chunk(Contents, ContentsBlocks()),
     Chunk(DesignBasisPart, DesignBasisBlocks(ctx)),
     Chunk(Influent, InfluentBlocks(ctx)),
     Chunk(TechnologyOverviewPart, TechnologyOverviewBlocks(ctx)),
     Chunk(ProcessDescriptionPart, ProcessDescriptionBlocks(ctx)),
     Chunk(GuaranteesHeading, [CreateHeading(ctx.content.performanceGuarantees.title, 2)])]
  }

  /** The anaerobic guarantee table (with a spacer) and the aerobic one, each only when its section is selected. */
  function GuaranteeTableChunks(ctx: GenContext): seq<Chunk> {
    var pg, sel := ctx.content.performanceGuarantees, SelectionOf(ctx.input);
    (if sel.anaerobic then [Chunk(AnaerobicGuarantee, GuaranteeBlocks(pg.anaerobic) + [Spacer(240)])] else [])
    + (if sel.aerobic then [Chunk(AerobicGuarantee, GuaranteeBlocks(pg.aerobic))] else [])
  }

  /** The considerations, section 3, the heading of section 4 and subsection 4.1. */
  function PartsToDafChunks(ctx: GenContext): seq<Chunk> {
    [Chunk(ConsiderationsPart, ConsiderationsBlocks(ctx.content.performanceGuarantees.importantConsiderations)),
     Chunk(ImpactAnalysis, ImpactAnalysisBlocks(ctx.content.theoryContent)),
     Chunk(EquipmentHeading, [CreateHeading(Str("4. Process Equipment Specifications"), 1)]),
     Chunk(Daf, EquipBlocks(DafSpec(ctx.input)))]
  }

  /** Subsection 4.2: its heading and the five dosing systems. */
  function DosingChunks(): seq<Chunk> {
    [Chunk(DosingHeading, [CreateHeading(Str("4.2 Chemical Dosing Systems"), 2)]),
     Chunk(UreaDosing, DosingBlocks(UreaDosingSystem())),
     Chunk(PhosphoricAcidDosing, DosingBlocks(PhosphoricAcidDosingSystem())),
     Chunk(CausticDosing, DosingBlocks(CausticDosingSystem())),
     Chunk(HclDosing, DosingBlocks(HclDosingSystem())),
     Chunk(MicronutrientsDosing, DosingBlocks(MicronutrientsDosingSystem()))]
  }

  /** Subsections 4.3 to 4.5. */
  function PartsToCoolingChunks(ctx: GenContext): seq<Chunk> {
    [Chunk(Screening, EquipBlocks(ScreeningSpec(ctx.input))),
     Chunk(PrimaryClarification, EquipBlocks(PrimaryClarificationSpec())),
     Chunk(Cooling, EquipBlocks(CoolingSpec(ctx.input)))]
  }

  /** Subsections 4.6 to 4.12, only when the anaerobic section is selected. */
  function AnaerobicEquipmentChunks(ctx: GenContext): seq<Chunk> {
    var input := ctx.input;
    if SelectionOf(input).anaerobic then
      [Chunk(PreAcidification, EquipBlocks(PreAcidificationSpec(input))),
       Chunk(AnaerobicFeedPump, EquipBlocks(AnaerobicFeedPumpSpec(input))),
       Chunk(AnaerobicReactor, EquipBlocks(AnaerobicReactorSpec(input))),
       Chunk(BiomassTransferPump, EquipBlocks(BiomassTransferPumpSpec(input))),
       Chunk(BiogasHandling, EquipBlocks(BiogasHandlingSpec(input))),
       Chunk(BiomassHoldingTank, EquipBlocks(BiomassHoldingTankSpec(input))),
       Chunk(StartupBiomass, StartupBiomassBlocks(ctx.vssQuantity))]
    else []
  }

  /** Subsections 4.13 to 4.16, only when the aerobic section is selected. */
  function AerobicEquipmentChunks(ctx: GenContext): seq<Chunk> {
    var input := ctx.input;
    if SelectionOf(input).aerobic then
      [Chunk(AerationTank, AerationTankBlocks(input)),
       Chunk(AerationComponents, AerationComponentsBlocks()),
       Chunk(SecondaryClarifier, EquipBlocks(SecondaryClarifierSpec(input))),
       Chunk(SludgeRecirculation, EquipBlocks(SludgeRecirculationSpec(input)))]
    else []
  }

  /** Subsections 4.17 to 4.19. */
  function PartsToOtherEquipmentChunks(ctx: GenContext): seq<Chunk> {
    [Chunk(SludgeManagement, SludgeManagementBlocks(ctx.input)),
     Chunk(TreatedWater, EquipBlocks(TreatedWaterSpec(ctx.input))),
     Chunk(OtherEquipment, OtherEquipmentBlocks())]
  }

  /** Subsection 4.20, only when instruments are listed. */
  function InstrumentationChunks(ctx: GenContext): seq<Chunk> {
    if SelectionOf(ctx.input).instrumentation then
      [Chunk(ProposalSections.Instrumentation, InstrumentationBlocks(ctx.input.instruments))]
    else []
  }

  /** Subsections 4.21 and 4.22 and section 5. */
  function PartsToExclusionsChunks(ctx: GenContext): seq<Chunk> {
    [Chunk(Pipings, PipingsBlocks()),
     Chunk(Valves, ValvesBlocks()),
     Chunk(ProposalSections.Exclusions, ExclusionsBlocks(ctx.content))]
  }

  /** Every part of the body with its blocks, stretch after stretch. */
  function Chunks(ctx: GenContext): seq<Chunk> {
    OpeningChunks(ctx) + GuaranteeTableChunks(ctx) + PartsToDafChunks(ctx) + DosingChunks()
    + PartsToCoolingChunks(ctx) + AnaerobicEquipmentChunks(ctx) + AerobicEquipmentChunks(ctx)
    + PartsToOtherEquipmentChunks(ctx) + InstrumentationChunks(ctx) + PartsToExclusionsChunks(ctx)
  }

  /** `b` with the blocks of each chunk appended, one chunk after the other. */
  function AppendChunks(b: seq<Block>, cs: seq<Chunk>): seq<Block>
    decreases |cs|
  {
    if cs == [] then b else AppendChunks(b + cs[0].blocks, cs[1..])
  }

  /** The parts the chunks stand for, in order. */
  function PartsOf(cs: seq<Chunk>): seq<Part> {
    seq(|cs|, i requires 0 <= i < |cs| => cs[i].part)
  }

  lemma AppendChunksCons(b: seq<Block>, c: Chunk, cs: seq<Chunk>)
    ensures AppendChunks(b, [c] + cs) == AppendChunks(b + c.blocks, cs)
  {
    assert ([c] + cs)[1..] == cs;
  }

  /** Appending the chunks of `cs` and then those of `ds` appends the chunks of `cs + ds`. */
  lemma {:induction false} AppendChunksConcat(b: seq<Block>, cs: seq<Chunk>, ds: seq<Chunk>)
    ensures AppendChunks(AppendChunks(b, cs), ds) == AppendChunks(b, cs + ds)
    decreases |cs|
  {
    if cs == [] {
      assert cs + ds == ds;
    } else {
      AppendChunksConcat(b + cs[0].blocks, cs[1..], ds);
      AppendChunksCons(b, cs[0], cs[1..] + ds);
      assert cs + ds == [cs[0]] + (cs[1..] + ds);
    }
  }

  lemma PartsOfConcat(cs: seq<Chunk>, ds: seq<Chunk>)
    ensures PartsOf(cs + ds) == PartsOf(cs) + PartsOf(ds)
  {
  }

  /** The parts of ten lists of chunks, one list after the other. */
  lemma PartsOf10(c1: seq<Chunk>, c2: seq<Chunk>, c3: seq<Chunk>, c4: seq<Chunk>, c5: seq<Chunk>,
                  c6: seq<Chunk>, c7: seq<Chunk>, c8: seq<Chunk>, c9: seq<Chunk>, c10: seq<Chunk>)
    ensures PartsOf(c1 + c2 + c3 + c4 + c5 + c6 + c7 + c8 + c9 + c10)
         == PartsOf(c1) + PartsOf(c2) + PartsOf(c3) + PartsOf(c4) + PartsOf(c5)
          + PartsOf(c6) + PartsOf(c7) + PartsOf(c8) + PartsOf(c9) + PartsOf(c10)
  {
    PartsOfConcat(c1, c2);
    PartsOfConcat(c1 + c2, c3);
    PartsOfConcat(c1 + c2 + c3, c4);
    PartsOfConcat(c1 + c2 + c3 + c4, c5);
    PartsOfConcat(c1 + c2 + c3 + c4 + c5, c6);
    PartsOfConcat(c1 + c2 + c3 + c4 + c5 + c6, c7);
    PartsOfConcat(c1 + c2 + c3 + c4 + c5 + c6 + c7, c8);
    PartsOfConcat(c1 + c2 + c3 + c4 + c5 + c6 + c7 + c8, c9);
    PartsOfConcat(c1 + c2 + c3 + c4 + c5 + c6 + c7 + c8 + c9, c10);
  }

  // A list of one to seven chunks appends their blocks in order and stands for
  // their parts in order.

  lemma Chunks1(b: seq<Block>, c1: Chunk)
    ensures AppendChunks(b, [c1]) == b + c1.blocks
    ensures PartsOf([c1]) == [c1.part]
  {
    AppendChunksCons(b, c1, []);
  }

  lemma Chunks2(b: seq<Block>, c1: Chunk, c2: Chunk)
    ensures AppendChunks(b, [c1, c2]) == b + c1.blocks + c2.blocks
    ensures PartsOf([c1, c2]) == [c1.part, c2.part]
  {
    AppendChunksCons(b, c1, [c2]);
    Chunks1(b + c1.blocks, c2);
    assert [c1] + [c2] == [c1, c2];
  }

  lemma Chunks3(b: seq<Block>, c1: Chunk, c2: Chunk, c3: Chunk)
    ensures AppendChunks(b, [c1, c2, c3]) == b + c1.blocks + c2.blocks + c3.blocks
    ensures PartsOf([c1, c2, c3]) == [c1.part, c2.part, c3.part]
  {
    AppendChunksCons(b, c1, [c2, c3]);
    Chunks2(b + c1.blocks, c2, c3);
    assert [c1] + [c2, c3] == [c1, c2, c3];
  }

  lemma Chunks4(b: seq<Block>, c1: Chunk, c2: Chunk, c3: Chunk, c4: Chunk)
    ensures AppendChunks(b, [c1, c2, c3, c4]) == b + c1.blocks + c2.blocks + c3.blocks + c4.blocks
    ensures PartsOf([c1, c2, c3, c4]) == [c1.part, c2.part, c3.part, c4.part]
  {
    AppendChunksCons(b, c1, [c2, c3, c4]);
    Chunks3(b + c1.blocks, c2, c3, c4);
    assert [c1] + [c2, c3, c4] == [c1, c2, c3, c4];
  }

  lemma Chunks6(b: seq<Block>, c1: Chunk, c2: Chunk, c3: Chunk, c4: Chunk, c5: Chunk, c6: Chunk)
    ensures AppendChunks(b, [c1, c2, c3, c4, c5, c6])
         == b + c1.blocks + c2.blocks + c3.blocks + c4.blocks + c5.blocks + c6.blocks
    ensures PartsOf([c1, c2, c3, c4, c5, c6]) == [c1.part, c2.part, c3.part, c4.part, c5.part, c6.part]
  {
    Chunks3(b, c1, c2, c3);
    Chunks3(AppendChunks(b, [c1, c2, c3]), c4, c5, c6);
    AppendChunksConcat(b, [c1, c2, c3], [c4, c5, c6]);
    assert [c1, c2, c3] + [c4, c5, c6] == [c1, c2, c3, c4, c5, c6];
  }

  lemma Chunks7(b: seq<Block>, c1: Chunk, c2: Chunk, c3: Chunk, c4: Chunk, c5: Chunk, c6: Chunk, c7: Chunk)
    ensures AppendChunks(b, [c1, c2, c3, c4, c5, c6, c7])
         == b + c1.blocks + c2.blocks + c3.blocks + c4.blocks + c5.blocks + c6.blocks + c7.blocks
    ensures PartsOf([c1, c2, c3, c4, c5, c6, c7]) == [c1.part, c2.part, c3.part, c4.part, c5.part, c6.part, c7.part]
  {
    Chunks4(b, c1, c2, c3, c4);
    Chunks3(AppendChunks(b, [c1, c2, c3, c4]), c5, c6, c7);
    AppendChunksConcat(b, [c1, c2, c3, c4], [c5, c6, c7]);
    assert [c1, c2, c3, c4] + [c5, c6, c7] == [c1, c2, c3, c4, c5, c6, c7];
  }

  /** Appending ten lists of chunks one after the other appends their concatenation. */
  lemma AppendChunks10(b: seq<Block>, c1: seq<Chunk>, c2: seq<Chunk>, c3: seq<Chunk>, c4: seq<Chunk>, c5: seq<Chunk>,
                       c6: seq<Chunk>, c7: seq<Chunk>, c8: seq<Chunk>, c9: seq<Chunk>, c10: seq<Chunk>)
    ensures AppendChunks(AppendChunks(AppendChunks(AppendChunks(AppendChunks(AppendChunks(AppendChunks(AppendChunks(
              AppendChunks(AppendChunks(b, c1), c2), c3), c4), c5), c6), c7), c8), c9), c10)
         == AppendChunks(b, c1 + c2 + c3 + c4 + c5 + c6 + c7 + c8 + c9 + c10)
  {
    AppendChunksConcat(b, c1, c2);
    AppendChunksConcat(b, c1 + c2, c3);
    AppendChunksConcat(b, c1 + c2 + c3, c4);
    AppendChunksConcat(b, c1 + c2 + c3 + c4, c5);
    AppendChunksConcat(b, c1 + c2 + c3 + c4 + c5, c6);
    AppendChunksConcat(b, c1 + c2 + c3 + c4 + c5 + c6, c7);
    AppendChunksConcat(b, c1 + c2 + c3 + c4 + c5 + c6 + c7, c8);
    AppendChunksConcat(b, c1 + c2 + c3 + c4 + c5 + c6 + c7 + c8, c9);
    AppendChunksConcat(b, c1 + c2 + c3 + c4 + c5 + c6 + c7 + c8 + c9, c10);
  }

  // Each stretch appends the blocks of its chunks, and its chunks stand for its
  // parts of the outline.

  lemma OpeningAppends(b: seq<Block>, ctx: GenContext)
    ensures WithOpening(b, ctx) == AppendChunks(b, OpeningChunks(ctx))
  {
    Chunks7(b, Chunk(Cover, CoverBlocks(ctx)), Chunk(Contents, ContentsBlocks()),
      Chunk(DesignBasisPart, DesignBasisBlocks(ctx)), Chunk(Influent, InfluentBlocks(ctx)),
      Chunk(TechnologyOverviewPart, TechnologyOverviewBlocks(ctx)),
      Chunk(ProcessDescriptionPart, ProcessDescriptionBlocks(ctx)),
      Chunk(GuaranteesHeading, [CreateHeading(ctx.content.performanceGuarantees.title, 2)]));
  }

  lemma OpeningChunkParts(ctx: GenContext)
    ensures PartsOf(OpeningChunks(ctx)) == PartsToGuarantees()
  {
    Chunks7([], Chunk(Cover, CoverBlocks(ctx)), Chunk(Contents, ContentsBlocks()),
      Chunk(DesignBasisPart, DesignBasisBlocks(ctx)), Chunk(Influent, InfluentBlocks(ctx)),
      Chunk(TechnologyOverviewPart, TechnologyOverviewBlocks(ctx)),
      Chunk(ProcessDescriptionPart, ProcessDescriptionBlocks(ctx)),
      Chunk(GuaranteesHeading, [CreateHeading(ctx.content.performanceGuarantees.title, 2)]));
  }

  lemma GuaranteeTablesAppends(b: seq<Block>, ctx: GenContext)
    ensures WithGuaranteeTables(b, ctx) == AppendChunks(b, GuaranteeTableChunks(ctx))
  {
    var pg, sel := ctx.content.performanceGuarantees, SelectionOf(ctx.input);
    var an := Chunk(AnaerobicGuarantee, GuaranteeBlocks(pg.anaerobic) + [Spacer(240)]);
    var ae := Chunk(AerobicGuarantee, GuaranteeBlocks(pg.aerobic));
    if sel.anaerobic && sel.aerobic {
      Chunks2(b, an, ae);
      assert [an] + [ae] == [an, ae];
    } else if sel.anaerobic {
      Chunks1(b, an);
      assert [an] + [] == [an];
    } else if sel.aerobic {
      Chunks1(b, ae);
      assert [] + [ae] == [ae];
    } else {
      assert GuaranteeTableChunks(ctx) == [];
    }
  }

  lemma GuaranteeTablesChunkParts(ctx: GenContext)
    ensures PartsOf(GuaranteeTableChunks(ctx)) == GuaranteeTableParts(SelectionOf(ctx.input))
  {
    var pg, sel := ctx.content.performanceGuarantees, SelectionOf(ctx.input);
    var an := Chunk(AnaerobicGuarantee, GuaranteeBlocks(pg.anaerobic) + [Spacer(240)]);
    var ae := Chunk(AerobicGuarantee, GuaranteeBlocks(pg.aerobic));
    if sel.anaerobic && sel.aerobic {
      Chunks2([], an, ae);
      assert [an] + [ae] == [an, ae];
    } else if sel.anaerobic {
      Chunks1([], an);
      assert [an] + [] == [an];
    } else if sel.aerobic {
      Chunks1([], ae);
      assert [] + [ae] == [ae];
    } else {
      assert GuaranteeTableChunks(ctx) == [];
    }
  }

  lemma PartsToDafAppends(b: seq<Block>, ctx: GenContext)
    ensures WithPartsToDaf(b, ctx) == AppendChunks(b, PartsToDafChunks(ctx))
  {
    Chunks4(b, Chunk(ConsiderationsPart, ConsiderationsBlocks(ctx.content.performanceGuarantees.importantConsiderations)),
      Chunk(ImpactAnalysis, ImpactAnalysisBlocks(ctx.content.theoryContent)),
      Chunk(EquipmentHeading, [CreateHeading(Str("4. Process Equipment Specifications"), 1)]),
      Chunk(Daf, EquipBlocks(DafSpec(ctx.input))));
  }

  lemma PartsToDafChunkParts(ctx: GenContext)
    ensures PartsOf(PartsToDafChunks(ctx)) == PartsToDaf()
  {
    Chunks4([], Chunk(ConsiderationsPart, ConsiderationsBlocks(ctx.content.performanceGuarantees.importantConsiderations)),
      Chunk(ImpactAnalysis, ImpactAnalysisBlocks(ctx.content.theoryContent)),
      Chunk(EquipmentHeading, [CreateHeading(Str("4. Process Equipment Specifications"), 1)]),
      Chunk(Daf, EquipBlocks(DafSpec(ctx.input))));
  }

  lemma DosingAppends(b: seq<Block>)
    ensures WithDosing(b) == AppendChunks(b, DosingChunks())
  {
    Chunks6(b, Chunk(DosingHeading, [CreateHeading(Str("4.2 Chemical Dosing Systems"), 2)]),
      Chunk(UreaDosing, DosingBlocks(UreaDosingSystem())),
      Chunk(PhosphoricAcidDosing, DosingBlocks(PhosphoricAcidDosingSystem())),
      Chunk(CausticDosing, DosingBlocks(CausticDosingSystem())),
      Chunk(HclDosing, DosingBlocks(HclDosingSystem())),
      Chunk(MicronutrientsDosing, DosingBlocks(MicronutrientsDosingSystem())));
  }

  lemma DosingChunkParts()
    ensures PartsOf(DosingChunks()) == DosingParts()
  {
    Chunks6([], Chunk(DosingHeading, [CreateHeading(Str("4.2 Chemical Dosing Systems"), 2)]),
      Chunk(UreaDosing, DosingBlocks(UreaDosingSystem())),
      Chunk(PhosphoricAcidDosing, DosingBlocks(PhosphoricAcidDosingSystem())),
      Chunk(CausticDosing, DosingBlocks(CausticDosingSystem())),
      Chunk(HclDosing, DosingBlocks(HclDosingSystem())),
      Chunk(MicronutrientsDosing, DosingBlocks(MicronutrientsDosingSystem())));
  }

  lemma PartsToCoolingAppends(b: seq<Block>, ctx: GenContext)
    ensures WithPartsToCooling(b, ctx) == AppendChunks(b, PartsToCoolingChunks(ctx))
  {
    Chunks3(b, Chunk(Screening, EquipBlocks(ScreeningSpec(ctx.input))),
      Chunk(PrimaryClarification, EquipBlocks(PrimaryClarificationSpec())),
      Chunk(Cooling, EquipBlocks(CoolingSpec(ctx.input))));
  }

  lemma PartsToCoolingChunkParts(ctx: GenContext)
    ensures PartsOf(PartsToCoolingChunks(ctx)) == PartsToCooling()
  {
    Chunks3([], Chunk(Screening, EquipBlocks(ScreeningSpec(ctx.input))),
      Chunk(PrimaryClarification, EquipBlocks(PrimaryClarificationSpec())),
      Chunk(Cooling, EquipBlocks(CoolingSpec(ctx.input))));
  }

  lemma AnaerobicEquipmentAppends(b: seq<Block>, ctx: GenContext)
    ensures WithAnaerobicEquipment(b, ctx) == AppendChunks(b, AnaerobicEquipmentChunks(ctx))
  {
    var input := ctx.input;
    if SelectionOf(input).anaerobic {
      Chunks7(b, Chunk(PreAcidification, EquipBlocks(PreAcidificationSpec(input))),
        Chunk(AnaerobicFeedPump, EquipBlocks(AnaerobicFeedPumpSpec(input))),
        Chunk(AnaerobicReactor, EquipBlocks(AnaerobicReactorSpec(input))),
        Chunk(BiomassTransferPump, EquipBlocks(BiomassTransferPumpSpec(input))),
        Chunk(BiogasHandling, EquipBlocks(BiogasHandlingSpec(input))),
        Chunk(BiomassHoldingTank, EquipBlocks(BiomassHoldingTankSpec(input))),
        Chunk(StartupBiomass, StartupBiomassBlocks(ctx.vssQuantity)));
    }
  }

  lemma AnaerobicEquipmentChunkParts(ctx: GenContext)
    ensures PartsOf(AnaerobicEquipmentChunks(ctx)) == AnaerobicEquipmentParts(SelectionOf(ctx.input))
  {
    var input := ctx.input;
    if SelectionOf(input).anaerobic {
      Chunks7([], Chunk(PreAcidification, EquipBlocks(PreAcidificationSpec(input))),
        Chunk(AnaerobicFeedPump, EquipBlocks(AnaerobicFeedPumpSpec(input))),
        Chunk(AnaerobicReactor, EquipBlocks(AnaerobicReactorSpec(input))),
        Chunk(BiomassTransferPump, EquipBlocks(BiomassTransferPumpSpec(input))),
        Chunk(BiogasHandling, EquipBlocks(BiogasHandlingSpec(input))),
        Chunk(BiomassHoldingTank, EquipBlocks(BiomassHoldingTankSpec(input))),
        Chunk(StartupBiomass, StartupBiomassBlocks(ctx.vssQuantity)));
    }
  }

  lemma AerobicEquipmentAppends(b: seq<Block>, ctx: GenContext)
    ensures WithAerobicEquipment(b, ctx) == AppendChunks(b, AerobicEquipmentChunks(ctx))
  {
    var input := ctx.input;
    if SelectionOf(input).aerobic {
      Chunks4(b, Chunk(AerationTank, AerationTankBlocks(input)),
        Chunk(AerationComponents, AerationComponentsBlocks()),
        Chunk(SecondaryClarifier, EquipBlocks(SecondaryClarifierSpec(input))),
        Chunk(SludgeRecirculation, EquipBlocks(SludgeRecirculationSpec(input))));
    }
  }

  lemma AerobicEquipmentChunkParts(ctx: GenContext)
    ensures PartsOf(AerobicEquipmentChunks(ctx)) == AerobicEquipmentParts(SelectionOf(ctx.input))
  {
    var input := ctx.input;
    if SelectionOf(input).aerobic {
      Chunks4([], Chunk(AerationTank, AerationTankBlocks(input)),
        Chunk(AerationComponents, AerationComponentsBlocks()),
        Chunk(SecondaryClarifier, EquipBlocks(SecondaryClarifierSpec(input))),
        Chunk(SludgeRecirculation, EquipBlocks(SludgeRecirculationSpec(input))));
    }
  }

  lemma PartsToOtherEquipmentAppends(b: seq<Block>, ctx: GenContext)
    ensures WithPartsToOtherEquipment(b, ctx) == AppendChunks(b, PartsToOtherEquipmentChunks(ctx))
  {
    Chunks3(b, Chunk(SludgeManagement, SludgeManagementBlocks(ctx.input)),
      Chunk(TreatedWater, EquipBlocks(TreatedWaterSpec(ctx.input))),
      Chunk(OtherEquipment, OtherEquipmentBlocks()));
  }

  lemma PartsToOtherEquipmentChunkParts(ctx: GenContext)
    ensures PartsOf(PartsToOtherEquipmentChunks(ctx)) == PartsToOtherEquipment()
  {
    Chunks3([], Chunk(SludgeManagement, SludgeManagementBlocks(ctx.input)),
      Chunk(TreatedWater, EquipBlocks(TreatedWaterSpec(ctx.input))),
      Chunk(OtherEquipment, OtherEquipmentBlocks()));
  }

  lemma InstrumentationAppends(b: seq<Block>, ctx: GenContext)
    ensures WithInstrumentation(b, ctx) == AppendChunks(b, InstrumentationChunks(ctx))
  {
    if SelectionOf(ctx.input).instrumentation {
      Chunks1(b, Chunk(ProposalSections.Instrumentation, InstrumentationBlocks(ctx.input.instruments)));
    }
  }

  lemma InstrumentationChunkParts(ctx: GenContext)
    ensures PartsOf(InstrumentationChunks(ctx)) == InstrumentationParts(SelectionOf(ctx.input))
  {
    if SelectionOf(ctx.input).instrumentation {
      Chunks1([], Chunk(ProposalSections.Instrumentation, InstrumentationBlocks(ctx.input.instruments)));
    }
  }

  lemma PartsToExclusionsAppends(b: seq<Block>, ctx: GenContext)
    ensures WithPartsToExclusions(b, ctx) == AppendChunks(b, PartsToExclusionsChunks(ctx))
  {
    Chunks3(b, Chunk(Pipings, PipingsBlocks()), Chunk(Valves, ValvesBlocks()),
      Chunk(ProposalSections.Exclusions, ExclusionsBlocks(ctx.content)));
  }

  lemma PartsToExclusionsChunkParts(ctx: GenContext)
    ensures PartsOf(PartsToExclusionsChunks(ctx)) == PartsToExclusions()
  {
    Chunks3([], Chunk(Pipings, PipingsBlocks()), Chunk(Valves, ValvesBlocks()),
      Chunk(ProposalSections.Exclusions, ExclusionsBlocks(ctx.content)));
  }

  /** The body is the blocks of every chunk, appended in order. */
  lemma BodyIsChunks(ctx: GenContext)
    ensures Body(ctx) == AppendChunks([], Chunks(ctx))
  {
    var b1 := WithOpening([], ctx);
    OpeningAppends([], ctx);
    var b2 := WithGuaranteeTables(b1, ctx);
    GuaranteeTablesAppends(b1, ctx);
    var b3 := WithPartsToDaf(b2, ctx);
    PartsToDafAppends(b2, ctx);
    var b4 := WithDosing(b3);
    DosingAppends(b3);
    var b5 := WithPartsToCooling(b4, ctx);
    PartsToCoolingAppends(b4, ctx);
    var b6 := WithAnaerobicEquipment(b5, ctx);
    AnaerobicEquipmentAppends(b5, ctx);
    var b7 := WithAerobicEquipment(b6, ctx);
    AerobicEquipmentAppends(b6, ctx);
    var b8 := WithPartsToOtherEquipment(b7, ctx);
    PartsToOtherEquipmentAppends(b7, ctx);
    var b9 := WithInstrumentation(b8, ctx);
    InstrumentationAppends(b8, ctx);
    PartsToExclusionsAppends(b9, ctx);
    AppendChunks10([], OpeningChunks(ctx), GuaranteeTableChunks(ctx), PartsToDafChunks(ctx), DosingChunks(),
      PartsToCoolingChunks(ctx), AnaerobicEquipmentChunks(ctx), AerobicEquipmentChunks(ctx),
      PartsToOtherEquipmentChunks(ctx), InstrumentationChunks(ctx), PartsToExclusionsChunks(ctx));
  }

  /**
   * The chunks of the body stand for the outline of the selection: the body
   * holds the parts of the outline, each once, in the outline's order, and no
   * other part.
   */
  lemma BodyFollowsOutline(ctx: GenContext)
    ensures PartsOf(Chunks(ctx)) == Outline(SelectionOf(ctx.input))
  {
    OpeningChunkParts(ctx);
    GuaranteeTablesChunkParts(ctx);
    PartsToDafChunkParts(ctx);
    DosingChunkParts();
    PartsToCoolingChunkParts(ctx);
    AnaerobicEquipmentChunkParts(ctx);
    AerobicEquipmentChunkParts(ctx);
    PartsToOtherEquipmentChunkParts(ctx);
    InstrumentationChunkParts(ctx);
    PartsToExclusionsChunkParts(ctx);
    PartsOf10(OpeningChunks(ctx), GuaranteeTableChunks(ctx), PartsToDafChunks(ctx), DosingChunks(),
      PartsToCoolingChunks(ctx), AnaerobicEquipmentChunks(ctx), AerobicEquipmentChunks(ctx),
      PartsToOtherEquipmentChunks(ctx), InstrumentationChunks(ctx), PartsToExclusionsChunks(ctx));
  }

  // ---------------------------------------------------------------------------
  // Every numbered part opens with a heading that carries its number
  // ---------------------------------------------------------------------------

  /** A chunk of a numbered part opens with a heading whose text starts with the part's number. */
  predicate OpensWithItsNumber(c: Chunk) {
    SectionNumber(c.part).Some? ==>
      && |c.blocks| > 0 && c.blocks[0].Heading? && c.blocks[0].run.TextRun?
      && NumberLabel(SectionNumber(c.part).value) <= c.blocks[0].run.text
  }

  predicate AllOpenWithTheirNumbers(cs: seq<Chunk>) {
    forall i :: 0 <= i < |cs| ==> OpensWithItsNumber(cs[i])
  }

  lemma AllOpenConcat(cs: seq<Chunk>, ds: seq<Chunk>)
    requires AllOpenWithTheirNumbers(cs) && AllOpenWithTheirNumbers(ds)
    ensures AllOpenWithTheirNumbers(cs + ds)
  {
    forall i | 0 <= i < |cs + ds| ensures OpensWithItsNumber((cs + ds)[i]) {
      if i >= |cs| {
        assert (cs + ds)[i] == ds[i - |cs|];
      }
    }
  }

  lemma AllOpen10(c1: seq<Chunk>, c2: seq<Chunk>, c3: seq<Chunk>, c4: seq<Chunk>, c5: seq<Chunk>,
                  c6: seq<Chunk>, c7: seq<Chunk>, c8: seq<Chunk>, c9: seq<Chunk>, c10: seq<Chunk>)
    ensures AllOpenWithTheirNumbers(c1) && AllOpenWithTheirNumbers(c2) && AllOpenWithTheirNumbers(c3)
         && AllOpenWithTheirNumbers(c4) && AllOpenWithTheirNumbers(c5) && AllOpenWithTheirNumbers(c6)
         && AllOpenWithTheirNumbers(c7) && AllOpenWithTheirNumbers(c8) && AllOpenWithTheirNumbers(c9)
         && AllOpenWithTheirNumbers(c10)
       ==> AllOpenWithTheirNumbers(c1 + c2 + c3 + c4 + c5 + c6 + c7 + c8 + c9 + c10)
  {
    if AllOpenWithTheirNumbers(c1) && AllOpenWithTheirNumbers(c2) && AllOpenWithTheirNumbers(c3)
      && AllOpenWithTheirNumbers(c4) && AllOpenWithTheirNumbers(c5) && AllOpenWithTheirNumbers(c6)
      && AllOpenWithTheirNumbers(c7) && AllOpenWithTheirNumbers(c8) && AllOpenWithTheirNumbers(c9)
      && AllOpenWithTheirNumbers(c10)
    {
      AllOpenConcat10(c1, c2, c3, c4, c5, c6, c7, c8, c9, c10);
    }
  }

  lemma AllOpenConcat10(c1: seq<Chunk>, c2: seq<Chunk>, c3: seq<Chunk>, c4: seq<Chunk>, c5: seq<Chunk>,
                        c6: seq<Chunk>, c7: seq<Chunk>, c8: seq<Chunk>, c9: seq<Chunk>, c10: seq<Chunk>)
    requires AllOpenWithTheirNumbers(c1) && AllOpenWithTheirNumbers(c2) && AllOpenWithTheirNumbers(c3)
    requires AllOpenWithTheirNumbers(c4) && AllOpenWithTheirNumbers(c5) && AllOpenWithTheirNumbers(c6)
    requires AllOpenWithTheirNumbers(c7) && AllOpenWithTheirNumbers(c8) && AllOpenWithTheirNumbers(c9)
    requires AllOpenWithTheirNumbers(c10)
    ensures AllOpenWithTheirNumbers(c1 + c2 + c3 + c4 + c5 + c6 + c7 + c8 + c9 + c10)
  {
    AllOpenConcat(c1, c2);
    AllOpenConcat(c1 + c2, c3);
    AllOpenConcat(c1 + c2 + c3, c4);
    AllOpenConcat(c1 + c2 + c3 + c4, c5);
    AllOpenConcat(c1 + c2 + c3 + c4 + c5, c6);
    AllOpenConcat(c1 + c2 + c3 + c4 + c5 + c6, c7);
    AllOpenConcat(c1 + c2 + c3 + c4 + c5 + c6 + c7, c8);
    AllOpenConcat(c1 + c2 + c3 + c4 + c5 + c6 + c7 + c8, c9);
    AllOpenConcat(c1 + c2 + c3 + c4 + c5 + c6 + c7 + c8 + c9, c10);
  }

  lemma AllOpen3(c1: Chunk, c2: Chunk, c3: Chunk)
    ensures OpensWithItsNumber(c1) && OpensWithItsNumber(c2) && OpensWithItsNumber(c3)
       ==> AllOpenWithTheirNumbers([c1, c2, c3])
  {
  }

  lemma AllOpen4(c1: Chunk, c2: Chunk, c3: Chunk, c4: Chunk)
    ensures OpensWithItsNumber(c1) && OpensWithItsNumber(c2) && OpensWithItsNumber(c3) && OpensWithItsNumber(c4)
       ==> AllOpenWithTheirNumbers([c1, c2, c3, c4])
  {
  }

  lemma AllOpen6(c1: Chunk, c2: Chunk, c3: Chunk, c4: Chunk, c5: Chunk, c6: Chunk)
    ensures OpensWithItsNumber(c1) && OpensWithItsNumber(c2) && OpensWithItsNumber(c3)
         && OpensWithItsNumber(c4) && OpensWithItsNumber(c5) && OpensWithItsNumber(c6)
       ==> AllOpenWithTheirNumbers([c1, c2, c3, c4, c5, c6])
  {
  }

  lemma AllOpen7(c1: Chunk, c2: Chunk, c3: Chunk, c4: Chunk, c5: Chunk, c6: Chunk, c7: Chunk)
    ensures OpensWithItsNumber(c1) && OpensWithItsNumber(c2) && OpensWithItsNumber(c3)
         && OpensWithItsNumber(c4) && OpensWithItsNumber(c5) && OpensWithItsNumber(c6) && OpensWithItsNumber(c7)
       ==> AllOpenWithTheirNumbers([c1, c2, c3, c4, c5, c6, c7])
  {
  }

  /** The part is numbered and `text` starts with its numeral. */
  predicate NumberedText(p: Part, text: string) {
    SectionNumber(p).Some? && NumberLabel(SectionNumber(p).value) <= text
  }

  /** A numbered part whose blocks open with a heading whose text starts with the part's numeral. */
  lemma HeadingOpens(p: Part, blocks: seq<Block>, text: string, level: int)
    ensures NumberedText(p, text) && |blocks| > 0 && blocks[0] == CreateHeading(Str(text), level)
       ==> OpensWithItsNumber(Chunk(p, blocks))
  {
  }

  lemma PrefixOfConcat(a: string, b: string)
    ensures a <= a + b
  {
    assert (a + b)[..|a|] == a;
  }

  lemma PrefixTransitive(a: string, b: string, c: string)
    requires a <= b && b <= c
    ensures a <= c
  {
    assert c[..|a|] == c[..|b|][..|a|];
  }

  /** An equipment section whose number is the part's. */
  lemma EquipOpens(p: Part, e: EquipSpec)
    ensures NumberedText(p, e.number + " ") ==> OpensWithItsNumber(Chunk(p, EquipBlocks(e)))
  {
    if NumberedText(p, e.number + " ") {
      var rest := e.title + ScopeLabel(e.scope);
      PrefixOfConcat(e.number + " ", rest);
      PrefixTransitive(NumberLabel(SectionNumber(p).value), e.number + " ", e.number + " " + rest);
      HeadingOpens(p, EquipBlocks(e), e.number + " " + rest, 2);
    }
  }

  /** A part below 1000 or off the tens carries no number, so it need not open with one. */
  lemma UnnumberedOpens(c: Chunk)
    ensures c.part < 1000 || c.part % 10 != 0 ==> OpensWithItsNumber(c)
  {
    if c.part < 1000 || c.part % 10 != 0 {
      UnnumberedRank(c.part);
    }
  }

  // The numeral of each numbered part, and the heading text it opens.

  lemma DesignBasisNumeral()
    ensures NumberedText(DesignBasisPart, "1. Client Details & Design Basis")
  {
    assert SectionNumber(DesignBasisPart) == Some((1, 0)) && NumberLabel((1, 0)) == "1. ";
  }

  lemma InfluentNumeral()
    ensures NumberedText(Influent, "2. Influent Parameters")
  {
    assert SectionNumber(Influent) == Some((2, 0)) && NumberLabel((2, 0)) == "2. ";
  }

  lemma EquipmentHeadingNumeral()
    ensures NumberedText(EquipmentHeading, "4. Process Equipment Specifications")
  {
    assert SectionNumber(EquipmentHeading) == Some((4, 0)) && NumberLabel((4, 0)) == "4. ";
  }

  lemma DosingHeadingNumeral()
    ensures NumberedText(DosingHeading, "4.2 Chemical Dosing Systems")
  {
    assert SectionNumber(DosingHeading) == Some((4, 2)) && NumberLabel((4, 2)) == "4.2 ";
  }

  lemma StartupBiomassNumeral()
    ensures NumberedText(StartupBiomass, "4.12 Start-up Granular Biomass")
  {
    assert SectionNumber(StartupBiomass) == Some((4, 12)) && NumberLabel((4, 12)) == "4.12 ";
  }

  lemma AerationTankNumeral()
    ensures NumberedText(AerationTank, "4.13 Aeration Tank System [Scope: Client]")
  {
    assert SectionNumber(AerationTank) == Some((4, 13)) && NumberLabel((4, 13)) == "4.13 ";
  }

  lemma AerationComponentsNumeral()
    ensures NumberedText(AerationComponents, "4.14 Aeration System Components")
  {
    assert SectionNumber(AerationComponents) == Some((4, 14)) && NumberLabel((4, 14)) == "4.14 ";
  }

  lemma SludgeManagementNumeral()
    ensures NumberedText(SludgeManagement, "4.17 Sludge Management System")
  {
    assert SectionNumber(SludgeManagement) == Some((4, 17)) && NumberLabel((4, 17)) == "4.17 ";
  }

  lemma OtherEquipmentNumeral()
    ensures NumberedText(OtherEquipment, "4.19 Other Major Equipment")
  {
    assert SectionNumber(OtherEquipment) == Some((4, 19)) && NumberLabel((4, 19)) == "4.19 ";
  }

  lemma InstrumentationNumeral()
    ensures NumberedText(ProposalSections.Instrumentation, "4.20 Instrumentation")
  {
    assert SectionNumber(ProposalSections.Instrumentation) == Some((4, 20)) && NumberLabel((4, 20)) == "4.20 ";
  }

  lemma PipingsNumeral()
    ensures NumberedText(Pipings, "4.21 Pipings")
  {
    assert SectionNumber(Pipings) == Some((4, 21)) && NumberLabel((4, 21)) == "4.21 ";
  }

  lemma ValvesNumeral()
    ensures NumberedText(Valves, "4.22 Valves")
  {
    assert SectionNumber(Valves) == Some((4, 22)) && NumberLabel((4, 22)) == "4.22 ";
  }

  lemma ExclusionsNumeral()
    ensures NumberedText(ProposalSections.Exclusions, "5. Exclusions from Scope of Supply & Services")
  {
    assert SectionNumber(ProposalSections.Exclusions) == Some((5, 0)) && NumberLabel((5, 0)) == "5. ";
  }

  lemma DafNumeral(input: ProposalInput)
    ensures NumberedText(Daf, DafSpec(input).number + " ")
  {
    assert SectionNumber(Daf) == Some((4, 1)) && NumberLabel((4, 1)) == "4.1 ";
  }

  lemma ScreeningNumeral(input: ProposalInput)
    ensures NumberedText(Screening, ScreeningSpec(input).number + " ")
  {
    assert SectionNumber(Screening) == Some((4, 3)) && NumberLabel((4, 3)) == "4.3 ";
  }

  lemma PrimaryClarificationNumeral()
    ensures NumberedText(PrimaryClarification, PrimaryClarificationSpec().number + " ")
  {
    assert SectionNumber(PrimaryClarification) == Some((4, 4)) && NumberLabel((4, 4)) == "4.4 ";
  }

  lemma CoolingNumeral(input: ProposalInput)
    ensures NumberedText(Cooling, CoolingSpec(input).number + " ")
  {
    assert SectionNumber(Cooling) == Some((4, 5)) && NumberLabel((4, 5)) == "4.5 ";
  }

  lemma PreAcidificationNumeral(input: ProposalInput)
    ensures NumberedText(PreAcidification, PreAcidificationSpec(input).number + " ")
  {
    assert SectionNumber(PreAcidification) == Some((4, 6)) && NumberLabel((4, 6)) == "4.6 ";
  }

  lemma AnaerobicFeedPumpNumeral(input: ProposalInput)
    ensures NumberedText(AnaerobicFeedPump, AnaerobicFeedPumpSpec(input).number + " ")
  {
    assert SectionNumber(AnaerobicFeedPump) == Some((4, 7)) && NumberLabel((4, 7)) == "4.7 ";
  }

  lemma AnaerobicReactorNumeral(input: ProposalInput)
    ensures NumberedText(AnaerobicReactor, AnaerobicReactorSpec(input).number + " ")
  {
    assert SectionNumber(AnaerobicReactor) == Some((4, 8)) && NumberLabel((4, 8)) == "4.8 ";
  }

  lemma BiomassTransferPumpNumeral(input: ProposalInput)
    ensures NumberedText(BiomassTransferPump, BiomassTransferPumpSpec(input).number + " ")
  {
    assert SectionNumber(BiomassTransferPump) == Some((4, 9)) && NumberLabel((4, 9)) == "4.9 ";
  }

  lemma BiogasHandlingNumeral(input: ProposalInput)
    ensures NumberedText(BiogasHandling, BiogasHandlingSpec(input).number + " ")
  {
    assert SectionNumber(BiogasHandling) == Some((4, 10)) && NumberLabel((4, 10)) == "4.10 ";
  }

  lemma BiomassHoldingTankNumeral(input: ProposalInput)
    ensures NumberedText(BiomassHoldingTank, BiomassHoldingTankSpec(input).number + " ")
  {
    assert SectionNumber(BiomassHoldingTank) == Some((4, 11)) && NumberLabel((4, 11)) == "4.11 ";
  }

  lemma SecondaryClarifierNumeral(input: ProposalInput)
    ensures NumberedText(SecondaryClarifier, SecondaryClarifierSpec(input).number + " ")
  {
    assert SectionNumber(SecondaryClarifier) == Some((4, 15)) && NumberLabel((4, 15)) == "4.15 ";
  }

  lemma SludgeRecirculationNumeral(input: ProposalInput)
    ensures NumberedText(SludgeRecirculation, SludgeRecirculationSpec(input).number + " ")
  {
    assert SectionNumber(SludgeRecirculation) == Some((4, 16)) && NumberLabel((4, 16)) == "4.16 ";
  }

  lemma TreatedWaterNumeral(input: ProposalInput)
    ensures NumberedText(TreatedWater, TreatedWaterSpec(input).number + " ")
  {
    assert SectionNumber(TreatedWater) == Some((4, 18)) && NumberLabel((4, 18)) == "4.18 ";
  }

  // Each stretch's chunks open with their numbers.

  lemma OpeningChunksNumbered(ctx: GenContext)
    ensures AllOpenWithTheirNumbers(OpeningChunks(ctx))
  {
    var guarantees := Chunk(GuaranteesHeading, [CreateHeading(ctx.content.performanceGuarantees.title, 2)]);
    UnnumberedOpens(Chunk(Cover, CoverBlocks(ctx)));
    UnnumberedOpens(Chunk(Contents, ContentsBlocks()));
    DesignBasisNumeral();
    HeadingOpens(DesignBasisPart, DesignBasisBlocks(ctx), "1. Client Details & Design Basis", 1);
    InfluentNumeral();
    HeadingOpens(Influent, InfluentBlocks(ctx), "2. Influent Parameters", 1);
    UnnumberedOpens(Chunk(TechnologyOverviewPart, TechnologyOverviewBlocks(ctx)));
    UnnumberedOpens(Chunk(ProcessDescriptionPart, ProcessDescriptionBlocks(ctx)));
    UnnumberedOpens(guarantees);
    AllOpen7(Chunk(Cover, CoverBlocks(ctx)), Chunk(Contents, ContentsBlocks()),
      Chunk(DesignBasisPart, DesignBasisBlocks(ctx)), Chunk(Influent, InfluentBlocks(ctx)),
      Chunk(TechnologyOverviewPart, TechnologyOverviewBlocks(ctx)),
      Chunk(ProcessDescriptionPart, ProcessDescriptionBlocks(ctx)), guarantees);
  }

  lemma GuaranteeTableChunksNumbered(ctx: GenContext)
    ensures AllOpenWithTheirNumbers(GuaranteeTableChunks(ctx))
  {
    var cs := GuaranteeTableChunks(ctx);
    forall i | 0 <= i < |cs| ensures OpensWithItsNumber(cs[i]) {
      UnnumberedOpens(cs[i]);
    }
  }

  lemma PartsToDafChunksNumbered(ctx: GenContext)
    ensures AllOpenWithTheirNumbers(PartsToDafChunks(ctx))
  {
    var considerations := Chunk(ConsiderationsPart,
      ConsiderationsBlocks(ctx.content.performanceGuarantees.importantConsiderations));
    var equipment := [CreateHeading(Str("4. Process Equipment Specifications"), 1)];
    UnnumberedOpens(considerations);
    UnnumberedOpens(Chunk(ImpactAnalysis, ImpactAnalysisBlocks(ctx.content.theoryContent)));
    EquipmentHeadingNumeral();
    HeadingOpens(EquipmentHeading, equipment, "4. Process Equipment Specifications", 1);
    DafNumeral(ctx.input);
    EquipOpens(Daf, DafSpec(ctx.input));
    AllOpen4(considerations, Chunk(ImpactAnalysis, ImpactAnalysisBlocks(ctx.content.theoryContent)),
      Chunk(EquipmentHeading, equipment), Chunk(Daf, EquipBlocks(DafSpec(ctx.input))));
  }

  lemma DosingChunksNumbered()
    ensures AllOpenWithTheirNumbers(DosingChunks())
  {
    var heading := [CreateHeading(Str("4.2 Chemical Dosing Systems"), 2)];
    DosingHeadingNumeral();
    HeadingOpens(DosingHeading, heading, "4.2 Chemical Dosing Systems", 2);
    UnnumberedOpens(Chunk(UreaDosing, DosingBlocks(UreaDosingSystem())));
    UnnumberedOpens(Chunk(PhosphoricAcidDosing, DosingBlocks(PhosphoricAcidDosingSystem())));
    UnnumberedOpens(Chunk(CausticDosing, DosingBlocks(CausticDosingSystem())));
    UnnumberedOpens(Chunk(HclDosing, DosingBlocks(HclDosingSystem())));
    UnnumberedOpens(Chunk(MicronutrientsDosing, DosingBlocks(MicronutrientsDosingSystem())));
    AllOpen6(Chunk(DosingHeading, heading),
      Chunk(UreaDosing, DosingBlocks(UreaDosingSystem())),
      Chunk(PhosphoricAcidDosing, DosingBlocks(PhosphoricAcidDosingSystem())),
      Chunk(CausticDosing, DosingBlocks(CausticDosingSystem())),
      Chunk(HclDosing, DosingBlocks(HclDosingSystem())),
      Chunk(MicronutrientsDosing, DosingBlocks(MicronutrientsDosingSystem())));
  }

  lemma PartsToCoolingChunksNumbered(ctx: GenContext)
    ensures AllOpenWithTheirNumbers(PartsToCoolingChunks(ctx))
  {
    ScreeningNumeral(ctx.input);
    EquipOpens(Screening, ScreeningSpec(ctx.input));
    PrimaryClarificationNumeral();
    EquipOpens(PrimaryClarification, PrimaryClarificationSpec());
    CoolingNumeral(ctx.input);
    EquipOpens(Cooling, CoolingSpec(ctx.input));
    AllOpen3(Chunk(Screening, EquipBlocks(ScreeningSpec(ctx.input))),
      Chunk(PrimaryClarification, EquipBlocks(PrimaryClarificationSpec())),
      Chunk(Cooling, EquipBlocks(CoolingSpec(ctx.input))));
  }

  lemma AnaerobicEquipmentChunksNumbered(ctx: GenContext)
    ensures AllOpenWithTheirNumbers(AnaerobicEquipmentChunks(ctx))
  {
    var input := ctx.input;
    if SelectionOf(input).anaerobic {
      PreAcidificationNumeral(input);
      EquipOpens(PreAcidification, PreAcidificationSpec(input));
      AnaerobicFeedPumpNumeral(input);
      EquipOpens(AnaerobicFeedPump, AnaerobicFeedPumpSpec(input));
      AnaerobicReactorNumeral(input);
      EquipOpens(AnaerobicReactor, AnaerobicReactorSpec(input));
      BiomassTransferPumpNumeral(input);
      EquipOpens(BiomassTransferPump, BiomassTransferPumpSpec(input));
      BiogasHandlingNumeral(input);
      EquipOpens(BiogasHandling, BiogasHandlingSpec(input));
      BiomassHoldingTankNumeral(input);
      EquipOpens(BiomassHoldingTank, BiomassHoldingTankSpec(input));
      StartupBiomassNumeral();
      HeadingOpens(StartupBiomass, StartupBiomassBlocks(ctx.vssQuantity), "4.12 Start-up Granular Biomass", 2);
      AllOpen7(Chunk(PreAcidification, EquipBlocks(PreAcidificationSpec(input))),
        Chunk(AnaerobicFeedPump, EquipBlocks(AnaerobicFeedPumpSpec(input))),
        Chunk(AnaerobicReactor, EquipBlocks(AnaerobicReactorSpec(input))),
        Chunk(BiomassTransferPump, EquipBlocks(BiomassTransferPumpSpec(input))),
        Chunk(BiogasHandling, EquipBlocks(BiogasHandlingSpec(input))),
        Chunk(BiomassHoldingTank, EquipBlocks(BiomassHoldingTankSpec(input))),
        Chunk(StartupBiomass, StartupBiomassBlocks(ctx.vssQuantity)));
    }
  }

  lemma AerobicEquipmentChunksNumbered(ctx: GenContext)
    ensures AllOpenWithTheirNumbers(AerobicEquipmentChunks(ctx))
  {
    var input := ctx.input;
    if SelectionOf(input).aerobic {
      AerationTankNumeral();
      HeadingOpens(AerationTank, AerationTankBlocks(input), "4.13 Aeration Tank System [Scope: Client]", 2);
      AerationComponentsNumeral();
      HeadingOpens(AerationComponents, AerationComponentsBlocks(), "4.14 Aeration System Components", 2);
      SecondaryClarifierNumeral(input);
      EquipOpens(SecondaryClarifier, SecondaryClarifierSpec(input));
      SludgeRecirculationNumeral(input);
      EquipOpens(SludgeRecirculation, SludgeRecirculationSpec(input));
      AllOpen4(Chunk(AerationTank, AerationTankBlocks(input)),
        Chunk(AerationComponents, AerationComponentsBlocks()),
        Chunk(SecondaryClarifier, EquipBlocks(SecondaryClarifierSpec(input))),
        Chunk(SludgeRecirculation, EquipBlocks(SludgeRecirculationSpec(input))));
    }
  }

  lemma PartsToOtherEquipmentChunksNumbered(ctx: GenContext)
    ensures AllOpenWithTheirNumbers(PartsToOtherEquipmentChunks(ctx))
  {
    SludgeManagementNumeral();
    HeadingOpens(SludgeManagement, SludgeManagementBlocks(ctx.input), "4.17 Sludge Management System", 2);
    TreatedWaterNumeral(ctx.input);
    EquipOpens(TreatedWater, TreatedWaterSpec(ctx.input));
    OtherEquipmentNumeral();
    HeadingOpens(OtherEquipment, OtherEquipmentBlocks(), "4.19 Other Major Equipment", 2);
    AllOpen3(Chunk(SludgeManagement, SludgeManagementBlocks(ctx.input)),
      Chunk(TreatedWater, EquipBlocks(TreatedWaterSpec(ctx.input))),
      Chunk(OtherEquipment, OtherEquipmentBlocks()));
  }

  lemma InstrumentationChunksNumbered(ctx: GenContext)
    ensures AllOpenWithTheirNumbers(InstrumentationChunks(ctx))
  {
    if SelectionOf(ctx.input).instrumentation {
      InstrumentationNumeral();
      HeadingOpens(ProposalSections.Instrumentation, InstrumentationBlocks(ctx.input.instruments),
        "4.20 Instrumentation", 2);
    }
  }

  lemma PartsToExclusionsChunksNumbered(ctx: GenContext)
    ensures AllOpenWithTheirNumbers(PartsToExclusionsChunks(ctx))
  {
    PipingsNumeral();
    HeadingOpens(Pipings, PipingsBlocks(), "4.21 Pipings", 2);
    ValvesNumeral();
    HeadingOpens(Valves, ValvesBlocks(), "4.22 Valves", 2);
    ExclusionsNumeral();
    HeadingOpens(ProposalSections.Exclusions, ExclusionsBlocks(ctx.content),
      "5. Exclusions from Scope of Supply & Services", 1);
    AllOpen3(Chunk(Pipings, PipingsBlocks()), Chunk(Valves, ValvesBlocks()),
      Chunk(ProposalSections.Exclusions, ExclusionsBlocks(ctx.content)));
  }

  /**
   * Every numbered part of the body opens with a heading whose text starts
   * with the part's number, "M. " for a section and "M.N " for a subsection;
   * with `BodyFollowsOutline` and `HeadingNumbersIncrease`, the numbers the
   * reader sees increase through the document.
   */
  lemma HeadingsCarryTheirNumbers(ctx: GenContext)
    ensures AllOpenWithTheirNumbers(Chunks(ctx))
  {
    OpeningChunksNumbered(ctx);
    GuaranteeTableChunksNumbered(ctx);
    PartsToDafChunksNumbered(ctx);
    DosingChunksNumbered();
    PartsToCoolingChunksNumbered(ctx);
    AnaerobicEquipmentChunksNumbered(ctx);
    AerobicEquipmentChunksNumbered(ctx);
    PartsToOtherEquipmentChunksNumbered(ctx);
    InstrumentationChunksNumbered(ctx);
    PartsToExclusionsChunksNumbered(ctx);
    AllOpen10(OpeningChunks(ctx), GuaranteeTableChunks(ctx), PartsToDafChunks(ctx), DosingChunks(),
      PartsToCoolingChunks(ctx), AnaerobicEquipmentChunks(ctx), AerobicEquipmentChunks(ctx),
      PartsToOtherEquipmentChunks(ctx), InstrumentationChunks(ctx), PartsToExclusionsChunks(ctx));
  }

  // ---------------------------------------------------------------------------
  // The generator
  // ---------------------------------------------------------------------------

  // The generator's `sections` array is a local of `generateProposalWord` that
  // its statements and its inner helpers push to; each method below takes the
  // array as it stands and returns it with its own blocks appended.

  /** `s + [] == s`, for the branches that append nothing. */
  lemma AppendNothing(s: seq<Block>)
    ensures s + [] == s
  {
  }

  /** Regrouping a chain of appends. */
  lemma AppendRegroup(s: seq<Block>, a: seq<Block>, b: seq<Block>)
    ensures s + a + b == s + (a + b)
  {
  }

  /** The details of an equipment section: each item of a list, or the one value when it is truthy. */
  method Details(sections: seq<Block>, details: Details) returns (sections': seq<Block>)
    ensures sections' == sections + DetailBlocks(details)
  {
    sections' := sections;
    match details {
      case DetailList(items) =>
        for i := 0 to |items|
          invariant sections' == sections + seq(i, k requires 0 <= k < i => TextPara(items[k], NoParaOptions))
        {
          sections' := sections' + [TextPara(items[i], NoParaOptions)];
        }
      case DetailValue(v) =>
        if Truthy(v) {
          sections' := sections' + [TextPara(v, NoParaOptions)];
        } else {
          AppendNothing(sections);
        }
    }
  }

  /** `createEquipSection`: the heading, the details, and the table when there are rows. */
  method EquipSection(sections: seq<Block>, e: EquipSpec) returns (sections': seq<Block>)
    ensures sections' == sections + EquipBlocks(e)
  {
    var heading := [CreateHeading(Str(e.number + " " + e.title + ScopeLabel(e.scope)), 2)];
    var table := if |e.rows| > 0 then [SimpleTable(Some(e.headers), e.rows, EqualWidths(|e.headers|))] else [];
    sections' := Details(sections + heading, e.details);
    AppendRegroup(sections, heading, DetailBlocks(e.details));
    if |e.rows| > 0 {
      var t := CreateSimpleTable(Some(e.headers), e.rows, EqualWidths(|e.headers|));
      sections' := sections' + [t];
    } else {
      AppendNothing(sections');
    }
    AppendRegroup(sections, heading + DetailBlocks(e.details), table);
  }

  /** The calculation table of a dosing system, under its caption, when it has one. */
  method CalculationGroup(sections: seq<Block>, d: DosingSystem) returns (sections': seq<Block>)
    ensures sections' == sections + CalculationBlocks(d)
  {
    sections' := sections;
    if d.calculations.Some? {
      var table := CreateSimpleTable(None, CalculationRows(d.calculations.value), Percents([50, 50]));
      sections' := sections' + [TextPara(Str("Calculations:"), Caption), table, Spacer(120)];
    } else {
      AppendNothing(sections);
    }
  }

  /** The pump table of a dosing system, under its caption. */
  method PumpGroup(sections: seq<Block>, d: DosingSystem) returns (sections': seq<Block>)
    ensures sections' == sections + PumpBlocks(d)
  {
    var table := CreateSimpleTable(None, PumpRows(d.pump), QuarterWidths);
    sections' := sections + [TextPara(Str("A) Dosing Pump [Scope: EDI]"), Caption), table, Spacer(120)];
  }

  /** The tank table of a dosing system, under its caption, when it has a tank. */
  method TankGroup(sections: seq<Block>, d: DosingSystem) returns (sections': seq<Block>)
    ensures sections' == sections + TankBlocks(d)
  {
    sections' := sections;
    if d.tank.Some? {
      var table := CreateSimpleTable(None, TankRows(d.tank.value), QuarterWidths);
      sections' := sections' + [TextPara(Str("B) Dosing Tank [Scope: EDI]"), Caption), table, Spacer(120)];
    } else {
      AppendNothing(sections);
    }
  }

  /** The agitator table of a dosing system, under its caption, when it has an agitator. */
  method AgitatorGroup(sections: seq<Block>, d: DosingSystem) returns (sections': seq<Block>)
    ensures sections' == sections + AgitatorBlocks(d)
  {
    sections' := sections;
    if d.agitator.Some? {
      var table := CreateSimpleTable(None, AgitatorRows(d.agitator.value), QuarterWidths);
      sections' := sections' + [TextPara(Str("C) Agitator [Scope: EDI]"), Caption), table, Spacer(120)];
    } else {
      AppendNothing(sections);
    }
  }

  /** `renderDosingDetailed`: the heading, then the calculation, pump, tank and agitator tables. */
  method DosingDetailed(sections: seq<Block>, d: DosingSystem) returns (sections': seq<Block>)
    ensures sections' == sections + DosingBlocks(d)
  {
    var h, c, p, t := [CreateHeading(Str(d.name), 3)], CalculationBlocks(d), PumpBlocks(d), TankBlocks(d);
    sections' := sections + h;
    sections' := CalculationGroup(sections', d);
    AppendRegroup(sections, h, c);
    sections' := PumpGroup(sections', d);
    AppendRegroup(sections, h + c, p);
    sections' := TankGroup(sections', d);
    AppendRegroup(sections, h + c + p, t);
    sections' := AgitatorGroup(sections', d);
    AppendRegroup(sections, h + c + p + t, AgitatorBlocks(d));
  }

  /** Subsection 4.20: the instruments, split into name, location and range. */
  method Instrumentation(sections: seq<Block>, instruments: seq<string>) returns (sections': seq<Block>)
    ensures sections' == sections + InstrumentationBlocks(instruments)
  {
    var rows := seq(|instruments|, i requires 0 <= i < |instruments| => InstrumentRow(instruments[i]));
    var table := CreateSimpleTable(Some(Texts(["Instrument", "Location", "Range / Type"])), rows, Percents([30, 40, 30]));
    sections' := sections + [CreateHeading(Str("4.20 Instrumentation"), 2)] + [table];
  }

  /** The numbered paragraphs of the exclusions, one per entry, in order. */
  method ExclusionList(sections: seq<Block>, list: seq<Exclusion>) returns (sections': seq<Block>)
    ensures sections' == sections + ExclusionParagraphs(list)
  {
    sections' := sections;
    for i := 0 to |list|
      invariant sections' == sections + ExclusionParagraphs(list[..i])
    {
      ExclusionParagraphsSnoc(list, i);
      sections' := sections' + [ExclusionParagraph(i, list[i])];
    }
    assert list[..|list|] == list;
  }

  /** Section 5: heading, introduction, one numbered paragraph per exclusion, and the conclusion when there is one. */
  method Exclusions(sections: seq<Block>, content: StaticContent) returns (sections': seq<Block>)
    ensures sections' == sections + ExclusionsBlocks(content)
  {
    var opening := [CreateHeading(Str("5. Exclusions from Scope of Supply & Services"), 1), Plain(ExclusionsIntro())];
    var paragraphs, conclusion := ExclusionParagraphs(content.exclusions), ConclusionBlocks(content.exclusionsConclusion);
    sections' := sections + opening;
    sections' := ExclusionList(sections', content.exclusions);
    AppendRegroup(sections, opening, paragraphs);
    if Truthy(content.exclusionsConclusion) {
      sections' := sections' + [Spacer(240), TextPara(content.exclusionsConclusion, NoParaOptions.(alignment := Some(Justified)))];
    } else {
      AppendNothing(sections');
    }
    AppendRegroup(sections, opening + paragraphs, conclusion);
  }

  // One method per stretch of the outline.

  method WriteOpening(sections: seq<Block>, ctx: GenContext) returns (sections': seq<Block>)
    ensures sections' == WithOpening(sections, ctx)
  {
    sections' := sections + CoverBlocks(ctx) + ContentsBlocks() + DesignBasisBlocks(ctx) + InfluentBlocks(ctx)
      + TechnologyOverviewBlocks(ctx) + ProcessDescriptionBlocks(ctx)
      + [CreateHeading(ctx.content.performanceGuarantees.title, 2)];
  }

  method WriteGuaranteeTables(sections: seq<Block>, ctx: GenContext) returns (sections': seq<Block>)
    ensures sections' == WithGuaranteeTables(sections, ctx)
  {
    var pg := ctx.content.performanceGuarantees;
    var sel := SelectionOf(ctx.input);
    sections' := sections;
    if sel.anaerobic {
      sections' := sections' + GuaranteeBlocks(pg.anaerobic) + [Spacer(240)];
    }
    if sel.aerobic {
      sections' := sections' + GuaranteeBlocks(pg.aerobic);
    }
  }

  method WritePartsToDaf(sections: seq<Block>, ctx: GenContext) returns (sections': seq<Block>)
    ensures sections' == WithPartsToDaf(sections, ctx)
  {
    sections' := sections + ConsiderationsBlocks(ctx.content.performanceGuarantees.importantConsiderations)
      + ImpactAnalysisBlocks(ctx.content.theoryContent)
      + [CreateHeading(Str("4. Process Equipment Specifications"), 1)];
    sections' := EquipSection(sections', DafSpec(ctx.input));
  }

  method WriteDosing(sections: seq<Block>) returns (sections': seq<Block>)
    ensures sections' == WithDosing(sections)
  {
    sections' := sections + [CreateHeading(Str("4.2 Chemical Dosing Systems"), 2)];
    sections' := DosingDetailed(sections', UreaDosingSystem());
    sections' := DosingDetailed(sections', PhosphoricAcidDosingSystem());
    sections' := DosingDetailed(sections', CausticDosingSystem());
    sections' := DosingDetailed(sections', HclDosingSystem());
    sections' := DosingDetailed(sections', MicronutrientsDosingSystem());
  }

  method WritePartsToCooling(sections: seq<Block>, ctx: GenContext) returns (sections': seq<Block>)
    ensures sections' == WithPartsToCooling(sections, ctx)
  {
    sections' := EquipSection(sections, ScreeningSpec(ctx.input));
    sections' := EquipSection(sections', PrimaryClarificationSpec());
    sections' := EquipSection(sections', CoolingSpec(ctx.input));
  }

  method WriteAnaerobicEquipment(sections: seq<Block>, ctx: GenContext) returns (sections': seq<Block>)
    ensures sections' == WithAnaerobicEquipment(sections, ctx)
  {
    var input := ctx.input;
    sections' := sections;
    if SelectionOf(input).anaerobic {
      sections' := EquipSection(sections', PreAcidificationSpec(input));
      sections' := EquipSection(sections', AnaerobicFeedPumpSpec(input));
      sections' := EquipSection(sections', AnaerobicReactorSpec(input));
      sections' := EquipSection(sections', BiomassTransferPumpSpec(input));
      sections' := EquipSection(sections', BiogasHandlingSpec(input));
      sections' := EquipSection(sections', BiomassHoldingTankSpec(input));
      sections' := sections' + StartupBiomassBlocks(ctx.vssQuantity);
    }
  }

  method WriteAerobicEquipment(sections: seq<Block>, ctx: GenContext) returns (sections': seq<Block>)
    ensures sections' == WithAerobicEquipment(sections, ctx)
  {
    var input := ctx.input;
    sections' := sections;
    if SelectionOf(input).aerobic {
      sections' := sections' + AerationTankBlocks(input) + AerationComponentsBlocks();
      sections' := EquipSection(sections', SecondaryClarifierSpec(input));
      sections' := EquipSection(sections', SludgeRecirculationSpec(input));
    }
  }

  method WritePartsToOtherEquipment(sections: seq<Block>, ctx: GenContext) returns (sections': seq<Block>)
    ensures sections' == WithPartsToOtherEquipment(sections, ctx)
  {
    sections' := sections + SludgeManagementBlocks(ctx.input);
    sections' := EquipSection(sections', TreatedWaterSpec(ctx.input));
    sections' := sections' + OtherEquipmentBlocks();
  }

  method WriteInstrumentation(sections: seq<Block>, ctx: GenContext) returns (sections': seq<Block>)
    ensures sections' == WithInstrumentation(sections, ctx)
  {
    sections' := sections;
    if |ctx.input.instruments| > 0 {
      sections' := Instrumentation(sections', ctx.input.instruments);
    }
  }

  method WritePartsToExclusions(sections: seq<Block>, ctx: GenContext) returns (sections': seq<Block>)
    ensures sections' == WithPartsToExclusions(sections, ctx)
  {
    sections' := sections + PipingsBlocks() + ValvesBlocks();
    sections' := Exclusions(sections', ctx.content);
  }

  /** The document `generateProposalWord` assembles: the page header and footer around the body. */
  method BuildDocument(ctx: GenContext, logoLoaded: bool) returns (doc: Document)
    ensures doc == Document(PageHeaderOf(ctx.input.clientInfo, ctx.today, logoLoaded), Footer, Body(ctx))
  {
    var sections := WriteOpening([], ctx);
    sections := WriteGuaranteeTables(sections, ctx);
    sections := WritePartsToDaf(sections, ctx);
    sections := WriteDosing(sections);
    sections := WritePartsToCooling(sections, ctx);
    sections := WriteAnaerobicEquipment(sections, ctx);
    sections := WriteAerobicEquipment(sections, ctx);
    sections := WritePartsToOtherEquipment(sections, ctx);
    sections := WriteInstrumentation(sections, ctx);
    sections := WritePartsToExclusions(sections, ctx);
    doc := Document(PageHeaderOf(ctx.input.clientInfo, ctx.today, logoLoaded), Footer, sections);
  }

  /**
   * `generateProposalWord`: the document and the name it is saved under.
   * Whether the logo could be loaded is given.
   */
  method GenerateProposalWord(ctx: GenContext, logoLoaded: bool) returns (doc: Document, fileName: string)
    ensures doc == Document(PageHeaderOf(ctx.input.clientInfo, ctx.today, logoLoaded), Footer, Body(ctx))
    ensures fileName == FileName(ctx.input.clientInfo)
  {
    doc := BuildDocument(ctx, logoLoaded);
    fileName := FileName(ctx.input.clientInfo);
  }
}
