/**
 * The configuration script python/EventContent_cff.py as it runs: it creates
 * one parameter set per tier (lines 90-203) and then grows their
 * `outputCommands` lists in place with a fixed sequence of `extend` calls
 * (lines 204-369). Each call reads its argument at the moment it runs, so a
 * tier that copies another sees that tier's list as it stands then.
 */
module EventContentScript {
  import opened EventContent
  import opened ClosedForms

  /**
   * A parameter set with an `outputCommands` list of keep/drop command
   * strings. `tier` records which of the script's names it is bound to.
   */
  class PSet {
    var outputCommands: seq<string>
    ghost const tier: Tier

    constructor (outputCommands: seq<string>, ghost tier: Tier)
      ensures this.outputCommands == outputCommands && this.tier == tier
    {
      this.outputCommands := outputCommands;
      this.tier := tier;
    }

    /**
     * `outputCommands.extend(more)`: appends the commands of `more`, as they
     * are at the call, after the existing ones. Nothing else changes.
     */
    method Extend(more: seq<string>)
      modifies this
      ensures outputCommands == old(outputCommands) + more
    {
      outputCommands := outputCommands + more;
    }
  }

  /** The thirteen `<TIER>EventContent` parameter sets the script defines. */
  class EventContentConfig {
    const RAWEventContent: PSet
    const RECOEventContent: PSet
    const AODEventContent: PSet
    const RAWSIMEventContent: PSet
    const RECOSIMEventContent: PSet
    const AODSIMEventContent: PSet
    const FEVTEventContent: PSet
    const FEVTSIMEventContent: PSet
    const RAWDEBUGEventContent: PSet
    const RAWDEBUGHLTEventContent: PSet
    const FEVTDEBUGEventContent: PSet
    const FEVTDEBUGHLTEventContent: PSet
    const HLTDEBUGEventContent: PSet

    /** The parameter set of a tier. */
    function EventContentOf(t: Tier): (p: PSet)
    {
      match t
      case RAW => RAWEventContent
      case RECO => RECOEventContent
      case AOD => AODEventContent
      case RAWSIM => RAWSIMEventContent
      case RECOSIM => RECOSIMEventContent
      case AODSIM => AODSIMEventContent
      case FEVT => FEVTEventContent
      case FEVTSIM => FEVTSIMEventContent
      case RAWDEBUG => RAWDEBUGEventContent
      case RAWDEBUGHLT => RAWDEBUGHLTEventContent
      case FEVTDEBUG => FEVTDEBUGEventContent
      case FEVTDEBUGHLT => FEVTDEBUGHLTEventContent
      case HLTDEBUG => HLTDEBUGEventContent
    }

    /** No two tiers share a parameter set, so extending one never changes another. */
    ghost predicate Separate()
    {
      forall t, u :: t != u ==> EventContentOf(t) != EventContentOf(u)
    }

    /** Each tier's parameter set is the one bound to that tier's name. */
    ghost predicate Named()
    {
         RAWEventContent.tier == RAW
      && RECOEventContent.tier == RECO
      && AODEventContent.tier == AOD
      && RAWSIMEventContent.tier == RAWSIM
      && RECOSIMEventContent.tier == RECOSIM
      && AODSIMEventContent.tier == AODSIM
      && FEVTEventContent.tier == FEVT
      && FEVTSIMEventContent.tier == FEVTSIM
      && RAWDEBUGEventContent.tier == RAWDEBUG
      && RAWDEBUGHLTEventContent.tier == RAWDEBUGHLT
      && FEVTDEBUGEventContent.tier == FEVTDEBUG
      && FEVTDEBUGHLTEventContent.tier == FEVTDEBUGHLT
      && HLTDEBUGEventContent.tier == HLTDEBUG
    }

    /**
     * Runs the script: creates each tier's parameter set with its local list
     * (lines 90-203), then performs the `extend` calls tier by tier in the
     * order of the script's lines. Every tier ends holding `Composed(env, t)`;
     * in particular a tier copied by a later call (RAW at lines 249, 281, 302
     * and 343, RECO at 261, AOD at 271, RAWDEBUG at 360, FEVTSIM at 362,
     * FEVTDEBUG at 368) still holds its own final list.
     */
    constructor (env: BlockContents)
      ensures Separate()
      ensures RAWEventContent.outputCommands == Composed(env, RAW)
      ensures RECOEventContent.outputCommands == Composed(env, RECO)
      ensures AODEventContent.outputCommands == Composed(env, AOD)
      ensures RAWSIMEventContent.outputCommands == Composed(env, RAWSIM)
      ensures RECOSIMEventContent.outputCommands == Composed(env, RECOSIM)
      ensures AODSIMEventContent.outputCommands == Composed(env, AODSIM)
      ensures FEVTEventContent.outputCommands == Composed(env, FEVT)
      ensures FEVTSIMEventContent.outputCommands == Composed(env, FEVTSIM)
      ensures RAWDEBUGEventContent.outputCommands == Composed(env, RAWDEBUG)
      ensures RAWDEBUGHLTEventContent.outputCommands == Composed(env, RAWDEBUGHLT)
      ensures FEVTDEBUGEventContent.outputCommands == Composed(env, FEVTDEBUG)
      ensures FEVTDEBUGHLTEventContent.outputCommands == Composed(env, FEVTDEBUGHLT)
      ensures HLTDEBUGEventContent.outputCommands == Composed(env, HLTDEBUG)
    {
      RAWEventContent := new PSet(LocalCommands(RAW), RAW);
      RECOEventContent := new PSet(LocalCommands(RECO), RECO);
      AODEventContent := new PSet(LocalCommands(AOD), AOD);
      RAWSIMEventContent := new PSet(LocalCommands(RAWSIM), RAWSIM);
      RECOSIMEventContent := new PSet(LocalCommands(RECOSIM), RECOSIM);
      AODSIMEventContent := new PSet(LocalCommands(AODSIM), AODSIM);
      FEVTEventContent := new PSet(LocalCommands(FEVT), FEVT);
      FEVTSIMEventContent := new PSet(LocalCommands(FEVTSIM), FEVTSIM);
      RAWDEBUGEventContent := new PSet(LocalCommands(RAWDEBUG), RAWDEBUG);
      RAWDEBUGHLTEventContent := new PSet(LocalCommands(RAWDEBUGHLT), RAWDEBUGHLT);
      FEVTDEBUGEventContent := new PSet(LocalCommands(FEVTDEBUG), FEVTDEBUG);
      FEVTDEBUGHLTEventContent := new PSet(LocalCommands(FEVTDEBUGHLT), FEVTDEBUGHLT);
      HLTDEBUGEventContent := new PSet(LocalCommands(HLTDEBUG), HLTDEBUG);
      new;
      assert Named();
      assert Separate();
      ExtendAll(env);
    }

    /** Lines 204-369: every `extend` call of the script, in order. */
    method ExtendAll(env: BlockContents)
      requires Named()
      requires RAWEventContent.outputCommands == LocalCommands(RAW)
      requires RECOEventContent.outputCommands == LocalCommands(RECO)
      requires AODEventContent.outputCommands == LocalCommands(AOD)
      requires RAWSIMEventContent.outputCommands == LocalCommands(RAWSIM)
      requires RECOSIMEventContent.outputCommands == LocalCommands(RECOSIM)
      requires AODSIMEventContent.outputCommands == LocalCommands(AODSIM)
      requires FEVTEventContent.outputCommands == LocalCommands(FEVT)
      requires FEVTSIMEventContent.outputCommands == LocalCommands(FEVTSIM)
      requires RAWDEBUGEventContent.outputCommands == LocalCommands(RAWDEBUG)
      requires RAWDEBUGHLTEventContent.outputCommands == LocalCommands(RAWDEBUGHLT)
      requires FEVTDEBUGEventContent.outputCommands == LocalCommands(FEVTDEBUG)
      requires FEVTDEBUGHLTEventContent.outputCommands == LocalCommands(FEVTDEBUGHLT)
      requires HLTDEBUGEventContent.outputCommands == LocalCommands(HLTDEBUG)
      modifies RAWEventContent, RECOEventContent, AODEventContent, RAWSIMEventContent,
        RECOSIMEventContent, AODSIMEventContent, FEVTEventContent, FEVTSIMEventContent,
        RAWDEBUGEventContent, RAWDEBUGHLTEventContent, FEVTDEBUGEventContent,
        FEVTDEBUGHLTEventContent, HLTDEBUGEventContent
      ensures RAWEventContent.outputCommands == Composed(env, RAW)
      ensures RECOEventContent.outputCommands == Composed(env, RECO)
      ensures AODEventContent.outputCommands == Composed(env, AOD)
      ensures RAWSIMEventContent.outputCommands == Composed(env, RAWSIM)
      ensures RECOSIMEventContent.outputCommands == Composed(env, RECOSIM)
      ensures AODSIMEventContent.outputCommands == Composed(env, AODSIM)
      ensures FEVTEventContent.outputCommands == Composed(env, FEVT)
      ensures FEVTSIMEventContent.outputCommands == Composed(env, FEVTSIM)
      ensures RAWDEBUGEventContent.outputCommands == Composed(env, RAWDEBUG)
      ensures RAWDEBUGHLTEventContent.outputCommands == Composed(env, RAWDEBUGHLT)
      ensures FEVTDEBUGEventContent.outputCommands == Composed(env, FEVTDEBUG)
      ensures FEVTDEBUGHLTEventContent.outputCommands == Composed(env, FEVTDEBUGHLT)
      ensures HLTDEBUGEventContent.outputCommands == Composed(env, HLTDEBUG)
    {
      ExtendSingleStepTiers(env);
      ExtendCombinedTiers(env);
    }

    /** Lines 204-280: the tiers that extend their own list or copy one base tier (RAW, RECO, AOD). */
    method ExtendSingleStepTiers(env: BlockContents)
      requires Named()
      requires HLTDEBUGEventContent.outputCommands == LocalCommands(HLTDEBUG)
      requires RAWEventContent.outputCommands == LocalCommands(RAW)
      requires RECOEventContent.outputCommands == LocalCommands(RECO)
      requires AODEventContent.outputCommands == LocalCommands(AOD)
      requires RAWSIMEventContent.outputCommands == LocalCommands(RAWSIM)
      requires RECOSIMEventContent.outputCommands == LocalCommands(RECOSIM)
      requires AODSIMEventContent.outputCommands == LocalCommands(AODSIM)
      modifies HLTDEBUGEventContent, RAWEventContent, RECOEventContent, AODEventContent,
        RAWSIMEventContent, RECOSIMEventContent, AODSIMEventContent
      ensures HLTDEBUGEventContent.outputCommands == Composed(env, HLTDEBUG)
      ensures RAWEventContent.outputCommands == Composed(env, RAW)
      ensures RECOEventContent.outputCommands == Composed(env, RECO)
      ensures AODEventContent.outputCommands == Composed(env, AOD)
      ensures RAWSIMEventContent.outputCommands == Composed(env, RAWSIM)
      ensures RECOSIMEventContent.outputCommands == Composed(env, RECOSIM)
      ensures AODSIMEventContent.outputCommands == Composed(env, AODSIM)
    {
      ExtendHLTDEBUG(env);
      ExtendRAW(env);
      ExtendRECO(env);
      ExtendAOD(env);
      ExtendRAWSIM(env);
      ExtendRECOSIM(env);
      ExtendAODSIM(env);
    }

    /** Lines 281-369: the tiers that combine RAW, the simulation blocks and the debug blocks. */
    method ExtendCombinedTiers(env: BlockContents)
      requires Named()
      requires FEVTEventContent.outputCommands == LocalCommands(FEVT)
      requires FEVTSIMEventContent.outputCommands == LocalCommands(FEVTSIM)
      requires RAWDEBUGEventContent.outputCommands == LocalCommands(RAWDEBUG)
      requires RAWDEBUGHLTEventContent.outputCommands == LocalCommands(RAWDEBUGHLT)
      requires FEVTDEBUGEventContent.outputCommands == LocalCommands(FEVTDEBUG)
      requires FEVTDEBUGHLTEventContent.outputCommands == LocalCommands(FEVTDEBUGHLT)
      requires RAWEventContent.outputCommands == Composed(env, RAW)
      modifies FEVTEventContent, FEVTSIMEventContent, RAWDEBUGEventContent,
        RAWDEBUGHLTEventContent, FEVTDEBUGEventContent, FEVTDEBUGHLTEventContent
      ensures FEVTEventContent.outputCommands == Composed(env, FEVT)
      ensures FEVTSIMEventContent.outputCommands == Composed(env, FEVTSIM)
      ensures RAWDEBUGEventContent.outputCommands == Composed(env, RAWDEBUG)
      ensures RAWDEBUGHLTEventContent.outputCommands == Composed(env, RAWDEBUGHLT)
      ensures FEVTDEBUGEventContent.outputCommands == Composed(env, FEVTDEBUG)
      ensures FEVTDEBUGHLTEventContent.outputCommands == Composed(env, FEVTDEBUGHLT)
    {
      ExtendFEVT(env);
      ExtendFEVTSIM(env);
      ExtendRAWDEBUG(env);
      ExtendRAWDEBUGHLT(env);
      ExtendFEVTDEBUG(env);
      ExtendFEVTDEBUGHLT(env);
    }

    /** The `extend` calls of line 204, which fill HLTDEBUGEventContent. */
    method ExtendHLTDEBUG(env: BlockContents)
      requires HLTDEBUGEventContent.outputCommands == LocalCommands(HLTDEBUG)
      modifies HLTDEBUGEventContent
      ensures HLTDEBUGEventContent.outputCommands == Composed(env, HLTDEBUG)
    {
      HLTDEBUGEventContent.Extend(env(block_hltDebugOutput));
      HltDebugClosedForm(env);
    }

    /** The `extend` calls of lines 208-209, which fill RAWEventContent. */
    method ExtendRAW(env: BlockContents)
      requires RAWEventContent.outputCommands == LocalCommands(RAW)
      modifies RAWEventContent
      ensures RAWEventContent.outputCommands == Composed(env, RAW)
    {
      RAWEventContent.Extend(env(L1TriggerRAW));
      RAWEventContent.Extend(env(HLTriggerRAW));
      RawClosedForm(env);
    }

    /** The `extend` calls of lines 210-229, which fill RECOEventContent. */
    method ExtendRECO(env: BlockContents)
      requires RECOEventContent.outputCommands == LocalCommands(RECO)
      modifies RECOEventContent
      ensures RECOEventContent.outputCommands == Composed(env, RECO)
    {
      RECOEventContent.Extend(env(RecoLocalTrackerRECO));
      RECOEventContent.Extend(env(RecoLocalMuonRECO));
      RECOEventContent.Extend(env(RecoLocalCaloRECO));
      RECOEventContent.Extend(env(RecoEcalRECO));
      RECOEventContent.Extend(env(TrackingToolsRECO));
      RECOEventContent.Extend(env(RecoTrackerRECO));
      RECOEventContent.Extend(env(RecoJetsRECO));
      RECOEventContent.Extend(env(RecoMETRECO));
      RECOEventContent.Extend(env(RecoMuonRECO));
      RECOEventContent.Extend(env(RecoBTauRECO));
      RECOEventContent.Extend(env(RecoBTagRECO));
      RECOEventContent.Extend(env(RecoTauTagRECO));
      RECOEventContent.Extend(env(RecoVertexRECO));
      RECOEventContent.Extend(env(RecoEgammaRECO));
      RECOEventContent.Extend(env(RecoPixelVertexingRECO));
      RECOEventContent.Extend(env(RecoParticleFlowRECO));
      RECOEventContent.Extend(env(BeamSpotRECO));
      RECOEventContent.Extend(env(L1TriggerRECO));
      RECOEventContent.Extend(env(HLTriggerRECO));
      RECOEventContent.Extend(env(MEtoEDMConverterRECO));
      RecoClosedForm(env);
    }

    /** The `extend` calls of lines 230-248, which fill AODEventContent. */
    method ExtendAOD(env: BlockContents)
      requires AODEventContent.outputCommands == LocalCommands(AOD)
      modifies AODEventContent
      ensures AODEventContent.outputCommands == Composed(env, AOD)
    {
      AODEventContent.Extend(env(RecoLocalTrackerAOD));
      AODEventContent.Extend(env(RecoLocalMuonAOD));
      AODEventContent.Extend(env(RecoLocalCaloAOD));
      AODEventContent.Extend(env(RecoEcalAOD));
      AODEventContent.Extend(env(TrackingToolsAOD));
      AODEventContent.Extend(env(RecoTrackerAOD));
      AODEventContent.Extend(env(RecoJetsAOD));
      AODEventContent.Extend(env(RecoMETAOD));
      AODEventContent.Extend(env(RecoMuonAOD));
      AODEventContent.Extend(env(RecoBTauAOD));
      AODEventContent.Extend(env(RecoBTagAOD));
      AODEventContent.Extend(env(RecoTauTagAOD));
      AODEventContent.Extend(env(RecoVertexAOD));
      AODEventContent.Extend(env(RecoEgammaAOD));
      AODEventContent.Extend(env(RecoParticleFlowAOD));
      AODEventContent.Extend(env(BeamSpotAOD));
      AODEventContent.Extend(env(L1TriggerAOD));
      AODEventContent.Extend(env(HLTriggerAOD));
      AODEventContent.Extend(env(MEtoEDMConverterAOD));
      AodClosedForm(env);
    }

    /** The `extend` calls of lines 249-260, which fill RAWSIMEventContent. */
    method ExtendRAWSIM(env: BlockContents)
      requires RAWSIMEventContent.outputCommands == LocalCommands(RAWSIM)
      requires RAWEventContent != RAWSIMEventContent
      requires RAWEventContent.outputCommands == Composed(env, RAW)
      modifies RAWSIMEventContent
      ensures RAWSIMEventContent.outputCommands == Composed(env, RAWSIM)
      ensures unchanged(RAWEventContent)
    {
      RAWSIMEventContent.Extend(RAWEventContent.outputCommands);
      RAWSIMEventContent.Extend(env(SimG4CoreRAW));
      RAWSIMEventContent.Extend(env(SimTrackerRAW));
      RAWSIMEventContent.Extend(env(SimMuonRAW));
      RAWSIMEventContent.Extend(env(SimCalorimetryRAW));
      RAWSIMEventContent.Extend(env(SimGeneralRAW));
      RAWSIMEventContent.Extend(env(GeneratorInterfaceRAW));
      RAWSIMEventContent.Extend(env(RecoGenJetsFEVT));
      RAWSIMEventContent.Extend(env(RecoGenMETFEVT));
      RAWSIMEventContent.Extend(env(DigiToRawFEVT));
      RAWSIMEventContent.Extend(env(MEtoEDMConverterFEVT));
      RAWSIMEventContent.Extend(env(IOMCRAW));
      RawSimClosedForm(env);
    }

    /** The `extend` calls of lines 261-270, which fill RECOSIMEventContent. */
    method ExtendRECOSIM(env: BlockContents)
      requires RECOSIMEventContent.outputCommands == LocalCommands(RECOSIM)
      requires RECOEventContent != RECOSIMEventContent
      requires RECOEventContent.outputCommands == Composed(env, RECO)
      modifies RECOSIMEventContent
      ensures RECOSIMEventContent.outputCommands == Composed(env, RECOSIM)
      ensures unchanged(RECOEventContent)
    {
      RECOSIMEventContent.Extend(RECOEventContent.outputCommands);
      RECOSIMEventContent.Extend(env(GeneratorInterfaceRECO));
      RECOSIMEventContent.Extend(env(RecoGenMETRECO));
      RECOSIMEventContent.Extend(env(RecoGenJetsRECO));
      RECOSIMEventContent.Extend(env(SimG4CoreRECO));
      RECOSIMEventContent.Extend(env(SimTrackerRECO));
      RECOSIMEventContent.Extend(env(SimMuonRECO));
      RECOSIMEventContent.Extend(env(SimCalorimetryRECO));
      RECOSIMEventContent.Extend(env(SimGeneralRECO));
      RECOSIMEventContent.Extend(env(MEtoEDMConverterRECO));
      RecoSimClosedForm(env);
    }

    /** The `extend` calls of lines 271-280, which fill AODSIMEventContent. */
    method ExtendAODSIM(env: BlockContents)
      requires AODSIMEventContent.outputCommands == LocalCommands(AODSIM)
      requires AODEventContent != AODSIMEventContent
      requires AODEventContent.outputCommands == Composed(env, AOD)
      modifies AODSIMEventContent
      ensures AODSIMEventContent.outputCommands == Composed(env, AODSIM)
      ensures unchanged(AODEventContent)
    {
      AODSIMEventContent.Extend(AODEventContent.outputCommands);
      AODSIMEventContent.Extend(env(GeneratorInterfaceAOD));
      AODSIMEventContent.Extend(env(SimG4CoreAOD));
      AODSIMEventContent.Extend(env(SimTrackerAOD));
      AODSIMEventContent.Extend(env(SimMuonAOD));
      AODSIMEventContent.Extend(env(SimCalorimetryAOD));
      AODSIMEventContent.Extend(env(RecoGenJetsAOD));
      AODSIMEventContent.Extend(env(RecoGenMETAOD));
      AODSIMEventContent.Extend(env(SimGeneralAOD));
      AODSIMEventContent.Extend(env(MEtoEDMConverterAOD));
      AodSimClosedForm(env);
    }

    /** The `extend` calls of lines 281-301, which fill FEVTEventContent. */
    method ExtendFEVT(env: BlockContents)
      requires FEVTEventContent.outputCommands == LocalCommands(FEVT)
      requires RAWEventContent != FEVTEventContent
      requires RAWEventContent.outputCommands == Composed(env, RAW)
      modifies FEVTEventContent
      ensures FEVTEventContent.outputCommands == Composed(env, FEVT)
      ensures unchanged(RAWEventContent)
    {
      FEVTEventContent.Extend(RAWEventContent.outputCommands);
      FEVTEventContent.Extend(env(RecoLocalTrackerRECO));
      FEVTEventContent.Extend(env(RecoLocalMuonRECO));
      FEVTEventContent.Extend(env(RecoLocalCaloRECO));
      FEVTEventContent.Extend(env(RecoEcalRECO));
      FEVTEventContent.Extend(env(TrackingToolsRECO));
      FEVTEventContent.Extend(env(RecoTrackerRECO));
      FEVTEventContent.Extend(env(RecoJetsRECO));
      FEVTEventContent.Extend(env(RecoMETRECO));
      FEVTEventContent.Extend(env(RecoMuonRECO));
      FEVTEventContent.Extend(env(RecoBTauRECO));
      FEVTEventContent.Extend(env(RecoBTagRECO));
      FEVTEventContent.Extend(env(RecoTauTagRECO));
      FEVTEventContent.Extend(env(RecoVertexRECO));
      FEVTEventContent.Extend(env(RecoEgammaRECO));
      FEVTEventContent.Extend(env(RecoPixelVertexingRECO));
      FEVTEventContent.Extend(env(RecoParticleFlowRECO));
      FEVTEventContent.Extend(env(BeamSpotRECO));
      FEVTEventContent.Extend(env(L1TriggerRECO));
      FEVTEventContent.Extend(env(HLTriggerRECO));
      FEVTEventContent.Extend(env(MEtoEDMConverterRECO));
      FevtClosedForm(env);
    }

    /** The `extend` calls of lines 302-342, which fill FEVTSIMEventContent. */
    method ExtendFEVTSIM(env: BlockContents)
      requires FEVTSIMEventContent.outputCommands == LocalCommands(FEVTSIM)
      requires RAWEventContent != FEVTSIMEventContent
      requires RAWEventContent.outputCommands == Composed(env, RAW)
      modifies FEVTSIMEventContent
      ensures FEVTSIMEventContent.outputCommands == Composed(env, FEVTSIM)
      ensures unchanged(RAWEventContent)
    {
      FEVTSIMEventContent.Extend(RAWEventContent.outputCommands);
      ghost var start := FEVTSIMEventContent.outputCommands;
      FEVTSIMEventContent.Extend(env(SimG4CoreRAW));
      FEVTSIMEventContent.Extend(env(SimTrackerRAW));
      FEVTSIMEventContent.Extend(env(SimMuonRAW));
      FEVTSIMEventContent.Extend(env(SimCalorimetryRAW));
      FEVTSIMEventContent.Extend(env(SimGeneralRAW));
      FEVTSIMEventContent.Extend(env(GeneratorInterfaceRAW));
      FEVTSIMEventContent.Extend(env(RecoGenJetsFEVT));
      FEVTSIMEventContent.Extend(env(RecoGenMETFEVT));
      FEVTSIMEventContent.Extend(env(DigiToRawFEVT));
      FEVTSIMEventContent.Extend(env(MEtoEDMConverterFEVT));
      FEVTSIMEventContent.Extend(env(IOMCRAW));
      assert unchanged(RAWEventContent);
      RawSimBlocksInOrder(env, start);
      ghost var afterRawSim := FEVTSIMEventContent.outputCommands;
      FEVTSIMEventContent.Extend(env(RecoLocalTrackerRECO));
      FEVTSIMEventContent.Extend(env(RecoLocalMuonRECO));
      FEVTSIMEventContent.Extend(env(RecoLocalCaloRECO));
      FEVTSIMEventContent.Extend(env(RecoEcalRECO));
      FEVTSIMEventContent.Extend(env(TrackingToolsRECO));
      FEVTSIMEventContent.Extend(env(RecoTrackerRECO));
      FEVTSIMEventContent.Extend(env(RecoJetsRECO));
      FEVTSIMEventContent.Extend(env(RecoMETRECO));
      FEVTSIMEventContent.Extend(env(RecoMuonRECO));
      FEVTSIMEventContent.Extend(env(RecoBTauRECO));
      FEVTSIMEventContent.Extend(env(RecoBTagRECO));
      FEVTSIMEventContent.Extend(env(RecoTauTagRECO));
      FEVTSIMEventContent.Extend(env(RecoVertexRECO));
      FEVTSIMEventContent.Extend(env(RecoEgammaRECO));
      FEVTSIMEventContent.Extend(env(RecoPixelVertexingRECO));
      FEVTSIMEventContent.Extend(env(RecoParticleFlowRECO));
      FEVTSIMEventContent.Extend(env(BeamSpotRECO));
      FEVTSIMEventContent.Extend(env(L1TriggerRECO));
      FEVTSIMEventContent.Extend(env(HLTriggerRECO));
      FEVTSIMEventContent.Extend(env(MEtoEDMConverterRECO));
      assert unchanged(RAWEventContent);
      RecoBlocksInOrder(env, afterRawSim);
      ghost var afterReco := FEVTSIMEventContent.outputCommands;
      FEVTSIMEventContent.Extend(env(GeneratorInterfaceRECO));
      FEVTSIMEventContent.Extend(env(RecoGenMETRECO));
      FEVTSIMEventContent.Extend(env(RecoGenJetsRECO));
      FEVTSIMEventContent.Extend(env(SimG4CoreRECO));
      FEVTSIMEventContent.Extend(env(SimTrackerRECO));
      FEVTSIMEventContent.Extend(env(SimMuonRECO));
      FEVTSIMEventContent.Extend(env(SimCalorimetryRECO));
      FEVTSIMEventContent.Extend(env(SimGeneralRECO));
      FEVTSIMEventContent.Extend(env(MEtoEDMConverterRECO));
      assert unchanged(RAWEventContent);
      RecoSimBlocksInOrder(env, afterReco);
      FevtSimInThreeRuns(env);
    }

    /** The `extend` calls of lines 343-359, which fill RAWDEBUGEventContent. */
    method ExtendRAWDEBUG(env: BlockContents)
      requires RAWDEBUGEventContent.outputCommands == LocalCommands(RAWDEBUG)
      requires RAWEventContent != RAWDEBUGEventContent
      requires RAWEventContent.outputCommands == Composed(env, RAW)
      modifies RAWDEBUGEventContent
      ensures RAWDEBUGEventContent.outputCommands == Composed(env, RAWDEBUG)
      ensures unchanged(RAWEventContent)
    {
      RAWDEBUGEventContent.Extend(RAWEventContent.outputCommands);
      RAWDEBUGEventContent.Extend(env(SimG4CoreRAW));
      RAWDEBUGEventContent.Extend(env(SimTrackerRAW));
      RAWDEBUGEventContent.Extend(env(SimMuonRAW));
      RAWDEBUGEventContent.Extend(env(SimCalorimetryRAW));
      RAWDEBUGEventContent.Extend(env(SimGeneralRAW));
      RAWDEBUGEventContent.Extend(env(GeneratorInterfaceRAW));
      RAWDEBUGEventContent.Extend(env(RecoGenJetsFEVT));
      RAWDEBUGEventContent.Extend(env(RecoGenMETFEVT));
      RAWDEBUGEventContent.Extend(env(DigiToRawFEVT));
      RAWDEBUGEventContent.Extend(env(MEtoEDMConverterFEVT));
      RAWDEBUGEventContent.Extend(env(IOMCRAW));
      RAWDEBUGEventContent.Extend(env(L1TriggerFEVTDEBUG));
      RAWDEBUGEventContent.Extend(env(SimGeneralFEVTDEBUG));
      RAWDEBUGEventContent.Extend(env(SimTrackerFEVTDEBUG));
      RAWDEBUGEventContent.Extend(env(SimMuonFEVTDEBUG));
      RAWDEBUGEventContent.Extend(env(SimCalorimetryFEVTDEBUG));
      RawDebugClosedForm(env);
    }

    /** The `extend` calls of lines 360-361, which fill RAWDEBUGHLTEventContent. */
    method ExtendRAWDEBUGHLT(env: BlockContents)
      requires RAWDEBUGHLTEventContent.outputCommands == LocalCommands(RAWDEBUGHLT)
      requires RAWDEBUGEventContent != RAWDEBUGHLTEventContent
      requires RAWDEBUGEventContent.outputCommands == Composed(env, RAWDEBUG)
      modifies RAWDEBUGHLTEventContent
      ensures RAWDEBUGHLTEventContent.outputCommands == Composed(env, RAWDEBUGHLT)
      ensures unchanged(RAWDEBUGEventContent)
    {
      RAWDEBUGHLTEventContent.Extend(RAWDEBUGEventContent.outputCommands);
      RAWDEBUGHLTEventContent.Extend(env(HLTDebugRAW));
      RawDebugHltClosedForm(env);
    }

    /** The `extend` calls of lines 362-367, which fill FEVTDEBUGEventContent. */
    method ExtendFEVTDEBUG(env: BlockContents)
      requires FEVTDEBUGEventContent.outputCommands == LocalCommands(FEVTDEBUG)
      requires FEVTSIMEventContent != FEVTDEBUGEventContent
      requires FEVTSIMEventContent.outputCommands == Composed(env, FEVTSIM)
      modifies FEVTDEBUGEventContent
      ensures FEVTDEBUGEventContent.outputCommands == Composed(env, FEVTDEBUG)
      ensures unchanged(FEVTSIMEventContent)
    {
      FEVTDEBUGEventContent.Extend(FEVTSIMEventContent.outputCommands);
      FEVTDEBUGEventContent.Extend(env(L1TriggerFEVTDEBUG));
      FEVTDEBUGEventContent.Extend(env(SimGeneralFEVTDEBUG));
      FEVTDEBUGEventContent.Extend(env(SimTrackerFEVTDEBUG));
      FEVTDEBUGEventContent.Extend(env(SimMuonFEVTDEBUG));
      FEVTDEBUGEventContent.Extend(env(SimCalorimetryFEVTDEBUG));
      FevtDebugClosedForm(env);
    }

    /** The `extend` calls of lines 368-369, which fill FEVTDEBUGHLTEventContent. */
    method ExtendFEVTDEBUGHLT(env: BlockContents)
      requires FEVTDEBUGHLTEventContent.outputCommands == LocalCommands(FEVTDEBUGHLT)
      requires FEVTDEBUGEventContent != FEVTDEBUGHLTEventContent
      requires FEVTDEBUGEventContent.outputCommands == Composed(env, FEVTDEBUG)
      modifies FEVTDEBUGHLTEventContent
      ensures FEVTDEBUGHLTEventContent.outputCommands == Composed(env, FEVTDEBUGHLT)
      ensures unchanged(FEVTDEBUGEventContent)
    {
      FEVTDEBUGHLTEventContent.Extend(FEVTDEBUGEventContent.outputCommands);
      FEVTDEBUGHLTEventContent.Extend(env(HLTDebugFEVT));
      FevtDebugHltClosedForm(env);
    }
  }
}
