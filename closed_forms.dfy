/**
 * Each tier's final list in closed form: the literal prefix it is created
 * with, the final list of the tier it copies (if any), then the commands of
 * its blocks, one block after another, in the order of the script's lines.
 */
module ClosedForms {
  import opened EventContent
  import opened Composition

  /** Extending any list with RAW's blocks appends them one by one, in the order of lines 208-209. */
  lemma RawBlocksInOrder(env: BlockContents, start: seq<string>)
    ensures Extended(env, start, Blocks(RAW)) ==
      start
        + env(L1TriggerRAW) + env(HLTriggerRAW)
  {
    var names := Blocks(RAW);
    assert names[..0] == [];
    ExtendedStep(env, start, names, 0);
    ExtendedStep(env, start, names, 1);
    assert names[..2] == names;
  }

  /** Extending any list with RECO's blocks appends them one by one, in the order of lines 210-229. */
  lemma RecoBlocksInOrder(env: BlockContents, start: seq<string>)
    ensures Extended(env, start, Blocks(RECO)) ==
      start
        + env(RecoLocalTrackerRECO) + env(RecoLocalMuonRECO) + env(RecoLocalCaloRECO)
        + env(RecoEcalRECO) + env(TrackingToolsRECO) + env(RecoTrackerRECO)
        + env(RecoJetsRECO) + env(RecoMETRECO) + env(RecoMuonRECO)
        + env(RecoBTauRECO) + env(RecoBTagRECO) + env(RecoTauTagRECO)
        + env(RecoVertexRECO) + env(RecoEgammaRECO) + env(RecoPixelVertexingRECO)
        + env(RecoParticleFlowRECO) + env(BeamSpotRECO) + env(L1TriggerRECO)
        + env(HLTriggerRECO) + env(MEtoEDMConverterRECO)
  {
    var names := Blocks(RECO);
    assert names[..0] == [];
    ExtendedStep(env, start, names, 0);
    ExtendedStep(env, start, names, 1);
    ExtendedStep(env, start, names, 2);
    ExtendedStep(env, start, names, 3);
    ExtendedStep(env, start, names, 4);
    ExtendedStep(env, start, names, 5);
    ExtendedStep(env, start, names, 6);
    ExtendedStep(env, start, names, 7);
    ExtendedStep(env, start, names, 8);
    ExtendedStep(env, start, names, 9);
    ExtendedStep(env, start, names, 10);
    ExtendedStep(env, start, names, 11);
    ExtendedStep(env, start, names, 12);
    ExtendedStep(env, start, names, 13);
    ExtendedStep(env, start, names, 14);
    ExtendedStep(env, start, names, 15);
    ExtendedStep(env, start, names, 16);
    ExtendedStep(env, start, names, 17);
    ExtendedStep(env, start, names, 18);
    ExtendedStep(env, start, names, 19);
    assert names[..20] == names;
  }

  /** Extending any list with AOD's blocks appends them one by one, in the order of lines 230-248. */
  lemma AodBlocksInOrder(env: BlockContents, start: seq<string>)
    ensures Extended(env, start, Blocks(AOD)) ==
      start
        + env(RecoLocalTrackerAOD) + env(RecoLocalMuonAOD) + env(RecoLocalCaloAOD)
        + env(RecoEcalAOD) + env(TrackingToolsAOD) + env(RecoTrackerAOD)
        + env(RecoJetsAOD) + env(RecoMETAOD) + env(RecoMuonAOD)
        + env(RecoBTauAOD) + env(RecoBTagAOD) + env(RecoTauTagAOD)
        + env(RecoVertexAOD) + env(RecoEgammaAOD) + env(RecoParticleFlowAOD)
        + env(BeamSpotAOD) + env(L1TriggerAOD) + env(HLTriggerAOD)
        + env(MEtoEDMConverterAOD)
  {
    var names := Blocks(AOD);
    assert names[..0] == [];
    ExtendedStep(env, start, names, 0);
    ExtendedStep(env, start, names, 1);
    ExtendedStep(env, start, names, 2);
    ExtendedStep(env, start, names, 3);
    ExtendedStep(env, start, names, 4);
    ExtendedStep(env, start, names, 5);
    ExtendedStep(env, start, names, 6);
    ExtendedStep(env, start, names, 7);
    ExtendedStep(env, start, names, 8);
    ExtendedStep(env, start, names, 9);
    ExtendedStep(env, start, names, 10);
    ExtendedStep(env, start, names, 11);
    ExtendedStep(env, start, names, 12);
    ExtendedStep(env, start, names, 13);
    ExtendedStep(env, start, names, 14);
    ExtendedStep(env, start, names, 15);
    ExtendedStep(env, start, names, 16);
    ExtendedStep(env, start, names, 17);
    ExtendedStep(env, start, names, 18);
    assert names[..19] == names;
  }

  /** Extending any list with RAWSIM's blocks appends them one by one, in the order of lines 250-260. */
  lemma RawSimBlocksInOrder(env: BlockContents, start: seq<string>)
    ensures Extended(env, start, Blocks(RAWSIM)) ==
      start
        + env(SimG4CoreRAW) + env(SimTrackerRAW) + env(SimMuonRAW)
        + env(SimCalorimetryRAW) + env(SimGeneralRAW) + env(GeneratorInterfaceRAW)
        + env(RecoGenJetsFEVT) + env(RecoGenMETFEVT) + env(DigiToRawFEVT)
        + env(MEtoEDMConverterFEVT) + env(IOMCRAW)
  {
    var names := Blocks(RAWSIM);
    assert names[..0] == [];
    ExtendedStep(env, start, names, 0);
    ExtendedStep(env, start, names, 1);
    ExtendedStep(env, start, names, 2);
    ExtendedStep(env, start, names, 3);
    ExtendedStep(env, start, names, 4);
    ExtendedStep(env, start, names, 5);
    ExtendedStep(env, start, names, 6);
    ExtendedStep(env, start, names, 7);
    ExtendedStep(env, start, names, 8);
    ExtendedStep(env, start, names, 9);
    ExtendedStep(env, start, names, 10);
    assert names[..11] == names;
  }

  /** Extending any list with RECOSIM's blocks appends them one by one, in the order of lines 262-270. */
  lemma RecoSimBlocksInOrder(env: BlockContents, start: seq<string>)
    ensures Extended(env, start, Blocks(RECOSIM)) ==
      start
        + env(GeneratorInterfaceRECO) + env(RecoGenMETRECO) + env(RecoGenJetsRECO)
        + env(SimG4CoreRECO) + env(SimTrackerRECO) + env(SimMuonRECO)
        + env(SimCalorimetryRECO) + env(SimGeneralRECO) + env(MEtoEDMConverterRECO)
  {
    var names := Blocks(RECOSIM);
    assert names[..0] == [];
    ExtendedStep(env, start, names, 0);
    ExtendedStep(env, start, names, 1);
    ExtendedStep(env, start, names, 2);
    ExtendedStep(env, start, names, 3);
    ExtendedStep(env, start, names, 4);
    ExtendedStep(env, start, names, 5);
    ExtendedStep(env, start, names, 6);
    ExtendedStep(env, start, names, 7);
    ExtendedStep(env, start, names, 8);
    assert names[..9] == names;
  }

  /** Extending any list with AODSIM's blocks appends them one by one, in the order of lines 272-280. */
  lemma AodSimBlocksInOrder(env: BlockContents, start: seq<string>)
    ensures Extended(env, start, Blocks(AODSIM)) ==
      start
        + env(GeneratorInterfaceAOD) + env(SimG4CoreAOD) + env(SimTrackerAOD)
        + env(SimMuonAOD) + env(SimCalorimetryAOD) + env(RecoGenJetsAOD)
        + env(RecoGenMETAOD) + env(SimGeneralAOD) + env(MEtoEDMConverterAOD)
  {
    var names := Blocks(AODSIM);
    assert names[..0] == [];
    ExtendedStep(env, start, names, 0);
    ExtendedStep(env, start, names, 1);
    ExtendedStep(env, start, names, 2);
    ExtendedStep(env, start, names, 3);
    ExtendedStep(env, start, names, 4);
    ExtendedStep(env, start, names, 5);
    ExtendedStep(env, start, names, 6);
    ExtendedStep(env, start, names, 7);
    ExtendedStep(env, start, names, 8);
    assert names[..9] == names;
  }

  /** Extending any list with FEVTDEBUG's blocks appends them one by one, in the order of lines 363-367. */
  lemma FevtDebugBlocksInOrder(env: BlockContents, start: seq<string>)
    ensures Extended(env, start, Blocks(FEVTDEBUG)) ==
      start
        + env(L1TriggerFEVTDEBUG) + env(SimGeneralFEVTDEBUG) + env(SimTrackerFEVTDEBUG)
        + env(SimMuonFEVTDEBUG) + env(SimCalorimetryFEVTDEBUG)
  {
    var names := Blocks(FEVTDEBUG);
    assert names[..0] == [];
    ExtendedStep(env, start, names, 0);
    ExtendedStep(env, start, names, 1);
    ExtendedStep(env, start, names, 2);
    ExtendedStep(env, start, names, 3);
    ExtendedStep(env, start, names, 4);
    assert names[..5] == names;
  }

  /** FEVT is extended with the same twenty blocks as RECO, in the same order. */
  lemma FevtBlocksAreRecoBlocks()
    ensures Blocks(FEVT) == Blocks(RECO)
  {
  }

  /**
   * FEVTSIM's blocks are RAWSIM's blocks, then RECO's, then RECOSIM's, each run
   * in its own order; MEtoEDMConverterRECO, the last block of both RECO and
   * RECOSIM, is listed twice.
   */
  lemma FevtSimBlocksJoinRawSimRecoRecoSim()
    ensures Blocks(FEVTSIM) == Blocks(RAWSIM) + Blocks(RECO) + Blocks(RECOSIM)
    ensures Blocks(FEVTSIM)[30] == Blocks(FEVTSIM)[39] == MEtoEDMConverterRECO
  {
    assert Blocks(FEVTSIM) == Blocks(RAWSIM) + Blocks(RECO) + Blocks(RECOSIM);
  }

  /** RAWDEBUG's blocks are RAWSIM's blocks followed by FEVTDEBUG's five debug blocks. */
  lemma RawDebugBlocksJoinRawSimFevtDebug()
    ensures Blocks(RAWDEBUG) == Blocks(RAWSIM) + Blocks(FEVTDEBUG)
  {
    assert Blocks(RAWDEBUG) == Blocks(RAWSIM) + Blocks(FEVTDEBUG);
  }

  /** The final HLTDEBUG list, after line 204: its local prefix, then its blocks, one after another. */
  lemma HltDebugClosedForm(env: BlockContents)
    ensures Composed(env, HLTDEBUG) ==
      LocalCommands(HLTDEBUG)
        + env(block_hltDebugOutput)
  {
    assert Blocks(HLTDEBUG) == [block_hltDebugOutput];
    assert Parent(HLTDEBUG) == None;
    assert ParentCommands(env, HLTDEBUG) == [];
    var start := LocalCommands(HLTDEBUG);
    assert LocalCommands(HLTDEBUG) + ParentCommands(env, HLTDEBUG) == start;
    assert Composed(env, HLTDEBUG) == Extended(env, start, [block_hltDebugOutput]);
    ExtendedSingle(env, start, block_hltDebugOutput);
  }

  /**
   * The final RAW list, after lines 208-209: its local prefix, then its
   * blocks, one after another; written out, with the double space the script's
   * two keep commands carry.
   */
  lemma RawClosedForm(env: BlockContents)
    ensures Composed(env, RAW) ==
      LocalCommands(RAW)
        + env(L1TriggerRAW) + env(HLTriggerRAW)
    ensures Composed(env, RAW) ==
      [ "drop *",
        "keep  FEDRawDataCollection_rawDataCollector_*_*",
        "keep  FEDRawDataCollection_source_*_*" ]
        + env(L1TriggerRAW) + env(HLTriggerRAW)
  {
    assert Parent(RAW) == None;
    assert ParentCommands(env, RAW) == [];
    var start := LocalCommands(RAW);
    assert LocalCommands(RAW) + ParentCommands(env, RAW) == start;
    assert Composed(env, RAW) == Extended(env, start, Blocks(RAW));
    RawBlocksInOrder(env, start);
  }

  /** The final RECO list, after lines 210-229: its local prefix, then its blocks, one after another. */
  lemma RecoClosedForm(env: BlockContents)
    ensures Composed(env, RECO) ==
      LocalCommands(RECO)
        + env(RecoLocalTrackerRECO) + env(RecoLocalMuonRECO) + env(RecoLocalCaloRECO)
        + env(RecoEcalRECO) + env(TrackingToolsRECO) + env(RecoTrackerRECO)
        + env(RecoJetsRECO) + env(RecoMETRECO) + env(RecoMuonRECO)
        + env(RecoBTauRECO) + env(RecoBTagRECO) + env(RecoTauTagRECO)
        + env(RecoVertexRECO) + env(RecoEgammaRECO) + env(RecoPixelVertexingRECO)
        + env(RecoParticleFlowRECO) + env(BeamSpotRECO) + env(L1TriggerRECO)
        + env(HLTriggerRECO) + env(MEtoEDMConverterRECO)
  {
    assert Parent(RECO) == None;
    assert ParentCommands(env, RECO) == [];
    var start := LocalCommands(RECO);
    assert LocalCommands(RECO) + ParentCommands(env, RECO) == start;
    assert Composed(env, RECO) == Extended(env, start, Blocks(RECO));
    RecoBlocksInOrder(env, start);
  }

  /** The final AOD list, after lines 230-248: its local prefix, then its blocks, one after another. */
  lemma AodClosedForm(env: BlockContents)
    ensures Composed(env, AOD) ==
      LocalCommands(AOD)
        + env(RecoLocalTrackerAOD) + env(RecoLocalMuonAOD) + env(RecoLocalCaloAOD)
        + env(RecoEcalAOD) + env(TrackingToolsAOD) + env(RecoTrackerAOD)
        + env(RecoJetsAOD) + env(RecoMETAOD) + env(RecoMuonAOD)
        + env(RecoBTauAOD) + env(RecoBTagAOD) + env(RecoTauTagAOD)
        + env(RecoVertexAOD) + env(RecoEgammaAOD) + env(RecoParticleFlowAOD)
        + env(BeamSpotAOD) + env(L1TriggerAOD) + env(HLTriggerAOD)
        + env(MEtoEDMConverterAOD)
  {
    assert Parent(AOD) == None;
    assert ParentCommands(env, AOD) == [];
    var start := LocalCommands(AOD);
    assert LocalCommands(AOD) + ParentCommands(env, AOD) == start;
    assert Composed(env, AOD) == Extended(env, start, Blocks(AOD));
    AodBlocksInOrder(env, start);
  }

  /** The final RAWSIM list, after lines 249-260: its local prefix, then the final RAW list, then its blocks, one after another. */
  lemma RawSimClosedForm(env: BlockContents)
    ensures Composed(env, RAWSIM) ==
      LocalCommands(RAWSIM) + Composed(env, RAW)
        + env(SimG4CoreRAW) + env(SimTrackerRAW) + env(SimMuonRAW)
        + env(SimCalorimetryRAW) + env(SimGeneralRAW) + env(GeneratorInterfaceRAW)
        + env(RecoGenJetsFEVT) + env(RecoGenMETFEVT) + env(DigiToRawFEVT)
        + env(MEtoEDMConverterFEVT) + env(IOMCRAW)
  {
    assert Parent(RAWSIM) == Some(RAW);
    assert ParentCommands(env, RAWSIM) == Composed(env, RAW);
    var start := LocalCommands(RAWSIM) + Composed(env, RAW);
    assert Composed(env, RAWSIM) == Extended(env, start, Blocks(RAWSIM));
    RawSimBlocksInOrder(env, start);
  }

  /** The final RECOSIM list, after lines 261-270: its local prefix, then the final RECO list, then its blocks, one after another. */
  lemma RecoSimClosedForm(env: BlockContents)
    ensures Composed(env, RECOSIM) ==
      LocalCommands(RECOSIM) + Composed(env, RECO)
        + env(GeneratorInterfaceRECO) + env(RecoGenMETRECO) + env(RecoGenJetsRECO)
        + env(SimG4CoreRECO) + env(SimTrackerRECO) + env(SimMuonRECO)
        + env(SimCalorimetryRECO) + env(SimGeneralRECO) + env(MEtoEDMConverterRECO)
  {
    assert Parent(RECOSIM) == Some(RECO);
    assert ParentCommands(env, RECOSIM) == Composed(env, RECO);
    var start := LocalCommands(RECOSIM) + Composed(env, RECO);
    assert Composed(env, RECOSIM) == Extended(env, start, Blocks(RECOSIM));
    RecoSimBlocksInOrder(env, start);
  }

  /** The final AODSIM list, after lines 271-280: its local prefix, then the final AOD list, then its blocks, one after another. */
  lemma AodSimClosedForm(env: BlockContents)
    ensures Composed(env, AODSIM) ==
      LocalCommands(AODSIM) + Composed(env, AOD)
        + env(GeneratorInterfaceAOD) + env(SimG4CoreAOD) + env(SimTrackerAOD)
        + env(SimMuonAOD) + env(SimCalorimetryAOD) + env(RecoGenJetsAOD)
        + env(RecoGenMETAOD) + env(SimGeneralAOD) + env(MEtoEDMConverterAOD)
  {
    assert Parent(AODSIM) == Some(AOD);
    assert ParentCommands(env, AODSIM) == Composed(env, AOD);
    var start := LocalCommands(AODSIM) + Composed(env, AOD);
    assert Composed(env, AODSIM) == Extended(env, start, Blocks(AODSIM));
    AodSimBlocksInOrder(env, start);
  }

  /** The final FEVT list, after lines 281-301: its local prefix, then the final RAW list, then its blocks, one after another. */
  lemma FevtClosedForm(env: BlockContents)
    ensures Composed(env, FEVT) ==
      LocalCommands(FEVT) + Composed(env, RAW)
        + env(RecoLocalTrackerRECO) + env(RecoLocalMuonRECO) + env(RecoLocalCaloRECO)
        + env(RecoEcalRECO) + env(TrackingToolsRECO) + env(RecoTrackerRECO)
        + env(RecoJetsRECO) + env(RecoMETRECO) + env(RecoMuonRECO)
        + env(RecoBTauRECO) + env(RecoBTagRECO) + env(RecoTauTagRECO)
        + env(RecoVertexRECO) + env(RecoEgammaRECO) + env(RecoPixelVertexingRECO)
        + env(RecoParticleFlowRECO) + env(BeamSpotRECO) + env(L1TriggerRECO)
        + env(HLTriggerRECO) + env(MEtoEDMConverterRECO)
  {
    assert Parent(FEVT) == Some(RAW);
    assert ParentCommands(env, FEVT) == Composed(env, RAW);
    var start := LocalCommands(FEVT) + Composed(env, RAW);
    FevtBlocksAreRecoBlocks();
    assert Composed(env, FEVT) == Extended(env, start, Blocks(FEVT));
    RecoBlocksInOrder(env, start);
  }

  /**
   * FEVTSIM's list as the three runs of `extend` calls at lines 303-313,
   * 314-333 and 334-342 leave it, after the copy of RAW at line 302.
   */
  lemma FevtSimInThreeRuns(env: BlockContents)
    ensures Composed(env, FEVTSIM) ==
      Extended(env, Extended(env, Extended(env, LocalCommands(FEVTSIM) + Composed(env, RAW), Blocks(RAWSIM)), Blocks(RECO)), Blocks(RECOSIM))
  {
    assert Parent(FEVTSIM) == Some(RAW);
    assert ParentCommands(env, FEVTSIM) == Composed(env, RAW);
    var start := LocalCommands(FEVTSIM) + Composed(env, RAW);
    FevtSimBlocksJoinRawSimRecoRecoSim();
    ExtendedAppendThree(env, start, Blocks(FEVTSIM), Blocks(RAWSIM), Blocks(RECO), Blocks(RECOSIM));
  }

  /** The final FEVTSIM list, after lines 302-342: its local prefix, then the final RAW list, then its blocks, one after another. */
  lemma FevtSimClosedForm(env: BlockContents)
    ensures Composed(env, FEVTSIM) ==
      LocalCommands(FEVTSIM) + Composed(env, RAW)
        + env(SimG4CoreRAW) + env(SimTrackerRAW) + env(SimMuonRAW)
        + env(SimCalorimetryRAW) + env(SimGeneralRAW) + env(GeneratorInterfaceRAW)
        + env(RecoGenJetsFEVT) + env(RecoGenMETFEVT) + env(DigiToRawFEVT)
        + env(MEtoEDMConverterFEVT) + env(IOMCRAW) + env(RecoLocalTrackerRECO)
        + env(RecoLocalMuonRECO) + env(RecoLocalCaloRECO) + env(RecoEcalRECO)
        + env(TrackingToolsRECO) + env(RecoTrackerRECO) + env(RecoJetsRECO)
        + env(RecoMETRECO) + env(RecoMuonRECO) + env(RecoBTauRECO)
        + env(RecoBTagRECO) + env(RecoTauTagRECO) + env(RecoVertexRECO)
        + env(RecoEgammaRECO) + env(RecoPixelVertexingRECO) + env(RecoParticleFlowRECO)
        + env(BeamSpotRECO) + env(L1TriggerRECO) + env(HLTriggerRECO)
        + env(MEtoEDMConverterRECO) + env(GeneratorInterfaceRECO) + env(RecoGenMETRECO)
        + env(RecoGenJetsRECO) + env(SimG4CoreRECO) + env(SimTrackerRECO)
        + env(SimMuonRECO) + env(SimCalorimetryRECO) + env(SimGeneralRECO)
        + env(MEtoEDMConverterRECO)
  {
    assert Parent(FEVTSIM) == Some(RAW);
    assert ParentCommands(env, FEVTSIM) == Composed(env, RAW);
    var start := LocalCommands(FEVTSIM) + Composed(env, RAW);
    var afterRawSim := Extended(env, start, Blocks(RAWSIM));
    var afterReco := Extended(env, afterRawSim, Blocks(RECO));
    assert Composed(env, FEVTSIM) == Extended(env, afterReco, Blocks(RECOSIM)) by {
      FevtSimBlocksJoinRawSimRecoRecoSim();
      ExtendedAppendThree(env, start, Blocks(FEVTSIM), Blocks(RAWSIM), Blocks(RECO), Blocks(RECOSIM));
    }
    RawSimBlocksInOrder(env, start);
    RecoBlocksInOrder(env, afterRawSim);
    RecoSimBlocksInOrder(env, afterReco);
  }

  /** The final RAWDEBUG list, after lines 343-359: its local prefix, then the final RAW list, then its blocks, one after another. */
  lemma RawDebugClosedForm(env: BlockContents)
    ensures Composed(env, RAWDEBUG) ==
      LocalCommands(RAWDEBUG) + Composed(env, RAW)
        + env(SimG4CoreRAW) + env(SimTrackerRAW) + env(SimMuonRAW)
        + env(SimCalorimetryRAW) + env(SimGeneralRAW) + env(GeneratorInterfaceRAW)
        + env(RecoGenJetsFEVT) + env(RecoGenMETFEVT) + env(DigiToRawFEVT)
        + env(MEtoEDMConverterFEVT) + env(IOMCRAW) + env(L1TriggerFEVTDEBUG)
        + env(SimGeneralFEVTDEBUG) + env(SimTrackerFEVTDEBUG) + env(SimMuonFEVTDEBUG)
        + env(SimCalorimetryFEVTDEBUG)
  {
    assert Parent(RAWDEBUG) == Some(RAW);
    assert ParentCommands(env, RAWDEBUG) == Composed(env, RAW);
    var start := LocalCommands(RAWDEBUG) + Composed(env, RAW);
    var afterRawSim := Extended(env, start, Blocks(RAWSIM));
    assert Composed(env, RAWDEBUG) == Extended(env, afterRawSim, Blocks(FEVTDEBUG)) by {
      RawDebugBlocksJoinRawSimFevtDebug();
      ExtendedAppend(env, start, Blocks(RAWSIM), Blocks(FEVTDEBUG));
    }
    RawSimBlocksInOrder(env, start);
    FevtDebugBlocksInOrder(env, afterRawSim);
  }

  /** The final RAWDEBUGHLT list, after lines 360-361: its local prefix, then the final RAWDEBUG list, then its blocks, one after another. */
  lemma RawDebugHltClosedForm(env: BlockContents)
    ensures Composed(env, RAWDEBUGHLT) ==
      LocalCommands(RAWDEBUGHLT) + Composed(env, RAWDEBUG)
        + env(HLTDebugRAW)
  {
    assert Blocks(RAWDEBUGHLT) == [HLTDebugRAW];
    assert Parent(RAWDEBUGHLT) == Some(RAWDEBUG);
    assert ParentCommands(env, RAWDEBUGHLT) == Composed(env, RAWDEBUG);
    var start := LocalCommands(RAWDEBUGHLT) + Composed(env, RAWDEBUG);
    assert Composed(env, RAWDEBUGHLT) == Extended(env, start, [HLTDebugRAW]);
    ExtendedSingle(env, start, HLTDebugRAW);
  }

  /** The final FEVTDEBUG list, after lines 362-367: its local prefix, then the final FEVTSIM list, then its blocks, one after another. */
  lemma FevtDebugClosedForm(env: BlockContents)
    ensures Composed(env, FEVTDEBUG) ==
      LocalCommands(FEVTDEBUG) + Composed(env, FEVTSIM)
        + env(L1TriggerFEVTDEBUG) + env(SimGeneralFEVTDEBUG) + env(SimTrackerFEVTDEBUG)
        + env(SimMuonFEVTDEBUG) + env(SimCalorimetryFEVTDEBUG)
  {
    assert Parent(FEVTDEBUG) == Some(FEVTSIM);
    assert ParentCommands(env, FEVTDEBUG) == Composed(env, FEVTSIM);
    var start := LocalCommands(FEVTDEBUG) + Composed(env, FEVTSIM);
    assert Composed(env, FEVTDEBUG) == Extended(env, start, Blocks(FEVTDEBUG));
    FevtDebugBlocksInOrder(env, start);
  }

  /** The final FEVTDEBUGHLT list, after lines 368-369: its local prefix, then the final FEVTDEBUG list, then its blocks, one after another. */
  lemma FevtDebugHltClosedForm(env: BlockContents)
    ensures Composed(env, FEVTDEBUGHLT) ==
      LocalCommands(FEVTDEBUGHLT) + Composed(env, FEVTDEBUG)
        + env(HLTDebugFEVT)
  {
    assert Blocks(FEVTDEBUGHLT) == [HLTDebugFEVT];
    assert Parent(FEVTDEBUGHLT) == Some(FEVTDEBUG);
    assert ParentCommands(env, FEVTDEBUGHLT) == Composed(env, FEVTDEBUG);
    var start := LocalCommands(FEVTDEBUGHLT) + Composed(env, FEVTDEBUG);
    assert Composed(env, FEVTDEBUGHLT) == Extended(env, start, [HLTDebugFEVT]);
    ExtendedSingle(env, start, HLTDebugFEVT);
  }
}
