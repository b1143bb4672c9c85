/**
 * The data tiers of the event-content configuration (python/EventContent_cff.py)
 * and what each tier's `outputCommands` list is once the script has run.
 *
 * The script declares thirteen parameter sets `<TIER>EventContent`, each with a
 * short local list of keep/drop command strings, and then grows every list by a
 * fixed run of in-place `extend` calls. Each call appends either an imported
 * subsystem block or the list of an earlier tier as it stands at that moment.
 * This module states that composition as data (a local prefix, an optional
 * parent tier copied first, then blocks in order) and as one function,
 * `Composed`, giving each tier's final list.
 */
module EventContent {

  datatype Option<T> = None | Some(value: T)

  /** The thirteen data tiers, one per `<TIER>EventContent` parameter set. */
  datatype Tier =
    | RAW | RECO | AOD | RAWSIM | RECOSIM | AODSIM | FEVT | FEVTSIM
    | RAWDEBUG | RAWDEBUGHLT | FEVTDEBUG | FEVTDEBUGHLT | HLTDEBUG

  /**
   * The subsystem rule blocks the script imports, under the names it uses,
   * in order of first use.
   */
  datatype Block =
    | block_hltDebugOutput | L1TriggerRAW | HLTriggerRAW | RecoLocalTrackerRECO
    | RecoLocalMuonRECO | RecoLocalCaloRECO | RecoEcalRECO | TrackingToolsRECO
    | RecoTrackerRECO | RecoJetsRECO | RecoMETRECO | RecoMuonRECO
    | RecoBTauRECO | RecoBTagRECO | RecoTauTagRECO | RecoVertexRECO
    | RecoEgammaRECO | RecoPixelVertexingRECO | RecoParticleFlowRECO | BeamSpotRECO
    | L1TriggerRECO | HLTriggerRECO | MEtoEDMConverterRECO | RecoLocalTrackerAOD
    | RecoLocalMuonAOD | RecoLocalCaloAOD | RecoEcalAOD | TrackingToolsAOD
    | RecoTrackerAOD | RecoJetsAOD | RecoMETAOD | RecoMuonAOD
    | RecoBTauAOD | RecoBTagAOD | RecoTauTagAOD | RecoVertexAOD
    | RecoEgammaAOD | RecoParticleFlowAOD | BeamSpotAOD | L1TriggerAOD
    | HLTriggerAOD | MEtoEDMConverterAOD | SimG4CoreRAW | SimTrackerRAW
    | SimMuonRAW | SimCalorimetryRAW | SimGeneralRAW | GeneratorInterfaceRAW
    | RecoGenJetsFEVT | RecoGenMETFEVT | DigiToRawFEVT | MEtoEDMConverterFEVT
    | IOMCRAW | GeneratorInterfaceRECO | RecoGenMETRECO | RecoGenJetsRECO
    | SimG4CoreRECO | SimTrackerRECO | SimMuonRECO | SimCalorimetryRECO
    | SimGeneralRECO | GeneratorInterfaceAOD | SimG4CoreAOD | SimTrackerAOD
    | SimMuonAOD | SimCalorimetryAOD | RecoGenJetsAOD | RecoGenMETAOD
    | SimGeneralAOD | L1TriggerFEVTDEBUG | SimGeneralFEVTDEBUG | SimTrackerFEVTDEBUG
    | SimMuonFEVTDEBUG | SimCalorimetryFEVTDEBUG | HLTDebugRAW | HLTDebugFEVT

  /**
   * The `outputCommands` of every imported block. The blocks are defined in
   * other packages, so their contents are a parameter of the model.
   */
  type BlockContents = Block -> seq<string>

  const DropAll: string := "drop *"
  const KeepLogErrors: string := "keep *_logErrorHarvester_*_*"

  /** The list each tier's parameter set is created with: one to three commands, `drop *` first. */
  function LocalCommands(t: Tier): (r: seq<string>)
    ensures 1 <= |r| <= 3 && r[0] == DropAll
  {
    match t
    case RAW =>
      [ DropAll,
        "keep  FEDRawDataCollection_rawDataCollector_*_*",
        "keep  FEDRawDataCollection_source_*_*" ]
    case RECO => [DropAll, KeepLogErrors]
    case AOD => [DropAll, KeepLogErrors]
    case RAWSIM => [DropAll]
    case RECOSIM => [DropAll, KeepLogErrors]
    case AODSIM => [DropAll, KeepLogErrors]
    case FEVT => [DropAll, KeepLogErrors]
    case FEVTSIM => [DropAll, KeepLogErrors]
    case RAWDEBUG => [DropAll, KeepLogErrors]
    case RAWDEBUGHLT => [DropAll, KeepLogErrors]
    case FEVTDEBUG => [DropAll, KeepLogErrors]
    case FEVTDEBUGHLT => [DropAll, KeepLogErrors]
    case HLTDEBUG => [DropAll, KeepLogErrors]
  }

  /**
   * The tier whose list a tier's first `extend` copies, if it copies one; that
   * tier's last `extend` comes earlier in the script.
   */
  function Parent(t: Tier): (r: Option<Tier>)
    ensures r.Some? ==> LastExtendLine(r.value) < FirstExtendLine(t)
  {
    match t
    case RAWSIM => Some(RAW)
    case RECOSIM => Some(RECO)
    case AODSIM => Some(AOD)
    case FEVT => Some(RAW)
    case FEVTSIM => Some(RAW)
    case RAWDEBUG => Some(RAW)
    case RAWDEBUGHLT => Some(RAWDEBUG)
    case FEVTDEBUG => Some(FEVTSIM)
    case FEVTDEBUGHLT => Some(FEVTDEBUG)
    case _ => None
  }

  /** The blocks a tier is extended with after its parent, in script order; every tier has at least one. */
  function Blocks(t: Tier): (r: seq<Block>)
    ensures |r| >= 1
  {
    match t
    case RAW =>
      [ L1TriggerRAW, HLTriggerRAW ]
    case RECO =>
      [ RecoLocalTrackerRECO, RecoLocalMuonRECO, RecoLocalCaloRECO, RecoEcalRECO,
        TrackingToolsRECO, RecoTrackerRECO, RecoJetsRECO, RecoMETRECO,
        RecoMuonRECO, RecoBTauRECO, RecoBTagRECO, RecoTauTagRECO,
        RecoVertexRECO, RecoEgammaRECO, RecoPixelVertexingRECO, RecoParticleFlowRECO,
        BeamSpotRECO, L1TriggerRECO, HLTriggerRECO, MEtoEDMConverterRECO ]
    case AOD =>
      [ RecoLocalTrackerAOD, RecoLocalMuonAOD, RecoLocalCaloAOD, RecoEcalAOD,
        TrackingToolsAOD, RecoTrackerAOD, RecoJetsAOD, RecoMETAOD,
        RecoMuonAOD, RecoBTauAOD, RecoBTagAOD, RecoTauTagAOD,
        RecoVertexAOD, RecoEgammaAOD, RecoParticleFlowAOD, BeamSpotAOD,
        L1TriggerAOD, HLTriggerAOD, MEtoEDMConverterAOD ]
    case RAWSIM =>
      [ SimG4CoreRAW, SimTrackerRAW, SimMuonRAW, SimCalorimetryRAW,
        SimGeneralRAW, GeneratorInterfaceRAW, RecoGenJetsFEVT, RecoGenMETFEVT,
        DigiToRawFEVT, MEtoEDMConverterFEVT, IOMCRAW ]
    case RECOSIM =>
      [ GeneratorInterfaceRECO, RecoGenMETRECO, RecoGenJetsRECO, SimG4CoreRECO,
        SimTrackerRECO, SimMuonRECO, SimCalorimetryRECO, SimGeneralRECO,
        MEtoEDMConverterRECO ]
    case AODSIM =>
      [ GeneratorInterfaceAOD, SimG4CoreAOD, SimTrackerAOD, SimMuonAOD,
        SimCalorimetryAOD, RecoGenJetsAOD, RecoGenMETAOD, SimGeneralAOD,
        MEtoEDMConverterAOD ]
    case FEVT =>
      [ RecoLocalTrackerRECO, RecoLocalMuonRECO, RecoLocalCaloRECO, RecoEcalRECO,
        TrackingToolsRECO, RecoTrackerRECO, RecoJetsRECO, RecoMETRECO,
        RecoMuonRECO, RecoBTauRECO, RecoBTagRECO, RecoTauTagRECO,
        RecoVertexRECO, RecoEgammaRECO, RecoPixelVertexingRECO, RecoParticleFlowRECO,
        BeamSpotRECO, L1TriggerRECO, HLTriggerRECO, MEtoEDMConverterRECO ]
    case FEVTSIM =>
      [ SimG4CoreRAW, SimTrackerRAW, SimMuonRAW, SimCalorimetryRAW,
        SimGeneralRAW, GeneratorInterfaceRAW, RecoGenJetsFEVT, RecoGenMETFEVT,
        DigiToRawFEVT, MEtoEDMConverterFEVT, IOMCRAW, RecoLocalTrackerRECO,
        RecoLocalMuonRECO, RecoLocalCaloRECO, RecoEcalRECO, TrackingToolsRECO,
        RecoTrackerRECO, RecoJetsRECO, RecoMETRECO, RecoMuonRECO,
        RecoBTauRECO, RecoBTagRECO, RecoTauTagRECO, RecoVertexRECO,
        RecoEgammaRECO, RecoPixelVertexingRECO, RecoParticleFlowRECO, BeamSpotRECO,
        L1TriggerRECO, HLTriggerRECO, MEtoEDMConverterRECO, GeneratorInterfaceRECO,
        RecoGenMETRECO, RecoGenJetsRECO, SimG4CoreRECO, SimTrackerRECO,
        SimMuonRECO, SimCalorimetryRECO, SimGeneralRECO, MEtoEDMConverterRECO ]
    case RAWDEBUG =>
      [ SimG4CoreRAW, SimTrackerRAW, SimMuonRAW, SimCalorimetryRAW,
        SimGeneralRAW, GeneratorInterfaceRAW, RecoGenJetsFEVT, RecoGenMETFEVT,
        DigiToRawFEVT, MEtoEDMConverterFEVT, IOMCRAW, L1TriggerFEVTDEBUG,
        SimGeneralFEVTDEBUG, SimTrackerFEVTDEBUG, SimMuonFEVTDEBUG, SimCalorimetryFEVTDEBUG ]
    case RAWDEBUGHLT =>
      [ HLTDebugRAW ]
    case FEVTDEBUG =>
      [ L1TriggerFEVTDEBUG, SimGeneralFEVTDEBUG, SimTrackerFEVTDEBUG, SimMuonFEVTDEBUG,
        SimCalorimetryFEVTDEBUG ]
    case FEVTDEBUGHLT =>
      [ HLTDebugFEVT ]
    case HLTDEBUG =>
      [ block_hltDebugOutput ]
  }

  /** The script line of a tier's first `extend` call. */
  function FirstExtendLine(t: Tier): (r: nat)
    ensures 204 <= r <= 369
  {
    match t
    case HLTDEBUG => 204
    case RAW => 208
    case RECO => 210
    case AOD => 230
    case RAWSIM => 249
    case RECOSIM => 261
    case AODSIM => 271
    case FEVT => 281
    case FEVTSIM => 302
    case RAWDEBUG => 343
    case RAWDEBUGHLT => 360
    case FEVTDEBUG => 362
    case FEVTDEBUGHLT => 368
  }

  /** The script line of a tier's last `extend` call, after which its list is final. */
  function LastExtendLine(t: Tier): (r: nat)
    ensures 204 <= r <= 369
  {
    match t
    case HLTDEBUG => 204
    case RAW => 209
    case RECO => 229
    case AOD => 248
    case RAWSIM => 260
    case RECOSIM => 270
    case AODSIM => 280
    case FEVT => 301
    case FEVTSIM => 342
    case RAWDEBUG => 359
    case RAWDEBUGHLT => 361
    case FEVTDEBUG => 367
    case FEVTDEBUGHLT => 369
  }

  /**
   * A consistency check of the line numbers above: each tier's first and last
   * line span one line for the parent copy, if any, plus one per block, and a
   * parent's last line comes before its child's first. The last fact is also
   * the termination measure of `Composed`, so the parent relation has no
   * cycle. That each copy reads the parent's final list is proved separately,
   * by the order of the calls in `EventContentConfig.ExtendAll` and the
   * preconditions of its per-tier methods.
   */
  lemma ParentCompletesFirst(t: Tier)
    ensures FirstExtendLine(t) <= LastExtendLine(t)
    ensures FirstExtendLine(t) + |Blocks(t)| + (if Parent(t).Some? then 1 else 0)
            == LastExtendLine(t) + 1
    ensures Parent(t).Some? ==> LastExtendLine(Parent(t).value) < FirstExtendLine(t)
  {
  }

  /** The runs of `extend` calls of two different tiers do not overlap. */
  lemma RunsDisjoint(t: Tier, u: Tier)
    requires t != u
    ensures LastExtendLine(t) < FirstExtendLine(u) || LastExtendLine(u) < FirstExtendLine(t)
  {
  }

  /** `start` after one `extend` per named block, first to last; `extend` never shortens a list. */
  function Extended(env: BlockContents, start: seq<string>, names: seq<Block>): (r: seq<string>)
    ensures |r| >= |start|
    decreases |names|
  {
    if names == [] then start
    else Extended(env, start, names[..|names| - 1]) + env(names[|names| - 1])
  }

  /**
   * The list a tier's parameter set holds once the script has run: its local
   * list, extended first with its parent's final list (if it has a parent) and
   * then with each of its blocks.
   */
  function Composed(env: BlockContents, t: Tier): (r: seq<string>)
    decreases LastExtendLine(t), 1
  {
    Extended(env, LocalCommands(t) + ParentCommands(env, t), Blocks(t))
  }

  /** The final list of the tier a tier copies first, or nothing when it copies none. */
  function ParentCommands(env: BlockContents, t: Tier): (r: seq<string>)
    decreases LastExtendLine(t), 0
  {
    ParentCompletesFirst(t);
    match Parent(t)
    case None => []
    case Some(p) => Composed(env, p)
  }

  /** What a tier's own blocks contribute: their commands, concatenated in order. */
  function OwnCommands(env: BlockContents, t: Tier): (r: seq<string>)
  {
    Extended(env, [], Blocks(t))
  }
}
