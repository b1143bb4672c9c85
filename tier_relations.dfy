/**
 * How the combined tiers relate to the tiers the header of
 * python/EventContent_cff.py names as their parts (lines 21-31):
 * FEVT (RAW+RECO), FEVTSIM (RAWSIM+RECOSIM), RAWDEBUG (RAWSIM plus the
 * simulation debug content) and FEVTDEBUG (FEVTSIM plus the same content).
 * The script does not copy RAWSIM or RECOSIM into FEVTSIM; it copies RAW and
 * repeats their blocks. So the combined tiers are not plain joins of their
 * parts: some of the parts' local prefixes, each beginning with `drop *`, are
 * left out. FEVT keeps the whole final RAW list and leaves out only RECO's
 * prefix. FEVTSIM leaves out RAWSIM's prefix, RECOSIM's prefix and the RECO
 * prefix that RECOSIM inherits. RAWDEBUG leaves out RAWSIM's prefix.
 */
module TierRelations {
  import opened EventContent
  import opened Composition
  import opened ClosedForms

  /**
   * FEVT is its local prefix, the whole final RAW list, then what RECO holds
   * after its own prefix (`ComposedWithoutParent`), in RECO's order.
   */
  lemma FevtJoinsRawAndReco(env: BlockContents)
    ensures Composed(env, FEVT) == LocalCommands(FEVT) + Composed(env, RAW) + OwnCommands(env, RECO)
  {
    FevtBlocksAreRecoBlocks();
    ComposedWithParent(env, FEVT, RAW);
  }

  /**
   * FEVTSIM is its local prefix, then what RAWSIM holds after its prefix (the
   * final RAW list and RAWSIM's blocks), then what RECO holds after its
   * prefix, then what RECOSIM adds after its copy of RECO. A block that two of
   * these share is appended once for each.
   */
  lemma FevtSimJoinsRawSimAndRecoSim(env: BlockContents)
    ensures Composed(env, FEVTSIM)
            == LocalCommands(FEVTSIM) + Composed(env, RAW)
               + OwnCommands(env, RAWSIM) + OwnCommands(env, RECO) + OwnCommands(env, RECOSIM)
  {
    var ownRawSim, ownReco, ownRecoSim := OwnCommands(env, RAWSIM), OwnCommands(env, RECO), OwnCommands(env, RECOSIM);
    assert OwnCommands(env, FEVTSIM) == ownRawSim + ownReco + ownRecoSim by {
      FevtSimBlocksJoinRawSimRecoRecoSim();
      ContributionOfThreeRuns(env, Blocks(FEVTSIM), Blocks(RAWSIM), Blocks(RECO), Blocks(RECOSIM));
    }
    ComposedWithParent(env, FEVTSIM, RAW);
    AppendRegroup(LocalCommands(FEVTSIM) + Composed(env, RAW), ownRawSim, ownReco, ownRecoSim);
  }

  /**
   * RAWDEBUG is its local prefix, then what RAWSIM holds after its prefix (the
   * final RAW list and RAWSIM's blocks), then the commands of FEVTDEBUG's five
   * debug blocks.
   */
  lemma RawDebugJoinsRawSimAndDebugBlocks(env: BlockContents)
    ensures Composed(env, RAWDEBUG)
            == LocalCommands(RAWDEBUG) + Composed(env, RAW)
               + OwnCommands(env, RAWSIM) + OwnCommands(env, FEVTDEBUG)
  {
    var ownRawSim, ownDebug := OwnCommands(env, RAWSIM), OwnCommands(env, FEVTDEBUG);
    assert OwnCommands(env, RAWDEBUG) == ownRawSim + ownDebug by {
      RawDebugBlocksJoinRawSimFevtDebug();
      ContributionOfRuns(env, Blocks(RAWDEBUG), Blocks(RAWSIM), Blocks(FEVTDEBUG));
    }
    ComposedWithParent(env, RAWDEBUG, RAW);
    AppendRegroup(LocalCommands(RAWDEBUG) + Composed(env, RAW), ownRawSim, ownDebug, []);
  }

  /**
   * FEVT is its prefix, the whole final RAW list, then the final RECO list
   * without RECO's two-command prefix.
   */
  lemma FevtLeavesOutRecoPrefix(env: BlockContents)
    ensures |Composed(env, RECO)| >= 2
    ensures Composed(env, RECO)[..2] == LocalCommands(RECO)
    ensures Composed(env, FEVT) == LocalCommands(FEVT) + Composed(env, RAW) + Composed(env, RECO)[2..]
  {
    FevtJoinsRawAndReco(env);
    ComposedWithoutParent(env, RECO);
    var local, own := LocalCommands(RECO), OwnCommands(env, RECO);
    assert |local| == 2;
    assert (local + own)[..2] == local;
    assert (local + own)[2..] == own;
  }

  /**
   * FEVTSIM is its prefix, the final RAWSIM list without RAWSIM's one-command
   * prefix, then the final RECOSIM list without its first four commands:
   * RECOSIM's own prefix and the RECO prefix it copied at line 261.
   */
  lemma FevtSimLeavesOutInheritedPrefixes(env: BlockContents)
    ensures |Composed(env, RAWSIM)| >= 1 && |Composed(env, RECOSIM)| >= 4
    ensures Composed(env, RAWSIM)[..1] == LocalCommands(RAWSIM)
    ensures Composed(env, RECOSIM)[..4] == LocalCommands(RECOSIM) + LocalCommands(RECO)
    ensures Composed(env, FEVTSIM)
            == LocalCommands(FEVTSIM) + Composed(env, RAWSIM)[1..] + Composed(env, RECOSIM)[4..]
  {
    var raw, ownRawSim, ownReco, ownRecoSim :=
      Composed(env, RAW), OwnCommands(env, RAWSIM), OwnCommands(env, RECO), OwnCommands(env, RECOSIM);
    FevtSimJoinsRawSimAndRecoSim(env);
    var rawSimLocal := LocalCommands(RAWSIM);
    assert |rawSimLocal| == 1;
    assert Composed(env, RAWSIM) == rawSimLocal + (raw + ownRawSim) by {
      ComposedWithParent(env, RAWSIM, RAW);
    }
    assert (rawSimLocal + (raw + ownRawSim))[1..] == raw + ownRawSim;
    assert (rawSimLocal + (raw + ownRawSim))[..1] == rawSimLocal;
    var dropped := LocalCommands(RECOSIM) + LocalCommands(RECO);
    assert |dropped| == 4;
    assert Composed(env, RECOSIM) == dropped + (ownReco + ownRecoSim) by {
      ComposedWithParent(env, RECOSIM, RECO);
      ComposedWithoutParent(env, RECO);
    }
    assert (dropped + (ownReco + ownRecoSim))[4..] == ownReco + ownRecoSim;
    assert (dropped + (ownReco + ownRecoSim))[..4] == dropped;
  }

  /**
   * RAWDEBUG is its prefix, the final RAWSIM list without RAWSIM's
   * one-command prefix, then FEVTDEBUG's debug blocks.
   */
  lemma RawDebugLeavesOutRawSimPrefix(env: BlockContents)
    ensures |Composed(env, RAWSIM)| >= 1
    ensures Composed(env, RAWSIM)[..1] == LocalCommands(RAWSIM)
    ensures Composed(env, RAWDEBUG)
            == LocalCommands(RAWDEBUG) + Composed(env, RAWSIM)[1..] + OwnCommands(env, FEVTDEBUG)
  {
    var raw, ownRawSim := Composed(env, RAW), OwnCommands(env, RAWSIM);
    RawDebugJoinsRawSimAndDebugBlocks(env);
    var rawSimLocal := LocalCommands(RAWSIM);
    assert |rawSimLocal| == 1;
    assert Composed(env, RAWSIM) == rawSimLocal + (raw + ownRawSim) by {
      ComposedWithParent(env, RAWSIM, RAW);
    }
    assert (rawSimLocal + (raw + ownRawSim))[1..] == raw + ownRawSim;
    assert (rawSimLocal + (raw + ownRawSim))[..1] == rawSimLocal;
  }

  /** RAWDEBUG and FEVTDEBUG end with the same five debug blocks, in the same order. */
  lemma DebugTiersEndAlike(env: BlockContents)
    ensures var d := OwnCommands(env, FEVTDEBUG);
            |d| <= |Composed(env, RAWDEBUG)| && |d| <= |Composed(env, FEVTDEBUG)|
            && Composed(env, RAWDEBUG)[|Composed(env, RAWDEBUG)| - |d|..] == d
            && Composed(env, FEVTDEBUG)[|Composed(env, FEVTDEBUG)| - |d|..] == d
  {
    RawDebugJoinsRawSimAndDebugBlocks(env);
    ComposedWithParent(env, FEVTDEBUG, FEVTSIM);
  }

  /** FEVT holds every command of RAW and of RECO. */
  lemma FevtCoversRawAndReco(env: BlockContents)
    ensures Covers(Composed(env, FEVT), Composed(env, RAW))
    ensures Covers(Composed(env, FEVT), Composed(env, RECO))
  {
    FevtJoinsRawAndReco(env);
    ComposedWithoutParent(env, RECO);
    assert LocalCommands(RECO) == LocalCommands(FEVT);
  }

  /** FEVTSIM holds every command of RAWSIM. */
  lemma FevtSimCoversRawSim(env: BlockContents)
    ensures Covers(Composed(env, FEVTSIM), Composed(env, RAWSIM))
  {
    FevtSimJoinsRawSimAndRecoSim(env);
    ComposedWithParent(env, RAWSIM, RAW);
    assert LocalCommands(RAWSIM) == LocalCommands(FEVTSIM)[..1];
  }

  /** FEVTSIM holds every command of RECOSIM. */
  lemma FevtSimCoversRecoSim(env: BlockContents)
    ensures Covers(Composed(env, FEVTSIM), Composed(env, RECOSIM))
  {
    FevtSimJoinsRawSimAndRecoSim(env);
    ComposedWithParent(env, RECOSIM, RECO);
    ComposedWithoutParent(env, RECO);
    assert LocalCommands(RECOSIM) == LocalCommands(RECO) == LocalCommands(FEVTSIM);
  }

  /** RAWDEBUG holds every command of RAWSIM. */
  lemma RawDebugCoversRawSim(env: BlockContents)
    ensures Covers(Composed(env, RAWDEBUG), Composed(env, RAWSIM))
  {
    RawDebugJoinsRawSimAndDebugBlocks(env);
    ComposedWithParent(env, RAWSIM, RAW);
    assert LocalCommands(RAWSIM) == LocalCommands(RAWDEBUG)[..1];
  }
}
