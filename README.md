# Event content of the data tiers

This project models `python/EventContent_cff.py`, which defines the event
content of the reconstruction data tiers. The script creates thirteen parameter sets
`<TIER>EventContent` (RAW, RECO, AOD, RAWSIM, RECOSIM, AODSIM, FEVT, FEVTSIM,
RAWDEBUG, RAWDEBUGHLT, FEVTDEBUG, FEVTDEBUGHLT, HLTDEBUG). Each set begins with a
short literal list of keep/drop command strings (`outputCommands`). Then a fixed,
straight-line run of `outputCommands.extend(...)` calls grows these lists in
place. Each call appends one of two things:

- an imported subsystem block;
- another tier's list, as that list stands at the moment of the call.

The model is in two layers.

- **The script itself** is `EventContentScript`. `PSet` is a class with a
  mutable `outputCommands : seq<string>` and an `Extend` method that appends.
  `EventContentConfig` holds the thirteen sets. Its constructor creates them
  with their literal lists (lines 90-203) and replays every `extend` call in
  source order, through `ExtendAll`, the two phase methods and one method per
  tier. Each call reads the list it copies at the moment it runs, so Python's
  copy-at-call semantics is modelled as written. Every per-tier method proves
  two things: its tier's list equals the tier's specification, and the tier it
  copies is left unchanged.
- **The specification** is `EventContent`. It describes the composition as data:
  - `LocalCommands`: the literal list a tier starts with, verbatim, including
    the double space in `keep  FEDRawDataCollection_...`;
  - `Parent`: the tier it copies first, if any;
  - `Blocks`: the blocks it then appends, in line order;
  - `FirstExtendLine` / `LastExtendLine`: the lines of its first and last
    `extend` calls.

  From these the function `Composed` defines each final list. `Composition`
  proves general facts about appending and about composing tiers.
  `ClosedForms` writes out every final list as a concatenation.
  `TierRelations` relates the combined tiers to the tiers they are made from.

The imported blocks' contents are defined in other packages. They are a
parameter `env : Block -> seq<string>`, so every result holds for all block
contents.

Where the header comment (lines 21-31) and the code disagree, the model
follows the code:

- The header calls FEVTSIM "RAWSIM+RECOSIM" and RAWDEBUG "RAWSIM+ALL_SIM_INFO".
  The code copies RAW into them (lines 302 and 343). It then repeats the
  blocks one by one: RAWSIM's, RECO's and RECOSIM's for FEVTSIM, and RAWSIM's
  plus the debug blocks for RAWDEBUG. So the parts' local prefixes, each of
  which begins with `drop *`, are left out. FEVTSIM leaves out RAWSIM's
  one-command prefix and the first four commands of RECOSIM's list: RECOSIM's
  own prefix and the RECO prefix RECOSIM copied at line 261. RAWDEBUG leaves
  out RAWSIM's prefix. FEVT ("RAW+RECO") keeps the whole final RAW list and
  leaves out only RECO's prefix. `TierRelations` proves each of these.
- The header calls RAWDEBUGHLT "RAWDEBUG+HLTDEBUG". The code appends the
  `HLTDebugRAW` block (line 361), not HLTDEBUG's `block_hltDebugOutput`.
- In the same way the header calls FEVTDEBUGHLT "FEVTDEBUG+HLTDEBUG", but the
  code appends the `HLTDebugFEVT` block (line 369), not `block_hltDebugOutput`.
- A tier's final list is its local prefix, then its parent's whole final list,
  then its own blocks. The local prefix comes first because the set is created
  with it before any `extend`.

## Model

| member | source | states |
|---|---|---|
| EventContent.ParentCompletesFirst | python/EventContent_cff.py:204-369 | Each tier's `extend` calls run from its first to its last line, one line for the parent copy, if any, plus one per block. A parent's last `extend` line comes before its child's first. This is a consistency check of the line numbers, and it is the termination measure of `Composed`, so no tier depends on itself. That every copy reads the parent's final list is proved by the call order in `ExtendAll` together with the per-tier methods' preconditions. |
| EventContent.LocalCommands | python/EventContent_cff.py:90-203 | The list each tier's set is created with, verbatim, including the double spaces at lines 92-93. Every such list has one to three commands and begins with `drop *`. |
| EventContent.Parent | python/EventContent_cff.py:249-368 | The tier whose list a tier copies first: at lines 249, 261, 271, 281, 302, 343, 360, 362 and 368. The copied tier's last `extend` line comes before the copying tier's first. |
| EventContent.Blocks | python/EventContent_cff.py:204-369 | The blocks a tier is extended with after the copy, in line order. Every tier has at least one. |
| EventContent.FirstExtendLine | python/EventContent_cff.py:204-368 | The line of each tier's first `extend` call, within lines 204-369. |
| EventContent.LastExtendLine | python/EventContent_cff.py:204-369 | The line of each tier's last `extend` call, after which its list is final, within lines 204-369. |
| EventContent.Extended | python/EventContent_cff.py:204-369 | A list after one `extend` per block, first to last. The result is never shorter than the list it started from. |
| EventContent.Composed | python/EventContent_cff.py:90-369 | Each tier's final list: its local list, then its parent's final list if it has a parent, then its blocks' commands. Its properties are stated by `Composition.InheritsParent`, `Composition.StartsWithDropAll` and the `ClosedForms` lemmas. |
| EventContent.RunsDisjoint | python/EventContent_cff.py:204-369 | The runs of `extend` lines of two different tiers do not overlap: one ends before the other begins. |
| Composition.ExtendedStep | python/EventContent_cff.py:204-369 | After k+1 `extend` calls, the list is the list after k calls followed by block k's commands. |
| Composition.ExtendedSingle | python/EventContent_cff.py:204 | One `extend` call appends exactly that block's commands. |
| Composition.ExtendedFrom | python/EventContent_cff.py:204-369 | Extending a list keeps it whole as a prefix. What follows it is exactly the blocks' commands, concatenated, whatever the list was. |
| Composition.ExtendedAppend | python/EventContent_cff.py:302-342 | Extending with the run `a` and then with `b` equals extending with `a + b`. |
| Composition.ExtendedAppendThree | python/EventContent_cff.py:302-342 | A list of blocks made of three runs is the same as extending with each run in turn. |
| Composition.ContributionOfRuns | python/EventContent_cff.py:343-359 | Splitting the blocks into two runs splits their contributed commands the same way. |
| Composition.ContributionOfThreeRuns | python/EventContent_cff.py:302-342 | Splitting the blocks into three runs splits their contributed commands the same way. |
| Composition.EarlierListIsPrefix | python/EventContent_cff.py:204-369 | The list after the first k extends is a prefix of the final list. The final list is that prefix followed by the remaining blocks' commands, so the list grows by exactly what was appended. |
| Composition.StartsWithDropAll | python/EventContent_cff.py:91 | Every tier's final list is non-empty and begins with `drop *`. |
| Composition.InheritsParent | python/EventContent_cff.py:249 | For every tier, the final list is its local prefix, then the parent's final list (if it has a parent), then its own blocks' commands. |
| Composition.ComposedWithParent | python/EventContent_cff.py:281 | A tier that copies `p` ends as its local prefix, then `p`'s complete final list, then its own blocks' commands. |
| Composition.ComposedWithoutParent | python/EventContent_cff.py:210-229 | A tier that copies no other tier ends as its local prefix followed by its own blocks' commands. |
| Composition.CoversParent | python/EventContent_cff.py:249 | Every command of a parent's final list occurs in its child's final list. |
| ClosedForms.RawBlocksInOrder | python/EventContent_cff.py:208-209 | Extending any list with RAW's blocks appends `L1TriggerRAW`, then `HLTriggerRAW`. |
| ClosedForms.RecoBlocksInOrder | python/EventContent_cff.py:210-229 | Extending any list with RECO's blocks appends its twenty blocks, one after another, in line order. |
| ClosedForms.AodBlocksInOrder | python/EventContent_cff.py:230-248 | Extending any list with AOD's blocks appends its nineteen blocks in line order. |
| ClosedForms.RawSimBlocksInOrder | python/EventContent_cff.py:250-260 | Extending any list with RAWSIM's blocks appends its eleven blocks in line order. |
| ClosedForms.RecoSimBlocksInOrder | python/EventContent_cff.py:262-270 | Extending any list with RECOSIM's blocks appends its nine blocks in line order. |
| ClosedForms.AodSimBlocksInOrder | python/EventContent_cff.py:272-280 | Extending any list with AODSIM's blocks appends its nine blocks in line order. |
| ClosedForms.FevtDebugBlocksInOrder | python/EventContent_cff.py:363-367 | Extending any list with FEVTDEBUG's blocks appends its five debug blocks in line order. |
| ClosedForms.FevtBlocksAreRecoBlocks | python/EventContent_cff.py:282-301 | FEVT appends the same twenty blocks as RECO, in the same order. |
| ClosedForms.FevtSimBlocksJoinRawSimRecoRecoSim | python/EventContent_cff.py:303-342 | FEVTSIM's blocks are exactly RAWSIM's, then RECO's, then RECOSIM's, each run in its own order. `MEtoEDMConverterRECO` occurs twice, at positions 30 and 39, and is not merged. |
| ClosedForms.RawDebugBlocksJoinRawSimFevtDebug | python/EventContent_cff.py:344-359 | RAWDEBUG's blocks are exactly RAWSIM's blocks followed by FEVTDEBUG's five debug blocks. |
| ClosedForms.FevtSimInThreeRuns | python/EventContent_cff.py:302-342 | FEVTSIM's final list equals its prefix plus the final RAW list, extended by the run at lines 303-313, then the run at 314-333, then the run at 334-342. |
| ClosedForms.HltDebugClosedForm | python/EventContent_cff.py:198-204 | HLTDEBUG ends as `['drop *', 'keep *_logErrorHarvester_*_*']` followed by `block_hltDebugOutput`'s commands. |
| ClosedForms.RawClosedForm | python/EventContent_cff.py:90-94 | RAW ends as `['drop *', 'keep  FEDRawDataCollection_rawDataCollector_*_*', 'keep  FEDRawDataCollection_source_*_*']`, then `L1TriggerRAW`, then `HLTriggerRAW` (lines 208-209). |
| ClosedForms.RecoClosedForm | python/EventContent_cff.py:210-229 | RECO ends as its two-command prefix followed by its twenty blocks, in line order. |
| ClosedForms.AodClosedForm | python/EventContent_cff.py:230-248 | AOD ends as its prefix followed by its nineteen blocks, in line order. |
| ClosedForms.RawSimClosedForm | python/EventContent_cff.py:249-260 | RAWSIM ends as `['drop *']`, then the complete final RAW list, then its eleven blocks in order. |
| ClosedForms.RecoSimClosedForm | python/EventContent_cff.py:261-270 | RECOSIM ends as its two-command prefix, then the complete final RECO list, then its nine blocks in order. |
| ClosedForms.AodSimClosedForm | python/EventContent_cff.py:271-280 | AODSIM ends as its two-command prefix, then the complete final AOD list, then its nine blocks in order. |
| ClosedForms.FevtClosedForm | python/EventContent_cff.py:281-301 | FEVT ends as its two-command prefix, then the complete final RAW list, then RECO's twenty blocks in RECO's order. |
| ClosedForms.FevtSimClosedForm | python/EventContent_cff.py:302-342 | FEVTSIM ends as its prefix, then the complete final RAW list, then its forty blocks, written out in line order, duplicates kept. |
| ClosedForms.RawDebugClosedForm | python/EventContent_cff.py:343-359 | RAWDEBUG ends as its prefix, then the complete final RAW list, then its sixteen blocks in line order. |
| ClosedForms.RawDebugHltClosedForm | python/EventContent_cff.py:360-361 | RAWDEBUGHLT ends as its prefix, then the complete final RAWDEBUG list, then `HLTDebugRAW`. |
| ClosedForms.FevtDebugClosedForm | python/EventContent_cff.py:362-367 | FEVTDEBUG ends as its prefix, then the complete final FEVTSIM list, then its five debug blocks in order. |
| ClosedForms.FevtDebugHltClosedForm | python/EventContent_cff.py:368-369 | FEVTDEBUGHLT ends as its prefix, then the complete final FEVTDEBUG list, then `HLTDebugFEVT`. |
| TierRelations.FevtJoinsRawAndReco | python/EventContent_cff.py:281-301 | FEVT ("RAW+RECO") is its prefix, then the whole final RAW list, then everything RECO holds after its own prefix. |
| TierRelations.FevtSimJoinsRawSimAndRecoSim | python/EventContent_cff.py:302-342 | FEVTSIM ("RAWSIM+RECOSIM") is its prefix, the final RAW list, then the commands of the blocks RAWSIM, RECO and RECOSIM each append, in that order. |
| TierRelations.RawDebugJoinsRawSimAndDebugBlocks | python/EventContent_cff.py:343-359 | RAWDEBUG is its prefix, the final RAW list, the commands of RAWSIM's blocks, then those of FEVTDEBUG's debug blocks. |
| TierRelations.FevtLeavesOutRecoPrefix | python/EventContent_cff.py:281-301 | RECO's final list begins with its two-command prefix. FEVT is its prefix, the whole final RAW list, then RECO's final list without that prefix. |
| TierRelations.FevtSimLeavesOutInheritedPrefixes | python/EventContent_cff.py:302-342 | RAWSIM's final list begins with its one-command prefix. RECOSIM's begins with its own prefix followed by RECO's. FEVTSIM is its prefix, RAWSIM's final list without the first command, then RECOSIM's final list without the first four. |
| TierRelations.RawDebugLeavesOutRawSimPrefix | python/EventContent_cff.py:343-359 | RAWDEBUG is its prefix, RAWSIM's final list without its one-command prefix, then the commands of FEVTDEBUG's debug blocks. |
| TierRelations.DebugTiersEndAlike | python/EventContent_cff.py:355-359 | RAWDEBUG's and FEVTDEBUG's final lists both end with the commands of the same five `*FEVTDEBUG` blocks, in the same order. |
| TierRelations.FevtCoversRawAndReco | python/EventContent_cff.py:281-301 | Every command of the final RAW and RECO lists occurs in the final FEVT list. |
| TierRelations.FevtSimCoversRawSim | python/EventContent_cff.py:302-313 | Every command of the final RAWSIM list occurs in the final FEVTSIM list. |
| TierRelations.FevtSimCoversRecoSim | python/EventContent_cff.py:314-342 | Every command of the final RECOSIM list occurs in the final FEVTSIM list. |
| TierRelations.RawDebugCoversRawSim | python/EventContent_cff.py:343-354 | Every command of the final RAWSIM list occurs in the final RAWDEBUG list. |
| EventContentScript.PSet.constructor | python/EventContent_cff.py:90-94 | A new parameter set holds exactly the list it is created with. |
| EventContentScript.PSet.Extend | python/EventContent_cff.py:204 | `extend` appends the given commands to the end of the list in place and changes nothing else. |
| EventContentScript.EventContentConfig.constructor | python/EventContent_cff.py:90-369 | The thirteen sets are distinct objects. After the script, each holds exactly its tier's `Composed` list. |
| EventContentScript.EventContentConfig.ExtendAll | python/EventContent_cff.py:204-369 | From the thirteen local lists, the whole `extend` sequence leaves every set holding its tier's final list. |
| EventContentScript.EventContentConfig.ExtendSingleStepTiers | python/EventContent_cff.py:204-280 | The calls for HLTDEBUG, RAW, RECO, AOD, RAWSIM, RECOSIM and AODSIM leave those seven sets final. |
| EventContentScript.EventContentConfig.ExtendCombinedTiers | python/EventContent_cff.py:281-369 | The calls for FEVT, FEVTSIM, RAWDEBUG, RAWDEBUGHLT, FEVTDEBUG and FEVTDEBUGHLT make those six final. They start from the final RAW list, and may modify only the six combined sets. |
| EventContentScript.EventContentConfig.ExtendHLTDEBUG | python/EventContent_cff.py:204 | HLTDEBUG, starting from its local list, ends as its final list. |
| EventContentScript.EventContentConfig.ExtendRAW | python/EventContent_cff.py:208-209 | RAW, starting from its local list, ends as its final list. |
| EventContentScript.EventContentConfig.ExtendRECO | python/EventContent_cff.py:210-229 | RECO, starting from its local list, ends as its final list. |
| EventContentScript.EventContentConfig.ExtendAOD | python/EventContent_cff.py:230-248 | AOD, starting from its local list, ends as its final list. |
| EventContentScript.EventContentConfig.ExtendRAWSIM | python/EventContent_cff.py:249-260 | RAWSIM copies the final RAW list at line 249 and ends as its final list. RAW is unchanged. |
| EventContentScript.EventContentConfig.ExtendRECOSIM | python/EventContent_cff.py:261-270 | RECOSIM copies the final RECO list and ends as its final list. RECO is unchanged. |
| EventContentScript.EventContentConfig.ExtendAODSIM | python/EventContent_cff.py:271-280 | AODSIM copies the final AOD list and ends as its final list. AOD is unchanged. |
| EventContentScript.EventContentConfig.ExtendFEVT | python/EventContent_cff.py:281-301 | FEVT copies the final RAW list and ends as its final list. RAW is unchanged. |
| EventContentScript.EventContentConfig.ExtendFEVTSIM | python/EventContent_cff.py:302-342 | FEVTSIM copies the final RAW list and ends as its final list. RAW is unchanged. |
| EventContentScript.EventContentConfig.ExtendRAWDEBUG | python/EventContent_cff.py:343-359 | RAWDEBUG copies the final RAW list and ends as its final list. RAW is unchanged. |
| EventContentScript.EventContentConfig.ExtendRAWDEBUGHLT | python/EventContent_cff.py:360-361 | RAWDEBUGHLT copies the final RAWDEBUG list and ends as its final list. RAWDEBUG is unchanged. |
| EventContentScript.EventContentConfig.ExtendFEVTDEBUG | python/EventContent_cff.py:362-367 | FEVTDEBUG copies the final FEVTSIM list at line 362 and ends as its final list. FEVTSIM is unchanged. |
| EventContentScript.EventContentConfig.ExtendFEVTDEBUGHLT | python/EventContent_cff.py:368-369 | FEVTDEBUGHLT copies the final FEVTDEBUG list and ends as its final list. FEVTDEBUG is unchanged. |

## Left out

- Keep/drop matching: deciding which products a command string keeps or drops (wildcards, last match wins) belongs to the framework's product selector. That selector is not part of this model, and the script never evaluates the commands.
- The contents of the imported subsystem blocks (lines 41-84 and 197) are defined in other packages. They are the parameter `env`, and every result holds for all values of it.
- The `cms.PSet` and `cms.untracked.vstring` wrappers are library types. A set is modelled only as a named `seq<string>`, and the `untracked` flag is not modelled.
- The Python imports (lines 1-84) are not modelled beyond the names of the blocks they bring in.
- A registry of tiers, duplicate-name rejection, cycle detection and a frozen phase do not exist in the script. Acyclicity appears only as a fact about the fixed line order (`ParentCompletesFirst`).
- test/branchSizes.cpp is not part of this model. It is a command-line tool over ROOT file I/O whose only computation is sorting branches by size and summing them.
- EventContentScript.PSet: each set carries a ghost `tier` tag that marks which parameter set it is. The tag is a modelling aid and has no counterpart in the script. Aliasing between sets is modelled only as far as the script uses it: each set is a separate object, and a copy reads the other list's value at the moment of the call.
