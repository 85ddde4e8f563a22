/** The genesis merger of createAndExportGenesisFile: the freshly built
    application state is laid over a base document, which is either the zero
    document or the one already on disk. */
module GenesisMerger {
  import opened GenesisTypes

  /** The consensus parameters a document carries, if it has any. */
  function ParamsOf(g: AppGenesis): Option<ConsensusParams> {
    if g.consensus.Some? then g.consensus.value.params else None
  }

  /** The two parameter sets are equal except possibly for the block gas limit. */
  predicate AgreeExceptMaxGas(p: ConsensusParams, q: ConsensusParams) {
    && p.block.maxBytes == q.block.maxBytes
    && p.evidence == q.evidence
    && p.pubKeyTypes == q.pubKeyTypes
    && p.appVersion == q.appVersion
    && p.voteExtensionsEnableHeight == q.voteExtensionsEnableHeight
  }

  /** The merged document. The chain ID and application state are the new ones,
      the validator set is empty, the consensus parameters are those of the base
      (or CometBFT's defaults when it has none) with the block gas limit forced,
      and the fields the init command does not set are the base's. */
  function Merged(base: AppGenesis, chainID: string, appState: AppState, maxGas: int): (r: AppGenesis)
    ensures r.chainID == chainID && r.appState == appState && r.meta == base.meta
    ensures r.consensus.Some? && r.consensus.value.validators == []
    ensures r.consensus.value.params.Some? && r.consensus.value.params.value.block.maxGas == maxGas
    ensures ParamsOf(base).Some? ==> AgreeExceptMaxGas(r.consensus.value.params.value, ParamsOf(base).value)
    ensures ParamsOf(base).None? ==> AgreeExceptMaxGas(r.consensus.value.params.value, DefaultConsensusParams)
  {
    var params := if ParamsOf(base).Some? then ParamsOf(base).value else DefaultConsensusParams;
    AppGenesis(base.meta, chainID, appState,
      Some(ConsensusGenesis([], Some(params.(block := params.block.(maxGas := maxGas))))))
  }

  /** The field-by-field assignments of createAndExportGenesisFile, applied to a
      base document. */
  method MergeIntoGenesis(base: AppGenesis, chainID: string, appState: AppState, maxGas: int)
    returns (appGen: AppGenesis)
    ensures appGen == Merged(base, chainID, appState, maxGas)
  {
    appGen := base;
    appGen := appGen.(chainID := chainID);
    appGen := appGen.(appState := appState);
    if appGen.consensus.None? {
      appGen := appGen.(consensus := Some(ConsensusGenesis([], None)));
    }
    appGen := appGen.(consensus := Some(appGen.consensus.value.(validators := [])));
    if appGen.consensus.value.params.None? {
      appGen := appGen.(consensus := Some(appGen.consensus.value.(params := Some(DefaultConsensusParams))));
    }
    var params := appGen.consensus.value.params.value;
    params := params.(block := params.block.(maxGas := maxGas));
    appGen := appGen.(consensus := Some(appGen.consensus.value.(params := Some(params))));
  }

  /** Merging the same inputs into an already merged document changes nothing:
      re-running the merge over its own output gives the same document. */
  lemma MergeIdempotent(base: AppGenesis, chainID: string, appState: AppState, maxGas: int)
    ensures var once := Merged(base, chainID, appState, maxGas);
      Merged(once, chainID, appState, maxGas) == once
  {
  }

  /** The merged document depends on the base only through the fields the
      merge keeps: its untouched metadata and its consensus parameters minus
      the gas limit. In particular validators and the old chain ID and
      application state have no influence. */
  lemma MergeForgetsReplacedFields(b1: AppGenesis, b2: AppGenesis, chainID: string, appState: AppState, maxGas: int)
    requires b1.meta == b2.meta
    requires ParamsOf(b1).None? <==> ParamsOf(b2).None?
    requires ParamsOf(b1).Some? ==> AgreeExceptMaxGas(ParamsOf(b1).value, ParamsOf(b2).value)
    ensures Merged(b1, chainID, appState, maxGas) == Merged(b2, chainID, appState, maxGas)
  {
  }
}
