/** What the init command guarantees, stated over InitSpec (which Init is proved
    to follow) and over the chain-ID and timeout helpers. */
module InitProperties {
  import opened Text
  import opened GenesisTypes
  import opened GenesisBuilder
  import opened GenesisMerger
  import opened NodeHome
  import opened InitCommand

  // ----- commit-timeout heuristic --------------------------------------------------

  /** A generated chain ID never names mainnet or testnet: neither word's first
      letter occurs in the prefix, and the six-character token is too short to
      hold either word. Without a timeout flag such a chain commits after one second. */
  lemma {:induction false} GeneratedChainIDCommitsAfterOneSecond(token: Token, loaded: Duration)
    ensures !NamesPublicNetwork(ResolveChainID("", token))
    ensures TimeoutCommitAfter(loaded, 0, ResolveChainID("", token)) == Second
  {
    var id := ResolveChainID("", token);
    assert id[..17] == "provenance-chain-";
    forall j | 0 <= j < 17 ensures id[j] != 'm' && id[j] != 't' {
      assert id[j] == id[..17][j];
    }
    AbsentWhenFirstCharMissing(id, "mainnet", 17);
    AbsentWhenFirstCharMissing(id, "testnet", 17);
  }

  /** "devnet-local" names no public network, so it commits after one second. */
  lemma DevnetLocalCommitsAfterOneSecond(loaded: Duration)
    ensures TimeoutCommitAfter(loaded, 0, "devnet-local") == Second
  {
    var id := "devnet-local";
    AbsentWhenFirstCharMissing(id, "mainnet", |id|);
    assert id[0] == 'd' && id[1] == 'e' && id[2] == 'v' && id[3] == 'n' && id[4] == 'e' && id[6] == '-';
    forall i: nat ensures !OccursAt(id, "testnet", i) {
      if i + 7 <= |id| {
        if i < 5 {
          assert id[i..i + 7][0] == id[i] != 't';
        } else {
          assert i == 5 && id[i..i + 7][1] == id[6] == '-';
        }
      }
    }
  }

  /** "provenance-mainnet-1" and "pio-testnet-1" name public networks, so
      without a timeout flag the loaded timeout stays. */
  lemma PublicNetworksKeepLoadedTimeout(loaded: Duration)
    ensures TimeoutCommitAfter(loaded, 0, "provenance-mainnet-1") == loaded
    ensures TimeoutCommitAfter(loaded, 0, "pio-testnet-1") == loaded
  {
    assert OccursAt("provenance-mainnet-1", "mainnet", 11);
    assert OccursAt("pio-testnet-1", "testnet", 4);
  }

  // ----- Init as a whole ------------------------------------------------------------

  /** The overwrite guard comes first: with the genesis path occupied and no
      overwrite requested, Init fails and the home directory is exactly as before. */
  lemma OverwriteGuardChangesNothing(s: HomeState, moniker: string, flags: Flags, cfg: ProvConfig,
                                     defaults: AppState, env: Collaborators)
    requires WellFormedAppState(defaults)
    requires !flags.overwrite && FileExists(s.files, s.cmtConfig.genesisFile)
    ensures InitSpec(s, moniker, flags, cfg, defaults, env) == Outcome(Some(GenesisExists(s.cmtConfig.genesisFile)), s)
  {
  }

  /** A recovery whose mnemonic fails the checksum test stops before anything is
      written: no key files, no genesis file, no configuration files. */
  lemma InvalidMnemonicWritesNothing(s: HomeState, moniker: string, flags: Flags, cfg: ProvConfig,
                                     defaults: AppState, env: Collaborators)
    requires WellFormedAppState(defaults)
    requires flags.overwrite || !FileExists(s.files, s.cmtConfig.genesisFile)
    requires flags.recover && env.stdinLine.Some? && !env.isMnemonicValid(env.stdinLine.value)
    ensures InitSpec(s, moniker, flags, cfg, defaults, env) == Outcome(Some(InvalidMnemonic), s)
  {
  }

  /** The order of effects. A failed run leaves the files and the configuration
      files as they were and has written at most the key files; a successful run
      writes the key files, then the genesis file, then the configuration files. */
  lemma WritesInOrder(s: HomeState, moniker: string, flags: Flags, cfg: ProvConfig,
                      defaults: AppState, env: Collaborators)
    requires WellFormedAppState(defaults)
    ensures var r := InitSpec(s, moniker, flags, cfg, defaults, env);
      && r.home.writes[..|s.writes|] == s.writes
      && (r.err.Some? ==>
            && r.home.files == s.files
            && r.home.appConfig == s.appConfig && r.home.cmtConfig == s.cmtConfig
            && r.home.clientConfig == s.clientConfig
            && |r.home.writes| <= |s.writes| + 1
            && forall i | |s.writes| <= i < |r.home.writes| :: r.home.writes[i].KeyFilesWritten?)
      && (r.err.None? ==>
            && |r.home.writes| == |s.writes| + 3
            && r.home.writes[|s.writes|].KeyFilesWritten?
            && r.home.writes[|s.writes| + 1].GenesisExported?
            && r.home.writes[|s.writes| + 2].ConfigsSaved?)
  {
  }

  /** A recovery whose line passes the checksum, once past the overwrite guard
      and with a key-file writer that succeeds, derives the keys from exactly
      that line: the first write of the run is the key files for it. */
  lemma RecoveredMnemonicDerivesKeys(s: HomeState, moniker: string, flags: Flags, cfg: ProvConfig,
                                     defaults: AppState, env: Collaborators, line: string)
    requires WellFormedAppState(defaults)
    requires flags.overwrite || !FileExists(s.files, s.cmtConfig.genesisFile)
    requires flags.recover && env.stdinLine == Some(line) && env.isMnemonicValid(line)
    requires env.keyFilesSucceed
    ensures var r := InitSpec(s, moniker, flags, cfg, defaults, env);
      && line != ""
      && |r.home.writes| > |s.writes|
      && r.home.writes[|s.writes|] == KeyFilesWritten(line)
  {
  }

  /** With --overwrite, a genesis path that cannot be stat-ed, or a file there
      that does not parse, stops the run after the key files and before the
      export: the genesis file and the configuration files are untouched. This
      holds with or without a recovered mnemonic, as long as one is accepted. */
  lemma UnusableGenesisFileStopsBeforeExport(s: HomeState, moniker: string, flags: Flags, cfg: ProvConfig,
                                             defaults: AppState, env: Collaborators)
    requires WellFormedAppState(defaults)
    requires flags.overwrite && MnemonicFor(flags.recover, env).Ok? && env.keyFilesSucceed
    requires s.cmtConfig.genesisFile in s.files && !s.files[s.cmtConfig.genesisFile].GenesisJson?
    ensures var genFile := s.cmtConfig.genesisFile;
      var expected := if s.files[genFile].Unstatable? then StatFailed(genFile) else ReadGenesisFailed(genFile);
      InitSpec(s, moniker, flags, cfg, defaults, env) == Outcome(Some(expected), s.(writes := s.writes + [KeyFilesWritten(MnemonicFor(flags.recover, env).value)]))
  {
  }

  /** What a successful run leaves behind: the edited configuration files and,
      at the genesis path, the merged document for the resolved chain ID. */
  lemma SuccessfulInitContents(s: HomeState, moniker: string, flags: Flags, cfg: ProvConfig,
                               defaults: AppState, env: Collaborators)
    requires WellFormedAppState(defaults)
    requires InitSpec(s, moniker, flags, cfg, defaults, env).err.None?
    ensures var r, genFile, chainID := InitSpec(s, moniker, flags, cfg, defaults, env).home, s.cmtConfig.genesisFile,
                                       ResolveChainID(flags.chainID, env.token);
      && r.clientConfig.chainID == chainID
      && r.clientConfig.node == s.cmtConfig.rpcListenAddress
      && r.appConfig.minGasPrices == cfg.provMinGasPrices
      && r.cmtConfig.moniker == moniker
      && r.cmtConfig.timeoutCommit == TimeoutCommitAfter(s.cmtConfig.timeoutCommit, flags.timeoutCommit, chainID)
      && r.cmtConfig.genesisFile == genFile
      && genFile in r.files && r.files[genFile].GenesisJson?
      && var doc := r.files[genFile].doc;
        && doc.chainID == chainID
        && doc.appState == AppStateFor(defaults, cfg, ProfileFor(flags.testnet))
        && doc.consensus.Some? && doc.consensus.value.validators == []
        && doc.consensus.value.params.Some?
        && doc.consensus.value.params.value.block.maxGas == 60_000_000
  {
  }

  /** Two runs in a row: once the first has succeeded, a second one without
      --overwrite fails on the guard and leaves everything, the genesis file
      included, as the first run left it. */
  lemma SecondRunWithoutOverwriteFails(s: HomeState, moniker: string, flags: Flags, cfg: ProvConfig,
                                       defaults: AppState, env: Collaborators,
                                       moniker2: string, flags2: Flags, env2: Collaborators)
    requires WellFormedAppState(defaults)
    requires InitSpec(s, moniker, flags, cfg, defaults, env).err.None?
    requires !flags2.overwrite
    ensures var first := InitSpec(s, moniker, flags, cfg, defaults, env).home;
      InitSpec(first, moniker2, flags2, cfg, defaults, env2) == Outcome(Some(GenesisExists(s.cmtConfig.genesisFile)), first)
  {
  }

  /** Re-running with --overwrite and the same inputs succeeds again and
      reproduces the genesis document of the first run: the merge over its own
      output changes nothing. */
  lemma RerunWithOverwriteReproducesGenesis(s: HomeState, moniker: string, flags: Flags, cfg: ProvConfig,
                                             defaults: AppState, env: Collaborators)
    requires WellFormedAppState(defaults)
    requires flags.overwrite
    requires InitSpec(s, moniker, flags, cfg, defaults, env).err.None?
    ensures var first := InitSpec(s, moniker, flags, cfg, defaults, env).home;
      var second := InitSpec(first, moniker, flags, cfg, defaults, env);
      second.err.None? && second.home.files == first.files
  {
  }

  /** The default run on a fresh home directory: `init node1` with no flags,
      no genesis file yet, and collaborators that succeed. It succeeds with a
      generated chain ID, a one-second commit timeout, and a genesis with zero
      maximum inflation, at most 100 validators and a 60,000,000 gas limit. */
  lemma {:induction false} FreshNodeDefaultRun(s: HomeState, cfg: ProvConfig, defaults: AppState, env: Collaborators)
    requires WellFormedAppState(defaults)
    requires s.cmtConfig.genesisFile !in s.files
    requires env.keyFilesSucceed && env.exportSucceeds
    ensures var r := InitSpec(s, "node1", Flags("", false, false, false, 0), cfg, defaults, env);
      && r.err.None?
      && IsGeneratedChainID(r.home.clientConfig.chainID)
      && r.home.cmtConfig.timeoutCommit == Second
      && var doc := r.home.files[s.cmtConfig.genesisFile].doc;
        && doc.chainID == r.home.clientConfig.chainID
        && doc.appState[MintModule].mintParams.inflationMax == 0.0
        && doc.appState[StakingModule].stakingParams.maxValidators == 100
        && doc.appState[GovModule].govParams.minDeposit == [Coin(cfg.bondDenom, 1_000_000_000_000)]
        && doc.consensus.value.params.value.block.maxGas == 60_000_000
  {
    GeneratedChainIDCommitsAfterOneSecond(env.token, s.cmtConfig.timeoutCommit);
  }
}
