/** The `init` command of the provenance daemon: it resolves the chain ID and
    the consensus commit timeout, gates key recovery on a valid mnemonic,
    writes the node's key files, builds and exports the genesis file, and
    saves the configuration files last. */
module InitCommand {
  import opened Text
  import opened GenesisTypes
  import opened GenesisBuilder
  import opened GenesisMerger
  import opened NodeHome

  datatype InitError =
    | NoMoniker                 // "no moniker provided"
    | GenesisExists(path: Path) // "genesis file already exists"
    | MnemonicReadFailed        // the line could not be read from standard input
    | InvalidMnemonic           // "invalid mnemonic"
    | KeyFilesFailed            // the key-file writer reported an error
    | StatFailed(path: Path)    // os.Stat failed for a reason other than "does not exist"
    | ReadGenesisFailed(path: Path) // "Failed to read genesis doc from file"
    | ExportFailed(path: Path)  // "Failed to export gensis file"

  datatype Result<T> = Ok(value: T) | Err(error: InitError)

  /** The six characters CometBFT's random generator returns for `Str(6)`. */
  type Token = t: string | |t| == 6 && forall i | 0 <= i < |t| :: IsAlphanumeric(t[i])
    witness "000000"

  /** The command's flags: --chain-id, the testnet flag, --recover, --overwrite, --timeout-commit. */
  datatype Flags = Flags(chainID: string, testnet: bool, recover: bool, overwrite: bool, timeoutCommit: Duration)

  /** A BIP-39 checksum test. No word list makes the empty phrase valid, so every
      test rejects the empty line. */
  type MnemonicCheck = f: string -> bool | !f("") witness (line: string) => line != ""

  /** What the collaborators of one run return: the random token, the line read
      from standard input (None when the read fails), the BIP-39 checksum test,
      and whether the key-file writer and the genesis export succeed. */
  datatype Collaborators = Collaborators(
    token: Token,
    stdinLine: Option<string>,
    isMnemonicValid: MnemonicCheck,
    keyFilesSucceed: bool,
    exportSucceeds: bool)

  const ChainIDPrefix := "provenance-chain-"

  /** An ID of the shape `provenance-chain-` followed by six ASCII letters or digits. */
  predicate IsGeneratedChainID(id: string) {
    && |id| == 23
    && id[..17] == "provenance-chain-"
    && forall i | 17 <= i < 23 :: IsAlphanumeric(id[i])
  }

  /** Chain-ID resolution: a given ID is kept verbatim, an empty one is replaced
      by the prefix and the random token. */
  function ResolveChainID(given: string, token: Token): (id: string)
    ensures given != "" ==> id == given
    ensures given == "" ==> id == ChainIDPrefix + token && IsGeneratedChainID(id)
    ensures id != ""
  {
    if |given| == 0 then ChainIDPrefix + token else given
  }

  /** The chain ID names one of the public networks. */
  predicate NamesPublicNetwork(chainID: string) {
    Contains(chainID, "mainnet") || Contains(chainID, "testnet")
  }

  /** The consensus commit timeout after the heuristic: a positive flag wins; a
      zero flag on a chain that names no public network gives one second;
      otherwise the loaded value stays. */
  function TimeoutCommitAfter(loaded: Duration, flag: Duration, chainID: string): (t: Duration)
    ensures flag > 0 ==> t == flag
    ensures flag == 0 && !NamesPublicNetwork(chainID) ==> t == Second
    ensures flag == 0 && NamesPublicNetwork(chainID) ==> t == loaded
    ensures flag < 0 ==> t == loaded
    ensures t == loaded || t > 0
  {
    var timeoutCommit := if flag == 0 && !Contains(chainID, "mainnet") && !Contains(chainID, "testnet")
      then Second else flag;
    if timeoutCommit > 0 then timeoutCommit else loaded
  }

  /** The mnemonic handed to the key-file writer: empty without --recover,
      otherwise the line read, which must pass the checksum test. */
  function MnemonicFor(doRecover: bool, env: Collaborators): (r: Result<string>)
    ensures !doRecover ==> r == Ok("")
    ensures doRecover && r.Ok? ==> env.stdinLine == Some(r.value) && env.isMnemonicValid(r.value) && r.value != ""
    ensures doRecover && env.stdinLine.Some? && env.isMnemonicValid(env.stdinLine.value) ==> r == Ok(env.stdinLine.value)
    ensures doRecover && env.stdinLine.Some? && !env.isMnemonicValid(env.stdinLine.value) ==> r == Err(InvalidMnemonic)
    ensures doRecover && env.stdinLine.None? ==> r == Err(MnemonicReadFailed)
  {
    if !doRecover then Ok("")
    else if env.stdinLine.None? then Err(MnemonicReadFailed)
    else if !env.isMnemonicValid(env.stdinLine.value) then Err(InvalidMnemonic)
    else Ok(env.stdinLine.value)
  }

  // ----- createAndExportGenesisFile -------------------------------------------

  /** The document the merge starts from: the zero document when nothing is at
      the path, the parsed file when one is there. */
  function BaseDocument(files: map<Path, Entry>, genFile: Path): Result<AppGenesis> {
    match Stat(files, genFile)
    case StatNotExist => Ok(EmptyGenesis)
    case StatError => Err(StatFailed(genFile))
    case StatOk =>
      if files[genFile].GenesisJson? then Ok(files[genFile].doc) else Err(ReadGenesisFailed(genFile))
  }

  /** The genesis document exported over `base` for the given profile. */
  function GenesisFor(base: AppGenesis, chainID: string, isTestnet: bool, cfg: ProvConfig, defaults: AppState): AppGenesis
    requires WellFormedAppState(defaults)
  {
    var p := ProfileFor(isTestnet);
    Merged(base, chainID, AppStateFor(defaults, cfg, p), p.maxGas)
  }

  /** The document createAndExportGenesisFile writes, or the error it returns. */
  function GenesisOutcome(files: map<Path, Entry>, genFile: Path, chainID: string, isTestnet: bool,
                          cfg: ProvConfig, defaults: AppState, exportSucceeds: bool): Result<AppGenesis>
    requires WellFormedAppState(defaults)
  {
    match BaseDocument(files, genFile)
    case Err(e) => Err(e)
    case Ok(base) =>
      if exportSucceeds then Ok(GenesisFor(base, chainID, isTestnet, cfg, defaults)) else Err(ExportFailed(genFile))
  }

  /** Profile selection, overrides, merge and export. Nothing is written unless
      the export succeeds, and then only the genesis file. */
  method CreateAndExportGenesisFile(home: Home, cfg: ProvConfig, defaults: AppState, isTestnet: bool,
                                    chainID: string, genFile: Path, exportSucceeds: bool)
    returns (err: Option<InitError>)
    requires WellFormedAppState(defaults)
    modifies home
    ensures match GenesisOutcome(old(home.files), genFile, chainID, isTestnet, cfg, defaults, exportSucceeds)
      case Err(e) => err == Some(e) && home.State() == old(home.State())
      case Ok(doc) =>
        && err == None
        && home.State() == old(home.State()).(files := old(home.files)[genFile := GenesisJson(doc)],
                                              writes := old(home.writes) + [GenesisExported(genFile, doc)])
  {
    var minDeposit := MainnetMinDeposit;
    var downtimeJailDuration := MainnetDowntimeJail;
    var maxGas := MaxGas;
    if isTestnet {
      minDeposit := TestnetMinDeposit;
      downtimeJailDuration := TestnetDowntimeJail;
    }
    var profile := Profile(minDeposit, downtimeJailDuration, maxGas);
    assert profile == ProfileFor(isTestnet);

    var appState := BuildAppGenState(defaults, cfg, profile);

    var appGen := EmptyGenesis;
    var stat := Stat(home.files, genFile);
    if stat == StatError {
      return Some(StatFailed(genFile));
    } else if stat == StatOk {
      if !home.files[genFile].GenesisJson? {
        return Some(ReadGenesisFailed(genFile));
      }
      appGen := home.files[genFile].doc;
    }

    appGen := MergeIntoGenesis(appGen, chainID, appState, maxGas);

    var exported := home.ExportGenesisFile(appGen, genFile, exportSucceeds);
    if !exported {
      return Some(ExportFailed(genFile));
    }
    return None;
  }

  // ----- Init -------------------------------------------------------------------

  /** What one run of Init reports and leaves behind. */
  datatype Outcome = Outcome(err: Option<InitError>, home: HomeState)

  /** Init as a function of the home directory before the run: the overwrite
      guard, the config edits, the mnemonic gate, the key files, the genesis
      file, and the configuration files saved last. */
  function InitSpec(s: HomeState, moniker: string, flags: Flags, cfg: ProvConfig,
                    defaults: AppState, env: Collaborators): Outcome
    requires WellFormedAppState(defaults)
  {
    var genFile := s.cmtConfig.genesisFile;
    if !flags.overwrite && FileExists(s.files, genFile) then
      Outcome(Some(GenesisExists(genFile)), s)
    else
      var chainID := ResolveChainID(flags.chainID, env.token);
      var app := s.appConfig.(minGasPrices := cfg.provMinGasPrices);
      var cmt := s.cmtConfig.(moniker := moniker,
                              timeoutCommit := TimeoutCommitAfter(s.cmtConfig.timeoutCommit, flags.timeoutCommit, chainID));
      var client := s.clientConfig.(chainID := chainID, node := s.cmtConfig.rpcListenAddress);
      match MnemonicFor(flags.recover, env)
      case Err(e) => Outcome(Some(e), s)
      case Ok(mnemonic) =>
        if !env.keyFilesSucceed then Outcome(Some(KeyFilesFailed), s)
        else
          var withKeys := s.(writes := s.writes + [KeyFilesWritten(mnemonic)]);
          match GenesisOutcome(s.files, genFile, chainID, flags.testnet, cfg, defaults, env.exportSucceeds)
          case Err(e) => Outcome(Some(e), withKeys)
          case Ok(doc) =>
            Outcome(None, HomeState(s.files[genFile := GenesisJson(doc)], app, cmt, client,
                                    withKeys.writes + [GenesisExported(genFile, doc), ConfigsSaved(app, cmt, client)]))
  }

  /** The config edits Init makes once the overwrite guard has passed: the
      minimum gas prices, the moniker, the resolved chain ID and the commit
      timeout. */
  method SetConfigFields(app: AppConfig, cmt: CmtConfig, client: ClientConfig, moniker: string,
                         givenChainID: string, givenTimeout: Duration, cfg: ProvConfig, token: Token)
    returns (appConfig: AppConfig, cmtConfig: CmtConfig, clientConfig: ClientConfig, chainID: string)
    ensures chainID == ResolveChainID(givenChainID, token)
    ensures appConfig == app.(minGasPrices := cfg.provMinGasPrices)
    ensures cmtConfig == cmt.(moniker := moniker, timeoutCommit := TimeoutCommitAfter(cmt.timeoutCommit, givenTimeout, chainID))
    ensures clientConfig == client.(chainID := chainID)
  {
    appConfig, cmtConfig, clientConfig := app, cmt, client;
    appConfig := appConfig.(minGasPrices := cfg.provMinGasPrices);

    cmtConfig := cmtConfig.(moniker := moniker);
    chainID := givenChainID;
    if |chainID| == 0 {
      chainID := ChainIDPrefix + token;
    }
    clientConfig := clientConfig.(chainID := chainID);

    // No timeout given and not a mainnet or testnet chain: commit after one second.
    var timeoutCommit := givenTimeout;
    if timeoutCommit == 0 && !Contains(chainID, "mainnet") && !Contains(chainID, "testnet") {
      timeoutCommit := Second;
    }
    if timeoutCommit > 0 {
      cmtConfig := cmtConfig.(timeoutCommit := timeoutCommit);
    }
  }

  /** Init: each step in the source's order, returning at the first error. */
  method Init(home: Home, moniker: string, flags: Flags, cfg: ProvConfig, defaults: AppState, env: Collaborators)
    returns (err: Option<InitError>)
    requires WellFormedAppState(defaults)
    modifies home
    ensures Outcome(err, home.State()) == InitSpec(old(home.State()), moniker, flags, cfg, defaults, env)
  {
    ghost var s0 := home.State();
    var isTestnet := flags.testnet;
    var doRecover := flags.recover;
    var doOverwrite := flags.overwrite;
    var timeoutCommit := flags.timeoutCommit;

    // The current configs (all defaults when the files are absent).
    var appConfig := home.appConfig;
    var cmtConfig := home.cmtConfig;
    var clientConfig := home.clientConfig;

    // Stop now if the genesis file exists and no overwrite was requested.
    var genFile := cmtConfig.genesisFile;
    if !doOverwrite && FileExists(home.files, genFile) {
      return Some(GenesisExists(genFile));
    }

    var chainID;
    appConfig, cmtConfig, clientConfig, chainID :=
      SetConfigFields(appConfig, cmtConfig, clientConfig, moniker, flags.chainID, timeoutCommit, cfg, env.token);

    // Gather the mnemonic if a recovery was requested.
    var mnemonic := "";
    if doRecover {
      if env.stdinLine.None? {
        return Some(MnemonicReadFailed);
      }
      mnemonic := env.stdinLine.value;
      if !env.isMnemonicValid(mnemonic) {
        return Some(InvalidMnemonic);
      }
    }
    assert MnemonicFor(flags.recover, env) == Ok(mnemonic);

    // Write node_key.json and priv_validator_key.json.
    var keysWritten := home.InitializeNodeValidatorFiles(mnemonic, env.keyFilesSucceed);
    if !keysWritten {
      return Some(KeyFilesFailed);
    }
    clientConfig := clientConfig.(node := cmtConfig.rpcListenAddress);
    ghost var withKeys := home.State();
    assert withKeys == s0.(writes := s0.writes + [KeyFilesWritten(mnemonic)]);

    ghost var outcome := GenesisOutcome(s0.files, genFile, chainID, isTestnet, cfg, defaults, env.exportSucceeds);
    err := CreateAndExportGenesisFile(home, cfg, defaults, isTestnet, chainID, genFile, env.exportSucceeds);
    if err.Some? {
      assert outcome.Err? && err == Some(outcome.error) && home.State() == withKeys;
      return err;
    }
    assert outcome.Ok?;
    assert home.State() == withKeys.(files := s0.files[genFile := GenesisJson(outcome.value)],
                                     writes := withKeys.writes + [GenesisExported(genFile, outcome.value)]);
    assert appConfig == s0.appConfig.(minGasPrices := cfg.provMinGasPrices);
    assert cmtConfig == s0.cmtConfig.(moniker := moniker,
                                      timeoutCommit := TimeoutCommitAfter(s0.cmtConfig.timeoutCommit, flags.timeoutCommit, chainID));
    assert clientConfig == s0.clientConfig.(chainID := chainID, node := s0.cmtConfig.rpcListenAddress);
    home.SaveConfigs(appConfig, cmtConfig, clientConfig);
    assert home.State() == HomeState(s0.files[genFile := GenesisJson(outcome.value)], appConfig, cmtConfig, clientConfig,
      withKeys.writes + [GenesisExported(genFile, outcome.value), ConfigsSaved(appConfig, cmtConfig, clientConfig)]);
    return None;
  }

  /** The command entry point: an empty moniker is refused before Init runs. */
  method RunInitCommand(home: Home, moniker: string, flags: Flags, cfg: ProvConfig, defaults: AppState, env: Collaborators)
    returns (err: Option<InitError>)
    requires WellFormedAppState(defaults)
    modifies home
    ensures moniker == "" ==> err == Some(NoMoniker) && home.State() == old(home.State())
    ensures moniker != "" ==> Outcome(err, home.State()) == InitSpec(old(home.State()), moniker, flags, cfg, defaults, env)
  {
    if |moniker| == 0 {
      return Some(NoMoniker);
    }
    err := Init(home, moniker, flags, cfg, defaults, env);
  }
}
