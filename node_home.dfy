/** The node's home directory as the init command sees it: the genesis file
    (and whatever else sits at its path), the three configuration files, and
    the ordered record of everything written there. */
module NodeHome {
  import opened GenesisTypes

  type Path = string

  /** What sits at a path. */
  datatype Entry =
    | GenesisJson(doc: AppGenesis)  // a file that parses as a genesis document
    | Garbled                       // a file that does not parse as one
    | Unstatable                    // os.Stat fails with an error other than "does not exist"

  datatype StatResult = StatOk | StatNotExist | StatError

  /** os.Stat: "does not exist" for an absent path. */
  function Stat(files: map<Path, Entry>, path: Path): StatResult {
    if path !in files then StatNotExist
    else if files[path].Unstatable? then StatError
    else StatOk
  }

  /** CometBFT's FileExists: true unless stat reports "does not exist", so a path
      that cannot be stat-ed counts as existing. */
  predicate FileExists(files: map<Path, Entry>, path: Path) {
    Stat(files, path) != StatNotExist
  }

  /** app.toml, reduced to the field the init command sets. */
  datatype AppConfig = AppConfig(minGasPrices: string)

  /** config.toml, reduced to the fields the init command reads or sets. */
  datatype CmtConfig = CmtConfig(moniker: string, timeoutCommit: Duration, rpcListenAddress: string, genesisFile: Path)

  /** client.toml, reduced to the fields the init command sets. */
  datatype ClientConfig = ClientConfig(chainID: string, node: string)

  /** One write into the home directory. */
  datatype Write =
    | KeyFilesWritten(mnemonic: string)  // node_key.json and priv_validator_key.json
    | GenesisExported(path: Path, doc: AppGenesis)
    | ConfigsSaved(app: AppConfig, cmt: CmtConfig, client: ClientConfig)

  /** A snapshot of the home directory. */
  datatype HomeState = HomeState(
    files: map<Path, Entry>,
    appConfig: AppConfig,
    cmtConfig: CmtConfig,
    clientConfig: ClientConfig,
    writes: seq<Write>)

  class Home {
    var files: map<Path, Entry>
    /** The configuration files as they are on disk (all defaults when absent). */
    var appConfig: AppConfig
    var cmtConfig: CmtConfig
    var clientConfig: ClientConfig
    /** Every write made so far, oldest first. */
    var writes: seq<Write>

    function State(): HomeState
      reads this
    {
      HomeState(files, appConfig, cmtConfig, clientConfig, writes)
    }

    constructor (s: HomeState)
      ensures State() == s
    {
      files, appConfig, cmtConfig, clientConfig, writes :=
        s.files, s.appConfig, s.cmtConfig, s.clientConfig, s.writes;
    }

    /** InitializeNodeValidatorFilesFromMnemonic: writes the node key and the
        validator signing key, or fails without a trace when `succeeds` is false. */
    method InitializeNodeValidatorFiles(mnemonic: string, succeeds: bool) returns (ok: bool)
      modifies this
      ensures ok == succeeds
      ensures State() == if ok then old(State()).(writes := old(writes) + [KeyFilesWritten(mnemonic)]) else old(State())
    {
      ok := succeeds;
      if ok {
        writes := writes + [KeyFilesWritten(mnemonic)];
      }
    }

    /** ExportGenesisFile: stores `doc` at `path`, or fails without a trace when
        `succeeds` is false. */
    method ExportGenesisFile(doc: AppGenesis, path: Path, succeeds: bool) returns (ok: bool)
      modifies this
      ensures ok == succeeds
      ensures State() == if ok then old(State()).(files := old(files)[path := GenesisJson(doc)],
                                                  writes := old(writes) + [GenesisExported(path, doc)])
                         else old(State())
    {
      ok := succeeds;
      if ok {
        files := files[path := GenesisJson(doc)];
        writes := writes + [GenesisExported(path, doc)];
      }
    }

    /** SaveConfigs: writes the three configuration files. */
    method SaveConfigs(app: AppConfig, cmt: CmtConfig, client: ClientConfig)
      modifies this
      ensures State() == old(State()).(appConfig := app, cmtConfig := cmt, clientConfig := client,
                                       writes := old(writes) + [ConfigsSaved(app, cmt, client)])
    {
      appConfig, cmtConfig, clientConfig := app, cmt, client;
      writes := writes + [ConfigsSaved(app, cmt, client)];
    }
  }
}
