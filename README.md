# Provenance daemon `init`: a Dafny model

This project models the node-initialisation logic of the provenance daemon
(`cmd/provenanced/cmd/init.go`). When a node is first set up, `init <moniker>`:

1. refuses to run when a genesis file already exists and `--overwrite` was not given;
2. sets the minimum gas prices, the moniker and the chain ID in the app, consensus
   and client configurations. An empty `--chain-id` becomes `provenance-chain-`
   followed by six random letters or digits;
3. picks the consensus commit timeout. A positive `--timeout-commit` is used as
   given. Without one, a chain whose ID mentions neither `mainnet` nor `testnet`
   gets one second, and any other chain keeps the loaded value;
4. with `--recover`, reads a BIP-39 mnemonic and refuses it if its checksum is bad,
   before any key file is written;
5. writes the node key and the validator key;
6. builds the genesis application state. It starts from the module defaults and
   applies a fixed series of overrides (mint, staking twice, crisis, gov,
   slashing, marker) with mainnet or testnet constants;
7. merges that state into the zero document or into the genesis document already
   on disk. It empties the validators, fills in default consensus parameters when
   none are present, and forces the block gas limit;
8. exports the genesis file, and saves the configuration files only after that
   export has succeeded.

Files and modules:

- `text.dfy` (`Text`): `strings.Contains`, specified by the existence of an
  occurrence. It also holds the alphabet of CometBFT's random strings.
- `genesis_types.dfy` (`GenesisTypes`): module genesis states as typed records,
  the genesis document, CometBFT's default consensus parameters, and the
  process-wide network configuration (bond and fee denominations).
- `genesis_builder.dfy` (`GenesisBuilder`): the profile constants, the override
  blocks as a method in the source's order, and the function that specifies
  their combined effect.
- `genesis_merger.dfy` (`GenesisMerger`): the field-by-field merge as a method,
  the function that specifies it, and idempotence.
- `node_home.dfy` (`NodeHome`): the home directory as a class. It holds a map
  from path to file, the three configuration files and an ordered log of writes.
  The key-file writer, the genesis exporter and the config saver are its methods.
- `init_command.dfy` (`InitCommand`): `Init`, `createAndExportGenesisFile`, the
  moniker check of the command, and `InitSpec`, the function of the home state
  that `Init` is proved to follow.
- `init_properties.dfy` (`InitProperties`): the guarantees of a run, stated over
  `InitSpec`, and the timeout examples.

Modelling choices:

- The app, consensus and client configurations, the genesis document and its
  consensus part are Go structs reached through pointers that never escape the
  function. The model keeps them as datatype values in local variables and
  reassigns them one field at a time, in the source's order. The disk is the
  only shared state, so it is the one class.
- Durations are integers of nanoseconds, as `time.Duration` is. `LegacyDec`
  values are `real`s, which are exact rationals. Coins are a denomination and an
  integer amount.
- Each module's genesis state is held already decoded. The overridden modules
  have typed variants. Every other module is raw bytes that the model never looks
  at. The codec's `MustUnmarshalJSON` panics when a module is missing or does not
  decode. The model therefore requires every overridden module to be present with
  its own schema (`WellFormedAppState`). That panic is a programming error, not a
  runtime condition.
- The collaborators of one run are inputs: the six-character random token, the
  line read from standard input, the BIP-39 checksum test, and whether the
  key-file writer and the export succeed.
- `cmtos.FileExists` is true unless `os.Stat` reports "does not exist".
  A genesis path that cannot be stat-ed therefore trips the overwrite guard.
  With `--overwrite`, the same path makes `createAndExportGenesisFile` fail with
  the stat error, before anything is exported.
- A generated chain ID always uses the literal prefix `provenance-chain-`.
- Whether existing key files are overwritten is left to the key-file writer,
  which the model treats as opaque.

## Model

| member | source | states |
|---|---|---|
| `Text.Contains` | cmd/provenanced/cmd/init.go:123 | `strings.Contains(s, sub)` holds exactly when `sub` occurs at some index of `s` |
| `GenesisBuilder.ProfileFor` | cmd/provenanced/cmd/init.go:170-179 | testnet: min deposit 10,000,000 and jail 600 s; otherwise 1,000,000,000,000 and 86,400 s; max gas 60,000,000 in both |
| `GenesisBuilder.AppStateFor` | cmd/provenanced/cmd/init.go:188-266 | the same modules as the defaults and still well formed. Mint gets inflation 0, annual provisions 1, inflation max/min 0, rate change 1, goal bonded 1, 6,311,520 blocks per year and the bond denom. Staking gets the bond denom and 100 validators. Crisis gets the fee denom on its constant fee. Gov gets a single minimum-deposit coin in the bond denom. Slashing gets the profile's jail duration. Marker gets the unrestricted denom pattern. Every other field, and every module not listed, is the default |
| `GenesisBuilder.BuildAppGenState` | cmd/provenanced/cmd/init.go:188-266 | the seven read-modify-write blocks, staking visited twice, yield exactly `AppStateFor`, so both staking edits survive |
| `GenesisMerger.Merged` | cmd/provenanced/cmd/init.go:285-297 | new chain ID and app state, the base's other fields, empty validators, consensus params present; the base's params (or CometBFT's defaults when absent) except max gas, which is forced |
| `GenesisMerger.MergeIntoGenesis` | cmd/provenanced/cmd/init.go:285-297 | the field-by-field assignments, including the nil checks, produce `Merged` |
| `GenesisMerger.MergeIdempotent` | cmd/provenanced/cmd/init.go:285-297 | merging the same inputs into an already merged document gives that document back |
| `GenesisMerger.MergeForgetsReplacedFields` | cmd/provenanced/cmd/init.go:285-297 | bases that agree on metadata and on params except max gas merge to the same document, whatever their validators, chain ID and app state |
| `NodeHome.Home.InitializeNodeValidatorFiles` | cmd/provenanced/cmd/init.go:144-148 | on success, records exactly one key-file write; on failure, changes nothing |
| `NodeHome.Home.ExportGenesisFile` | cmd/provenanced/cmd/init.go:299-301 | on success, stores the document at the path and logs the write; on failure, changes nothing |
| `NodeHome.Home.SaveConfigs` | cmd/provenanced/cmd/init.go:156-157 | replaces the three configuration files and logs the write |
| `InitCommand.ResolveChainID` | cmd/provenanced/cmd/init.go:116-120 | a non-empty ID is kept verbatim. An empty one becomes `provenance-chain-` plus the token, which matches `provenance-chain-[A-Za-z0-9]{6}`. The result is never empty |
| `InitCommand.TimeoutCommitAfter` | cmd/provenanced/cmd/init.go:122-128 | a positive flag is used as given. A zero flag on a chain naming neither mainnet nor testnet gives 1 s. A zero flag on a named chain, or a negative flag, keeps the loaded value |
| `InitCommand.MnemonicFor` | cmd/provenanced/cmd/init.go:130-142 | no recovery gives the empty mnemonic. With `--recover`, a failed read is an error, a line that fails the checksum is `InvalidMnemonic`, and a line that passes it is accepted and returned as the mnemonic. An accepted mnemonic is always the line read, passes the checksum and is never empty |
| `InitCommand.SetConfigFields` | cmd/provenanced/cmd/init.go:112-128 | min gas prices, moniker, resolved chain ID and commit timeout are set as `ResolveChainID` and `TimeoutCommitAfter` say; nothing else in the configs changes |
| `InitCommand.CreateAndExportGenesisFile` | cmd/provenanced/cmd/init.go:163-305 | a stat error other than not-exist, an unparsable existing file or a failed export returns the error and writes nothing; otherwise the merged document for the profile is written at the genesis path and nothing else changes |
| `InitCommand.Init` | cmd/provenanced/cmd/init.go:74-160 | the error and the new home state are exactly those of `InitSpec` |
| `InitCommand.RunInitCommand` | cmd/provenanced/cmd/init.go:58-63 | an empty moniker is refused with no change; otherwise the command behaves as `Init` |
| `InitProperties.GeneratedChainIDCommitsAfterOneSecond` | cmd/provenanced/cmd/init.go:116-128 | a generated chain ID never mentions mainnet or testnet, so without a timeout flag it commits after 1 s |
| `InitProperties.DevnetLocalCommitsAfterOneSecond` | cmd/provenanced/cmd/init.go:122-128 | `devnet-local` without a timeout flag commits after 1 s |
| `InitProperties.PublicNetworksKeepLoadedTimeout` | cmd/provenanced/cmd/init.go:122-128 | `provenance-mainnet-1` and `pio-testnet-1` without a timeout flag keep the loaded timeout |
| `InitProperties.OverwriteGuardChangesNothing` | cmd/provenanced/cmd/init.go:106-110 | an occupied genesis path without `--overwrite` gives `GenesisExists` and leaves the home, the genesis file included, exactly as it was |
| `InitProperties.InvalidMnemonicWritesNothing` | cmd/provenanced/cmd/init.go:131-148 | a recovery mnemonic that fails the checksum gives `InvalidMnemonic` with no key, genesis or configuration file written |
| `InitProperties.RecoveredMnemonicDerivesKeys` | cmd/provenanced/cmd/init.go:130-148 | a `--recover` run past the guard whose line passes the checksum hands exactly that line, never empty, to the key-file writer, as the run's first write |
| `InitProperties.WritesInOrder` | cmd/provenanced/cmd/init.go:144-157 | a failed run leaves files and configs untouched and has written at most the key files; a successful run writes keys, then genesis, then configs |
| `InitProperties.UnusableGenesisFileStopsBeforeExport` | cmd/provenanced/cmd/init.go:273-283 | with `--overwrite`, whether or not `--recover` supplies an accepted mnemonic, a genesis path that cannot be stat-ed gives the stat error and an unparsable file gives `ReadGenesisFailed`. Either way the run stops after the key files, with the genesis and configuration files untouched |
| `InitProperties.SuccessfulInitContents` | cmd/provenanced/cmd/init.go:112-157 | after a successful run the configs hold the resolved chain ID, RPC address, gas prices, moniker and timeout; the genesis file holds that chain ID, the overridden app state, no validators, consensus params and a 60,000,000 gas limit |
| `InitProperties.SecondRunWithoutOverwriteFails` | cmd/provenanced/cmd/init.go:106-110 | once a run has succeeded, a second one without `--overwrite` fails on the guard and changes nothing |
| `InitProperties.RerunWithOverwriteReproducesGenesis` | cmd/provenanced/cmd/init.go:273-301 | after a successful run, a re-run with `--overwrite` and the same inputs also succeeds and leaves the genesis file byte for byte as the first run wrote it |
| `InitProperties.FreshNodeDefaultRun` | cmd/provenanced/cmd/init.go:74-160 | `init node1` with default flags on a fresh home succeeds with a generated chain ID, a 1 s timeout, mint inflation max 0, 100 max validators, the mainnet deposit and a 60,000,000 gas limit |

## Left out

- Cobra command construction, flag parsing (including the `--timeout-commit` parse error) and the `cmd.Printf` messages: flag values are plain inputs.
- `EnsureConfigDir`, `ExtractAppConfig`, `ExtractCmtConfig`, `ExtractClientConfig` and their errors: the loaded configurations are the home's config fields, reduced to the fields `Init` touches.
- The JSON codec, `json.MarshalIndent`, `AppGenesisFromFile` and `ExportGenesisFile` internals: states are held decoded, and decoding after encoding is assumed to give the same state back. With no serialisation step, the error path of `json.MarshalIndent` (init.go:268-271) is absent. The completion `ExportGenesisFile` applies before writing (genesis time, initial height) is not modelled.
- The key-file writer and the BIP-39 checksum are opaque: their outcome is an input. The checksum test is only constrained to reject the empty line, as `bip39.IsMnemonicValid` does. Key files appear only as an entry in the write log, not as files at paths.
- NodeHome.Home.InitializeNodeValidatorFiles: does not model partial writes by a key-file writer that fails midway, because the writer's internals are out of view.
- NodeHome.Home.ExportGenesisFile: does not model a partially written genesis file when the export fails, because the write mechanics are out of view.
- The random token is an input. It is constrained to six ASCII letters or digits, the alphabet of CometBFT's generator.
- `time.ParseDuration` of the fixed jail-duration literals and its panic: the durations are integer constants, and the panic cannot happen for those literals.
- Denomination validation inside `sdk.NewCoins` and `sdk.NewInt64Coin`: the configured bond denom is taken as valid. With a positive amount, the deposit is the single coin `[Coin(bondDenom, minDeposit)]`.
- 64-bit bounds of durations, deposits and gas: the constants fit in an `int64` and the model uses unbounded integers.
- `strings.Contains` works on UTF-8 bytes. The model works on characters, which agree for the ASCII words searched for.
- Interactive reading of standard input: the line read, or the failure to read it, is an input.
