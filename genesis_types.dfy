/** The values the init command reads and writes: module genesis states (as
    the codec decodes them), the application genesis document and the network
    configuration that supplies denominations. */
module GenesisTypes {

  datatype Option<T> = None | Some(value: T)

  /** time.Duration: a signed count of nanoseconds. */
  type Duration = int

  const Second: Duration := 1_000_000_000
  const Hour: Duration := 3600 * Second

  /** LegacyDec values are exact decimals; a rational number holds them without rounding. */
  type Dec = real

  /** Bytes this model never interprets (the parts of a module's state no override touches). */
  type Opaque = seq<bv8>

  datatype Coin = Coin(denom: string, amount: int)

  // ----- module genesis states ------------------------------------------------

  datatype Minter = Minter(inflation: Dec, annualProvisions: Dec)

  datatype MintParams = MintParams(
    mintDenom: string,
    inflationRateChange: Dec,
    inflationMax: Dec,
    inflationMin: Dec,
    goalBonded: Dec,
    blocksPerYear: nat)

  datatype StakingParams = StakingParams(
    unbondingTime: Duration,
    maxValidators: nat,
    maxEntries: nat,
    historicalEntries: nat,
    bondDenom: string,
    minCommissionRate: Dec)

  datatype GovParams = GovParams(
    minDeposit: seq<Coin>,
    maxDepositPeriod: Duration,
    votingPeriod: Duration,
    quorum: Dec,
    threshold: Dec,
    vetoThreshold: Dec)

  datatype SlashingParams = SlashingParams(
    signedBlocksWindow: int,
    minSignedPerWindow: Dec,
    downtimeJailDuration: Duration,
    slashFractionDoubleSign: Dec,
    slashFractionDowntime: Dec)

  datatype MarkerParams = MarkerParams(
    maxTotalSupply: nat,
    enableGovernance: bool,
    unrestrictedDenomRegex: string,
    maxSupply: int)

  /** One module's genesis state as its own schema decodes it. The modules the
      init command overrides have a typed variant; every other module's state
      stays raw bytes. */
  datatype ModuleGenesis =
    | MintGenesis(minter: Minter, mintParams: MintParams)
    | StakingGenesis(stakingParams: StakingParams, stakingRest: Opaque)
    | CrisisGenesis(constantFee: Coin)
    | GovGenesis(govParams: GovParams, govRest: Opaque)
    | SlashingGenesis(slashingParams: SlashingParams, slashingRest: Opaque)
    | MarkerGenesis(markerParams: MarkerParams, markerRest: Opaque)
    | RawGenesis(raw: Opaque)

  /** The application state: module name to that module's genesis state. */
  type AppState = map<string, ModuleGenesis>

  const MintModule := "mint"
  const StakingModule := "staking"
  const CrisisModule := "crisis"
  const GovModule := "gov"
  const SlashingModule := "slashing"
  const MarkerModule := "marker"

  /** The modules whose state the init command decodes and overrides. */
  const OverriddenModules: set<string> :=
    {MintModule, StakingModule, CrisisModule, GovModule, SlashingModule, MarkerModule}

  /** Every overridden module is present and decodes under its own schema; the
      codec's Must-unmarshal calls panic on anything else. */
  predicate WellFormedAppState(m: AppState) {
    && MintModule in m && m[MintModule].MintGenesis?
    && StakingModule in m && m[StakingModule].StakingGenesis?
    && CrisisModule in m && m[CrisisModule].CrisisGenesis?
    && GovModule in m && m[GovModule].GovGenesis?
    && SlashingModule in m && m[SlashingModule].SlashingGenesis?
    && MarkerModule in m && m[MarkerModule].MarkerGenesis?
  }

  // ----- the application genesis document -------------------------------------

  datatype BlockParams = BlockParams(maxBytes: int, maxGas: int)

  datatype EvidenceParams = EvidenceParams(maxAgeNumBlocks: int, maxAgeDuration: Duration, maxBytes: int)

  datatype ConsensusParams = ConsensusParams(
    block: BlockParams,
    evidence: EvidenceParams,
    pubKeyTypes: seq<string>,
    appVersion: nat,
    voteExtensionsEnableHeight: int)

  /** CometBFT's DefaultConsensusParams: 21 MiB blocks with no gas limit (-1),
      evidence kept for 100000 blocks or 48 hours, ed25519 validator keys. */
  const DefaultConsensusParams: ConsensusParams :=
    ConsensusParams(
      BlockParams(22020096, -1),
      EvidenceParams(100000, 48 * Hour, 1048576),
      ["ed25519"],
      0,
      0)

  datatype GenesisValidator = GenesisValidator(address: string, name: string, power: int)

  /** The Consensus part of a genesis document; `params` is a nil-able pointer in the source. */
  datatype ConsensusGenesis = ConsensusGenesis(validators: seq<GenesisValidator>, params: Option<ConsensusParams>)

  /** Fields of AppGenesis the init command never sets; they survive a merge. */
  datatype GenesisMeta = GenesisMeta(appName: string, appVersion: string, genesisTime: int, initialHeight: int, appHash: Opaque)

  /** AppGenesis; `consensus` is a nil-able pointer in the source. */
  datatype AppGenesis = AppGenesis(meta: GenesisMeta, chainID: string, appState: AppState, consensus: Option<ConsensusGenesis>)

  /** The zero value `&AppGenesis{}`. */
  const EmptyGenesis: AppGenesis := AppGenesis(GenesisMeta("", "", 0, 0, []), "", map[], None)

  // ----- process-wide network configuration ------------------------------------

  /** pioconfig's ProvConfig: the denominations and minimum gas prices in effect for this run. */
  datatype ProvConfig = ProvConfig(bondDenom: string, feeDenom: string, provMinGasPrices: string)
}
