/** The genesis builder of createAndExportGenesisFile: the network-profile
    constants and the read-modify-write overrides applied to the module
    genesis states that the module manager supplies as defaults. */
module GenesisBuilder {
  import opened GenesisTypes

  /** The constants createAndExportGenesisFile picks for a network profile. */
  datatype Profile = Profile(minDeposit: int, downtimeJailDuration: Duration, maxGas: int)

  const MainnetMinDeposit := 1_000_000_000_000
  const TestnetMinDeposit := 10_000_000
  const MainnetDowntimeJail: Duration := 86400 * Second
  const TestnetDowntimeJail: Duration := 600 * Second
  const MaxGas := 60_000_000
  /** Blocks in a year of 365.25 days at one block every 5 seconds. */
  const BlocksPerYear: nat := 6311520
  const MaxValidators: nat := 100
  const UnrestrictedDenomRegex := @"[a-zA-Z][a-zA-Z0-9\-\.]{7,83}"

  /** The profile selected by the testnet flag: mainnet values unless the flag is set. */
  function ProfileFor(isTestnet: bool): (p: Profile)
    ensures p.maxGas == 60_000_000
    ensures isTestnet ==> p.minDeposit == 10_000_000 && p.downtimeJailDuration == 600 * Second
    ensures !isTestnet ==> p.minDeposit == 1_000_000_000_000 && p.downtimeJailDuration == 86400 * Second
    ensures p.minDeposit > 0 && p.downtimeJailDuration > 0
  {
    if isTestnet then Profile(TestnetMinDeposit, TestnetDowntimeJail, MaxGas)
    else Profile(MainnetMinDeposit, MainnetDowntimeJail, MaxGas)
  }

  /** The mint state after its override: every minter and parameter field is set,
      so nothing of the default survives. */
  function MintOverride(bondDenom: string): ModuleGenesis {
    MintGenesis(Minter(0.0, 1.0), MintParams(bondDenom, 1.0, 0.0, 0.0, 1.0, BlocksPerYear))
  }

  /** The application state after all overrides, stated module by module. */
  function AppStateFor(defaults: AppState, cfg: ProvConfig, p: Profile): (r: AppState)
    requires WellFormedAppState(defaults)
    ensures WellFormedAppState(r) && r.Keys == defaults.Keys
    ensures forall name :: name in defaults && name !in OverriddenModules ==> r[name] == defaults[name]
    // mint: zero inflation, one annual provision, the bond denom, 5-second blocks
    ensures var mint := r[MintModule];
      && mint.minter.inflation == 0.0 && mint.minter.annualProvisions == 1.0
      && mint.mintParams.mintDenom == cfg.bondDenom
      && mint.mintParams.inflationMax == 0.0 && mint.mintParams.inflationMin == 0.0
      && mint.mintParams.inflationRateChange == 1.0 && mint.mintParams.goalBonded == 1.0
      && mint.mintParams.blocksPerYear == 6311520
    // staking: both the denom and the validator cap, every other field as in the defaults
    ensures var s, d := r[StakingModule], defaults[StakingModule];
      && s.stakingParams.bondDenom == cfg.bondDenom && s.stakingParams.maxValidators == 100
      && s.stakingRest == d.stakingRest
      && s.stakingParams.unbondingTime == d.stakingParams.unbondingTime
      && s.stakingParams.maxEntries == d.stakingParams.maxEntries
      && s.stakingParams.historicalEntries == d.stakingParams.historicalEntries
      && s.stakingParams.minCommissionRate == d.stakingParams.minCommissionRate
    // crisis: only the fee denom changes
    ensures r[CrisisModule].constantFee == Coin(cfg.feeDenom, defaults[CrisisModule].constantFee.amount)
    // gov: a single minimum-deposit coin in the bond denom, nothing else changes
    ensures var g, d := r[GovModule], defaults[GovModule];
      && g.govParams.minDeposit == [Coin(cfg.bondDenom, p.minDeposit)]
      && g.govRest == d.govRest
      && g.govParams.(minDeposit := d.govParams.minDeposit) == d.govParams
    // slashing: only the downtime jail duration changes
    ensures var sl, d := r[SlashingModule], defaults[SlashingModule];
      && sl.slashingParams.downtimeJailDuration == p.downtimeJailDuration
      && sl.slashingRest == d.slashingRest
      && sl.slashingParams.(downtimeJailDuration := d.slashingParams.downtimeJailDuration) == d.slashingParams
    // marker: only the unrestricted denom pattern changes
    ensures var mk, d := r[MarkerModule], defaults[MarkerModule];
      && mk.markerParams.unrestrictedDenomRegex == @"[a-zA-Z][a-zA-Z0-9\-\.]{7,83}"
      && mk.markerRest == d.markerRest
      && mk.markerParams.(unrestrictedDenomRegex := d.markerParams.unrestrictedDenomRegex) == d.markerParams
  {
    var staking := defaults[StakingModule];
    var crisis := defaults[CrisisModule];
    var gov := defaults[GovModule];
    var slashing := defaults[SlashingModule];
    var marker := defaults[MarkerModule];
    defaults[MintModule := MintOverride(cfg.bondDenom)]
            [StakingModule := staking.(stakingParams := staking.stakingParams.(bondDenom := cfg.bondDenom, maxValidators := MaxValidators))]
            [CrisisModule := crisis.(constantFee := crisis.constantFee.(denom := cfg.feeDenom))]
            [GovModule := gov.(govParams := gov.govParams.(minDeposit := [Coin(cfg.bondDenom, p.minDeposit)]))]
            [SlashingModule := slashing.(slashingParams := slashing.slashingParams.(downtimeJailDuration := p.downtimeJailDuration))]
            [MarkerModule := marker.(markerParams := marker.markerParams.(unrestrictedDenomRegex := UnrestrictedDenomRegex))]
  }

  /** The override blocks of createAndExportGenesisFile, in the source's order:
      each decodes one module's state, sets fields one at a time and stores the
      state back. Staking is visited twice; the result shows that the second
      visit keeps what the first one set. */
  method BuildAppGenState(defaults: AppState, cfg: ProvConfig, p: Profile) returns (appGenState: AppState)
    requires WellFormedAppState(defaults)
    ensures appGenState == AppStateFor(defaults, cfg, p)
  {
    appGenState := defaults;

    // Set the mint parameters.
    {
      var mintGenState := appGenState[MintModule];
      mintGenState := mintGenState.(minter := mintGenState.minter.(inflation := 0.0));
      mintGenState := mintGenState.(minter := mintGenState.minter.(annualProvisions := 1.0));
      mintGenState := mintGenState.(mintParams := mintGenState.mintParams.(mintDenom := cfg.bondDenom));
      mintGenState := mintGenState.(mintParams := mintGenState.mintParams.(inflationMax := 0.0));
      mintGenState := mintGenState.(mintParams := mintGenState.mintParams.(inflationMin := 0.0));
      mintGenState := mintGenState.(mintParams := mintGenState.mintParams.(inflationRateChange := 1.0));
      mintGenState := mintGenState.(mintParams := mintGenState.mintParams.(goalBonded := 1.0));
      mintGenState := mintGenState.(mintParams := mintGenState.mintParams.(blocksPerYear := BlocksPerYear));
      appGenState := appGenState[MintModule := mintGenState];
    }

    // Set the staking denom.
    {
      var stakeGenState := appGenState[StakingModule];
      stakeGenState := stakeGenState.(stakingParams := stakeGenState.stakingParams.(bondDenom := cfg.bondDenom));
      appGenState := appGenState[StakingModule := stakeGenState];
    }

    // Set the crisis denom.
    {
      var crisisGenState := appGenState[CrisisModule];
      crisisGenState := crisisGenState.(constantFee := crisisGenState.constantFee.(denom := cfg.feeDenom));
      appGenState := appGenState[CrisisModule := crisisGenState];
    }

    // Set the gov deposit.
    {
      var govGenState := appGenState[GovModule];
      govGenState := govGenState.(govParams := govGenState.govParams.(minDeposit := [Coin(cfg.bondDenom, p.minDeposit)]));
      appGenState := appGenState[GovModule := govGenState];
    }

    // Set the slashing downtime jail duration.
    {
      var slashingGenState := appGenState[SlashingModule];
      slashingGenState := slashingGenState.(slashingParams := slashingGenState.slashingParams.(downtimeJailDuration := p.downtimeJailDuration));
      appGenState := appGenState[SlashingModule := slashingGenState];
    }

    // Set the staking validator cap.
    {
      var stakingGenState := appGenState[StakingModule];
      stakingGenState := stakingGenState.(stakingParams := stakingGenState.stakingParams.(maxValidators := MaxValidators));
      appGenState := appGenState[StakingModule := stakingGenState];
    }

    // Set the marker unrestricted denom pattern.
    {
      var markerGenState := appGenState[MarkerModule];
      markerGenState := markerGenState.(markerParams := markerGenState.markerParams.(unrestrictedDenomRegex := UnrestrictedDenomRegex));
      appGenState := appGenState[MarkerModule := markerGenState];
    }
  }
}
