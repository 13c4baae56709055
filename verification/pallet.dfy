/** The governance pallet's storage items `GlobalGovernanceConfig`,
    `SubnetGovernanceConfig` and `NotDelegatingVotingPower`, and the
    functions of the pallet that read and write them in place. */
module GovernancePallet {
  import opened GovernanceTypes
  import opened GovernanceConfig
  import opened Delegation
  import opened GovernanceStorage

  class Pallet {
    /** `GovernanceConfiguration::default()`, the value a `ValueQuery` item
        reads as before it is first written. */
    const defaultConfig: GovernanceConfiguration

    var globalGovernanceConfig: GovernanceConfiguration
    var subnetGovernanceConfig: map<SubnetId, GovernanceConfiguration>
    var notDelegatingVotingPower: set<AccountId>

    /** The storage items as one value. */
    function Snapshot(): Storage
      reads this
    {
      Storage(globalGovernanceConfig, subnetGovernanceConfig, notDelegatingVotingPower)
    }

    ghost predicate Valid()
      reads this
    {
      Consistent(Snapshot())
      && (globalGovernanceConfig == defaultConfig || IsValid(globalGovernanceConfig))
    }

    /** Storage at genesis. */
    constructor (defaultConfig: GovernanceConfiguration)
      ensures Valid()
      ensures this.defaultConfig == defaultConfig
      ensures Snapshot() == Genesis(defaultConfig)
    {
      this.defaultConfig := defaultConfig;
      globalGovernanceConfig := defaultConfig;
      subnetGovernanceConfig := map[];
      notDelegatingVotingPower := {};
    }

    /** Reading `SubnetGovernanceConfig` for `subnet`. */
    function SubnetGovernanceConfig(subnet: SubnetId): (c: GovernanceConfiguration)
      reads this
      ensures subnet in subnetGovernanceConfig ==> c == subnetGovernanceConfig[subnet]
      ensures subnet !in subnetGovernanceConfig ==> c.voteMode == Authority
      ensures subnet !in subnetGovernanceConfig ==> c == SubnetDefault(defaultConfig)
    {
      SubnetConfig(subnetGovernanceConfig, defaultConfig, subnet)
    }

    /** `is_delegating_voting_power`. */
    function IsDelegatingVotingPower(delegator: AccountId): (b: bool)
      reads this
      ensures b <==> delegator !in notDelegatingVotingPower
    {
      IsDelegating(notDelegatingVotingPower, delegator)
    }

    /** `update_delegating_voting_power`. */
    method UpdateDelegatingVotingPower(delegator: AccountId, delegating: bool) returns (r: Result<()>)
      requires Valid()
      modifies this
      ensures Valid()
      ensures Outcome(Snapshot(), r) == Step(old(Snapshot()), UpdateDelegation(delegator, delegating))
      ensures r.Ok? ==> IsDelegatingVotingPower(delegator) == delegating
      ensures r.Err? <==> !delegating && delegator !in old(notDelegatingVotingPower)
                          && |old(notDelegatingVotingPower)| >= MaxNotDelegating
      ensures r.Err? ==> r.error == InternalError && unchanged(this)
    {
      if !delegating {
        if |notDelegatingVotingPower| < MaxNotDelegating || delegator in notDelegatingVotingPower {
          notDelegatingVotingPower := notDelegatingVotingPower + {delegator};
          r := Ok(());
        } else {
          r := Err(InternalError);
        }
      } else {
        notDelegatingVotingPower := notDelegatingVotingPower - {delegator};
        r := Ok(());
      }
    }

    /** `update_global_governance_configuration`: validate, then write. */
    method UpdateGlobalGovernanceConfiguration(config: GovernanceConfiguration) returns (r: Result<()>)
      requires Valid()
      modifies this
      ensures Valid()
      ensures Outcome(Snapshot(), r) == Step(old(Snapshot()), UpdateGlobal(config))
      ensures r.Ok? <==> IsValid(config)
      ensures r.Ok? ==> globalGovernanceConfig == config
      ensures r.Ok? ==> subnetGovernanceConfig == old(subnetGovernanceConfig)
                        && notDelegatingVotingPower == old(notDelegatingVotingPower)
      ensures r.Err? ==> r.error == Validate(config).error && unchanged(this)
    {
      var v := Validate(config);
      if v.Err? {
        return Err(v.error);
      }
      globalGovernanceConfig := v.value;
      r := Ok(());
    }

    /** `update_subnet_governance_configuration`: validate, then write the
        override of `subnet`. */
    method UpdateSubnetGovernanceConfiguration(subnet: SubnetId, config: GovernanceConfiguration)
      returns (r: Result<()>)
      requires Valid()
      modifies this
      ensures Valid()
      ensures Outcome(Snapshot(), r) == Step(old(Snapshot()), UpdateSubnet(subnet, config))
      ensures r.Ok? <==> IsValid(config)
      ensures r.Ok? ==> SubnetGovernanceConfig(subnet) == config
      ensures r.Ok? ==> forall t :: t != subnet ==> SubnetGovernanceConfig(t) == old(SubnetGovernanceConfig(t))
      ensures globalGovernanceConfig == old(globalGovernanceConfig)
      ensures notDelegatingVotingPower == old(notDelegatingVotingPower)
      ensures r.Err? ==> r.error == Validate(config).error && unchanged(this)
    {
      var v := Validate(config);
      if v.Err? {
        return Err(v.error);
      }
      subnetGovernanceConfig := subnetGovernanceConfig[subnet := v.value];
      r := Ok(());
    }

    /** `handle_subnet_removal`. */
    method HandleSubnetRemoval(subnet: SubnetId)
      requires Valid()
      modifies this
      ensures Valid()
      ensures Snapshot() == Step(old(Snapshot()), RemoveSubnet(subnet)).storage
      ensures subnet !in subnetGovernanceConfig
      ensures SubnetGovernanceConfig(subnet) == SubnetDefault(defaultConfig)
      ensures forall t :: t != subnet ==> SubnetGovernanceConfig(t) == old(SubnetGovernanceConfig(t))
      ensures globalGovernanceConfig == old(globalGovernanceConfig)
      ensures notDelegatingVotingPower == old(notDelegatingVotingPower)
    {
      subnetGovernanceConfig := subnetGovernanceConfig - {subnet};
    }
  }
}
