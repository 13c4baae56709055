/** The configuration store: validation of a governance configuration, the
    per-subnet overrides and their fallback to the subnet default. */
module GovernanceConfig {
  import opened GovernanceTypes

  /** The invariant every written configuration satisfies. */
  predicate IsValid(config: GovernanceConfiguration) {
    config.proposalCost > 0 && config.proposalExpiration > 0
  }

  /** `validate`: the cost is checked before the expiration, and an accepted
      configuration is returned as it was given. */
  function Validate(config: GovernanceConfiguration): (r: Result<GovernanceConfiguration>)
    ensures r.Ok? <==> IsValid(config)
    ensures r.Ok? ==> r.value == config
    ensures config.proposalCost == 0 ==> r == Err(InvalidProposalCost)
    ensures config.proposalCost > 0 && config.proposalExpiration == 0 ==> r == Err(InvalidProposalExpiration)
  {
    if config.proposalCost == 0 then Err(InvalidProposalCost)
    else if config.proposalExpiration == 0 then Err(InvalidProposalExpiration)
    else Ok(config)
  }

  /** `DefaultSubnetGovernanceConfig`: the runtime default configuration
      `base` with the vote mode forced to `Authority`. */
  function SubnetDefault(base: GovernanceConfiguration): (c: GovernanceConfiguration)
    ensures c.voteMode == Authority
    ensures c.proposalCost == base.proposalCost && c.proposalExpiration == base.proposalExpiration
  {
    base.(voteMode := Authority)
  }

  /** Reading `SubnetGovernanceConfig` for `subnet`: the stored override, or
      the subnet default when there is none. */
  function SubnetConfig(overrides: map<SubnetId, GovernanceConfiguration>, base: GovernanceConfiguration,
                        subnet: SubnetId): GovernanceConfiguration
  {
    if subnet in overrides then overrides[subnet] else SubnetDefault(base)
  }

  /** `update_subnet_governance_configuration` on the override map: validate,
      then write; a rejected configuration leaves the map as it was. */
  function SetOverride(overrides: map<SubnetId, GovernanceConfiguration>, subnet: SubnetId,
                       config: GovernanceConfiguration): (r: Result<map<SubnetId, GovernanceConfiguration>>)
    ensures r.Ok? <==> IsValid(config)
    ensures r.Err? ==> r.error == Validate(config).error
    ensures r.Ok? ==> forall base :: SubnetConfig(r.value, base, subnet) == config
    ensures r.Ok? ==> forall base, t {:trigger SubnetConfig(r.value, base, t)} ::
                        t != subnet ==> SubnetConfig(r.value, base, t) == SubnetConfig(overrides, base, t)
  {
    match Validate(config)
    case Err(e) => Err(e)
    case Ok(c) => Ok(overrides[subnet := c])
  }

  /** `handle_subnet_removal` on the override map: only `subnet`'s entry goes,
      after which `subnet` reads as the default. */
  function RemoveOverride(overrides: map<SubnetId, GovernanceConfiguration>, subnet: SubnetId)
    : (r: map<SubnetId, GovernanceConfiguration>)
    ensures subnet !in r
    ensures forall base :: SubnetConfig(r, base, subnet) == SubnetDefault(base)
    ensures forall base, t {:trigger SubnetConfig(r, base, t)} ::
              t != subnet ==> SubnetConfig(r, base, t) == SubnetConfig(overrides, base, t)
    ensures r.Keys == overrides.Keys - {subnet}
  {
    overrides - {subnet}
  }

  /** Removing a subnet twice leaves the same map as removing it once. */
  lemma RemoveOverrideIdempotent(overrides: map<SubnetId, GovernanceConfiguration>, subnet: SubnetId)
    ensures RemoveOverride(RemoveOverride(overrides, subnet), subnet) == RemoveOverride(overrides, subnet)
  {
  }

  /** A subnet that has no override reads as `Authority`, whatever the
      runtime default is. */
  lemma UnsetSubnetIsAuthority(overrides: map<SubnetId, GovernanceConfiguration>,
                               base: GovernanceConfiguration, subnet: SubnetId)
    requires subnet !in overrides
    ensures SubnetConfig(overrides, base, subnet).voteMode == Authority
  {
  }

  /** Every override that was written through `SetOverride` is valid. */
  ghost predicate AllValid(overrides: map<SubnetId, GovernanceConfiguration>) {
    forall s :: s in overrides ==> IsValid(overrides[s])
  }
}
