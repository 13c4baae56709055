/** How `add_global_params_proposal` and `add_subnet_params_proposal` build
    the parameter record they pass on: the current record, with the fields
    the call lists overwritten by its arguments and every other field kept.

    The records themselves are declared in the subspace pallet; they carry
    here every field the two calls name, plus `unshown`, which stands for the
    fields this model does not see, by name. */
module ParamsProposal {
  import opened GovernanceTypes
  import opened GovernanceConfig

  type UnshownFields = map<string, int>

  type Bytes = seq<U8>

  /** A subnet name, at most 256 bytes. */
  type SubnetName = s: Bytes | |s| <= 256 witness []

  datatype BurnConfiguration = BurnConfiguration(minBurn: U64, maxBurn: U64, unshown: UnshownFields)

  datatype GlobalParams = GlobalParams(
    maxNameLength: U16,
    minNameLength: U16,
    maxAllowedSubnets: U16,
    maxAllowedModules: U16,
    maxRegistrationsPerBlock: U16,
    maxAllowedWeights: U16,
    floorDelegationFee: Percent,
    floorFounderShare: U8,
    minWeightStake: U64,
    curator: AccountId,
    subnetStakeThreshold: Percent,
    generalSubnetApplicationCost: U64,
    governanceConfig: GovernanceConfiguration,
    burnConfig: BurnConfiguration,
    unshown: UnshownFields
  )

  datatype SubnetParams = SubnetParams(
    founder: AccountId,
    name: SubnetName,
    founderShare: U16,
    immunityPeriod: U16,
    incentiveRatio: U16,
    maxAllowedUids: U16,
    maxAllowedWeights: U16,
    minAllowedWeights: U16,
    minStake: U64,
    maxWeightAge: U64,
    tempo: U16,
    trustRatio: U16,
    maximumSetWeightCallsPerEpoch: U16,
    governanceConfig: GovernanceConfiguration,
    bondsMa: U64,
    targetRegistrationsInterval: U16,
    targetRegistrationsPerInterval: U16,
    maxRegistrationsPerInterval: U16,
    adjustmentAlpha: U64,
    unshown: UnshownFields
  )

  /** The parameter arguments of `add_global_params_proposal`. */
  datatype GlobalParamsArgs = GlobalParamsArgs(
    maxNameLength: U16,
    minNameLength: U16,
    maxAllowedSubnets: U16,
    maxAllowedModules: U16,
    maxRegistrationsPerBlock: U16,
    maxAllowedWeights: U16,
    maxBurn: U64,
    minBurn: U64,
    floorDelegationFee: Percent,
    floorFounderShare: U8,
    minWeightStake: U64,
    curator: AccountId,
    subnetStakeThreshold: Percent,
    proposalCost: U64,
    proposalExpiration: U32,
    generalSubnetApplicationCost: U64
  )

  /** The fields of `GlobalParams` that `add_global_params_proposal` does not
      write. */
  datatype GlobalKept = GlobalKept(voteMode: VoteMode, burnUnshown: UnshownFields, unshown: UnshownFields)

  /** The parameter arguments of `add_subnet_params_proposal`. */
  datatype SubnetParamsArgs = SubnetParamsArgs(
    founder: AccountId,
    name: SubnetName,
    founderShare: U16,
    immunityPeriod: U16,
    incentiveRatio: U16,
    maxAllowedUids: U16,
    maxAllowedWeights: U16,
    minAllowedWeights: U16,
    minStake: U64,
    maxWeightAge: U64,
    tempo: U16,
    trustRatio: U16,
    maximumSetWeightCallsPerEpoch: U16,
    voteMode: VoteMode,
    bondsMa: U64,
    targetRegistrationsInterval: U16,
    targetRegistrationsPerInterval: U16,
    maxRegistrationsPerInterval: U16,
    adjustmentAlpha: U64
  )

  /** The fields of `SubnetParams` that `add_subnet_params_proposal` does not
      write. */
  datatype SubnetKept = SubnetKept(proposalCost: U64, proposalExpiration: U32, unshown: UnshownFields)

  /** The proposal-creation call the two extrinsics forward to, with the
      record they built; what it does is not part of this model. */
  datatype ProposalCall =
    | DoAddGlobalParamsProposal(data: Bytes, globalParams: GlobalParams)
    | DoAddSubnetParamsProposal(subnet: SubnetId, data: Bytes, subnetParams: SubnetParams)

  /** The values of the fields `add_global_params_proposal` writes. */
  function GlobalListed(p: GlobalParams): GlobalParamsArgs {
    GlobalParamsArgs(
      p.maxNameLength, p.minNameLength, p.maxAllowedSubnets, p.maxAllowedModules,
      p.maxRegistrationsPerBlock, p.maxAllowedWeights, p.burnConfig.maxBurn, p.burnConfig.minBurn,
      p.floorDelegationFee, p.floorFounderShare, p.minWeightStake, p.curator, p.subnetStakeThreshold,
      p.governanceConfig.proposalCost, p.governanceConfig.proposalExpiration,
      p.generalSubnetApplicationCost)
  }

  /** The values of the fields `add_global_params_proposal` keeps. */
  function GlobalUnlisted(p: GlobalParams): GlobalKept {
    GlobalKept(p.governanceConfig.voteMode, p.burnConfig.unshown, p.unshown)
  }

  /** The written and the kept fields together determine the record. */
  lemma GlobalPartsDetermine(p: GlobalParams, q: GlobalParams)
    requires GlobalListed(p) == GlobalListed(q) && GlobalUnlisted(p) == GlobalUnlisted(q)
    ensures p == q
  {
  }

  /** The record `add_global_params_proposal` builds from the current global
      parameters: the listed fields take the arguments, the rest is kept. */
  function OverwriteGlobal(current: GlobalParams, args: GlobalParamsArgs): (p: GlobalParams)
    ensures GlobalListed(p) == args
    ensures GlobalUnlisted(p) == GlobalUnlisted(current)
  {
    current.(
      maxNameLength := args.maxNameLength,
      minNameLength := args.minNameLength,
      maxAllowedSubnets := args.maxAllowedSubnets,
      maxAllowedModules := args.maxAllowedModules,
      maxRegistrationsPerBlock := args.maxRegistrationsPerBlock,
      maxAllowedWeights := args.maxAllowedWeights,
      floorDelegationFee := args.floorDelegationFee,
      floorFounderShare := args.floorFounderShare,
      minWeightStake := args.minWeightStake,
      curator := args.curator,
      subnetStakeThreshold := args.subnetStakeThreshold,
      governanceConfig := current.governanceConfig.(
        proposalCost := args.proposalCost,
        proposalExpiration := args.proposalExpiration),
      generalSubnetApplicationCost := args.generalSubnetApplicationCost,
      burnConfig := current.burnConfig.(minBurn := args.minBurn, maxBurn := args.maxBurn))
  }

  /** `add_global_params_proposal`: the built record goes on to proposal
      creation together with the proposal data, both unchanged. */
  function AddGlobalParamsProposal(current: GlobalParams, data: Bytes, args: GlobalParamsArgs)
    : (call: ProposalCall)
    ensures call.DoAddGlobalParamsProposal? && call.data == data
    ensures GlobalListed(call.globalParams) == args
    ensures call.globalParams.governanceConfig.voteMode == current.governanceConfig.voteMode
    ensures GlobalUnlisted(call.globalParams) == GlobalUnlisted(current)
    ensures IsValid(call.globalParams.governanceConfig) <==> args.proposalCost > 0 && args.proposalExpiration > 0
  {
    DoAddGlobalParamsProposal(data, OverwriteGlobal(current, args))
  }

  /** Proposing the current values again builds the current record. */
  lemma OverwriteGlobalWithOwnValues(current: GlobalParams)
    ensures OverwriteGlobal(current, GlobalListed(current)) == current
  {
  }

  /** Building twice is building once with the later arguments. */
  lemma OverwriteGlobalTwice(current: GlobalParams, first: GlobalParamsArgs,
                               second: GlobalParamsArgs)
    ensures OverwriteGlobal(OverwriteGlobal(current, first), second) == OverwriteGlobal(current, second)
  {
  }

  /** The values of the fields `add_subnet_params_proposal` writes. */
  function SubnetListed(p: SubnetParams): SubnetParamsArgs {
    SubnetParamsArgs(
      p.founder, p.name, p.founderShare, p.immunityPeriod, p.incentiveRatio, p.maxAllowedUids,
      p.maxAllowedWeights, p.minAllowedWeights, p.minStake, p.maxWeightAge, p.tempo, p.trustRatio,
      p.maximumSetWeightCallsPerEpoch, p.governanceConfig.voteMode, p.bondsMa,
      p.targetRegistrationsInterval, p.targetRegistrationsPerInterval, p.maxRegistrationsPerInterval,
      p.adjustmentAlpha)
  }

  /** The values of the fields `add_subnet_params_proposal` keeps. */
  function SubnetUnlisted(p: SubnetParams): SubnetKept {
    SubnetKept(p.governanceConfig.proposalCost, p.governanceConfig.proposalExpiration, p.unshown)
  }

  /** The written and the kept fields together determine the record. */
  lemma SubnetPartsDetermine(p: SubnetParams, q: SubnetParams)
    requires SubnetListed(p) == SubnetListed(q) && SubnetUnlisted(p) == SubnetUnlisted(q)
    ensures p == q
  {
  }

  /** The record `add_subnet_params_proposal` builds from the subnet's
      current parameters. */
  function OverwriteSubnet(current: SubnetParams, args: SubnetParamsArgs): (p: SubnetParams)
    ensures SubnetListed(p) == args
    ensures SubnetUnlisted(p) == SubnetUnlisted(current)
  {
    current.(
      founder := args.founder,
      name := args.name,
      founderShare := args.founderShare,
      immunityPeriod := args.immunityPeriod,
      incentiveRatio := args.incentiveRatio,
      maxAllowedUids := args.maxAllowedUids,
      maxAllowedWeights := args.maxAllowedWeights,
      minAllowedWeights := args.minAllowedWeights,
      minStake := args.minStake,
      maxWeightAge := args.maxWeightAge,
      tempo := args.tempo,
      trustRatio := args.trustRatio,
      maximumSetWeightCallsPerEpoch := args.maximumSetWeightCallsPerEpoch,
      governanceConfig := current.governanceConfig.(voteMode := args.voteMode),
      bondsMa := args.bondsMa,
      targetRegistrationsInterval := args.targetRegistrationsInterval,
      targetRegistrationsPerInterval := args.targetRegistrationsPerInterval,
      maxRegistrationsPerInterval := args.maxRegistrationsPerInterval,
      adjustmentAlpha := args.adjustmentAlpha)
  }

  /** `add_subnet_params_proposal`: the built record goes on to proposal
      creation with the subnet id and the data, all unchanged. The subnet's
      proposal cost and expiration are kept, so a valid governance
      configuration stays valid. */
  function AddSubnetParamsProposal(subnet: SubnetId, current: SubnetParams, data: Bytes, args: SubnetParamsArgs)
    : (call: ProposalCall)
    ensures call.DoAddSubnetParamsProposal? && call.subnet == subnet && call.data == data
    ensures SubnetListed(call.subnetParams) == args
    ensures call.subnetParams.governanceConfig.voteMode == args.voteMode
    ensures SubnetUnlisted(call.subnetParams) == SubnetUnlisted(current)
    ensures IsValid(call.subnetParams.governanceConfig) <==> IsValid(current.governanceConfig)
  {
    DoAddSubnetParamsProposal(subnet, data, OverwriteSubnet(current, args))
  }

  /** Proposing the subnet's current values again builds its current record. */
  lemma OverwriteSubnetWithOwnValues(current: SubnetParams)
    ensures OverwriteSubnet(current, SubnetListed(current)) == current
  {
  }

  /** Building twice is building once with the later arguments. */
  lemma OverwriteSubnetTwice(current: SubnetParams, first: SubnetParamsArgs,
                               second: SubnetParamsArgs)
    ensures OverwriteSubnet(OverwriteSubnet(current, first), second) == OverwriteSubnet(current, second)
  {
  }
}
