/** Types shared by the governance pallet model: the fixed-width integers of
    the runtime, identifiers, the governance configuration record and the
    pallet's error names. */
module GovernanceTypes {

  newtype U8 = x: int | 0 <= x < 0x100
  newtype U16 = x: int | 0 <= x < 0x1_0000
  newtype U32 = x: int | 0 <= x < 0x1_0000_0000
  newtype U64 = x: int | 0 <= x < 0x1_0000_0000_0000_0000

  /** `Percent` of the runtime: a whole percentage from 0 to 100. */
  newtype Percent = x: int | 0 <= x <= 100

  /** Subnets are numbered by a 16-bit id. */
  type SubnetId = U16

  /** An account of the runtime; only its identity (equality) matters here. */
  type AccountId = nat

  /** Who decides on a subnet's proposals. */
  datatype VoteMode = Authority | Vote

  /** Governance configuration, global or per subnet. */
  datatype GovernanceConfiguration = GovernanceConfiguration(
    voteMode: VoteMode,
    proposalCost: U64,
    proposalExpiration: U32
  )

  /** The error names of the pallet. */
  datatype Error =
    | ProposalIsFinished
    | InvalidProposalFinalizationParameters
    | InvalidProposalVotingParameters
    | InvalidProposalCost
    | InvalidProposalExpiration
    | NotEnoughBalanceToPropose
    | ProposalDataTooSmall
    | ProposalDataTooLarge
    | ModuleDelegatingForMaxStakers
    | ProposalNotFound
    | ProposalClosed
    | InvalidProposalData
    | InvalidCurrencyConversionValue
    | InsufficientDaoTreasuryFunds
    | NotVoteMode
    | AlreadyVoted
    | NotVoted
    | InsufficientStake
    | VoterIsDelegatingVotingPower
    | VoteModeIsNotAuthority
    | InternalError
    | ApplicationTooSmall
    | ApplicationTooLarge
    | ApplicationNotPending
    | InvalidApplication
    | NotEnoughtBalnceToApply
    | InvalidRecommendedWeight
    | NotCurator
    | ApplicationNotFound
    | AlreadyWhitelisted
    | NotWhitelisted
    | CouldNotConvertToBalance

  /** The runtime's `Result<T, DispatchError>`; a `DispatchResult` is `Result<()>`. */
  datatype Result<+T> = Ok(value: T) | Err(error: Error)
}
