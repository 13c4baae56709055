# Governance pallet: configuration store, delegation set, parameter proposals

This project models three parts of the governance pallet of the subspace
runtime (`pallets/governance/src/lib.rs`) and proves their properties.

- **The configuration store.** It holds one global `GovernanceConfiguration`
  (vote mode, proposal cost, proposal expiration) and a per-subnet override
  map. A subnet with no override reads as the runtime default with the vote
  mode forced to `Authority`. Writes run `validate` first. `validate` rejects
  a zero cost with `InvalidProposalCost`, then a zero expiration with
  `InvalidProposalExpiration`. A rejected write changes nothing. Removing a
  subnet deletes its override.
- **The delegation set `NotDelegatingVotingPower`.** It is one set of
  accounts, bounded at `u32::MAX` entries. Its members vote directly, and an
  account outside it delegates. Disabling delegation inserts the account.
  That insert fails with `InternalError` only when the set is full and the
  account is new. Enabling delegation removes the account and always
  succeeds.
- **Parameter records built by `add_global_params_proposal` and
  `add_subnet_params_proposal`.** Each call takes the current record,
  overwrites the fields it lists, and passes the result on together with
  the proposal data.

Layout:

- `types.dfy` (`GovernanceTypes`): integer widths, identifiers, the
  configuration record, the error names and `Result`.
- `config.dfy` (`GovernanceConfig`): `Validate`, the subnet default, the
  override lookup, and the validated write and removal of an override.
- `delegation.dfy` (`Delegation`): the bounded set, `try_insert`, and the
  update function.
- `storage.dfy` (`GovernanceStorage`): the storage items as one value and
  one `Step` per call. `Replay` runs a sequence of calls. The lemmas about
  sequences of calls are here.
- `pallet.dfy` (`GovernancePallet`): class `Pallet`. Its fields are the
  storage items. Its methods update them in place, and each method's
  contract ties the new state to `Step`.
- `params.dfy` (`ParamsProposal`): the parameter records and the two
  record-building calls.

The default `GovernanceConfiguration` is defined in a crate that is not
part of this model. It is a parameter here: the `defaultConfig` of the
class, and `base` in the lookup functions.

Where the code and its prose disagree, the model follows the code:

- The doc comment on `NotDelegatingVotingPower` (lib.rs:108-112) describes
  a map per staked module and subnet holding the delegating accounts. The
  code is one flat set, and its members are the accounts that do *not*
  delegate (`is_delegating_voting_power` is non-membership, lib.rs:460-462).
- Disabling delegation is a bounded insert. So on a full set it fails for
  an account that is not yet in it. It does not always succeed.
- The "cost and expiration are positive" invariant holds for every written
  configuration. The global configuration before its first write is the
  runtime default, which is never validated. `Pallet.Valid` states exactly
  this: the global configuration is the default or it is valid.

## Model

| member | source | states |
|---|---|---|
| `GovernanceConfig.Validate` | pallets/governance/src/lib.rs:447-456 | Accepts exactly when cost > 0 and expiration > 0, and returns the configuration unchanged. A zero cost gives `InvalidProposalCost` even when the expiration is also zero. A positive cost with zero expiration gives `InvalidProposalExpiration`. |
| `GovernanceConfig.SubnetDefault` | pallets/governance/src/lib.rs:86-92 | The subnet default is `Authority` mode with the runtime default's cost and expiration. |
| `GovernanceConfig.SetOverride` | pallets/governance/src/lib.rs:489-496 | Succeeds exactly for a valid configuration, and otherwise fails with `validate`'s error. On success the subnet reads as the new configuration and every other subnet reads as before, for any default. |
| `GovernanceConfig.RemoveOverride` | pallets/governance/src/lib.rs:498-500 | Only the subnet's key goes. The subnet then reads as the subnet default, and every other subnet reads as before. |
| `GovernanceConfig.RemoveOverrideIdempotent` | pallets/governance/src/lib.rs:498-500 | Removing a subnet twice gives the same map as removing it once. |
| `GovernanceConfig.UnsetSubnetIsAuthority` | pallets/governance/src/lib.rs:94-102 | A subnet without an override is in `Authority` mode, whatever the runtime default is. |
| `Delegation.TryInsert` | pallets/governance/src/lib.rs:468-473 | The bounded insert fails only when the set is full and the element is new. Otherwise the element is in the result, nothing else changes, and the bound is kept. |
| `Delegation.UpdateDelegating` | pallets/governance/src/lib.rs:464-479 | Fails exactly when disabling for a new account on a full set, and then only with `InternalError`. On success the account delegates exactly when `delegating` is true, no other account's membership changes, and the bound is kept. |
| `Delegation.DisableIdempotent` | pallets/governance/src/lib.rs:468-473 | A second disable after a successful one succeeds and changes nothing, even on a full set. |
| `Delegation.EnableIdempotent` | pallets/governance/src/lib.rs:474-477 | A second enable leaves the set as the first one did. |
| `GovernanceStorage.Genesis` | pallets/governance/src/lib.rs:82-115 | Before any write, no subnet has an override, every subnet reads as `Authority`, and every account delegates. |
| `GovernanceStorage.Step` | pallets/governance/src/lib.rs:464-500 | A failing call leaves storage unchanged. Each call keeps the storage invariant. The global configuration changes only to a valid one, and only through its own update. Delegation calls touch only the set, and configuration calls never touch it. |
| `GovernanceStorage.ReplayConsistent` | pallets/governance/src/lib.rs:464-500 | After any sequence of calls, every override is valid and the delegation set is within `u32::MAX`. |
| `GovernanceStorage.ReplayGlobalValidOrUnchanged` | pallets/governance/src/lib.rs:481-487 | After any sequence of calls, the global configuration is the original one or a valid one. |
| `GovernanceStorage.ReplayKeepsOtherSubnet` | pallets/governance/src/lib.rs:489-500 | Calls that neither write nor remove a subnet's override never change what that subnet reads as. |
| `GovernanceStorage.ReplayKeepsOtherAccount` | pallets/governance/src/lib.rs:464-479 | Calls by other accounts never change whether an account delegates. |
| `GovernanceStorage.LastSubnetWriteWins` | pallets/governance/src/lib.rs:489-496 | After a successful write of a subnet's configuration, followed by any calls that do not name that subnet, the subnet reads as that configuration. |
| `GovernanceStorage.LastToggleWins` | pallets/governance/src/lib.rs:460-479 | After an account's last toggle, whether it delegates is what that toggle set: delegating after an enable, voting directly after a successful disable. |
| `GovernancePallet.Pallet.constructor` | pallets/governance/src/lib.rs:82-115 | Genesis storage. The global configuration is the runtime default, there are no overrides, and the delegation set is empty. |
| `GovernancePallet.Pallet.SubnetGovernanceConfig` | pallets/governance/src/lib.rs:94-102 | Reads the stored override. Without one it reads the subnet default, which is in `Authority` mode. |
| `GovernancePallet.Pallet.IsDelegatingVotingPower` | pallets/governance/src/lib.rs:460-462 | An account delegates exactly when it is not in `NotDelegatingVotingPower`. |
| `GovernancePallet.Pallet.UpdateDelegatingVotingPower` | pallets/governance/src/lib.rs:464-479 | The new state is `Step`'s. The call fails (with `InternalError`, state unchanged) exactly on a disable for a new account when the set is full. After success the account delegates exactly when asked to. |
| `GovernancePallet.Pallet.UpdateGlobalGovernanceConfiguration` | pallets/governance/src/lib.rs:481-487 | The new state is `Step`'s. It succeeds exactly for a valid configuration, which is then stored, and nothing else changes. On failure it returns `validate`'s error and no field changes. |
| `GovernancePallet.Pallet.UpdateSubnetGovernanceConfiguration` | pallets/governance/src/lib.rs:489-496 | The new state is `Step`'s. On success the subnet reads as the configuration and every other subnet reads as before. The global configuration and the set never change. On failure nothing changes. |
| `GovernancePallet.Pallet.HandleSubnetRemoval` | pallets/governance/src/lib.rs:498-500 | The new state is `Step`'s. The subnet's override is gone, so it reads as the default. Other subnets, the global configuration and the set are untouched. |
| `ParamsProposal.OverwriteGlobal` | pallets/governance/src/lib.rs:187-204 | The listed fields of the result are the call's arguments. The unlisted fields (vote mode, unseen fields) are the current record's. |
| `ParamsProposal.AddGlobalParamsProposal` | pallets/governance/src/lib.rs:167-207 | Forwards the data unchanged with the built record. The vote mode is kept. The record's governance configuration is valid exactly when the proposed cost and expiration are positive. |
| `ParamsProposal.GlobalPartsDetermine` | pallets/governance/src/lib.rs:187-204 | The listed and the kept fields together determine a global record, so `OverwriteGlobal`'s contract fixes its result. |
| `ParamsProposal.OverwriteGlobalWithOwnValues` | pallets/governance/src/lib.rs:187-204 | Proposing the current values builds the current record. |
| `ParamsProposal.OverwriteGlobalTwice` | pallets/governance/src/lib.rs:187-204 | Building on a built record is building once with the later arguments. |
| `ParamsProposal.OverwriteSubnet` | pallets/governance/src/lib.rs:235-254 | The listed fields, including the governance vote mode, are the arguments. The subnet's proposal cost, its expiration and the unseen fields are the current record's. |
| `ParamsProposal.AddSubnetParamsProposal` | pallets/governance/src/lib.rs:211-257 | Forwards the subnet id and the data unchanged with the built record, which takes the proposed vote mode. Its governance configuration is valid exactly when the current one is. |
| `ParamsProposal.SubnetPartsDetermine` | pallets/governance/src/lib.rs:235-254 | The listed and the kept fields together determine a subnet record. |
| `ParamsProposal.OverwriteSubnetWithOwnValues` | pallets/governance/src/lib.rs:235-254 | Proposing a subnet's current values builds its current record. |
| `ParamsProposal.OverwriteSubnetTwice` | pallets/governance/src/lib.rs:235-254 | Building on a built record is building once with the later arguments. |

## Left out

- `on_initialize` (lib.rs:59-67) only calls `tick_proposals` and `tick_proposal_rewards`. Those are in `proposal.rs`, which is not part of this model. The u64 conversion of the block number is assumed never to fail.
- Proposal creation, voting, vote removal, DAO applications and the whitelist (lib.rs:259-360), and the `do_*` calls the param proposals forward to. Their logic is in `proposal.rs`, `voting.rs` and `dao.rs`, which are not part of this model. The forwarded call is the datatype `ProposalCall`, with no behaviour.
- The origin argument of the param-proposal calls is forwarded untouched and is not modelled. The `ensure_signed` check of `enable_vote_power_delegation` / `disable_vote_power_delegation` (lib.rs:309-319) is a runtime origin check. The model starts from the signed account.
- The treasury account derivation (lib.rs:121-128) is a foreign encoding call. The 5% treasury distribution default (lib.rs:130-137) and the application-cost default (lib.rs:143-150) are constants with no logic here.
- The storage items `Proposals`, `UnrewardedProposals`, `CuratorApplications`, `LegitWhitelist` and `Curator` are read and written only by code that is not part of this model.
- Events, weights, the storage prefix, the pallet macros and `Currency` are runtime plumbing. Of the error enum only the names are kept.
- The full field lists of `GlobalParams`, `SubnetParams` and `BurnConfiguration` are declared in the subspace pallet, which is not part of this model. Every field the two calls write is modelled. Any other fields are one `unshown` remainder, kept as a whole.
- The values of `GovernanceConfiguration::default()` are declared in a crate that is not part of this model. They are a parameter.
- `pallets/subspace/tests/burn.rs` tests the registration-burn controller of the subspace pallet, which is not part of this model.
