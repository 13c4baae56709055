/** The storage of the governance pallet that this model covers, as a value,
    and the effect of each storage-changing call on it. A failing call leaves
    the storage as it was; a sequence of calls is replayed one call after
    the other. */
module GovernanceStorage {
  import opened GovernanceTypes
  import opened GovernanceConfig
  import opened Delegation

  datatype Storage = Storage(
    globalConfig: GovernanceConfiguration,
    subnetConfigs: map<SubnetId, GovernanceConfiguration>,
    notDelegating: set<AccountId>
  )

  /** The storage-changing calls of the pallet. */
  datatype Call =
    | UpdateGlobal(config: GovernanceConfiguration)
    | UpdateSubnet(subnet: SubnetId, config: GovernanceConfiguration)
    | RemoveSubnet(subnet: SubnetId)
    | UpdateDelegation(account: AccountId, delegating: bool)

  datatype Outcome = Outcome(storage: Storage, result: Result<()>)

  /** Storage right after genesis: every value at its default, with `base`
      the runtime default of `GovernanceConfiguration`. */
  function Genesis(base: GovernanceConfiguration): (st: Storage)
    ensures st.subnetConfigs == map[] && st.notDelegating == {}
    ensures forall a :: IsDelegating(st.notDelegating, a)
    ensures forall s :: SubnetConfig(st.subnetConfigs, base, s).voteMode == Authority
  {
    Storage(base, map[], {})
  }

  /** What the storage guarantees between calls: every override passed
      validation and the delegation set is within its bound. */
  ghost predicate Consistent(st: Storage) {
    AllValid(st.subnetConfigs) && |st.notDelegating| <= MaxNotDelegating
  }

  /** One call. Its result and the storage it leaves. */
  function Step(st: Storage, call: Call): (o: Outcome)
    ensures o.result.Err? ==> o.storage == st
    ensures Consistent(st) ==> Consistent(o.storage)
    ensures o.storage.globalConfig == st.globalConfig || IsValid(o.storage.globalConfig)
    ensures !call.UpdateGlobal? ==> o.storage.globalConfig == st.globalConfig
    ensures !call.UpdateDelegation? ==> o.storage.notDelegating == st.notDelegating
    ensures call.UpdateDelegation? ==> o.storage.subnetConfigs == st.subnetConfigs
    ensures call.UpdateGlobal? ==> o.storage.subnetConfigs == st.subnetConfigs
  {
    match call
    case UpdateGlobal(config) =>
      (match Validate(config)
       case Err(e) => Outcome(st, Err(e))
       case Ok(c) => Outcome(st.(globalConfig := c), Ok(())))
    case UpdateSubnet(subnet, config) =>
      (match SetOverride(st.subnetConfigs, subnet, config)
       case Err(e) => Outcome(st, Err(e))
       case Ok(m) => Outcome(st.(subnetConfigs := m), Ok(())))
    case RemoveSubnet(subnet) =>
      Outcome(st.(subnetConfigs := RemoveOverride(st.subnetConfigs, subnet)), Ok(()))
    case UpdateDelegation(account, delegating) =>
      (match UpdateDelegating(st.notDelegating, account, delegating)
       case Err(e) => Outcome(st, Err(e))
       case Ok(s) => Outcome(st.(notDelegating := s), Ok(())))
  }

  /** The storage after a sequence of calls, failed ones included. */
  function Replay(st: Storage, calls: seq<Call>): Storage
    decreases |calls|
  {
    if calls == [] then st else Replay(Step(st, calls[0]).storage, calls[1..])
  }

  /** Replaying `p + q` is replaying `p`, then `q`. */
  lemma {:induction false} ReplayAppend(st: Storage, p: seq<Call>, q: seq<Call>)
    ensures Replay(st, p + q) == Replay(Replay(st, p), q)
    decreases |p|
  {
    if p == [] {
      assert p + q == q;
    } else {
      assert (p + q)[0] == p[0];
      assert (p + q)[1..] == p[1..] + q;
      ReplayAppend(Step(st, p[0]).storage, p[1..], q);
    }
  }

  /** No sequence of calls breaks the storage invariant. */
  lemma {:induction false} ReplayConsistent(st: Storage, calls: seq<Call>)
    requires Consistent(st)
    ensures Consistent(Replay(st, calls))
    decreases |calls|
  {
    if calls != [] {
      ReplayConsistent(Step(st, calls[0]).storage, calls[1..]);
    }
  }

  /** The global configuration only ever changes to a valid one: after any
      sequence of calls it is the one it was, or it is valid. */
  lemma {:induction false} ReplayGlobalValidOrUnchanged(st: Storage, calls: seq<Call>)
    ensures var g := Replay(st, calls).globalConfig; g == st.globalConfig || IsValid(g)
    decreases |calls|
  {
    if calls != [] {
      ReplayGlobalValidOrUnchanged(Step(st, calls[0]).storage, calls[1..]);
    }
  }

  /** Whether `call` writes or removes the override of `subnet`. */
  predicate TouchesSubnet(call: Call, subnet: SubnetId) {
    (call.UpdateSubnet? || call.RemoveSubnet?) && call.subnet == subnet
  }

  /** Calls that do not name `subnet` never change what `subnet` reads as. */
  lemma {:induction false} ReplayKeepsOtherSubnet(st: Storage, calls: seq<Call>, subnet: SubnetId,
                                                  base: GovernanceConfiguration)
    requires forall i :: 0 <= i < |calls| ==> !TouchesSubnet(calls[i], subnet)
    ensures SubnetConfig(Replay(st, calls).subnetConfigs, base, subnet)
         == SubnetConfig(st.subnetConfigs, base, subnet)
    decreases |calls|
  {
    if calls != [] {
      assert !TouchesSubnet(calls[0], subnet);
      assert forall i :: 0 <= i < |calls[1..]| ==> calls[1..][i] == calls[i + 1];
      ReplayKeepsOtherSubnet(Step(st, calls[0]).storage, calls[1..], subnet, base);
    }
  }

  /** Whether `call` toggles the delegation of `account`. */
  predicate TouchesAccount(call: Call, account: AccountId) {
    call.UpdateDelegation? && call.account == account
  }

  /** Calls that do not name `account` never change whether it delegates. */
  lemma {:induction false} ReplayKeepsOtherAccount(st: Storage, calls: seq<Call>, account: AccountId)
    requires forall i :: 0 <= i < |calls| ==> !TouchesAccount(calls[i], account)
    ensures IsDelegating(Replay(st, calls).notDelegating, account)
        == IsDelegating(st.notDelegating, account)
    decreases |calls|
  {
    if calls != [] {
      assert !TouchesAccount(calls[0], account);
      assert forall i :: 0 <= i < |calls[1..]| ==> calls[1..][i] == calls[i + 1];
      ReplayKeepsOtherAccount(Step(st, calls[0]).storage, calls[1..], account);
    }
  }

  /** The last successful write to a subnet's override decides what it reads
      as, whatever calls about other subnets follow. */
  lemma LastSubnetWriteWins(st: Storage, pre: seq<Call>, subnet: SubnetId, config: GovernanceConfiguration,
                            post: seq<Call>, base: GovernanceConfiguration)
    requires IsValid(config)
    requires forall i :: 0 <= i < |post| ==> !TouchesSubnet(post[i], subnet)
    ensures SubnetConfig(Replay(st, pre + [UpdateSubnet(subnet, config)] + post).subnetConfigs, base, subnet)
         == config
  {
    var mid := Replay(st, pre);
    ReplayAppend(st, pre + [UpdateSubnet(subnet, config)], post);
    ReplayAppend(st, pre, [UpdateSubnet(subnet, config)]);
    var afterWrite := Step(mid, UpdateSubnet(subnet, config)).storage;
    assert Replay(mid, [UpdateSubnet(subnet, config)]) == Replay(afterWrite, []);
    ReplayKeepsOtherSubnet(afterWrite, post, subnet, base);
  }

  /** After the last toggle by `account`, calls by other accounts leave it as
      that toggle left it: delegating after an enable, voting directly after
      a disable that succeeded. */
  lemma LastToggleWins(st: Storage, pre: seq<Call>, account: AccountId, delegating: bool, post: seq<Call>)
    requires forall i :: 0 <= i < |post| ==> !TouchesAccount(post[i], account)
    requires delegating || Step(Replay(st, pre), UpdateDelegation(account, false)).result.Ok?
    ensures IsDelegating(Replay(st, pre + [UpdateDelegation(account, delegating)] + post).notDelegating, account)
         == delegating
  {
    var mid := Replay(st, pre);
    ReplayAppend(st, pre + [UpdateDelegation(account, delegating)], post);
    ReplayAppend(st, pre, [UpdateDelegation(account, delegating)]);
    var afterToggle := Step(mid, UpdateDelegation(account, delegating)).storage;
    assert Replay(mid, [UpdateDelegation(account, delegating)]) == Replay(afterToggle, []);
    ReplayKeepsOtherAccount(afterToggle, post, account);
  }
}
