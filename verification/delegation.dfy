/** The voting-power delegation set `NotDelegatingVotingPower`: one bounded
    set of the accounts that vote directly. An account outside the set
    delegates its voting power to the modules it stakes on. */
module Delegation {
  import opened GovernanceTypes

  /** The bound of the set, `u32::MAX`. */
  const MaxNotDelegating: nat := 0xFFFF_FFFF

  /** `is_delegating_voting_power`. */
  predicate IsDelegating(notDelegating: set<AccountId>, account: AccountId) {
    account !in notDelegating
  }

  /** `try_insert` of a set bounded by `bound`: refused only when the set is
      full and the element is new; an element already present is accepted
      even when the set is full. */
  function TryInsert(s: set<AccountId>, a: AccountId, bound: nat): (r: Result<set<AccountId>>)
    ensures r.Err? <==> |s| >= bound && a !in s
    ensures r.Ok? ==> a in r.value && r.value - {a} == s - {a}
    ensures |s| <= bound ==> r.Ok? ==> |r.value| <= bound
  {
    if |s| < bound || a in s then Ok(s + {a}) else Err(InternalError)
  }

  /** `update_delegating_voting_power` as a function of the set before the
      call: `delegating == false` inserts (and may fail), `delegating == true`
      removes and always succeeds. */
  function UpdateDelegating(notDelegating: set<AccountId>, account: AccountId, delegating: bool)
    : (r: Result<set<AccountId>>)
    ensures r.Err? <==> !delegating && account !in notDelegating && |notDelegating| >= MaxNotDelegating
    ensures r.Err? ==> r.error == InternalError
    ensures r.Ok? ==> IsDelegating(r.value, account) == delegating
    ensures r.Ok? ==> forall b :: b != account ==> (b in r.value <==> b in notDelegating)
    ensures |notDelegating| <= MaxNotDelegating && r.Ok? ==> |r.value| <= MaxNotDelegating
  {
    if !delegating then TryInsert(notDelegating, account, MaxNotDelegating)
    else Ok(notDelegating - {account})
  }

  /** Disabling delegation twice: the second call succeeds and changes
      nothing, even on a full set, because the account is already in it. */
  lemma DisableIdempotent(notDelegating: set<AccountId>, account: AccountId)
    requires UpdateDelegating(notDelegating, account, false).Ok?
    ensures var s := UpdateDelegating(notDelegating, account, false).value;
            UpdateDelegating(s, account, false) == Ok(s)
  {
  }

  /** Enabling delegation twice leaves the set as one call does. */
  lemma EnableIdempotent(notDelegating: set<AccountId>, account: AccountId)
    ensures var s := UpdateDelegating(notDelegating, account, true).value;
            UpdateDelegating(s, account, true) == Ok(s)
  {
    var s := notDelegating - {account};
    assert s - {account} == s;
  }
}
