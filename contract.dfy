/**
 * The vesting contract: a single object whose fields are the contract's persistent slots
 * (admin, proposed admin, initial supply, admin balance, vault counter, vault table and
 * owner index). Every public entry point is a method; the caller identity that the host
 * supplies is an explicit parameter, and every abort is an `Err`/`Fail` value after which
 * the state is exactly as before the call.
 */
module Vesting {
  import opened VestingTypes
  import opened Accounting

  class VestingContract {
    var admin: Addr
    var proposed: Option<Addr>
    var initialSupply: int
    var adminBalance: int
    var vaultCount: nat
    var vaults: map<nat, Vault>
    var index: map<Addr, seq<nat>>

    /**
     * The contract invariant: ids are exactly 1..vaultCount, every vault is within its
     * bound, the owner index lists precisely the initialised vaults under their owners
     * without repetition, and funding is conserved:
     * adminBalance + (sum of total amounts) == initialSupply.
     */
    ghost predicate Valid()
      reads this
    {
      LedgerOk(vaults, index, vaultCount, adminBalance, initialSupply)
    }

    /** `initialize`: the whole supply starts in the admin balance and there are no vaults. */
    constructor (admin: Addr, initialSupply: int)
      ensures Valid()
      ensures this.admin == admin && proposed == None
      ensures this.initialSupply == initialSupply && adminBalance == initialSupply
      ensures vaultCount == 0 && vaults == map[] && index == map[]
    {
      this.admin := admin;
      proposed := None;
      this.initialSupply := initialSupply;
      adminBalance := initialSupply;
      vaultCount := 0;
      vaults := map[];
      index := map[];
      EmptyLedgerInv();
    }

    // ------------------------------------------------------------ admin authority

    /** The gate in front of every admin operation. */
    function RequireAdmin(caller: Addr): (r: Outcome)
      reads this
      ensures r == Pass <==> caller == admin
      ensures r.Fail? ==> r.error == Unauthorized
    {
      if caller == admin then Pass else Fail(Unauthorized)
    }

    /** Step one of the transfer: the admin names a successor, replacing any earlier one. */
    method ProposeNewAdmin(caller: Addr, newAdmin: Addr) returns (r: Outcome)
      requires Valid()
      modifies this`proposed
      ensures Valid()
      ensures caller == admin ==> r == Pass && proposed == Some(newAdmin)
      ensures caller != admin ==> r == Fail(Unauthorized) && proposed == old(proposed)
    {
      r := RequireAdmin(caller);
      if r == Pass {
        proposed := Some(newAdmin);
      }
    }

    /**
     * Step two: the proposed successor takes over. With no proposal the call fails with
     * NoProposal before the caller is looked at.
     */
    method AcceptOwnership(caller: Addr) returns (r: Outcome)
      requires Valid()
      modifies this`admin, this`proposed
      ensures Valid()
      ensures old(proposed) == None ==> r == Fail(NoProposal)
      ensures old(proposed) != None && caller != old(proposed).value ==> r == Fail(Unauthorized)
      ensures r.Fail? ==> unchanged(this)
      ensures old(proposed) != None && caller == old(proposed).value ==>
        r == Pass && admin == caller && proposed == None
    {
      if proposed == None {
        return Fail(NoProposal);
      }
      if caller != proposed.value {
        return Fail(Unauthorized);
      }
      admin := proposed.value;
      proposed := None;
      r := Pass;
    }

    // ------------------------------------------------------------ vault creation

    /**
     * `create_vault_full` (eager) and `create_vault_lazy` (not eager): fund a vault from
     * the admin balance under the next id. The eager variant indexes it under its owner at
     * once; the lazy one stores it uninitialised and indexes nothing.
     */
    method CreateVault(caller: Addr, owner: Addr, amount: int, startTime: nat, endTime: nat, eager: bool)
      returns (r: Result<nat>)
      requires Valid()
      modifies this`adminBalance, this`vaultCount, this`vaults, this`index
      ensures Valid()
      ensures caller != admin ==> r == Err(Unauthorized)
      ensures caller == admin && amount > old(adminBalance) ==> r == Err(InsufficientBalance)
      ensures r.Err? ==> unchanged(this)
      ensures caller == admin && amount <= old(adminBalance) ==>
        && r == Ok(old(vaultCount) + 1)
        && vaultCount == old(vaultCount) + 1
        && adminBalance == old(adminBalance) - amount
        && vaults == old(vaults)[vaultCount := Vault(owner, amount, 0, startTime, endTime, eager)]
        && index == (if eager then Push(old(index), owner, vaultCount) else old(index))
    {
      var auth := RequireAdmin(caller);
      if auth.Fail? {
        return Err(auth.error);
      }
      var id := vaultCount + 1;
      if adminBalance < amount {
        return Err(InsufficientBalance);
      }
      var vault := Vault(owner, amount, 0, startTime, endTime, eager);
      AddVaultKeepsInv(vaults, index, vaultCount, vault);
      TotalAllocatedAppend(vaults, vaultCount, vault);
      adminBalance := adminBalance - amount;
      vaults := vaults[id := vault];
      if eager {
        index := Push(index, owner, id);
      }
      vaultCount := id;
      r := Ok(id);
    }

    // ------------------------------------------------------------ materialisation

    /**
     * `initialize_vault_metadata`: flips an uninitialised vault to initialised and appends
     * its id to its owner's vector, answering true; on an initialised vault it answers
     * false and changes nothing, so a second call is a no-op.
     */
    method InitializeVaultMetadata(id: nat) returns (r: Result<bool>)
      requires Valid()
      modifies this`vaults, this`index
      ensures Valid()
      ensures id !in old(vaults) ==> r == Err(NotFound)
      ensures id in old(vaults) && old(vaults)[id].isInitialized ==> r == Ok(false)
      ensures r != Ok(true) ==> unchanged(this)
      ensures id in old(vaults) && !old(vaults)[id].isInitialized ==>
        && r == Ok(true)
        && vaults == old(vaults)[id := old(vaults)[id].(isInitialized := true)]
        && index == Push(old(index), old(vaults)[id].owner, id)
    {
      if id !in vaults {
        return Err(NotFound);
      }
      var vault := vaults[id];
      if vault.isInitialized {
        return Ok(false);
      }
      MaterializeKeepsInv(vaults, index, vaultCount, id);
      TotalAllocatedFrame(vaults, vaults[id := vault.(isInitialized := true)], vaultCount);
      vaults := vaults[id := vault.(isInitialized := true)];
      index := Push(index, vault.owner, id);
      r := Ok(true);
    }

    /** `get_vault`: reads a vault, materialising it first if it is still uninitialised. */
    method GetVault(id: nat) returns (r: Result<Vault>)
      requires Valid()
      modifies this`vaults, this`index
      ensures Valid()
      ensures id !in old(vaults) ==> r == Err(NotFound) && unchanged(this)
      ensures id in old(vaults) ==> r == Ok(old(vaults)[id].(isInitialized := true)) && vaults[id] == r.value
      ensures id in old(vaults) && old(vaults)[id].isInitialized ==> unchanged(this)
      ensures id in old(vaults) && !old(vaults)[id].isInitialized ==>
        && vaults == old(vaults)[id := old(vaults)[id].(isInitialized := true)]
        && index == Push(old(index), old(vaults)[id].owner, id)
    {
      if id !in vaults {
        return Err(NotFound);
      }
      var vault := vaults[id];
      if vault.isInitialized {
        return Ok(vault);
      }
      var materialized := InitializeVaultMetadata(id);
      assert materialized == Ok(true);
      r := Ok(vaults[id]);
    }

    /** `get_user_vaults`: the owner's vector, which lists exactly their initialised vaults. */
    method GetUserVaults(user: Addr) returns (ids: seq<nat>)
      requires Valid()
      ensures ids == Lookup(index, user)
      ensures forall k :: 0 <= k < |ids| ==>
        ids[k] in vaults && vaults[ids[k]].owner == user && vaults[ids[k]].isInitialized
      ensures forall id :: id in vaults && vaults[id].owner == user && vaults[id].isInitialized ==> id in ids
      ensures forall i, j :: 0 <= i < j < |ids| ==> ids[i] != ids[j]
    {
      ids := Lookup(index, user);
    }

    // ------------------------------------------------------------ claims

    /**
     * `claim_tokens`: releases `amount` from one vault. The four checks come in a fixed
     * order: missing vault, uninitialised vault, non-positive amount, amount above what is
     * still locked.
     */
    method ClaimTokens(id: nat, amount: int) returns (r: Result<int>)
      requires Valid()
      modifies this`vaults
      ensures Valid()
      ensures id !in old(vaults) ==> r == Err(NotFound)
      ensures id in old(vaults) && !old(vaults)[id].isInitialized ==> r == Err(NotInitialized)
      ensures id in old(vaults) && old(vaults)[id].isInitialized && amount <= 0 ==> r == Err(InvalidAmount)
      ensures id in old(vaults) && old(vaults)[id].isInitialized && amount > 0
              && amount > old(vaults)[id].totalAmount - old(vaults)[id].releasedAmount
              ==> r == Err(InsufficientVaultBalance)
      ensures r.Err? ==> unchanged(this)
      ensures id in old(vaults) && old(vaults)[id].isInitialized
              && 0 < amount <= old(vaults)[id].totalAmount - old(vaults)[id].releasedAmount ==>
        && r == Ok(amount)
        && vaults == old(vaults)[id := old(vaults)[id].(releasedAmount := old(vaults)[id].releasedAmount + amount)]
        && 0 < vaults[id].releasedAmount <= vaults[id].totalAmount
    {
      if id !in vaults {
        return Err(NotFound);
      }
      var vault := vaults[id];
      if !vault.isInitialized {
        return Err(NotInitialized);
      }
      if amount <= 0 {
        return Err(InvalidAmount);
      }
      var available := vault.totalAmount - vault.releasedAmount;
      if amount > available {
        return Err(InsufficientVaultBalance);
      }
      ReleaseKeepsInv(vaults, index, vaultCount, id, vault.releasedAmount + amount);
      vaults := vaults[id := vault.(releasedAmount := vault.releasedAmount + amount)];
      r := Ok(amount);
    }

    /**
     * `claim_all`: the claims of a batch in input order, each seeing the earlier ones, on a
     * working copy of the vault table that is committed only when every item succeeded.
     * On failure no vault changes; on success every vault's released amount grows by the
     * sum of its items and the result is the list of claimed amounts.
     */
    method ClaimAll(ids: seq<nat>, amounts: seq<int>) returns (r: Result<seq<int>>)
      requires Valid()
      modifies this`vaults
      ensures Valid()
      ensures |ids| != |amounts| ==> r == Err(LengthMismatch)
      ensures |ids| == |amounts| == 0 ==> r == Err(EmptyBatch)
      ensures r.Err? ==> unchanged(this)
      ensures |ids| == |amounts| > 0 ==>
        match ApplyClaims(old(vaults), ids, amounts)
        case Err(e) => r == Err(e)
        case Ok(ws) => r == Ok(amounts) && vaults == ws
      ensures |ids| == |amounts| > 0 ==> (r.Ok? <==> BatchClaimable(old(vaults), ids, amounts))
      ensures r.Ok? ==> vaults.Keys == old(vaults).Keys
      ensures r.Ok? ==> forall id :: id in old(vaults) ==>
        vaults[id] == old(vaults)[id].(releasedAmount := old(vaults)[id].releasedAmount + ClaimedFor(id, ids, amounts))
    {
      if |ids| != |amounts| {
        return Err(LengthMismatch);
      }
      if |ids| == 0 {
        return Err(EmptyBatch);
      }
      ApplyClaimsOkIff(vaults, ids, amounts);
      var work: map<nat, Vault> := vaults;
      var results: seq<int> := [];
      var i := 0;
      while i < |ids|
        invariant 0 <= i <= |ids|
        invariant vaults == old(vaults)
        invariant results == amounts[..i]
        invariant ApplyClaims(vaults, ids, amounts) == ApplyClaims(work, ids[i..], amounts[i..])
      {
        assert ids[i..][1..] == ids[i + 1..] && amounts[i..][1..] == amounts[i + 1..];
        var step := ClaimStep(work, ids[i], amounts[i]);
        if step.Err? {
          return Err(step.error);
        }
        work := work[ids[i] := step.value];
        results := results + [amounts[i]];
        i := i + 1;
      }
      assert amounts[..i] == amounts;
      ApplyClaimsKeepsInv(vaults, index, vaultCount, ids, amounts);
      ApplyClaimsEffect(vaults, ids, amounts);
      vaults := work;
      r := Ok(results);
    }

    // ------------------------------------------------------------ batch creation

    /**
     * `batch_create_vaults_full` (eager) and `batch_create_vaults_lazy` (not eager). The
     * amounts are summed and checked against the admin balance once, before any vault is
     * stored; the balance is debited once; the vaults get ids vaultCount + 1 .. in
     * recipient order; the eager variant appends each id to its recipient's vector.
     */
    method BatchCreateVaults(caller: Addr, batch: BatchCreateData, eager: bool) returns (r: Result<seq<nat>>)
      requires Valid()
      modifies this`adminBalance, this`vaultCount, this`vaults, this`index
      ensures Valid()
      ensures caller != admin ==> r == Err(Unauthorized)
      ensures caller == admin && !Aligned(batch) ==> r == Err(LengthMismatch)
      ensures caller == admin && Aligned(batch) && Sum(batch.amounts) > old(adminBalance) ==> r == Err(InsufficientBalance)
      ensures r.Err? ==> unchanged(this)
      ensures caller == admin && Aligned(batch) && Sum(batch.amounts) <= old(adminBalance) ==>
        r.Ok? && BatchStored(batch, eager, r.value)
    {
      var auth := RequireAdmin(caller);
      if auth.Fail? {
        return Err(auth.error);
      }
      if !Aligned(batch) {
        return Err(LengthMismatch);
      }
      var total := SumAmounts(batch.amounts);
      if adminBalance < total {
        return Err(InsufficientBalance);
      }
      var ids := FundBatch(batch, eager, total);
      r := Ok(ids);
    }

    /**
     * What a successful batch leaves behind: ids vaultCount + 1 .. handed out in input
     * order, the balance debited by the sum of the amounts, every earlier vault untouched,
     * item k stored under the k-th new id, and (eager only) each new id appended to its
     * recipient's vector; the lazy variant leaves every vector as it was.
     */
    twostate predicate BatchStored(batch: BatchCreateData, eager: bool, ids: seq<nat>)
      reads this
    {
      && BatchCommitted(old(vaults), old(index), old(vaultCount), batch, eager, vaults, index, ids)
      && vaultCount == old(vaultCount) + |batch.recipients|
      && adminBalance == old(adminBalance) - Sum(batch.amounts)
    }

    /** The storing half of `batch_create_vaults`, once the caller and the balance have passed. */
    method FundBatch(batch: BatchCreateData, eager: bool, total: int) returns (ids: seq<nat>)
      requires Valid() && Aligned(batch) && total == Sum(batch.amounts) && total <= adminBalance
      modifies this`adminBalance, this`vaultCount, this`vaults, this`index
      ensures Valid() && BatchStored(batch, eager, ids)
    {
      var base := vaultCount;
      var vs, idx, added := StoreBatch(vaults, index, base, adminBalance, initialSupply, batch, eager);
      adminBalance, vaults, index, vaultCount := adminBalance - total, vs, idx, base + |batch.recipients|;
      ids := added;
    }

    // ------------------------------------------------------------ invariant read path

    /**
     * `get_contract_state`: (still locked, already claimed, admin balance), summed over
     * every id 1..vaultCount. Under the invariant the three add up to the initial supply.
     */
    method GetContractState() returns (locked: int, claimed: int, balance: int)
      ensures locked == Locked(vaults, vaultCount) && claimed == Claimed(vaults, vaultCount)
      ensures balance == adminBalance
      ensures Valid() ==> locked + claimed + balance == initialSupply
    {
      balance := adminBalance;
      locked, claimed := 0, 0;
      var i := 1;
      while i <= vaultCount
        invariant 1 <= i <= vaultCount + 1
        invariant locked == Locked(vaults, i - 1) && claimed == Claimed(vaults, i - 1)
      {
        if i in vaults {
          var vault := vaults[i];
          locked := locked + (vault.totalAmount - vault.releasedAmount);
          claimed := claimed + vault.releasedAmount;
        }
        i := i + 1;
      }
      LockedPlusClaimed(vaults, vaultCount);
    }

    /** `check_invariant`: whether locked + claimed + admin balance equals the initial supply. */
    method CheckInvariant() returns (ok: bool)
      ensures ok <==> adminBalance + TotalAllocated(vaults, vaultCount) == initialSupply
      ensures Valid() ==> ok
    {
      var locked, claimed, balance := GetContractState();
      LockedPlusClaimed(vaults, vaultCount);
      ok := locked + claimed + balance == initialSupply;
    }
  }

  /**
   * Both batch creators' storing step on values: a ledger in which the admin balance and
   * the vaults account for the whole supply still does so once the batch's funding has
   * moved out of the balance into the new vaults.
   */
  method StoreBatch(vaults: map<nat, Vault>, index: map<Addr, seq<nat>>, base: nat, balance: int, supply: int,
                    batch: BatchCreateData, eager: bool)
    returns (vs: map<nat, Vault>, idx: map<Addr, seq<nat>>, ids: seq<nat>)
    requires Aligned(batch) && LedgerOk(vaults, index, base, balance, supply)
    ensures LedgerOk(vs, idx, base + |batch.recipients|, balance - Sum(batch.amounts), supply)
    ensures BatchCommitted(vaults, index, base, batch, eager, vs, idx, ids)
  {
    vs, idx, ids := StoreItems(vaults, index, base, batch, eager);
    BatchKeepsInv(vaults, index, base, batch, eager, vs, idx);
  }

  /**
   * The store loop shared by both batch creators, over the vault table and index as the
   * call found them: item k becomes vault base + k + 1, appended to its recipient's vector
   * when eager. The result is the table and index to commit and the new ids in order.
   */
  method StoreItems(vaults: map<nat, Vault>, index: map<Addr, seq<nat>>, base: nat, batch: BatchCreateData, eager: bool)
    returns (vs: map<nat, Vault>, idx: map<Addr, seq<nat>>, ids: seq<nat>)
    requires Aligned(batch) && forall id :: id in vaults ==> id <= base
    ensures |ids| == |batch.recipients| && forall k :: 0 <= k < |ids| ==> ids[k] == base + k + 1
    ensures forall id :: id in vs <==> id in vaults || base < id <= base + |batch.recipients|
    ensures forall id :: id in vaults ==> id in vs && vs[id] == vaults[id]
    ensures forall k :: 0 <= k < |batch.recipients| ==> base + k + 1 in vs && vs[base + k + 1] == BatchVault(batch, k, eager)
    ensures eager ==> forall a :: Lookup(idx, a) == Lookup(index, a) + IdsOf(a, batch.recipients, base)
    ensures !eager ==> idx == index
  {
    vs, idx := vaults, index;
    ids := [];
    for i := 0 to |batch.recipients|
      invariant |ids| == i && forall k :: 0 <= k < i ==> ids[k] == base + k + 1
      invariant forall id :: id in vs <==> id in vaults || base < id <= base + i
      invariant forall id :: id in vaults ==> vs[id] == vaults[id]
      invariant forall k :: 0 <= k < i ==> vs[base + k + 1] == BatchVault(batch, k, eager)
      invariant eager ==> forall a :: Lookup(idx, a) == Lookup(index, a) + IdsOf(a, batch.recipients[..i], base)
      invariant !eager ==> idx == index
    {
      var id := base + i + 1;
      var vault := BatchVault(batch, i, eager);
      vs := vs[id := vault];
      if eager {
        IdsOfPush(idx, index, batch.recipients, i, base);
        idx := Push(idx, vault.owner, id);
      }
      ids := ids + [id];
    }
    assert batch.recipients[..|batch.recipients|] == batch.recipients;
  }

  /** The summing loop at the head of both batch creators. */
  method SumAmounts(amounts: seq<int>) returns (total: int)
    ensures total == Sum(amounts)
  {
    total := 0;
    for k := 0 to |amounts|
      invariant total == Sum(amounts[..k])
    {
      assert amounts[..k + 1][..k] == amounts[..k];
      total := total + amounts[k];
    }
    assert amounts[..|amounts|] == amounts;
  }
}
