/**
 * The contract's own test scenarios, replayed against the model: each method builds a
 * fresh contract, makes the same calls, and its postcondition states what the scenario
 * observes.
 */
module Scenarios {
  import opened VestingTypes
  import opened Accounting
  import opened Vesting

  /** A stranger can neither propose nor accept; the proposed admin takes over. */
  method AdminTransfer(admin: Addr, newAdmin: Addr, stranger: Addr)
    returns (proposeByStranger: Outcome, acceptByStranger: Outcome, finalAdmin: Addr, finalProposal: Option<Addr>)
    requires stranger != admin && stranger != newAdmin
    ensures proposeByStranger == Fail(Unauthorized) && acceptByStranger == Fail(Unauthorized)
    ensures finalAdmin == newAdmin && finalProposal == None
  {
    var c := new VestingContract(admin, 1_000_000);
    assert c.admin == admin && c.proposed == None;
    proposeByStranger := c.ProposeNewAdmin(stranger, newAdmin);
    var proposal := c.ProposeNewAdmin(admin, newAdmin);
    assert proposal == Pass && c.proposed == Some(newAdmin);
    acceptByStranger := c.AcceptOwnership(stranger);
    var acceptance := c.AcceptOwnership(newAdmin);
    assert acceptance == Pass;
    finalAdmin, finalProposal := c.admin, c.proposed;
  }

  /** Only the admin creates vaults; ids are handed out from 1, eager or lazy alike. */
  method AdminAccessControl(admin: Addr, stranger: Addr, owner: Addr)
    returns (byStranger: Result<nat>, first: Result<nat>, second: Result<nat>)
    requires stranger != admin
    ensures byStranger == Err(Unauthorized) && first == Ok(1) && second == Ok(2)
  {
    var c := new VestingContract(admin, 1_000_000);
    byStranger := c.CreateVault(stranger, owner, 1000, 100, 200, true);
    first := c.CreateVault(admin, owner, 1000, 100, 200, true);
    second := c.CreateVault(admin, owner, 500, 150, 250, false);
  }

  /**
   * Both batch creators refuse a stranger; the admin's lazy batch gets ids [1, 2], debits
   * 3000 once and indexes nothing until a read materialises a vault.
   */
  method BatchAdminControl(admin: Addr, stranger: Addr, r1: Addr, r2: Addr)
    returns (lazyByStranger: Result<seq<nat>>, fullByStranger: Result<seq<nat>>, ids: Result<seq<nat>>,
             balance: int, before: seq<nat>, after: seq<nat>)
    requires stranger != admin && r1 != r2
    ensures lazyByStranger == Err(Unauthorized) && fullByStranger == Err(Unauthorized)
    ensures ids == Ok([1, 2]) && balance == 997_000
    ensures before == [] && after == [1]
  {
    var c := new VestingContract(admin, 1_000_000);
    var batch := BatchCreateData([r1, r2], [1000, 2000], [100, 150], [200, 250]);
    assert Sum(batch.amounts) == Sum([1000]) + 2000 && Sum([1000]) == Sum([]) + 1000;
    lazyByStranger := c.BatchCreateVaults(stranger, batch, false);
    fullByStranger := c.BatchCreateVaults(stranger, batch, true);
    ids := c.BatchCreateVaults(admin, batch, false);
    assert ids.Ok? && |ids.value| == 2;
    assert ids.value == [1, 2];
    balance := c.adminBalance;
    assert c.index == map[] && c.vaults[1] == BatchVault(batch, 0, false);
    before := c.GetUserVaults(r1);
    var v := c.GetVault(1);
    assert c.index == Push(map[], r1, 1);
    after := c.GetUserVaults(r1);
  }

  /** A vault of 1000 out of 1_000_000: the state read is (1000 locked, 0 claimed, 999_000). */
  method ContractStateAfterOneVault(admin: Addr, owner: Addr)
    returns (id: Result<nat>, locked: int, claimed: int, balance: int, ok: bool)
    ensures id == Ok(1) && locked == 1000 && claimed == 0 && balance == 999_000 && ok
  {
    var c := new VestingContract(admin, 1_000_000);
    id := c.CreateVault(admin, owner, 1000, 0, 1000, true);
    locked, claimed, balance := c.GetContractState();
    ok := c.CheckInvariant();
  }

  /** A fresh contract holding three eager vaults of 1000, 2000 and 3000 for `owner`. */
  method ThreeVaults(admin: Addr, owner: Addr) returns (c: VestingContract)
    ensures fresh(c) && c.Valid() && c.admin == admin
    ensures c.vaults == map[1 := Vault(owner, 1000, 0, 0, 1000, true),
                            2 := Vault(owner, 2000, 0, 0, 1000, true),
                            3 := Vault(owner, 3000, 0, 0, 1000, true)]
  {
    c := new VestingContract(admin, 1_000_000);
    var id1 := c.CreateVault(admin, owner, 1000, 0, 1000, true);
    var id2 := c.CreateVault(admin, owner, 2000, 0, 1000, true);
    var id3 := c.CreateVault(admin, owner, 3000, 0, 1000, true);
    assert id1 == Ok(1) && id2 == Ok(2) && id3 == Ok(3);
  }

  /** Three vaults, one claim each: the results come back in order and each vault shows its claim. */
  method ClaimAllSuccess(admin: Addr, owner: Addr)
    returns (results: Result<seq<int>>, v1: Result<Vault>, v2: Result<Vault>, v3: Result<Vault>)
    ensures results == Ok([100, 200, 300])
    ensures v1.Ok? && v1.value.releasedAmount == 100
    ensures v2.Ok? && v2.value.releasedAmount == 200
    ensures v3.Ok? && v3.value.releasedAmount == 300
  {
    var c := ThreeVaults(admin, owner);
    ApplyThreeClaims(owner);
    results := c.ClaimAll([1, 2, 3], [100, 200, 300]);
    assert c.vaults[1].releasedAmount == 100 && c.vaults[2].releasedAmount == 200 && c.vaults[3].releasedAmount == 300;
    v1 := c.GetVault(1);
    v2 := c.GetVault(2);
    v3 := c.GetVault(3);
  }

  /** The claims of the success scenario, applied one after the other. */
  lemma ApplyThreeClaims(owner: Addr)
    ensures var vs := map[1 := Vault(owner, 1000, 0, 0, 1000, true),
                          2 := Vault(owner, 2000, 0, 0, 1000, true),
                          3 := Vault(owner, 3000, 0, 0, 1000, true)];
      ApplyClaims(vs, [1, 2, 3], [100, 200, 300]) ==
      Ok(map[1 := Vault(owner, 1000, 100, 0, 1000, true),
             2 := Vault(owner, 2000, 200, 0, 1000, true),
             3 := Vault(owner, 3000, 300, 0, 1000, true)])
  {
    var vs := map[1 := Vault(owner, 1000, 0, 0, 1000, true),
                  2 := Vault(owner, 2000, 0, 0, 1000, true),
                  3 := Vault(owner, 3000, 0, 0, 1000, true)];
    var w1 := vs[1 := vs[1].(releasedAmount := 100)];
    var w2 := w1[2 := vs[2].(releasedAmount := 200)];
    var w3 := w2[3 := vs[3].(releasedAmount := 300)];
    assert [3][1..] == [] && [2, 3][1..] == [3] && [1, 2, 3][1..] == [2, 3];
    assert [300][1..] == [] && [200, 300][1..] == [300] && [100, 200, 300][1..] == [200, 300];
    assert ApplyClaims(w2, [3], [300]) == ApplyClaims(w3, [], []);
    assert ApplyClaims(w1, [2, 3], [200, 300]) == ApplyClaims(w2, [3], [300]);
    assert ApplyClaims(vs, [1, 2, 3], [100, 200, 300]) == ApplyClaims(w1, [2, 3], [200, 300]);
    assert w3 == map[1 := Vault(owner, 1000, 100, 0, 1000, true),
                     2 := Vault(owner, 2000, 200, 0, 1000, true),
                     3 := Vault(owner, 3000, 300, 0, 1000, true)];
  }

  /** A batch naming a missing vault fails and leaves the existing vault untouched. */
  method ClaimAllRollbackMissing(admin: Addr, owner: Addr) returns (result: Result<seq<int>>, v1: Result<Vault>)
    ensures result == Err(NotFound)
    ensures v1.Ok? && v1.value.releasedAmount == 0
  {
    var c := new VestingContract(admin, 1_000_000);
    var id1 := c.CreateVault(admin, owner, 1000, 0, 1000, true);
    assert id1 == Ok(1);
    ghost var w1 := c.vaults[1 := c.vaults[1].(releasedAmount := 100)];
    assert ApplyClaims(c.vaults, [1, 999], [100, 100]) == ApplyClaims(w1, [999], [100]);
    result := c.ClaimAll([1, 999], [100, 100]);
    v1 := c.GetVault(1);
  }

  /** A fresh contract holding two eager vaults of 1000 and 500 for `owner`. */
  method PairOfVaults(admin: Addr, owner: Addr) returns (c: VestingContract)
    ensures fresh(c) && c.Valid()
    ensures c.vaults == map[1 := Vault(owner, 1000, 0, 0, 1000, true), 2 := Vault(owner, 500, 0, 0, 1000, true)]
  {
    c := new VestingContract(admin, 1_000_000);
    var id1 := c.CreateVault(admin, owner, 1000, 0, 1000, true);
    var id2 := c.CreateVault(admin, owner, 500, 0, 1000, true);
    assert id1 == Ok(1) && id2 == Ok(2);
  }

  /** A batch whose second claim exceeds its vault fails as a whole; neither vault changes. */
  method ClaimAllRollbackInsufficient(admin: Addr, owner: Addr)
    returns (result: Result<seq<int>>, v1: Result<Vault>, v2: Result<Vault>)
    ensures result == Err(InsufficientVaultBalance)
    ensures v1.Ok? && v1.value.releasedAmount == 0
    ensures v2.Ok? && v2.value.releasedAmount == 0
  {
    var c := PairOfVaults(admin, owner);
    ghost var w1 := c.vaults[1 := c.vaults[1].(releasedAmount := 100)];
    assert [1, 2][1..] == [2] && [100, 9999][1..] == [9999];
    assert ApplyClaims(c.vaults, [1, 2], [100, 9999]) == ApplyClaims(w1, [2], [9999]);
    result := c.ClaimAll([1, 2], [100, 9999]);
    v1 := c.GetVault(1);
    v2 := c.GetVault(2);
  }

  /** An empty batch and a batch of mismatched lengths are both refused. */
  method ClaimAllMalformed(admin: Addr, owner: Addr) returns (empty: Result<seq<int>>, mismatched: Result<seq<int>>)
    ensures empty == Err(EmptyBatch) && mismatched == Err(LengthMismatch)
  {
    var c := new VestingContract(admin, 1_000_000);
    empty := c.ClaimAll([], []);
    var id1 := c.CreateVault(admin, owner, 1000, 0, 1000, true);
    assert id1 == Ok(1);
    mismatched := c.ClaimAll([1], [100, 200]);
  }
}
