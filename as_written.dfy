/**
 * Three places where the contract's code does something other than what it evidently
 * means to do, each modelled as written and pinned down by an input that shows the
 * difference. The corrected behaviour is what the `Vesting` module implements.
 */
module AsWritten {
  import opened VestingTypes
  import opened Accounting

  // ---------------------------------------------------------------- the single-slot read

  /** What one read of the bare table slot adds to the locked total (nothing when empty). */
  function SlotLocked(slot: Option<Vault>): int
  {
    if slot.Some? then slot.value.totalAmount - slot.value.releasedAmount else 0
  }

  /** What one read of the bare table slot adds to the claimed total. */
  function SlotClaimed(slot: Option<Vault>): int
  {
    if slot.Some? then slot.value.releasedAmount else 0
  }

  /**
   * `get_contract_state` as written: the loop runs for ids 1..count but every iteration
   * reads the one slot stored under the table's key alone, never the vault stored under
   * id i. So it adds the same slot count times; no operation of the contract writes that
   * slot, and with it empty the totals are zero however many vaults exist.
   */
  method ContractStateAsWritten(slot: Option<Vault>, count: nat, balance: int)
    returns (locked: int, claimed: int, bal: int)
    ensures locked == count * SlotLocked(slot) && claimed == count * SlotClaimed(slot)
    ensures bal == balance
    ensures slot == None ==> locked == 0 && claimed == 0
  {
    bal := balance;
    locked, claimed := 0, 0;
    var i := 1;
    while i <= count
      invariant 1 <= i <= count + 1
      invariant locked == (i - 1) * SlotLocked(slot) && claimed == (i - 1) * SlotClaimed(slot)
    {
      if slot.Some? {
        locked := locked + (slot.value.totalAmount - slot.value.releasedAmount);
        claimed := claimed + slot.value.releasedAmount;
      }
      i := i + 1;
    }
  }

  /**
   * `check_invariant` over the as-written state read: with the slot empty it only asks
   * whether the admin balance still equals the initial supply.
   */
  method CheckInvariantAsWritten(slot: Option<Vault>, count: nat, balance: int, supply: int) returns (ok: bool)
    ensures ok <==> count * (SlotLocked(slot) + SlotClaimed(slot)) + balance == supply
    ensures slot == None ==> (ok <==> balance == supply)
  {
    var locked, claimed, bal := ContractStateAsWritten(slot, count, balance);
    ok := locked + claimed + bal == supply;
  }

  /** Two vaults of 1000 and 2000, both created eagerly for owners 1 and 2. */
  function TwoVaults(): map<nat, Vault>
  {
    map[1 := Vault(Addr(1), 1000, 0, 0, 1000, true), 2 := Vault(Addr(2), 2000, 0, 0, 1000, true)]
  }

  function TwoVaultIndex(): map<Addr, seq<nat>>
  {
    map[Addr(1) := [1], Addr(2) := [2]]
  }

  /**
   * A ledger that conserves its supply (1_000_000 = 997_000 in the admin balance plus
   * 1000 and 2000 in two vaults) fails the as-written check whatever the bare slot holds:
   * nothing, the first vault or the second.
   */
  lemma SingleSlotCheckFails()
    ensures LedgerOk(TwoVaults(), TwoVaultIndex(), 2, 997_000, 1_000_000)
    ensures 2 * (SlotLocked(None) + SlotClaimed(None)) + 997_000 != 1_000_000
    ensures 2 * (SlotLocked(Some(TwoVaults()[1])) + SlotClaimed(Some(TwoVaults()[1]))) + 997_000 != 1_000_000
    ensures 2 * (SlotLocked(Some(TwoVaults()[2])) + SlotClaimed(Some(TwoVaults()[2]))) + 997_000 != 1_000_000
  {
    var vs, idx := TwoVaults(), TwoVaultIndex();
    assert TotalAllocated(vs, 2) == TotalAllocated(vs, 1) + 2000;
    assert TotalAllocated(vs, 1) == 1000;
    forall a, k | a in idx && 0 <= k < |idx[a]|
      ensures idx[a][k] in vs && vs[idx[a][k]].owner == a && vs[idx[a][k]].isInitialized
    {
      assert a == Addr(1) || a == Addr(2);
    }
    forall id | id in vs && vs[id].isInitialized
      ensures id in Lookup(idx, vs[id].owner)
    {
      assert id == 1 || id == 2;
    }
  }

  // ---------------------------------------------------------------- unchecked batch lengths

  /**
   * The store loop of both batch creators as written: items 0..k-1 become vaults
   * base + 1 .. base + k, each reading index i of every input vector.
   */
  function StoreAsWritten(vs: map<nat, Vault>, base: nat, b: BatchCreateData, eager: bool, k: nat): map<nat, Vault>
    requires k <= |b.recipients| && k <= |b.amounts| && k <= |b.startTimes| && k <= |b.endTimes|
  {
    if k == 0 then vs
    else
      StoreAsWritten(vs, base, b, eager, k - 1)[base + k :=
        Vault(b.recipients[k - 1], b.amounts[k - 1], 0, b.startTimes[k - 1], b.endTimes[k - 1], eager)]
  }

  /**
   * `batch_create_vaults_*` as written, on the vault table and the admin balance: the
   * whole `amounts` vector is summed and debited, then one vault is stored per recipient.
   * `None` is a panic (balance too low, or a vector shorter than `recipients`, which fails
   * its `get(i).unwrap()`); the host then rolls the call back. A longer vector is never
   * rejected: its extra entries are paid for and stored nowhere.
   */
  function BatchAsWritten(vs: map<nat, Vault>, base: nat, balance: int, b: BatchCreateData, eager: bool)
    : (r: Option<(map<nat, Vault>, int)>)
    ensures r.Some? <==>
      Sum(b.amounts) <= balance && |b.recipients| <= |b.amounts|
      && |b.recipients| <= |b.startTimes| && |b.recipients| <= |b.endTimes|
    ensures r.Some? ==> r.value.1 == balance - Sum(b.amounts)
  {
    var total := Sum(b.amounts);
    if balance < total then None
    else if |b.amounts| < |b.recipients| || |b.startTimes| < |b.recipients| || |b.endTimes| < |b.recipients| then None
    else Some((StoreAsWritten(vs, base, b, eager, |b.recipients|), balance - total))
  }

  /** Summing a vector in two pieces. */
  lemma {:induction false} SumSplit(xs: seq<int>, n: nat)
    requires n <= |xs|
    ensures Sum(xs) == Sum(xs[..n]) + Sum(xs[n..])
    decreases |xs|
  {
    if n < |xs| {
      var init := xs[..|xs| - 1];
      SumSplit(init, n);
      assert init[..n] == xs[..n];
      assert xs[n..][..|xs[n..]| - 1] == init[n..];
    } else {
      assert xs[..n] == xs;
      assert |xs[n..]| == 0;
    }
  }

  /** The first k stored items carry exactly the first k amounts. */
  lemma {:induction false} StoreAsWrittenTotal(vs: map<nat, Vault>, base: nat, b: BatchCreateData, eager: bool, k: nat)
    requires k <= |b.recipients| && k <= |b.amounts| && k <= |b.startTimes| && k <= |b.endTimes|
    requires forall id :: id in vs ==> id <= base
    ensures TotalAllocated(StoreAsWritten(vs, base, b, eager, k), base + k) == TotalAllocated(vs, base) + Sum(b.amounts[..k])
  {
    if k > 0 {
      StoreAsWrittenTotal(vs, base, b, eager, k - 1);
      var prev := StoreAsWritten(vs, base, b, eager, k - 1);
      var v := Vault(b.recipients[k - 1], b.amounts[k - 1], 0, b.startTimes[k - 1], b.endTimes[k - 1], eager);
      TotalAllocatedAppend(prev, base + k - 1, v);
      assert b.amounts[..k][..k - 1] == b.amounts[..k - 1];
    }
  }

  /**
   * Conservation as written loses exactly the amounts beyond the recipients: after a batch
   * that did not panic, balance plus funding over the ids in use is short by
   * Sum(amounts[n..]).
   */
  lemma BatchAsWrittenLeak(vs: map<nat, Vault>, base: nat, balance: int, b: BatchCreateData, eager: bool)
    requires forall id :: id in vs ==> id <= base
    requires BatchAsWritten(vs, base, balance, b, eager).Some?
    ensures var r := BatchAsWritten(vs, base, balance, b, eager).value;
      r.1 + TotalAllocated(r.0, base + |b.recipients|)
      == balance + TotalAllocated(vs, base) - Sum(b.amounts[|b.recipients|..])
  {
    var n := |b.recipients|;
    StoreAsWrittenTotal(vs, base, b, eager, n);
    SumSplit(b.amounts, n);
  }

  /**
   * One recipient and two amounts out of a supply of 1_000_000: 3000 leaves the admin
   * balance, one vault of 1000 is stored, and 2000 is accounted for nowhere.
   */
  lemma LongAmountsLeak()
    ensures var b := BatchCreateData([Addr(1)], [1000, 2000], [0], [1000]);
      var r := BatchAsWritten(map[], 0, 1_000_000, b, false);
      && r == Some((map[1 := Vault(Addr(1), 1000, 0, 0, 1000, false)], 997_000))
      && r.value.1 + TotalAllocated(r.value.0, 1) == 998_000
  {
    var b := BatchCreateData([Addr(1)], [1000, 2000], [0], [1000]);
    assert Sum(b.amounts) == Sum([1000]) + 2000;
    assert Sum([1000]) == Sum([]) + 1000;
    var stored := StoreAsWritten(map[], 0, b, false, 1);
    assert stored == map[1 := Vault(Addr(1), 1000, 0, 0, 1000, false)];
    assert TotalAllocated(stored, 1) == 1000;
  }

  // ---------------------------------------------------------------- the missing-vault placeholder

  /**
   * `initialize_vault_metadata` as written: an absent id reads as a zero, uninitialised
   * vault owned by the contract's own address `self`, which is then stored as initialised
   * and indexed under `self`. Returns (transitioned, table, index).
   */
  function MaterializeAsWritten(vs: map<nat, Vault>, idx: map<Addr, seq<nat>>, id: nat, self: Addr)
    : (r: (bool, map<nat, Vault>, map<Addr, seq<nat>>))
    ensures r.0 <==> id !in vs || !vs[id].isInitialized
    ensures id in vs && !vs[id].isInitialized ==>
      r.1 == vs[id := vs[id].(isInitialized := true)] && r.2 == Push(idx, vs[id].owner, id)
    ensures id !in vs ==> r.1 == vs[id := Vault(self, 0, 0, 0, 0, true)] && r.2 == Push(idx, self, id)
    ensures !r.0 ==> r.1 == vs && r.2 == idx
  {
    var vault := if id in vs then vs[id] else Vault(self, 0, 0, 0, 0, false);
    if !vault.isInitialized then
      (true, vs[id := vault.(isInitialized := true)], Push(idx, vault.owner, id))
    else
      (false, vs, idx)
  }

  /**
   * On the empty ledger, materialising id 1 stores a vault beyond the counter (ids are no
   * longer 1..count), and the next lazy creation, which takes id 1, leaves `self`'s index
   * vector naming an uninitialised vault of another owner.
   */
  lemma PlaceholderBreaksIndex(self: Addr, owner: Addr)
    requires owner != self
    ensures var r := MaterializeAsWritten(map[], map[], 1, self);
      && r.0
      && !IdsSequential(r.1, 0)
      && 1 in Lookup(r.2, self)
      && !IndexSound(r.1[1 := Vault(owner, 500, 0, 0, 1000, false)], r.2)
  {
    var r := MaterializeAsWritten(map[], map[], 1, self);
    assert 1 in r.1;
    assert Lookup(r.2, self) == [1];
    var vs := r.1[1 := Vault(owner, 500, 0, 0, 1000, false)];
    assert r.2[self][0] == 1 && vs[1].owner != self;
  }
}
