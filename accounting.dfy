/**
 * Value-level specification of the ledger: the aggregate sums behind the conservation
 * identity, the per-vault claim rule, the in-order fold that claim_all performs, the owner
 * index and the invariant every completed call keeps. The class in contract.dfy is proved
 * against these definitions.
 */
module Accounting {
  import opened VestingTypes

  // ---------------------------------------------------------------- owner index

  /** The index vector stored for `a`, or the empty vector the source falls back to. */
  function Lookup(idx: map<Addr, seq<nat>>, a: Addr): seq<nat>
  {
    if a in idx then idx[a] else []
  }

  /** The read-append-write of an owner's vector (`push_back` followed by `set`). */
  function Push(idx: map<Addr, seq<nat>>, a: Addr, id: nat): (r: map<Addr, seq<nat>>)
    ensures Lookup(r, a) == Lookup(idx, a) + [id]
    ensures forall b :: b != a ==> Lookup(r, b) == Lookup(idx, b)
    ensures r.Keys == idx.Keys + {a}
  {
    idx[a := Lookup(idx, a) + [id]]
  }

  // ---------------------------------------------------------------- vault bounds

  /**
   * The per-vault bound that every operation keeps. Nothing is ever released below zero,
   * and once anything is released the released amount is within the total. A vault funded
   * with a negative amount (creation does not reject one) keeps released at zero forever.
   */
  predicate Bounded(v: Vault)
  {
    0 <= v.releasedAmount && (v.releasedAmount == 0 || v.releasedAmount <= v.totalAmount)
  }

  // ---------------------------------------------------------------- aggregate sums

  /** Sum of the amounts of a vector, added in index order. */
  function Sum(xs: seq<int>): int
  {
    if |xs| == 0 then 0 else Sum(xs[..|xs| - 1]) + xs[|xs| - 1]
  }

  /** Total funding of the vaults with ids 1..n (an absent id contributes nothing). */
  function TotalAllocated(vs: map<nat, Vault>, n: nat): int
  {
    if n == 0 then 0
    else TotalAllocated(vs, n - 1) + (if n in vs then vs[n].totalAmount else 0)
  }

  /** Still-locked value of vaults 1..n: the sum of total - released. */
  function Locked(vs: map<nat, Vault>, n: nat): int
  {
    if n == 0 then 0
    else Locked(vs, n - 1) + (if n in vs then vs[n].totalAmount - vs[n].releasedAmount else 0)
  }

  /** Already-claimed value of vaults 1..n: the sum of released. */
  function Claimed(vs: map<nat, Vault>, n: nat): int
  {
    if n == 0 then 0
    else Claimed(vs, n - 1) + (if n in vs then vs[n].releasedAmount else 0)
  }

  /** Locked plus claimed is exactly the funding handed out, vault by vault. */
  lemma {:induction false} LockedPlusClaimed(vs: map<nat, Vault>, n: nat)
    ensures Locked(vs, n) + Claimed(vs, n) == TotalAllocated(vs, n)
  {
    if n > 0 {
      LockedPlusClaimed(vs, n - 1);
    }
  }

  /** The funding total of ids 1..n depends only on which of them exist and their totals. */
  lemma {:induction false} TotalAllocatedFrame(vs: map<nat, Vault>, ws: map<nat, Vault>, n: nat)
    requires forall id :: 1 <= id <= n ==> (id in vs <==> id in ws)
    requires forall id :: 1 <= id <= n && id in vs ==> vs[id].totalAmount == ws[id].totalAmount
    ensures TotalAllocated(vs, n) == TotalAllocated(ws, n)
  {
    if n > 0 {
      TotalAllocatedFrame(vs, ws, n - 1);
    }
  }

  /** Storing a vault under the next id n + 1 adds exactly its funding to the total. */
  lemma TotalAllocatedAppend(vs: map<nat, Vault>, n: nat, v: Vault)
    ensures TotalAllocated(vs[n + 1 := v], n + 1) == TotalAllocated(vs, n) + v.totalAmount
  {
    TotalAllocatedFrame(vs, vs[n + 1 := v], n);
  }

  // ---------------------------------------------------------------- ledger invariant

  /** Ids are exactly 1..n: allocated sequentially from 1 and never reused or skipped. */
  ghost predicate IdsSequential(vs: map<nat, Vault>, n: nat)
  {
    forall id :: id in vs <==> 1 <= id <= n
  }

  /** Every id in an owner's vector names an initialised vault of that owner. */
  ghost predicate IndexSound(vs: map<nat, Vault>, idx: map<Addr, seq<nat>>)
  {
    forall a, k :: a in idx && 0 <= k < |idx[a]| ==>
      idx[a][k] in vs && vs[idx[a][k]].owner == a && vs[idx[a][k]].isInitialized
  }

  /** No owner's vector lists an id twice. */
  ghost predicate IndexNoDup(idx: map<Addr, seq<nat>>)
  {
    forall a, i, j :: a in idx && 0 <= i < j < |idx[a]| ==> idx[a][i] != idx[a][j]
  }

  /** Every initialised vault is listed under its owner. */
  ghost predicate IndexComplete(vs: map<nat, Vault>, idx: map<Addr, seq<nat>>)
  {
    forall id :: id in vs && vs[id].isInitialized ==> id in Lookup(idx, vs[id].owner)
  }

  /** What holds of the vault table and the owner index after every completed call. */
  ghost predicate LedgerInv(vs: map<nat, Vault>, idx: map<Addr, seq<nat>>, n: nat)
  {
    IdsSequential(vs, n)
    && (forall id :: id in vs ==> Bounded(vs[id]))
    && IndexSound(vs, idx)
    && IndexNoDup(idx)
    && IndexComplete(vs, idx)
  }

  /**
   * The invariant plus conservation: the admin balance and the funding of every vault
   * add up to the initial supply.
   */
  ghost predicate LedgerOk(vs: map<nat, Vault>, idx: map<Addr, seq<nat>>, n: nat, balance: int, supply: int)
  {
    LedgerInv(vs, idx, n) && balance + TotalAllocated(vs, n) == supply
  }

  /** The empty ledger left by `initialize`. */
  lemma EmptyLedgerInv()
    ensures LedgerInv(map[], map[], 0)
  {
  }

  /**
   * Storing a fresh vault (nothing released) under the next id keeps the invariant,
   * provided an initialised vault is indexed under its owner at the same time and an
   * uninitialised one is left out of every index.
   */
  lemma AddVaultKeepsInv(vs: map<nat, Vault>, idx: map<Addr, seq<nat>>, n: nat, v: Vault)
    requires LedgerInv(vs, idx, n)
    requires v.releasedAmount == 0
    ensures v.isInitialized ==> LedgerInv(vs[n + 1 := v], Push(idx, v.owner, n + 1), n + 1)
    ensures !v.isInitialized ==> LedgerInv(vs[n + 1 := v], idx, n + 1)
  {
    var vs' := vs[n + 1 := v];
    var idx' := if v.isInitialized then Push(idx, v.owner, n + 1) else idx;
    assert n + 1 !in vs;
    forall a, k | a in idx' && 0 <= k < |idx'[a]|
      ensures idx'[a][k] in vs' && vs'[idx'[a][k]].owner == a && vs'[idx'[a][k]].isInitialized
    {
      if v.isInitialized && a == v.owner && k == |idx'[a]| - 1 {
      } else {
        assert idx'[a][k] == idx[a][k];
      }
    }
    forall a, i, j | a in idx' && 0 <= i < j < |idx'[a]|
      ensures idx'[a][i] != idx'[a][j]
    {
      if v.isInitialized && a == v.owner && j == |idx'[a]| - 1 {
        assert idx'[a][i] == idx[a][i];
      }
    }
    forall id | id in vs' && vs'[id].isInitialized
      ensures id in Lookup(idx', vs'[id].owner)
    {
      if id != n + 1 {
        assert id in Lookup(idx, vs[id].owner);
      }
    }
  }

  /**
   * Materialising an uninitialised vault (flag set, id appended to its owner's vector)
   * keeps the invariant, and in particular does not list the id twice.
   */
  lemma MaterializeKeepsInv(vs: map<nat, Vault>, idx: map<Addr, seq<nat>>, n: nat, id: nat)
    requires LedgerInv(vs, idx, n)
    requires id in vs && !vs[id].isInitialized
    ensures LedgerInv(vs[id := vs[id].(isInitialized := true)], Push(idx, vs[id].owner, id), n)
  {
    var o := vs[id].owner;
    var vs' := vs[id := vs[id].(isInitialized := true)];
    var idx' := Push(idx, o, id);
    assert id !in Lookup(idx, o);
    forall a, k | a in idx' && 0 <= k < |idx'[a]|
      ensures idx'[a][k] in vs' && vs'[idx'[a][k]].owner == a && vs'[idx'[a][k]].isInitialized
    {
      if a == o && k == |idx'[a]| - 1 {
      } else {
        assert idx'[a][k] == idx[a][k];
      }
    }
    forall a, i, j | a in idx' && 0 <= i < j < |idx'[a]|
      ensures idx'[a][i] != idx'[a][j]
    {
      if a == o && j == |idx'[a]| - 1 {
        assert idx'[a][i] == idx[a][i];
      }
    }
    forall x | x in vs' && vs'[x].isInitialized
      ensures x in Lookup(idx', vs'[x].owner)
    {
      if x != id {
        assert x in Lookup(idx, vs[x].owner);
      }
    }
  }

  /** Changing only the released amount of one vault, within the bound, keeps the invariant. */
  lemma ReleaseKeepsInv(vs: map<nat, Vault>, idx: map<Addr, seq<nat>>, n: nat, id: nat, released: int)
    requires LedgerInv(vs, idx, n)
    requires id in vs && Bounded(vs[id].(releasedAmount := released))
    ensures LedgerInv(vs[id := vs[id].(releasedAmount := released)], idx, n)
    ensures TotalAllocated(vs[id := vs[id].(releasedAmount := released)], n) == TotalAllocated(vs, n)
  {
    var vs' := vs[id := vs[id].(releasedAmount := released)];
    forall x | x in vs' && vs'[x].isInitialized
      ensures x in Lookup(idx, vs'[x].owner)
    {
      assert x in Lookup(idx, vs[x].owner);
    }
    TotalAllocatedFrame(vs, vs', n);
  }

  // ---------------------------------------------------------------- claims

  /**
   * One claim against the current vault table, with the checks in the source's order:
   * the vault must exist, be initialised, the amount be positive and within
   * total - released. On success, the vault as it is to be stored.
   */
  function ClaimStep(vs: map<nat, Vault>, id: nat, amount: int): (r: Result<Vault>)
    ensures r.Ok? ==> id in vs && 0 < amount
    ensures r.Ok? ==> r.value == vs[id].(releasedAmount := vs[id].releasedAmount + amount)
    ensures r.Ok? && Bounded(vs[id]) ==> 0 < r.value.releasedAmount <= r.value.totalAmount
  {
    if id !in vs then Err(NotFound)
    else if !vs[id].isInitialized then Err(NotInitialized)
    else if amount <= 0 then Err(InvalidAmount)
    else if amount > vs[id].totalAmount - vs[id].releasedAmount then Err(InsufficientVaultBalance)
    else Ok(vs[id].(releasedAmount := vs[id].releasedAmount + amount))
  }

  /**
   * The claims of a batch applied in input order, each to the table as the earlier items
   * left it: the first failing item's error, or the table after every claim.
   */
  function ApplyClaims(vs: map<nat, Vault>, ids: seq<nat>, amounts: seq<int>): Result<map<nat, Vault>>
    requires |ids| == |amounts|
    decreases |ids|
  {
    if |ids| == 0 then Ok(vs)
    else
      match ClaimStep(vs, ids[0], amounts[0])
      case Err(e) => Err(e)
      case Ok(v) => ApplyClaims(vs[ids[0] := v], ids[1..], amounts[1..])
  }

  /** What the items of a batch that name `id` ask of it, in total. */
  function ClaimedFor(id: nat, ids: seq<nat>, amounts: seq<int>): int
    requires |ids| == |amounts|
    decreases |ids|
  {
    if |ids| == 0 then 0
    else (if ids[0] == id then amounts[0] else 0) + ClaimedFor(id, ids[1..], amounts[1..])
  }

  /**
   * A batch is claimable when every item names an existing, initialised vault with a
   * positive amount and, for every vault named, what the batch asks of it in total fits
   * in its total - released.
   */
  ghost predicate BatchClaimable(vs: map<nat, Vault>, ids: seq<nat>, amounts: seq<int>)
    requires |ids| == |amounts|
  {
    forall k :: 0 <= k < |ids| ==>
      ids[k] in vs && vs[ids[k]].isInitialized && amounts[k] > 0
      && ClaimedFor(ids[k], ids, amounts) <= vs[ids[k]].totalAmount - vs[ids[k]].releasedAmount
  }

  lemma {:induction false} ClaimedForNonNeg(id: nat, ids: seq<nat>, amounts: seq<int>)
    requires |ids| == |amounts|
    requires forall k :: 0 <= k < |amounts| ==> amounts[k] > 0
    ensures ClaimedFor(id, ids, amounts) >= 0
    decreases |ids|
  {
    if |ids| > 0 {
      ClaimedForNonNeg(id, ids[1..], amounts[1..]);
    }
  }

  lemma {:induction false} ClaimedForAbsent(id: nat, ids: seq<nat>, amounts: seq<int>)
    requires |ids| == |amounts|
    requires id !in ids
    ensures ClaimedFor(id, ids, amounts) == 0
    decreases |ids|
  {
    if |ids| > 0 {
      ClaimedForAbsent(id, ids[1..], amounts[1..]);
    }
  }

  /** After a successful first item, the rest of the batch is claimable from the new table
      exactly when the whole batch was claimable from the old one. */
  lemma BatchClaimableStep(vs: map<nat, Vault>, ids: seq<nat>, amounts: seq<int>)
    requires |ids| == |amounts| && |ids| > 0
    requires ClaimStep(vs, ids[0], amounts[0]).Ok?
    ensures BatchClaimable(vs, ids, amounts)
        <==> BatchClaimable(vs[ids[0] := ClaimStep(vs, ids[0], amounts[0]).value], ids[1..], amounts[1..])
  {
    var id0, a0 := ids[0], amounts[0];
    var vs1 := vs[id0 := ClaimStep(vs, id0, a0).value];
    var tIds, tAmts := ids[1..], amounts[1..];
    if BatchClaimable(vs, ids, amounts) {
      forall k | 0 <= k < |tIds|
        ensures tIds[k] in vs1 && vs1[tIds[k]].isInitialized && tAmts[k] > 0
        ensures ClaimedFor(tIds[k], tIds, tAmts) <= vs1[tIds[k]].totalAmount - vs1[tIds[k]].releasedAmount
      {
        assert ids[k + 1] == tIds[k] && amounts[k + 1] == tAmts[k];
      }
    }
    if BatchClaimable(vs1, tIds, tAmts) {
      forall k | 0 <= k < |ids|
        ensures ids[k] in vs && vs[ids[k]].isInitialized && amounts[k] > 0
        ensures ClaimedFor(ids[k], ids, amounts) <= vs[ids[k]].totalAmount - vs[ids[k]].releasedAmount
      {
        if k == 0 {
          if id0 in tIds {
            var j :| 0 <= j < |tIds| && tIds[j] == id0;
            assert ClaimedFor(tIds[j], tIds, tAmts) <= vs1[tIds[j]].totalAmount - vs1[tIds[j]].releasedAmount;
          } else {
            ClaimedForAbsent(id0, tIds, tAmts);
          }
        } else {
          assert ids[k] == tIds[k - 1] && amounts[k] == tAmts[k - 1];
          assert ClaimedFor(tIds[k - 1], tIds, tAmts) <= vs1[tIds[k - 1]].totalAmount - vs1[tIds[k - 1]].releasedAmount;
        }
      }
    }
  }

  /**
   * claim_all succeeds exactly when the batch is claimable: repeated ids see the earlier
   * claims of the same batch, so a vault may be named several times as long as the sum of
   * its items fits.
   */
  lemma {:induction false} ApplyClaimsOkIff(vs: map<nat, Vault>, ids: seq<nat>, amounts: seq<int>)
    requires |ids| == |amounts|
    ensures ApplyClaims(vs, ids, amounts).Ok? <==> BatchClaimable(vs, ids, amounts)
    decreases |ids|
  {
    if |ids| > 0 {
      var step := ClaimStep(vs, ids[0], amounts[0]);
      if step.Err? {
        var tAmts := amounts[1..];
        if forall k :: 0 <= k < |tAmts| ==> tAmts[k] > 0 {
          ClaimedForNonNeg(ids[0], ids[1..], tAmts);
        } else {
          var j :| 0 <= j < |tAmts| && tAmts[j] <= 0;
          assert amounts[j + 1] <= 0;
        }
      } else {
        ApplyClaimsOkIff(vs[ids[0] := step.value], ids[1..], amounts[1..]);
        BatchClaimableStep(vs, ids, amounts);
      }
    }
  }

  /**
   * A successful batch changes nothing but released amounts, and each vault's released
   * amount grows by exactly what the batch's items named it for.
   */
  lemma {:induction false} ApplyClaimsEffect(vs: map<nat, Vault>, ids: seq<nat>, amounts: seq<int>)
    requires |ids| == |amounts|
    requires ApplyClaims(vs, ids, amounts).Ok?
    ensures ApplyClaims(vs, ids, amounts).value.Keys == vs.Keys
    ensures forall id :: id in vs ==>
      ApplyClaims(vs, ids, amounts).value[id]
        == vs[id].(releasedAmount := vs[id].releasedAmount + ClaimedFor(id, ids, amounts))
    decreases |ids|
  {
    if |ids| > 0 {
      var vs1 := vs[ids[0] := ClaimStep(vs, ids[0], amounts[0]).value];
      ApplyClaimsEffect(vs1, ids[1..], amounts[1..]);
    }
  }

  /** A successful batch keeps the ledger invariant and leaves the funding total unchanged. */
  lemma {:induction false} ApplyClaimsKeepsInv(vs: map<nat, Vault>, idx: map<Addr, seq<nat>>, n: nat,
                                                ids: seq<nat>, amounts: seq<int>)
    requires |ids| == |amounts|
    requires LedgerInv(vs, idx, n)
    requires ApplyClaims(vs, ids, amounts).Ok?
    ensures LedgerInv(ApplyClaims(vs, ids, amounts).value, idx, n)
    ensures TotalAllocated(ApplyClaims(vs, ids, amounts).value, n) == TotalAllocated(vs, n)
    decreases |ids|
  {
    if |ids| > 0 {
      var v := ClaimStep(vs, ids[0], amounts[0]).value;
      ReleaseKeepsInv(vs, idx, n, ids[0], v.releasedAmount);
      assert vs[ids[0] := v] == vs[ids[0] := vs[ids[0]].(releasedAmount := v.releasedAmount)];
      ApplyClaimsKeepsInv(vs[ids[0] := v], idx, n, ids[1..], amounts[1..]);
    }
  }

  // ---------------------------------------------------------------- batch creation

  /** All four vectors of a batch have one entry per recipient. */
  predicate Aligned(b: BatchCreateData)
  {
    |b.amounts| == |b.recipients| && |b.startTimes| == |b.recipients| && |b.endTimes| == |b.recipients|
  }

  /** The vault that item k of a batch describes, before anything is released. */
  function BatchVault(b: BatchCreateData, k: nat, eager: bool): (v: Vault)
    requires k < |b.recipients| && k < |b.amounts| && k < |b.startTimes| && k < |b.endTimes|
    ensures v.releasedAmount == 0 && Bounded(v)
  {
    Vault(b.recipients[k], b.amounts[k], 0, b.startTimes[k], b.endTimes[k], eager)
  }

  /** The ids of a batch, base + 1 .. base + |rs|, that go to recipient `a`, in input order. */
  function IdsOf(a: Addr, rs: seq<Addr>, base: nat): seq<nat>
    decreases |rs|
  {
    if |rs| == 0 then []
    else IdsOf(a, rs[..|rs| - 1], base) + (if rs[|rs| - 1] == a then [base + |rs|] else [])
  }

  /**
   * Table `vs` and index `idx` are `vaults` and `index` with a batch stored after id `base`:
   * the new ids base + 1 .. in input order, every earlier vault untouched, item k stored
   * under the k-th new id, and (eager only) each new id appended to its recipient's
   * vector; the lazy variant leaves every vector as it was.
   */
  ghost predicate BatchCommitted(vaults: map<nat, Vault>, index: map<Addr, seq<nat>>, base: nat, batch: BatchCreateData,
                                 eager: bool, vs: map<nat, Vault>, idx: map<Addr, seq<nat>>, ids: seq<nat>)
  {
    && Aligned(batch)
    && |ids| == |batch.recipients|
    && (forall k :: 0 <= k < |ids| ==> ids[k] == base + k + 1)
    && (forall id :: id in vaults ==> id in vs && vs[id] == vaults[id])
    && (forall k :: 0 <= k < |batch.recipients| ==> base + k + 1 in vs && vs[base + k + 1] == BatchVault(batch, k, eager))
    && (eager ==> forall a :: Lookup(idx, a) == Lookup(index, a) + IdsOf(a, batch.recipients, base))
    && (!eager ==> idx == index)
  }

  /**
   * A whole batch stored under ids base + 1 .. base + n (and, when eager, appended to the
   * recipients' vectors) keeps the invariant: the new ids come after every id already
   * indexed, and each is listed under exactly its own recipient.
   */
  lemma BatchKeepsInv(vaults: map<nat, Vault>, index: map<Addr, seq<nat>>, base: nat, batch: BatchCreateData,
                      eager: bool, vs: map<nat, Vault>, idx: map<Addr, seq<nat>>)
    requires Aligned(batch) && LedgerInv(vaults, index, base)
    requires forall id :: id in vs <==> id in vaults || base < id <= base + |batch.recipients|
    requires forall id :: id in vaults ==> vs[id] == vaults[id]
    requires forall k :: 0 <= k < |batch.recipients| ==> vs[base + k + 1] == BatchVault(batch, k, eager)
    requires eager ==> forall a :: Lookup(idx, a) == Lookup(index, a) + IdsOf(a, batch.recipients, base)
    requires !eager ==> idx == index
    ensures LedgerInv(vs, idx, base + |batch.recipients|)
    ensures TotalAllocated(vs, base + |batch.recipients|) == TotalAllocated(vaults, base) + Sum(batch.amounts)
  {
    var rs := batch.recipients;
    TotalAllocatedBatch(vaults, base, batch, eager, vs, |rs|);
    assert batch.amounts[..|rs|] == batch.amounts;
    forall id | id in vs
      ensures Bounded(vs[id]) && (id !in vaults ==> vs[id] == BatchVault(batch, id - base - 1, eager))
    {
      if id !in vaults {
        assert vs[base + (id - base - 1) + 1] == BatchVault(batch, id - base - 1, eager);
      }
    }
    forall a, k | a in index && 0 <= k < |index[a]|
      ensures index[a][k] <= base
    {
    }
    if eager {
      BatchIndexSound(vaults, index, base, batch, vs, idx);
      BatchIndexNoDup(index, base, batch, idx);
      BatchIndexComplete(vaults, index, base, batch, vs, idx);
    } else {
      forall id | id in vs && vs[id].isInitialized
        ensures id in vaults && id in Lookup(idx, vs[id].owner)
      {
      }
    }
  }

  /** Eager batch, first part of the invariant: each appended id names its recipient's vault. */
  lemma BatchIndexSound(vaults: map<nat, Vault>, index: map<Addr, seq<nat>>, base: nat, batch: BatchCreateData,
                        vs: map<nat, Vault>, idx: map<Addr, seq<nat>>)
    requires Aligned(batch) && IndexSound(vaults, index)
    requires forall id :: id in vaults ==> id in vs && vs[id] == vaults[id]
    requires forall k :: 0 <= k < |batch.recipients| ==>
      base + k + 1 in vs && vs[base + k + 1] == BatchVault(batch, k, true)
    requires forall a :: Lookup(idx, a) == Lookup(index, a) + IdsOf(a, batch.recipients, base)
    ensures IndexSound(vs, idx)
  {
    var rs := batch.recipients;
    forall a, k | a in idx && 0 <= k < |idx[a]|
      ensures idx[a][k] in vs && vs[idx[a][k]].owner == a && vs[idx[a][k]].isInitialized
    {
      var prev := Lookup(index, a);
      assert idx[a] == prev + IdsOf(a, rs, base);
      if k < |prev| {
        assert idx[a][k] == index[a][k];
      } else {
        var id := idx[a][k];
        assert id in IdsOf(a, rs, base);
        IdsOfSpec(a, rs, base);
        var j: nat := id - base - 1;
        assert j < |rs| && rs[j] == a;
        var v := BatchVault(batch, j, true);
        assert base + j + 1 in vs && vs[base + j + 1] == v;
      }
    }
  }

  /** Eager batch, second part: the appended ids are fresh and distinct, so no vector repeats one. */
  lemma BatchIndexNoDup(index: map<Addr, seq<nat>>, base: nat, batch: BatchCreateData, idx: map<Addr, seq<nat>>)
    requires IndexNoDup(index)
    requires forall a, k :: a in index && 0 <= k < |index[a]| ==> index[a][k] <= base
    requires forall a :: Lookup(idx, a) == Lookup(index, a) + IdsOf(a, batch.recipients, base)
    ensures IndexNoDup(idx)
  {
    var rs := batch.recipients;
    forall a, i, j | a in idx && 0 <= i < j < |idx[a]|
      ensures idx[a][i] != idx[a][j]
    {
      var prev := Lookup(index, a);
      var added := IdsOf(a, rs, base);
      assert idx[a] == prev + added;
      IdsOfSpec(a, rs, base);
      if j < |prev| {
        assert idx[a][i] == index[a][i] && idx[a][j] == index[a][j];
      } else if i < |prev| {
        assert idx[a][i] == index[a][i] <= base;
        assert idx[a][j] == added[j - |prev|] && added[j - |prev|] in added;
      } else {
        assert idx[a][i] == added[i - |prev|] && idx[a][j] == added[j - |prev|];
      }
    }
  }

  /** Eager batch, third part: every initialised vault, old or new, is listed under its owner. */
  lemma BatchIndexComplete(vaults: map<nat, Vault>, index: map<Addr, seq<nat>>, base: nat, batch: BatchCreateData,
                           vs: map<nat, Vault>, idx: map<Addr, seq<nat>>)
    requires Aligned(batch) && IndexComplete(vaults, index)
    requires forall id :: id in vs <==> id in vaults || base < id <= base + |batch.recipients|
    requires forall id :: id in vaults ==> vs[id] == vaults[id]
    requires forall k :: 0 <= k < |batch.recipients| ==> vs[base + k + 1] == BatchVault(batch, k, true)
    requires forall a :: Lookup(idx, a) == Lookup(index, a) + IdsOf(a, batch.recipients, base)
    ensures IndexComplete(vs, idx)
  {
    var rs := batch.recipients;
    forall id | id in vs && vs[id].isInitialized
      ensures id in Lookup(idx, vs[id].owner)
    {
      var o := vs[id].owner;
      assert Lookup(idx, o) == Lookup(index, o) + IdsOf(o, rs, base);
      if id in vaults {
        assert id in Lookup(index, o);
      } else {
        assert vs[base + (id - base - 1) + 1] == BatchVault(batch, id - base - 1, true);
        IdsOfSpec(o, rs, base);
      }
    }
  }

  /** The first m items of a batch stored after id `base` add exactly their amounts to the funding total. */
  lemma {:induction false} TotalAllocatedBatch(vaults: map<nat, Vault>, base: nat, batch: BatchCreateData,
                                               eager: bool, vs: map<nat, Vault>, m: nat)
    requires Aligned(batch) && m <= |batch.recipients|
    requires forall id :: id in vaults ==> id <= base
    requires forall id :: id in vs <==> id in vaults || base < id <= base + |batch.recipients|
    requires forall id :: id in vaults ==> vs[id] == vaults[id]
    requires forall k :: 0 <= k < |batch.recipients| ==> vs[base + k + 1] == BatchVault(batch, k, eager)
    ensures TotalAllocated(vs, base + m) == TotalAllocated(vaults, base) + Sum(batch.amounts[..m])
  {
    if m == 0 {
      TotalAllocatedFrame(vs, vaults, base);
    } else {
      TotalAllocatedBatch(vaults, base, batch, eager, vs, m - 1);
      assert batch.amounts[..m][..m - 1] == batch.amounts[..m - 1];
      assert vs[base + (m - 1) + 1] == BatchVault(batch, m - 1, eager);
    }
  }

  /** One more batch item appended under its recipient extends every owner's share of ids. */
  lemma {:induction false} IdsOfPush(idx: map<Addr, seq<nat>>, idx0: map<Addr, seq<nat>>, rs: seq<Addr>, i: nat, base: nat)
    requires i < |rs|
    requires forall a :: Lookup(idx, a) == Lookup(idx0, a) + IdsOf(a, rs[..i], base)
    ensures forall a :: Lookup(Push(idx, rs[i], base + i + 1), a) == Lookup(idx0, a) + IdsOf(a, rs[..i + 1], base)
  {
    forall a
      ensures Lookup(Push(idx, rs[i], base + i + 1), a) == Lookup(idx0, a) + IdsOf(a, rs[..i + 1], base)
    {
      PushAt(Lookup(idx, a), Lookup(idx0, a), IdsOf(a, rs[..i], base), Push(idx, rs[i], base + i + 1), idx, a, rs, i, base);
    }
  }

  /** IdsOfPush for one owner `a`, with its vectors before and after named. */
  lemma PushAt(cur: seq<nat>, before: seq<nat>, added: seq<nat>, pushed: map<Addr, seq<nat>>,
               idx: map<Addr, seq<nat>>, a: Addr, rs: seq<Addr>, i: nat, base: nat)
    requires i < |rs| && pushed == Push(idx, rs[i], base + i + 1)
    requires cur == Lookup(idx, a) && cur == before + added && added == IdsOf(a, rs[..i], base)
    ensures Lookup(pushed, a) == before + IdsOf(a, rs[..i + 1], base)
  {
    IdsOfSnoc(a, rs, i, base);
    if a == rs[i] {
      assert (before + added) + [base + i + 1] == before + (added + [base + i + 1]);
    } else {
      assert added + [] == added;
    }
  }

  /** Taking one more recipient adds its id exactly when it is `a`. */
  lemma IdsOfSnoc(a: Addr, rs: seq<Addr>, i: nat, base: nat)
    requires i < |rs|
    ensures IdsOf(a, rs[..i + 1], base) == IdsOf(a, rs[..i], base) + (if rs[i] == a then [base + i + 1] else [])
  {
    var p := rs[..i + 1];
    assert p[..|p| - 1] == rs[..i];
  }

  /**
   * The ids a batch appends to `a`'s vector are exactly those whose recipient is `a`,
   * in increasing order.
   */
  lemma {:induction false} IdsOfSpec(a: Addr, rs: seq<Addr>, base: nat)
    ensures forall x :: x in IdsOf(a, rs, base) <==> base < x <= base + |rs| && rs[x - base - 1] == a
    ensures forall i, j :: 0 <= i < j < |IdsOf(a, rs, base)| ==> IdsOf(a, rs, base)[i] < IdsOf(a, rs, base)[j]
    decreases |rs|
  {
    if |rs| > 0 {
      var init := rs[..|rs| - 1];
      IdsOfSpec(a, init, base);
      var prev := IdsOf(a, init, base);
      forall i | 0 <= i < |prev|
        ensures base < prev[i] <= base + |init| && rs[prev[i] - base - 1] == init[prev[i] - base - 1]
      {
        assert prev[i] in prev;
      }
    }
  }
}
