# Token-vesting ledger

A model of the Soroban vesting contract `VestingContract`. The contract holds an initial supply. An admin moves funds out of the admin balance into vaults, one per beneficiary. Claims draw on a vault until nothing is locked in it. Claims are unauthenticated: `claim_tokens` and `claim_all` take no caller and check none, so anyone may claim from any vault, and the model keeps that (no caller parameter).

- A vault is either created *eagerly* (initialised and listed under its owner at once) or *lazily* (stored uninitialised and unlisted). A lazy vault is materialised on first read: it is flipped to initialised and appended to its owner's index vector.
- Admin authority passes in two steps: the admin proposes a successor, and the successor accepts.
- `claim_all` and the two batch creators either complete or leave the ledger as it was.

Layout:

- `types.dfy` (module `VestingTypes`): addresses, vaults, batch inputs, errors, `Result`/`Outcome`.
- `accounting.dfy` (module `Accounting`): value-level specification.
  - Aggregate sums: `TotalAllocated`, `Locked`, `Claimed`.
  - The ledger invariant `LedgerInv` and the conservation identity `LedgerOk`.
  - The per-item claim rule `ClaimStep` and the in-order fold `ApplyClaims`.
  - Batch helpers.
  - The lemmas that every operation keeps the invariant.
- `contract.dfy` (module `Vesting`): the class `VestingContract`. Its fields are the contract's persistent slots; each public entry point is a method proved against the `Accounting` definitions.
- `as_written.dfy` (module `AsWritten`): three places where the code differs from its evident intent, modelled as written (see Findings).
- `scenarios.dfy` (module `Scenarios`): the repository's test scenarios, replayed as methods whose postconditions state what each test asserts.

Modelling choices:

- The host's `env.current_contract_address()`, which the contract uses as the caller identity, becomes an explicit `caller` parameter.
- Every panic becomes an `Err`/`Fail` value, and the method's contract says the state is unchanged after it. This models the host rolling back the whole call.
- `claim_all` folds over a working copy of the vault table and commits only at the end. Each item therefore sees the earlier items of the same batch, as the source's storage re-reads do.
- `create_vault_full`/`create_vault_lazy` are one method, `CreateVault`, with an `eager` flag. So are `batch_create_vaults_full`/`_lazy`, modelled as `BatchCreateVaults`.
- Amounts are unbounded integers.

Invariant kept by every method (`VestingContract.Valid`):

- vault ids are exactly `1..vaultCount`;
- every vault satisfies the release bound `Bounded`;
- every owner's index vector lists exactly that owner's initialised vaults, each once;
- `adminBalance + Σ totalAmount == initialSupply`.

## Model

| member | source | states |
|---|---|---|
| Vesting.VestingContract.constructor | contracts/vesting_contracts/src/lib.rs:38-43 | `initialize`: the whole supply is in the admin balance, there are no vaults and no proposal, and the invariant holds |
| Vesting.VestingContract.RequireAdmin | contracts/vesting_contracts/src/lib.rs:45-52 | passes exactly when the caller is the admin, otherwise fails with Unauthorized |
| Vesting.VestingContract.ProposeNewAdmin | contracts/vesting_contracts/src/lib.rs:54-57 | only the admin may propose; a proposal overwrites any earlier one; a stranger gets Unauthorized and the proposal stays as it was |
| Vesting.VestingContract.AcceptOwnership | contracts/vesting_contracts/src/lib.rs:59-68 | no proposal gives NoProposal, checked before the caller; a caller other than the proposed admin gets Unauthorized; both failures leave the state unchanged; on success the proposed admin becomes admin and the proposal is cleared |
| Vesting.VestingContract.CreateVault | contracts/vesting_contracts/src/lib.rs:79-128 | non-admin gives Unauthorized; amount above the balance gives InsufficientBalance and no change; otherwise the id is vaultCount + 1, the counter advances to it, the balance drops by exactly the amount, the vault is stored with nothing released; the full variant appends the id to the owner's vector and the lazy one indexes nothing; conservation and the invariant are kept |
| Vesting.VestingContract.InitializeVaultMetadata | contracts/vesting_contracts/src/lib.rs:130-154 | on an uninitialised vault: answers true, sets only the flag (totals untouched) and appends the id to the owner's vector once; on an initialised vault: answers false and changes nothing, so a second call is a no-op; absent id gives NotFound (see Findings) |
| Vesting.VestingContract.GetVault | contracts/vesting_contracts/src/lib.rs:284-301 | returns the vault as initialised, materialising it first when it is lazy (same transition as above); an initialised vault is returned with no state change |
| Vesting.VestingContract.GetUserVaults | contracts/vesting_contracts/src/lib.rs:303-323 | the owner's vector (empty when absent); it lists only initialised vaults of that owner, lists every one of them, and no id twice |
| Vesting.VestingContract.ClaimTokens | contracts/vesting_contracts/src/lib.rs:156-173 | errors in the source's order: NotFound, NotInitialized, InvalidAmount, InsufficientVaultBalance, each with no state change; on success returns the amount, only that vault's released amount grows by exactly it, and 0 < released <= total afterwards |
| Vesting.VestingContract.ClaimAll | contracts/vesting_contracts/src/lib.rs:176-213 | unequal lengths give LengthMismatch, an empty batch EmptyBatch; any failing item leaves every vault unchanged and yields that item's error; success happens exactly when the batch is claimable, returns the amounts in input order, and grows each vault's released amount by the sum of its items |
| Vesting.VestingContract.BatchCreateVaults | contracts/vesting_contracts/src/lib.rs:215-282 | non-admin gives Unauthorized, vectors of unequal length LengthMismatch, a sum above the balance InsufficientBalance, each with no change; otherwise the balance drops once by the sum, ids vaultCount+1 .. vaultCount+n are returned in recipient order, the counter ends at vaultCount+n, earlier vaults are untouched, item k is stored under its id; the full variant appends every id to its recipient's vector and the lazy one leaves the index unchanged |
| Vesting.VestingContract.FundBatch | contracts/vesting_contracts/src/lib.rs:227-243 | the debit-and-store half of a batch keeps the invariant (including conservation) and leaves exactly the state described above |
| Vesting.StoreBatch | contracts/vesting_contracts/src/lib.rs:229-243 | storing a batch moves its funding from the balance into the new vaults: a conserving ledger stays conserving with the balance reduced by the sum |
| Vesting.StoreItems | contracts/vesting_contracts/src/lib.rs:261-278 | the store loop: item k becomes vault base+k+1, earlier vaults keep their values, no other id appears, and (eager) each owner's vector is extended by exactly that owner's new ids in order |
| Vesting.SumAmounts | contracts/vesting_contracts/src/lib.rs:219-222 | the summing loop computes the sum of the amounts vector |
| Vesting.VestingContract.GetContractState | contracts/vesting_contracts/src/lib.rs:325-337 | the loop over ids 1..vaultCount yields the locked and claimed sums and the admin balance; under the invariant they add up to the initial supply |
| Vesting.VestingContract.CheckInvariant | contracts/vesting_contracts/src/lib.rs:339-344 | true exactly when admin balance plus the funding of all vaults equals the initial supply; always true under the invariant |
| Accounting.Push | contracts/vesting_contracts/src/lib.rs:98-102 | the read-append-write of an owner's vector appends the id to that owner's vector only and adds the owner as a key |
| Accounting.Lookup | contracts/vesting_contracts/src/lib.rs:98-100 | an owner's index vector, or the empty vector when none is stored; the same read recurs at lib.rs:145-147, 272-274 and 304-306 and is characterised through `Push` and `GetUserVaults` |
| Accounting.LockedPlusClaimed | contracts/vesting_contracts/src/lib.rs:330-342 | locked plus claimed over ids 1..n is exactly the funding of those vaults |
| Accounting.TotalAllocatedFrame | contracts/vesting_contracts/src/lib.rs:144 | the funding total depends only on which ids exist and their total amounts |
| Accounting.TotalAllocatedAppend | contracts/vesting_contracts/src/lib.rs:87-97 | storing a vault under the next id adds exactly its funding to the total |
| Accounting.EmptyLedgerInv | contracts/vesting_contracts/src/lib.rs:38-43 | the empty ledger satisfies the invariant |
| Accounting.AddVaultKeepsInv | contracts/vesting_contracts/src/lib.rs:81-103 | adding a fresh vault under the next id keeps ids sequential and the index sound, duplicate-free and complete, both for an indexed initialised vault and for an unindexed lazy one |
| Accounting.MaterializeKeepsInv | contracts/vesting_contracts/src/lib.rs:141-150 | materialising a lazy vault keeps the invariant and in particular never lists an id twice |
| Accounting.ReleaseKeepsInv | contracts/vesting_contracts/src/lib.rs:170-171 | changing one vault's released amount within the bound keeps the invariant and the funding total |
| Accounting.ClaimStep | contracts/vesting_contracts/src/lib.rs:190-207 | a successful claim names an existing vault with a positive amount, stores it with released grown by the amount, and keeps 0 < released <= total |
| Accounting.ApplyClaims | contracts/vesting_contracts/src/lib.rs:186-210 | the `claim_all` loop as a fold: items in input order, each checked against the table as the earlier items left it, stopping at the first error; characterised by `ApplyClaimsOkIff` (success iff the batch is claimable) and `ApplyClaimsEffect` (each released amount grows by its items' sum) |
| Accounting.ClaimedForNonNeg | contracts/vesting_contracts/src/lib.rs:199-201 | with every amount positive, what a batch asks of any vault is non-negative |
| Accounting.ClaimedForAbsent | contracts/vesting_contracts/src/lib.rs:186-188 | a vault the batch does not name is asked for nothing |
| Accounting.BatchClaimableStep | contracts/vesting_contracts/src/lib.rs:186-210 | after a successful first item, the rest of the batch is claimable from the updated table exactly when the whole batch was claimable from the original one |
| Accounting.ApplyClaimsOkIff | contracts/vesting_contracts/src/lib.rs:186-210 | the in-order fold succeeds exactly when every item names an existing initialised vault with a positive amount and each vault's summed items fit what is still locked in it |
| Accounting.ApplyClaimsEffect | contracts/vesting_contracts/src/lib.rs:207-208 | a successful fold keeps the set of ids and grows each vault's released amount by exactly the sum of its items, nothing else |
| Accounting.ApplyClaimsKeepsInv | contracts/vesting_contracts/src/lib.rs:176-213 | a successful fold keeps the invariant and the funding total |
| Accounting.BatchVault | contracts/vesting_contracts/src/lib.rs:231-238 | a batch item becomes a vault with nothing released, within the bound |
| Accounting.BatchKeepsInv | contracts/vesting_contracts/src/lib.rs:215-282 | a stored batch keeps the invariant and raises the funding total by exactly the sum of its amounts |
| Accounting.BatchIndexSound | contracts/vesting_contracts/src/lib.rs:272-276 | after an eager batch every indexed id names an initialised vault of that owner |
| Accounting.BatchIndexNoDup | contracts/vesting_contracts/src/lib.rs:272-276 | after an eager batch no owner's vector lists an id twice |
| Accounting.BatchIndexComplete | contracts/vesting_contracts/src/lib.rs:272-276 | after an eager batch every initialised vault is listed under its owner |
| Accounting.TotalAllocatedBatch | contracts/vesting_contracts/src/lib.rs:229-241 | the first m items of a stored batch add exactly the sum of the first m amounts to the funding total |
| Accounting.IdsOfPush | contracts/vesting_contracts/src/lib.rs:272-276 | appending one more batch item under its recipient extends every owner's vector by exactly that owner's ids so far |
| Accounting.PushAt | contracts/vesting_contracts/src/lib.rs:272-276 | the same step for a single owner |
| Accounting.IdsOfSnoc | contracts/vesting_contracts/src/lib.rs:261-262 | one more recipient adds its id to an owner's share exactly when it is that owner |
| Accounting.IdsOfSpec | contracts/vesting_contracts/src/lib.rs:261-277 | the ids a batch appends to an owner are exactly those whose recipient is that owner, in increasing order |
| AsWritten.SlotLocked | contracts/vesting_contracts/src/lib.rs:331-332 | what one read of the bare slot adds to the locked total, nothing when the slot is empty; characterised by `ContractStateAsWritten` |
| AsWritten.SlotClaimed | contracts/vesting_contracts/src/lib.rs:331-333 | what one read of the bare slot adds to the claimed total, nothing when the slot is empty; characterised by `ContractStateAsWritten` |
| AsWritten.ContractStateAsWritten | contracts/vesting_contracts/src/lib.rs:325-337 | as written, the totals are vaultCount times the one bare slot's contribution, and zero when that slot is empty |
| AsWritten.CheckInvariantAsWritten | contracts/vesting_contracts/src/lib.rs:339-344 | as written, with the slot empty the check only compares the admin balance with the initial supply |
| AsWritten.SingleSlotCheckFails | contracts/vesting_contracts/src/lib.rs:330-334 | a conserving two-vault ledger fails the as-written check with the slot empty (the only value any operation leaves there) or holding either of the two vaults |
| AsWritten.BatchAsWritten | contracts/vesting_contracts/src/lib.rs:215-245 | as written, the batch succeeds exactly when the sum fits and no vector is shorter than the recipients, and debits the sum of all amounts |
| AsWritten.SumSplit | contracts/vesting_contracts/src/lib.rs:220-222 | a sum splits at any point into the sums of its two pieces |
| AsWritten.StoreAsWritten | contracts/vesting_contracts/src/lib.rs:229-241 | the as-written store loop: item i becomes vault base+i+1 from index i of every vector; characterised by `StoreAsWrittenTotal` and `BatchAsWrittenLeak` |
| AsWritten.StoreAsWrittenTotal | contracts/vesting_contracts/src/lib.rs:229-241 | the as-written store loop adds exactly the first n amounts to the funding total |
| AsWritten.BatchAsWrittenLeak | contracts/vesting_contracts/src/lib.rs:219-243 | as written, balance plus funding ends short by exactly the amounts beyond the recipients |
| AsWritten.LongAmountsLeak | contracts/vesting_contracts/src/lib.rs:219-243 | one recipient with two amounts from 1_000_000: 3000 is debited, one vault of 1000 is stored, and 2000 disappears |
| AsWritten.MaterializeAsWritten | contracts/vesting_contracts/src/lib.rs:130-154 | as written, an absent id is stored as an initialised zero vault of the contract address and indexed under it |
| AsWritten.PlaceholderBreaksIndex | contracts/vesting_contracts/src/lib.rs:133-149 | on the empty ledger this stores id 1 beyond the counter; the next lazy vault takes id 1 and leaves the contract address's vector naming another owner's uninitialised vault |
| Scenarios.AdminTransfer | contracts/vesting_contracts/src/test.rs:7-43 | a stranger can neither propose nor accept; after propose and accept the new admin is in place and no proposal remains |
| Scenarios.AdminAccessControl | contracts/vesting_contracts/src/test.rs:46-69 | a stranger's creation is refused; the admin's full and lazy creations get ids 1 and 2 |
| Scenarios.BatchAdminControl | contracts/vesting_contracts/src/test.rs:72-106 | both batch creators refuse a stranger; the admin's lazy batch returns [1, 2] and debits 3000 once; the recipient's vector is empty until a read materialises vault 1 |
| Scenarios.ContractStateAfterOneVault | contracts/vesting_contracts/src/lib.rs:325-344 | after one vault of 1000 the state read is (1000, 0, 999_000) and the invariant check passes |
| Scenarios.ThreeVaults | contracts/vesting_contracts/src/test.rs:117-123 | three eager vaults of 1000, 2000 and 3000 for one owner |
| Scenarios.ClaimAllSuccess | contracts/vesting_contracts/src/test.rs:111-137 | claiming 100, 200 and 300 returns them in order and each vault shows its claim |
| Scenarios.ApplyThreeClaims | contracts/vesting_contracts/src/test.rs:124-126 | the fold of those three claims gives the table with released 100, 200 and 300 |
| Scenarios.ClaimAllRollbackMissing | contracts/vesting_contracts/src/test.rs:140-159 | a batch naming id 999 fails with NotFound and vault 1 still has nothing released |
| Scenarios.PairOfVaults | contracts/vesting_contracts/src/test.rs:168-173 | two eager vaults of 1000 and 500 for one owner |
| Scenarios.ClaimAllRollbackInsufficient | contracts/vesting_contracts/src/test.rs:162-184 | a batch whose second item exceeds its vault fails with InsufficientVaultBalance; neither vault changes |
| Scenarios.ClaimAllMalformed | contracts/vesting_contracts/src/test.rs:187-219 | an empty batch gives EmptyBatch and a batch of one id with two amounts gives LengthMismatch |

## Left out

- Host machinery is not modelled: the environment, instance storage, the contract attributes and the `symbol_short!` keys. The storage slots are the class fields, and absent slots read as the source's defaults (empty vector).
- The host's rollback of a panicking call is not modelled as a mechanism. Every error path instead guarantees an unchanged state, and `claim_all` works on a copy.
- `initialize` is modelled as the constructor only. The source lets anyone call it again, which overwrites the admin address, the initial supply and the admin balance and resets the counter while keeping old vaults, so any caller can make themselves admin. A re-initialised contract is outside this model.
- Because the admin is always set by the constructor, the "Admin not set" panic of `require_admin` and `get_admin` cannot occur here.
- `get_admin` and `get_proposed_admin` (lib.rs:70-77) are not modelled as methods. They are plain reads of the `admin` and `proposed` fields.
- Vesting.VestingContract.GetUserVaults does not replay the materialisation loop over the returned ids (lib.rs:307-321). Under the invariant every listed id is already initialised, so the loop changes nothing.
- The vault start and end times are carried but never consulted, as in the source: no unlock schedule limits claims.
- The fixed widths are not modelled: i128 amounts and u64 ids are unbounded, so overflow panics (counter, sums, `released + amount`) do not exist here.
- Accounting.Bounded states `0 <= released && (released == 0 || released <= total)` rather than `0 <= released <= total`. Creation accepts a negative amount, as the source does, and such a vault has `released = 0 > total` but can never be claimed from.
- Vesting.VestingContract.BatchCreateVaults rejects vectors of unequal length with LengthMismatch after the admin check and before summing. The source has no such check; its behaviour is modelled in `AsWritten.BatchAsWritten`, where a short vector's panic is `None`.
- Vesting.VestingContract.InitializeVaultMetadata and Vesting.VestingContract.GetVault return NotFound for an absent id instead of storing the placeholder vault owned by the contract's address. The placeholder is modelled in `AsWritten.MaterializeAsWritten`.
- Vesting.VestingContract.GetContractState sums the vault stored under each id instead of the single bare slot the source reads. The as-written loop is `AsWritten.ContractStateAsWritten`.

## Findings

| source | as written | input that shows it | evidently intended | confidence | as-written member | corrected member |
|---|---|---|---|---|---|---|
| contracts/vesting_contracts/src/lib.rs:330-334 | every iteration reads the table slot keyed by `VAULT_DATA` alone, never the vault under id `i`; no operation writes that slot | vaults 1000 and 2000 out of 1_000_000 (balance 997_000): the check compares 997_000 (or 999_000, 1_001_000 with the slot filled) against 1_000_000 and answers false on a conserving ledger | sum the vault stored under each id 1..count | high (not executed) | AsWritten.SingleSlotCheckFails | Vesting.VestingContract.CheckInvariant |
| contracts/vesting_contracts/src/lib.rs:219-243 | the whole `amounts` vector is summed and debited but one vault is stored per recipient; lengths are never compared | recipients `[r]`, amounts `[1000, 2000]` from 1_000_000: balance 997_000, one vault of 1000, 2000 lost | reject vectors of unequal length (or debit only what is stored) | high (not executed) | AsWritten.LongAmountsLeak | Vesting.VestingContract.BatchCreateVaults |
| contracts/vesting_contracts/src/lib.rs:130-154 | an absent id reads as a zero vault owned by the contract's address, which is stored as initialised and indexed | on the empty ledger, materialise id 1, then create a lazy vault of 500 for another owner: the contract address's vector lists id 1, now an uninitialised vault of someone else | refuse an absent id | medium (not executed) | AsWritten.PlaceholderBreaksIndex | Vesting.VestingContract.InitializeVaultMetadata |
