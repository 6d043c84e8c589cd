/** Data model of the token-vesting ledger: addresses, vaults, batch inputs and errors. */
module VestingTypes {

  /** An account identity. The host hands these out; the ledger only compares them. */
  datatype Addr = Addr(key: nat)

  datatype Option<T> = None | Some(value: T)

  /** Every way a call can abort. Each one means "nothing happened". */
  datatype Error =
    | Unauthorized              // caller is not the admin / not the proposed admin
    | NoProposal                // accept_ownership with no pending proposal
    | NotFound                  // no vault under the id
    | NotInitialized            // vault exists but has not been materialised
    | InvalidAmount             // claim amount <= 0
    | InsufficientBalance       // admin balance below the requested funding
    | InsufficientVaultBalance  // claim exceeds total - released
    | LengthMismatch            // parallel input vectors of different lengths
    | EmptyBatch                // claim_all with no items

  datatype Result<T> = Ok(value: T) | Err(error: Error)

  /** Result of an operation that returns nothing on success. */
  datatype Outcome = Pass | Fail(error: Error)

  /**
   * One beneficiary allocation. Amounts are the source's signed 128-bit integers, taken
   * unbounded; the two timestamps are stored but never consulted by any operation.
   */
  datatype Vault = Vault(
    owner: Addr,
    totalAmount: int,
    releasedAmount: int,
    startTime: nat,
    endTime: nat,
    isInitialized: bool)

  /** Parallel vectors describing one batch of vaults to create, item i from index i of each. */
  datatype BatchCreateData = BatchCreateData(
    recipients: seq<Addr>,
    amounts: seq<int>,
    startTimes: seq<nat>,
    endTimes: seq<nat>)
}
