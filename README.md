# Proof-of-existence claim registry (`pallets/poe`)

A Dafny model of the proof-of-existence pallet. The pallet keeps one storage
map, `Proofs`, from an opaque byte-string claim to `(owner, block number)`.
Three dispatchable calls change it:

- `create_claim` rejects a claim longer than `ProofHashKeyLimit`
  (`ProofHashLenghtOverFlow`), then rejects a claim that is already stored
  (`ProofAlreadyExists`). Otherwise it stores `(sender, current block)` and
  deposits `ClaimCreated(sender, claim)`.
- `revoke_claim` rejects a claim that is not stored (`ClaimNotExist`), then
  rejects a sender who is not its owner (`NotClaimOwner`). Otherwise it
  removes the claim and deposits `ClaimReviked(sender, claim)`.
- `transfer_claim` makes the same two checks as `revoke_claim`, then
  overwrites the record with `(dest, current block)`. It deposits no event.

A failed call changes neither the map nor the event log.

Layout:

- `poe.dfy`, module `Poe`: the types (`Record`, `Event`, `Error`, `Outcome`,
  `State`), the pure transition functions `Create`, `Revoke` and `Transfer`,
  and the class `Registry`. The class has the fields `proofs` and `events`,
  which its methods update in place, and the constant `limit`. Each method
  follows the source's guard-then-mutate code and is proved to perform exactly
  the transition its function describes. Each method also keeps the invariant
  `Valid()`: every stored claim is at most `limit` bytes long.
- `poe_runs.dfy`, module `PoeRuns`: `Run` applies a sequence of calls in order,
  as the host does. Inductive lemmas state what holds after any sequence of
  calls. The test scenarios of `pallets/poe/src/tests.rs` are stated as
  lemmas over all inputs.

The host's collaborators are parameters. The sender is an already
authenticated `AccountId`. The current block number is `now`.
`ProofHashKeyLimit` is the registry's `limit`. Accounts and block numbers are
modelled as `nat`, and claims as `seq<bv8>`.

Error and event names keep the source's spellings (`ProofHashLenghtOverFlow`,
`ClaimReviked`). `transfer_claim` deposits no event.

## Model

| member | source | states |
|---|---|---|
| Poe.Create | pallets/poe/src/lib.rs:80-99 | Succeeds iff the claim is at most `limit` bytes long and not stored. A longer claim gives `ProofHashLenghtOverFlow` even if it is stored, since the length check runs first. A stored claim within the limit gives `ProofAlreadyExists`. On failure the state is unchanged. On success the claim maps to `(sender, now)`, every other key and value is unchanged, and exactly `ClaimCreated(sender, claim)` is appended. The length bound on stored keys is preserved. |
| Poe.Revoke | pallets/poe/src/lib.rs:103-119 | Succeeds iff the claim is stored and owned by the sender. An absent claim gives `ClaimNotExist`. A claim owned by someone else gives `NotClaimOwner`. On failure the state is unchanged. On success the claim is gone, every other entry is unchanged, and exactly `ClaimReviked(sender, claim)` is appended. No key is ever added. |
| Poe.Transfer | pallets/poe/src/lib.rs:122-136 | Succeeds iff the claim is stored and owned by the sender. The errors are `ClaimNotExist` and then `NotClaimOwner`, in that order. On failure the state is unchanged. On success the claim maps to `(dest, now)`, so the block number is overwritten, and every other entry is unchanged. The key set and the event log never change. |
| Poe.Registry.constructor | pallets/poe/src/lib.rs:40-41 | A new registry has an empty `Proofs` map and no events, and satisfies the key-length invariant. |
| Poe.Registry.CreateClaim | pallets/poe/src/lib.rs:80-99 | Updates `proofs` and `events` in place to exactly the state `Create` gives, returns its outcome, and preserves `Valid()`. |
| Poe.Registry.RevokeClaim | pallets/poe/src/lib.rs:103-119 | Updates `proofs` and `events` in place to exactly the state `Revoke` gives, returns its outcome, and preserves `Valid()`. |
| Poe.Registry.TransferClaim | pallets/poe/src/lib.rs:122-136 | Updates `proofs` in place to exactly the state `Transfer` gives, returns its outcome, and preserves `Valid()`. |
| PoeRuns.RunKeepsKeysBounded | pallets/poe/src/lib.rs:87-93 | After any sequence of calls, every stored claim is still at most `limit` bytes long. Only `create_claim` adds keys, and it checks the length first. |
| PoeRuns.RunExtendsEvents | pallets/poe/src/lib.rs:96-116 | The event log is append-only: the log before any sequence of calls is a prefix of the log after it. |
| PoeRuns.RunRecordsCreated | pallets/poe/src/lib.rs:93-96 | A claim stored after a sequence of calls was either stored before it, or a `ClaimCreated` event for it was deposited during it. |
| PoeRuns.RunBlocksBounded | pallets/poe/src/lib.rs:91-93 | Starting from a state whose records all have block numbers at most `bound`, if the clock supplied to every call is at most `bound`, then no record's block number ever exceeds `bound`. The same holds for the transfer at lib.rs:133. |
| PoeRuns.RunOthersCannotTouch | pallets/poe/src/lib.rs:109-133 | Single-writer ownership: if the owner of a record sends none of a sequence of calls, the record survives the sequence with the same owner and block number. |
| PoeRuns.CreateTwiceFails | pallets/poe/src/tests.rs:18-29 | After a first create of a claim within the limit, whatever its outcome, the claim is stored; if it was new, it maps to `(first, t1)`. A second create of the same claim, by any sender, fails with `ProofAlreadyExists` and changes nothing. |
| PoeRuns.CreateRevokeRoundTrip | pallets/poe/src/tests.rs:31-39 | A create followed by a revoke from the same sender succeeds and restores the stored proofs exactly. It appends `ClaimCreated` and then `ClaimReviked`. |
| PoeRuns.TransferHandsOver | pallets/poe/src/tests.rs:65-106 | After a transfer to another account, the claim maps to `(dest, now)`. The old owner's revoke and transfer both fail with `NotClaimOwner` and change nothing, while the new owner's revoke succeeds. |

## Left out

- Caller authentication (`ensure_signed`) and its `BadOrigin` failure. The sender is an already authenticated parameter.
- The FRAME scaffolding carries no behaviour and is not modelled. This covers the pallet attributes, the `Config` trait wiring, the empty `Hooks` impl, the call weights and the post-dispatch info of `DispatchResultWithPostInfo`.
- The storage encoding is not modelled: the `Blake2_128Concat` hasher and SCALE encoding. `Proofs` is an abstract Dafny `map`.
- `frame_system::Pallet::<T>::block_number()` and `T::ProofHashKeyLimit::get()` are host calls. They are replaced by the parameter `now` and the constant `limit`.
- The `as u64` cast of the claim length is treated as lossless, since lengths are unbounded `nat`s in the model.
- The runtime's event system is not modelled: `deposit_event` is an append to the `events` sequence.
- `mock.rs` and `benchmarking.rs` are not part of this model. They are the test runtime and the benchmark harness.
- The widths of `AccountId` and `BlockNumber` (u64 in the test runtime) are not modelled. Both are unbounded `nat`s, and the model never does arithmetic on them.
