/**
 * Proof-of-existence claim registry.
 *
 * The registry keeps one storage map, `Proofs`, from an opaque byte-string
 * claim to the account that owns it and the block number at which it was
 * last written. Three dispatchable calls change that map: `create_claim`,
 * `revoke_claim` and `transfer_claim`. Each call runs its checks in a fixed
 * order, the first failing check decides the error, and a failed call
 * changes neither the map nor the event log.
 *
 * The module has two layers:
 *  - pure transition functions `Create`, `Revoke` and `Transfer` on a
 *    `State` value, whose contracts state what each call promises;
 *  - the class `Registry`, whose fields the calls update in place, with
 *    one method per dispatchable, each proved to perform exactly the
 *    transition its function describes.
 */
module Poe {

  /** An account of the host chain; the registry only compares accounts. */
  type AccountId = nat

  /** A block number, supplied by the host at call time. */
  type BlockNumber = nat

  /** A claim: an opaque byte string (typically a hash). */
  type Claim = seq<bv8>

  /** The value stored under a claim: its owner and the block it was last written at. */
  datatype Record = Record(owner: AccountId, block: BlockNumber)

  /** The registry's events; `transfer_claim` emits none. */
  datatype Event =
    | ClaimCreated(who: AccountId, claim: Claim)
    | ClaimReviked(who: AccountId, claim: Claim)

  /** The registry's errors, with the source's own spellings. */
  datatype Error =
    | ProofAlreadyExists
    | ClaimNotExist
    | NotClaimOwner
    | ProofHashLenghtOverFlow

  /** What a dispatchable call returns. */
  datatype Outcome = Ok | Err(error: Error)

  /** The observable state: the `Proofs` map and the events deposited so far. */
  datatype State = State(proofs: map<Claim, Record>, events: seq<Event>)

  /** A call's result: the state afterwards and what the call returned. */
  datatype Step = Step(state: State, outcome: Outcome)

  /** Every stored claim respects the configured length limit. */
  ghost predicate KeysBounded(proofs: map<Claim, Record>, limit: nat)
  {
    forall k :: k in proofs ==> |k| <= limit
  }

  /** `m` and `m'` hold the same keys with the same values, except possibly at `key`. */
  ghost predicate AgreeExcept(m: map<Claim, Record>, m': map<Claim, Record>, key: Claim)
  {
    (forall k :: k != key ==> (k in m <==> k in m')) &&
    (forall k :: k != key && k in m && k in m' ==> m[k] == m'[k])
  }

  /** `sender` is the recorded owner of `claim`. */
  predicate OwnedBy(proofs: map<Claim, Record>, claim: Claim, sender: AccountId)
  {
    claim in proofs && proofs[claim].owner == sender
  }

  /**
   * `create_claim`: reject a claim longer than `limit`, then reject a claim
   * that is already stored; otherwise store `(sender, now)` under it and
   * deposit `ClaimCreated(sender, claim)`.
   */
  function Create(s: State, limit: nat, sender: AccountId, claim: Claim, now: BlockNumber): (r: Step)
    ensures r.outcome == Ok <==> |claim| <= limit && claim !in s.proofs
    ensures r.outcome == Err(ProofHashLenghtOverFlow) <==> |claim| > limit
    ensures r.outcome == Err(ProofAlreadyExists) <==> |claim| <= limit && claim in s.proofs
    ensures r.outcome.Err? ==> r.state == s
    ensures r.outcome.Ok? ==>
      && claim in r.state.proofs
      && r.state.proofs[claim] == Record(sender, now)
      && AgreeExcept(s.proofs, r.state.proofs, claim)
      && r.state.events == s.events + [ClaimCreated(sender, claim)]
    ensures KeysBounded(s.proofs, limit) ==> KeysBounded(r.state.proofs, limit)
  {
    if |claim| > limit then Step(s, Err(ProofHashLenghtOverFlow))
    else if claim in s.proofs then Step(s, Err(ProofAlreadyExists))
    else
      Step(State(s.proofs[claim := Record(sender, now)],
                 s.events + [ClaimCreated(sender, claim)]), Ok)
  }

  /**
   * `revoke_claim`: reject a claim that is not stored, then reject a sender
   * who does not own it; otherwise remove it and deposit
   * `ClaimReviked(sender, claim)`.
   */
  function Revoke(s: State, sender: AccountId, claim: Claim): (r: Step)
    ensures r.outcome == Ok <==> OwnedBy(s.proofs, claim, sender)
    ensures r.outcome == Err(ClaimNotExist) <==> claim !in s.proofs
    ensures r.outcome == Err(NotClaimOwner) <==> claim in s.proofs && s.proofs[claim].owner != sender
    ensures r.outcome.Err? ==> r.state == s
    ensures r.outcome.Ok? ==>
      && claim !in r.state.proofs
      && AgreeExcept(s.proofs, r.state.proofs, claim)
      && r.state.events == s.events + [ClaimReviked(sender, claim)]
    ensures r.state.proofs.Keys <= s.proofs.Keys
  {
    if claim !in s.proofs then Step(s, Err(ClaimNotExist))
    else if s.proofs[claim].owner != sender then Step(s, Err(NotClaimOwner))
    else
      Step(State(s.proofs - {claim}, s.events + [ClaimReviked(sender, claim)]), Ok)
  }

  /**
   * `transfer_claim`: the same two checks as `revoke_claim`; then overwrite
   * the record with `(dest, now)`. No event is deposited.
   */
  function Transfer(s: State, sender: AccountId, claim: Claim, dest: AccountId, now: BlockNumber): (r: Step)
    ensures r.outcome == Ok <==> OwnedBy(s.proofs, claim, sender)
    ensures r.outcome == Err(ClaimNotExist) <==> claim !in s.proofs
    ensures r.outcome == Err(NotClaimOwner) <==> claim in s.proofs && s.proofs[claim].owner != sender
    ensures r.outcome.Err? ==> r.state == s
    ensures r.outcome.Ok? ==>
      && claim in r.state.proofs
      && r.state.proofs[claim] == Record(dest, now)
      && AgreeExcept(s.proofs, r.state.proofs, claim)
    ensures r.state.proofs.Keys == s.proofs.Keys
    ensures r.state.events == s.events
  {
    if claim !in s.proofs then Step(s, Err(ClaimNotExist))
    else if s.proofs[claim].owner != sender then Step(s, Err(NotClaimOwner))
    else Step(State(s.proofs[claim := Record(dest, now)], s.events), Ok)
  }

  /**
   * The pallet's storage and event log. `limit` is the configured
   * `ProofHashKeyLimit`; the caller (already authenticated by the host) and
   * the current block number are passed to each call.
   */
  class Registry {
    var proofs: map<Claim, Record>
    var events: seq<Event>
    const limit: nat

    /** The registry's current state as a value. */
    function Snapshot(): State
      reads this
    {
      State(proofs, events)
    }

    /** The invariant the three calls preserve: every stored claim fits the limit. */
    ghost predicate Valid()
      reads this
    {
      KeysBounded(proofs, limit)
    }

    /** An empty registry (the genesis state). */
    constructor (limit: nat)
      ensures this.limit == limit
      ensures proofs == map[] && events == []
      ensures Valid()
    {
      this.limit := limit;
      proofs := map[];
      events := [];
    }

    method CreateClaim(sender: AccountId, claim: Claim, now: BlockNumber) returns (r: Outcome)
      modifies this
      ensures Step(Snapshot(), r) == Create(old(Snapshot()), limit, sender, claim, now)
      ensures old(Valid()) ==> Valid()
    {
      if |claim| > limit {
        return Err(ProofHashLenghtOverFlow);
      }
      if claim in proofs {
        return Err(ProofAlreadyExists);
      }
      proofs := proofs[claim := Record(sender, now)];
      events := events + [ClaimCreated(sender, claim)];
      return Ok;
    }

    method RevokeClaim(sender: AccountId, claim: Claim) returns (r: Outcome)
      modifies this
      ensures Step(Snapshot(), r) == Revoke(old(Snapshot()), sender, claim)
      ensures old(Valid()) ==> Valid()
    {
      if claim !in proofs {
        return Err(ClaimNotExist);
      }
      var owner := proofs[claim].owner;
      if sender != owner {
        return Err(NotClaimOwner);
      }
      proofs := proofs - {claim};
      events := events + [ClaimReviked(sender, claim)];
      return Ok;
    }

    method TransferClaim(sender: AccountId, claim: Claim, dest: AccountId, now: BlockNumber) returns (r: Outcome)
      modifies this
      ensures Step(Snapshot(), r) == Transfer(old(Snapshot()), sender, claim, dest, now)
      ensures old(Valid()) ==> Valid()
    {
      if claim !in proofs {
        return Err(ClaimNotExist);
      }
      var owner := proofs[claim].owner;
      if owner != sender {
        return Err(NotClaimOwner);
      }
      proofs := proofs[claim := Record(dest, now)];
      return Ok;
    }
  }
}
