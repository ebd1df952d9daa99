/**
 * Sequences of dispatchable calls on the claim registry.
 *
 * The host applies calls one at a time, in order. `Run` folds the
 * transition functions of module `Poe` over such a sequence; the lemmas
 * below state what holds after any sequence of calls: the length bound on
 * stored claims, the append-only event log, the link between stored
 * records and `ClaimCreated` events, timestamps that never run ahead of the
 * clock, and single-writer ownership. The last lemmas are the scenarios
 * of the pallet's unit tests, stated for all inputs.
 */
module PoeRuns {
  import opened Poe

  /** One dispatchable call, with its already-authenticated sender. */
  datatype Call =
    | CreateCall(sender: AccountId, claim: Claim, now: BlockNumber)
    | RevokeCall(sender: AccountId, claim: Claim)
    | TransferCall(sender: AccountId, claim: Claim, dest: AccountId, now: BlockNumber)

  /** Dispatch one call. */
  function Apply(s: State, limit: nat, c: Call): Step
  {
    match c
    case CreateCall(sender, claim, now) => Create(s, limit, sender, claim, now)
    case RevokeCall(sender, claim) => Revoke(s, sender, claim)
    case TransferCall(sender, claim, dest, now) => Transfer(s, sender, claim, dest, now)
  }

  /** The state after applying `calls` in order, starting from `s`. */
  function Run(s: State, limit: nat, calls: seq<Call>): State
    decreases |calls|
  {
    if calls == [] then s else Run(Apply(s, limit, calls[0]).state, limit, calls[1..])
  }

  /** Some event of `evs` records the creation of `claim`. */
  ghost predicate CreatedIn(evs: seq<Event>, claim: Claim)
  {
    exists i :: 0 <= i < |evs| && evs[i].ClaimCreated? && evs[i].claim == claim
  }

  /** No record in `proofs` carries a block number later than `bound`. */
  ghost predicate BlocksUpTo(proofs: map<Claim, Record>, bound: BlockNumber)
  {
    forall k :: k in proofs ==> proofs[k].block <= bound
  }

  /** `c` stamps no record with a block number later than `bound`. */
  predicate StampsAtMost(c: Call, bound: BlockNumber)
  {
    match c
    case CreateCall(_, _, now) => now <= bound
    case RevokeCall(_, _) => true
    case TransferCall(_, _, _, now) => now <= bound
  }

  /** The length limit on stored claims holds after any sequence of calls. */
  lemma {:induction false} RunKeepsKeysBounded(s: State, limit: nat, calls: seq<Call>)
    requires KeysBounded(s.proofs, limit)
    ensures KeysBounded(Run(s, limit, calls).proofs, limit)
    decreases |calls|
  {
    if calls != [] {
      var t := Apply(s, limit, calls[0]).state;
      assert KeysBounded(t.proofs, limit);
      RunKeepsKeysBounded(t, limit, calls[1..]);
    }
  }

  /** Events are only ever appended: the old log is a prefix of the new one. */
  lemma {:induction false} RunExtendsEvents(s: State, limit: nat, calls: seq<Call>)
    ensures s.events <= Run(s, limit, calls).events
    decreases |calls|
  {
    if calls != [] {
      var t := Apply(s, limit, calls[0]).state;
      assert s.events <= t.events;
      RunExtendsEvents(t, limit, calls[1..]);
    }
  }

  /**
   * A claim stored after a sequence of calls was either stored before it or
   * created during it, and then a `ClaimCreated` event for it was deposited.
   */
  lemma {:induction false} RunRecordsCreated(s: State, limit: nat, calls: seq<Call>, claim: Claim)
    requires claim in Run(s, limit, calls).proofs
    ensures s.events <= Run(s, limit, calls).events
    ensures claim in s.proofs || CreatedIn(Run(s, limit, calls).events[|s.events|..], claim)
    decreases |calls|
  {
    RunExtendsEvents(s, limit, calls);
    if calls != [] {
      var step := Apply(s, limit, calls[0]);
      var t := step.state;
      var u := Run(t, limit, calls[1..]);
      assert u == Run(s, limit, calls);
      RunRecordsCreated(t, limit, calls[1..], claim);
      assert s.events <= t.events;
      if claim !in s.proofs {
        if claim in t.proofs {
          // Only a successful create adds a key, and it logs ClaimCreated.
          assert calls[0].CreateCall? && step.outcome.Ok? && calls[0].claim == claim;
          var i := |t.events| - 1 - |s.events|;
          assert u.events[|s.events|..][i] == t.events[|t.events| - 1];
        } else {
          var j :| 0 <= j < |u.events[|t.events|..]|
                   && u.events[|t.events|..][j].ClaimCreated? && u.events[|t.events|..][j].claim == claim;
          var i := j + |t.events| - |s.events|;
          assert u.events[|s.events|..][i] == u.events[|t.events|..][j];
        }
      }
    }
  }

  /**
   * With a clock that never runs past `bound`, every record's block number
   * stays at most `bound`: a record is stamped only with the current block.
   */
  lemma {:induction false} RunBlocksBounded(s: State, limit: nat, calls: seq<Call>, bound: BlockNumber)
    requires BlocksUpTo(s.proofs, bound)
    requires forall i :: 0 <= i < |calls| ==> StampsAtMost(calls[i], bound)
    ensures BlocksUpTo(Run(s, limit, calls).proofs, bound)
    decreases |calls|
  {
    if calls != [] {
      var t := Apply(s, limit, calls[0]).state;
      assert StampsAtMost(calls[0], bound);
      assert BlocksUpTo(t.proofs, bound) by {
        forall k | k in t.proofs ensures t.proofs[k].block <= bound {
          if k != calls[0].claim {
            assert k in s.proofs;
          }
        }
      }
      assert forall i :: 0 <= i < |calls[1..]| ==> StampsAtMost(calls[1..][i], bound) by {
        forall i | 0 <= i < |calls[1..]| ensures StampsAtMost(calls[1..][i], bound) {
          assert calls[1..][i] == calls[i + 1];
        }
      }
      RunBlocksBounded(t, limit, calls[1..], bound);
    }
  }

  /**
   * Single-writer ownership: a record whose owner sends none of the calls
   * survives them unchanged, since every revoke or transfer of it by
   * another account fails and a create of it finds it present.
   */
  lemma {:induction false} RunOthersCannotTouch(s: State, limit: nat, calls: seq<Call>, claim: Claim)
    requires claim in s.proofs
    requires forall i :: 0 <= i < |calls| ==> calls[i].sender != s.proofs[claim].owner
    ensures claim in Run(s, limit, calls).proofs
    ensures Run(s, limit, calls).proofs[claim] == s.proofs[claim]
    decreases |calls|
  {
    if calls != [] {
      var t := Apply(s, limit, calls[0]).state;
      assert calls[0].sender != s.proofs[claim].owner;
      assert claim in t.proofs && t.proofs[claim] == s.proofs[claim];
      forall i | 0 <= i < |calls[1..]| ensures calls[1..][i].sender != t.proofs[claim].owner {
        assert calls[1..][i] == calls[i + 1];
      }
      RunOthersCannotTouch(t, limit, calls[1..], claim);
    }
  }

  /**
   * After a first create of a claim within the limit, whether or not that
   * create succeeded, the claim is stored (by `first` at `t1` if it was
   * new), and creating it again fails with `ProofAlreadyExists`, whoever
   * sends the second call, and changes nothing.
   */
  lemma CreateTwiceFails(s: State, limit: nat, first: AccountId, second: AccountId,
                         claim: Claim, t1: BlockNumber, t2: BlockNumber)
    requires |claim| <= limit
    ensures var t := Create(s, limit, first, claim, t1).state;
      && claim in t.proofs
      && (claim !in s.proofs ==> t.proofs[claim] == Record(first, t1))
      && Create(t, limit, second, claim, t2) == Step(t, Err(ProofAlreadyExists))
  {
  }

  /**
   * A create followed by a revoke from the same account restores the
   * stored proofs exactly and logs the two events in order.
   */
  lemma CreateRevokeRoundTrip(s: State, limit: nat, sender: AccountId, claim: Claim, now: BlockNumber)
    requires |claim| <= limit && claim !in s.proofs
    ensures var r := Revoke(Create(s, limit, sender, claim, now).state, sender, claim);
      && r.outcome == Ok
      && r.state.proofs == s.proofs
      && r.state.events == s.events + [ClaimCreated(sender, claim), ClaimReviked(sender, claim)]
  {
  }

  /**
   * After a transfer, the old owner can neither revoke nor transfer the
   * claim any more, and the new owner can revoke it.
   */
  lemma TransferHandsOver(s: State, owner: AccountId, dest: AccountId, claim: Claim, now: BlockNumber,
                          dest2: AccountId, now2: BlockNumber)
    requires OwnedBy(s.proofs, claim, owner) && owner != dest
    ensures var t := Transfer(s, owner, claim, dest, now).state;
      && t.proofs[claim] == Record(dest, now)
      && Revoke(t, owner, claim) == Step(t, Err(NotClaimOwner))
      && Transfer(t, owner, claim, dest2, now2) == Step(t, Err(NotClaimOwner))
      && Revoke(t, dest, claim).outcome == Ok
  {
  }
}
