/**
 * The proof-of-existence pallet of homework-1/629: a registry mapping each
 * claim (a bounded byte string) to the account that owns it and the block
 * at which it was last registered. A signed caller can create a claim,
 * revoke or transfer one it owns, and ask whether it owns one.
 *
 * Each dispatchable is specified by a pure step on the registry map
 * (`Apply`), and the pallet's methods are proved to perform that step.
 */
module Poe {
  import opened Common

  type Byte = x: nat | x < 256

  /** `BoundedVec<u8, MaxClaimLength>`: the bound is checked by the methods' callers' decoding. */
  type Claim = seq<Byte>

  type BlockNumber = nat

  /** The value stored under a claim: `(owner, block_number)`. */
  datatype Proof = Proof(owner: AccountId, block: BlockNumber)

  datatype Error = ProofAlreadyExist | ProofNotSubmitted | NotClaimOwner | ClaimNotExist

  datatype Event = ClaimCreated(who: AccountId, claim: Claim) | ClaimRevoked(who: AccountId, claim: Claim)

  /** The four dispatchables, each about one claim. */
  datatype Call =
    | CreateClaim(claim: Claim)
    | RevokeClaim(claim: Claim)
    | TransferClaim(claim: Claim, dest: AccountId)
    | CheckProof(claim: Claim)

  /** The registry after a call, and the call's result. */
  datatype Step = Step(outcome: Outcome<Error>, proofs: map<Claim, Proof>)

  /** The existence-and-ownership check shared by `revoke_claim`, `transfer_claim` and `proofs`. */
  function OwnerCheck(proofs: map<Claim, Proof>, who: AccountId, claim: Claim): (r: Outcome<Error>)
    ensures r == Ok <==> claim in proofs && proofs[claim].owner == who
    ensures r == Err(ClaimNotExist) <==> claim !in proofs
    ensures r == Ok || r == Err(ClaimNotExist) || r == Err(NotClaimOwner)
  {
    if claim !in proofs then Err(ClaimNotExist)
    else if proofs[claim].owner != who then Err(NotClaimOwner)
    else Ok
  }

  /**
   * The effect of `call` signed by `who` at block `n`: `create_claim` fails
   * on an existing claim and otherwise records `(who, n)`; `revoke_claim`
   * removes an owned claim; `transfer_claim` re-records an owned claim as
   * `(dest, n)`; `proofs` only checks. A failed call writes nothing.
   */
  function Apply(proofs: map<Claim, Proof>, who: AccountId, call: Call, n: BlockNumber): (r: Step)
    ensures r.outcome != Ok ==> r.proofs == proofs
    ensures call.CreateClaim? ==>
      (r.outcome == Ok <==> call.claim !in proofs) &&
      (r.outcome != Ok ==> r.outcome == Err(ProofAlreadyExist))
    ensures !call.CreateClaim? ==> r.outcome == OwnerCheck(proofs, who, call.claim)
    ensures r.outcome == Ok && call.CreateClaim? ==> call.claim in r.proofs && r.proofs[call.claim] == Proof(who, n)
    ensures r.outcome == Ok && call.RevokeClaim? ==> call.claim !in r.proofs
    ensures r.outcome == Ok && call.TransferClaim? ==> call.claim in r.proofs && r.proofs[call.claim] == Proof(call.dest, n)
    ensures call.CheckProof? ==> r.proofs == proofs
    ensures r.proofs - {call.claim} == proofs - {call.claim}
  {
    match call
    case CreateClaim(claim) =>
      if claim in proofs then Step(Err(ProofAlreadyExist), proofs)
      else Step(Ok, proofs[claim := Proof(who, n)])
    case RevokeClaim(claim) =>
      var check := OwnerCheck(proofs, who, claim);
      if check != Ok then Step(check, proofs) else Step(Ok, proofs - {claim})
    case TransferClaim(claim, dest) =>
      var check := OwnerCheck(proofs, who, claim);
      if check != Ok then Step(check, proofs) else Step(Ok, proofs[claim := Proof(dest, n)])
    case CheckProof(claim) =>
      Step(OwnerCheck(proofs, who, claim), proofs)
  }

  /** Two registries that agree on one claim. */
  predicate AgreeOn(m1: map<Claim, Proof>, m2: map<Claim, Proof>, c: Claim)
  {
    (c in m1 <==> c in m2) && (c in m1 ==> m1[c] == m2[c])
  }

  /**
   * A call's result depends only on the registry's entry for its own claim,
   * and it writes only that entry.
   */
  lemma {:induction false} OutcomeIsLocal(m1: map<Claim, Proof>, m2: map<Claim, Proof>, who: AccountId, call: Call, n: BlockNumber)
    requires AgreeOn(m1, m2, call.claim)
    ensures Apply(m1, who, call, n).outcome == Apply(m2, who, call, n).outcome
    ensures AgreeOn(Apply(m1, who, call, n).proofs, Apply(m2, who, call, n).proofs, call.claim)
  {
    var c := call.claim;
    assert (c in m1) == (c in m2);
    if c in m1 {
      assert m1[c] == m2[c];
    }
  }

  /** Calls on different claims commute: either order gives the same results and the same registry. */
  lemma {:induction false} DistinctClaimsCommute(m: map<Claim, Proof>, w1: AccountId, c1: Call, w2: AccountId, c2: Call, n: BlockNumber)
    requires c1.claim != c2.claim
    ensures var a := Apply(m, w1, c1, n);
            var ab := Apply(a.proofs, w2, c2, n);
            var b := Apply(m, w2, c2, n);
            var ba := Apply(b.proofs, w1, c1, n);
            a.outcome == ba.outcome && ab.outcome == b.outcome && ab.proofs == ba.proofs
  {
    var a := Apply(m, w1, c1, n);
    var b := Apply(m, w2, c2, n);
    OutcomeIsLocal(m, b.proofs, w1, c1, n);
    OutcomeIsLocal(m, a.proofs, w2, c2, n);
    var ab := Apply(a.proofs, w2, c2, n);
    var ba := Apply(b.proofs, w1, c1, n);
    assert ab.proofs.Keys == ba.proofs.Keys by {
      forall c
        ensures c in ab.proofs <==> c in ba.proofs
      {
        if c != c1.claim && c != c2.claim {
          assert c in ab.proofs <==> c in a.proofs - {c2.claim};
          assert c in ba.proofs <==> c in b.proofs - {c1.claim};
        }
      }
    }
    forall c | c in ab.proofs
      ensures ab.proofs[c] == ba.proofs[c]
    {
      if c != c1.claim && c != c2.claim {
        assert ab.proofs[c] == (a.proofs - {c2.claim})[c];
        assert ba.proofs[c] == (b.proofs - {c1.claim})[c];
      }
    }
  }

  /** Creating a fresh claim and revoking it as its creator restores the registry. */
  lemma CreateThenRevoke(m: map<Claim, Proof>, who: AccountId, claim: Claim, n: BlockNumber, n': BlockNumber)
    requires claim !in m
    ensures var created := Apply(m, who, CreateClaim(claim), n);
            created.outcome == Ok && Apply(created.proofs, who, RevokeClaim(claim), n') == Step(Ok, m)
  {
    var created := Apply(m, who, CreateClaim(claim), n);
    assert created.proofs - {claim} == m;
  }

  /**
   * After a transfer to a different account the previous owner can neither
   * revoke, transfer nor prove the claim, and the new owner can.
   */
  lemma TransferHandsOver(m: map<Claim, Proof>, who: AccountId, claim: Claim, dest: AccountId, n: BlockNumber, later: Call, n': BlockNumber)
    requires Apply(m, who, TransferClaim(claim, dest), n).outcome == Ok
    requires !later.CreateClaim? && later.claim == claim
    ensures var after := Apply(m, who, TransferClaim(claim, dest), n).proofs;
            Apply(after, dest, later, n').outcome == Ok &&
            (who != dest ==> Apply(after, who, later, n').outcome == Err(NotClaimOwner))
  {
  }

  class Pallet {
    /** The `Proofs` storage map. */
    var proofs: map<Claim, Proof>
    /** `frame_system::block_number()`. */
    var block: BlockNumber
    /** The events deposited so far. */
    var events: seq<Event>
    /** The `MaxClaimLength` constant. */
    const maxClaimLength: nat

    /** Every stored claim fits the `BoundedVec` it was decoded into. */
    ghost predicate Valid()
      reads this
    {
      forall c :: c in proofs ==> |c| <= maxClaimLength
    }

    constructor (maxClaimLength: nat)
      ensures proofs == map[] && block == 0 && events == []
      ensures this.maxClaimLength == maxClaimLength
      ensures Valid()
    {
      proofs := map[];
      block := 0;
      events := [];
      this.maxClaimLength := maxClaimLength;
    }

    /** The next block. */
    method Tick()
      modifies this`block
      ensures block == old(block) + 1
    {
      block := block + 1;
    }

    /** `create_claim`: `ProofAlreadyExist` on a stored claim, else records `(who, block)` and deposits `ClaimCreated`. */
    method CreateClaim(who: AccountId, claim: Claim) returns (r: Outcome<Error>)
      requires |claim| <= maxClaimLength
      modifies this`proofs, this`events
      ensures Step(r, proofs) == Apply(old(proofs), who, Call.CreateClaim(claim), block)
      ensures events == if r == Ok then old(events) + [ClaimCreated(who, claim)] else old(events)
      ensures old(Valid()) ==> Valid()
    {
      if claim in proofs {
        return Err(ProofAlreadyExist);
      }
      proofs := proofs[claim := Proof(who, block)];
      events := events + [ClaimCreated(who, claim)];
      r := Ok;
    }

    /** `revoke_claim`: `ClaimNotExist`, then `NotClaimOwner`; else removes the claim and deposits `ClaimRevoked`. */
    method RevokeClaim(who: AccountId, claim: Claim) returns (r: Outcome<Error>)
      requires |claim| <= maxClaimLength
      modifies this`proofs, this`events
      ensures Step(r, proofs) == Apply(old(proofs), who, Call.RevokeClaim(claim), block)
      ensures events == if r == Ok then old(events) + [ClaimRevoked(who, claim)] else old(events)
      ensures old(Valid()) ==> Valid()
    {
      if claim !in proofs {
        return Err(ClaimNotExist);
      }
      var owner := proofs[claim].owner;
      if owner != who {
        return Err(NotClaimOwner);
      }
      proofs := proofs - {claim};
      events := events + [ClaimRevoked(who, claim)];
      r := Ok;
    }

    /** `transfer_claim`: the same two checks; then records `(dest, block)`. No event is deposited. */
    method TransferClaim(who: AccountId, claim: Claim, dest: AccountId) returns (r: Outcome<Error>)
      requires |claim| <= maxClaimLength
      modifies this`proofs
      ensures Step(r, proofs) == Apply(old(proofs), who, Call.TransferClaim(claim, dest), block)
      ensures old(Valid()) ==> Valid()
    {
      if claim !in proofs {
        return Err(ClaimNotExist);
      }
      var owner := proofs[claim].owner;
      if owner != who {
        return Err(NotClaimOwner);
      }
      proofs := proofs[claim := Proof(dest, block)];
      r := Ok;
    }

    /** `proofs`: succeeds exactly when the claim exists and belongs to the caller; writes nothing. */
    method CheckProof(who: AccountId, claim: Claim) returns (r: Outcome<Error>)
      requires |claim| <= maxClaimLength
      ensures r == Ok <==> claim in proofs && proofs[claim].owner == who
      ensures r == Err(ClaimNotExist) <==> claim !in proofs
      ensures r == Ok || r == Err(ClaimNotExist) || r == Err(NotClaimOwner)
    {
      if claim !in proofs {
        return Err(ClaimNotExist);
      }
      var owner := proofs[claim].owner;
      if who != owner {
        return Err(NotClaimOwner);
      }
      r := Ok;
    }
  }
}
