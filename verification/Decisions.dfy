/** The contract negotiation decisions of both roles: what is decided from a message, a
    configuration and the time, with no state of its own. */
module Decisions {
  import opened Prelude
  import opened Storage
  import opened Configuration

  // ----- terms -----

  const DATE_TIME: string := "dateTime"
  const LTEQ: string := "lteq"

  /** One constraint as received: either not an object of the expected fields at all, or its
      operands and whether the right one reads as a timestamp. */
  datatype Constraint = Unreadable | Constraint(leftOperand: string, operator: string, rightIsTimestamp: bool)

  datatype Permission = Permission(constraints: seq<Constraint>)

  /** The permission this connector grants: unrestricted, or until the validity ends. */
  function BuildPermission(d: Option<Dataset>): seq<Permission> {
    if d.None? || d.value.validityUntil.None? then [Permission([])]
    else [Permission([Constraint(DATE_TIME, LTEQ, true)])]
  }

  predicate IsValidityPeriodConstraint(cs: seq<Constraint>) {
    && |cs| == 1
    && cs[0].Constraint?
    && cs[0].leftOperand == DATE_TIME && cs[0].operator == LTEQ
    && cs[0].rightIsTimestamp
  }

  predicate HasUnenforceableConstraint(permission: seq<Permission>) {
    exists p | p in permission :: p.constraints != [] && !IsValidityPeriodConstraint(p.constraints)
  }

  /** Terms can be enforced exactly if every permission is unrestricted or restricted by the
      one constraint this connector knows: a readable end of its validity. */
  lemma EnforceableExactly(permission: seq<Permission>)
    ensures !HasUnenforceableConstraint(permission) <==> EveryTermIsKnown(permission)
  {
  }

  /** Every permission is unrestricted or holds until a readable time. */
  predicate EveryTermIsKnown(permission: seq<Permission>) {
    forall p | p in permission :: p.constraints == [] || p.constraints == [Constraint("dateTime", "lteq", true)]
  }

  /** What this code grants as provider, this code can enforce as consumer. */
  lemma OwnTermsAreEnforceable(d: Option<Dataset>)
    ensures !HasUnenforceableConstraint(BuildPermission(d))
  {
  }

  // ----- messages -----

  datatype Message =
    | ContractRequest(target: string, offer: string)
    | CounterRequest(offer: string)
    | ContractOffer(permission: seq<Permission>)
    | ContractAgreement(id: string, target: string, permission: seq<Permission>)
    | AcceptedEvent
    | FinalizedEvent
    | Verification
    | Termination

  // ----- the provider's decisions -----

  const OFFER_SUFFIX: string := "#offer"

  datatype NegotiationOutcome = NegotiationOutcome(pushOffer: bool, pushAgreement: bool, pushTermination: bool)

  const OUTCOME_NONE := NegotiationOutcome(false, false, false)
  const OUTCOME_OFFER := NegotiationOutcome(true, false, false)
  const OUTCOME_AGREE := NegotiationOutcome(false, true, false)
  const OUTCOME_TERMINATE := NegotiationOutcome(false, false, true)
  const OUTCOME_OFFER_THEN_TERMINATE := NegotiationOutcome(true, false, true)

  function DecideInitialRequest(datasets: seq<Dataset>, dataset: string, offer: string, now: int): NegotiationOutcome {
    match FindDataset(datasets, dataset)
    case None => OUTCOME_NONE
    case Some(ds) =>
      var matches, valid := offer == ds.id + OFFER_SUFFIX, IsValid(ds, now);
      if matches && valid then OUTCOME_AGREE
      else if matches then OUTCOME_TERMINATE
      else if valid then OUTCOME_OFFER
      else OUTCOME_OFFER_THEN_TERMINATE
  }

  function DecideAccept(datasets: seq<Dataset>, dataset: string, now: int): NegotiationOutcome {
    match FindDataset(datasets, dataset)
    case None => OUTCOME_TERMINATE
    case Some(ds) => if IsValid(ds, now) then OUTCOME_AGREE else OUTCOME_TERMINATE
  }

  predicate DecideReRequestMatches(currentOffer: string, requestedOffer: string) {
    requestedOffer == currentOffer
  }

  predicate TerminatesOnVerify(datasets: seq<Dataset>, dataset: string) {
    var ds := FindDataset(datasets, dataset);
    ds.Some? && ds.value.terminateOnVerify
  }

  // ----- the consumer's decisions -----

  datatype Policy = Policy(onOffer: OnOffer, onAgreement: OnAgreement, onIdle: OnIdle)

  function Normalized(p: ConsumerPolicy): Policy {
    Policy(
      if p.onOffer.Some? then p.onOffer.value else Accept,
      if p.onAgreement.Some? then p.onAgreement.value else Verify,
      if p.onIdle.Some? then p.onIdle.value else Wait)
  }

  function ResolvePolicy(policies: seq<ConsumerPolicy>, dataset: string): Policy {
    if policies == [] then Normalized(ConsumerPolicy(dataset, None, None, None))
    else if policies[0].dataset == dataset then Normalized(policies[0])
    else ResolvePolicy(policies[1..], dataset)
  }

  /** The i-th configured policy is the first for this dataset. */
  predicate FirstPolicy(policies: seq<ConsumerPolicy>, dataset: string, i: nat) {
    i < |policies| && policies[i].dataset == dataset && forall j | 0 <= j < i :: policies[j].dataset != dataset
  }

  /** The first policy for a dataset decides, and what it leaves out, or all without one, is
      to accept, to verify and to wait. */
  lemma {:induction false} PolicyIsTheFirst(policies: seq<ConsumerPolicy>, dataset: string, i: nat)
    ensures FirstPolicy(policies, dataset, i) ==>
      var p := policies[i];
      ResolvePolicy(policies, dataset) == Policy(
        if p.onOffer.None? then Accept else p.onOffer.value,
        if p.onAgreement.None? then Verify else p.onAgreement.value,
        if p.onIdle.None? then Wait else p.onIdle.value)
    ensures (forall p | p in policies :: p.dataset != dataset) ==>
      ResolvePolicy(policies, dataset) == Policy(Accept, Verify, Wait)
  {
    if policies == [] {
    } else if policies[0].dataset == dataset {
      assert policies[0] in policies;
    } else {
      PolicyIsTheFirst(policies[1..], dataset, if i > 0 then i - 1 else 0);
      assert FirstPolicy(policies, dataset, i) ==> i > 0 && FirstPolicy(policies[1..], dataset, i - 1);
      assert forall p | p in policies[1..] :: p in policies;
    }
  }

  function DecideOfferReaction(onOffer: OnOffer, unenforceable: bool): OnOffer {
    if unenforceable && onOffer == Accept then RejectOffer else onOffer
  }

  function DecideAgreementReaction(onAgreement: OnAgreement, unenforceable: bool, wrongTarget: bool): OnAgreement {
    if (unenforceable || wrongTarget) && onAgreement == Verify then RejectAgreement else onAgreement
  }

  predicate OfferLegalFrom(state: NegotiationState) {
    state == REQUESTED
  }

  predicate AgreementLegalFrom(state: NegotiationState) {
    state == REQUESTED || state == ACCEPTED
  }

  predicate FinalizedEventLegalFrom(state: NegotiationState) {
    state == VERIFIED
  }

  predicate TerminationLegalFrom(state: NegotiationState) {
    state != FINALIZED && state != TERMINATED
  }
}
