/** What each handler and each goroutine does, step by step and in full: which messages are
    accepted, what the provider decides, how the consumer reacts, when a push gives up. */
module NegotiationSteps {
  import opened Prelude
  import opened Storage
  import opened Configuration
  import opened Decisions
  import opened NegotiationWorld
  import opened NegotiationRows
  import opened NegotiationTerms

  // ----- which messages are accepted -----

  /** A message is accepted exactly by the party it is for, from the states the protocol has
      it in. */
  lemma AcceptedFrom(role: Role, m: Message, s: NegotiationState)
    ensures LegalFrom(role, m, s) <==>
      || (m.CounterRequest? && role == Provider && s == OFFERED)
      || (m.ContractOffer? && role == Consumer && s == REQUESTED)
      || (m.ContractAgreement? && role == Consumer && s in {REQUESTED, ACCEPTED})
      || (m.AcceptedEvent? && role == Provider && s == OFFERED)
      || (m.Verification? && role == Provider && s == AGREED)
      || (m.FinalizedEvent? && role == Consumer && s == VERIFIED)
      || (m.Termination? && s !in {FINALIZED, TERMINATED})
  {
  }

  /** These are the transitions of the protocol, all of them and no other; a re-request
      alone moves nothing. */
  lemma MessagesAreTheEdges(s: NegotiationState, t: NegotiationState)
    ensures Edge(s, t) <==> exists role: Role, m: Message ::
      LegalFrom(role, m, s) && Target(m) == t && !m.CounterRequest?
  {
    var permission: seq<Permission> := [];
    match t {
      case REQUESTED =>
      case OFFERED => assert Edge(s, t) ==> LegalFrom(Consumer, ContractOffer(permission), s);
      case ACCEPTED => assert Edge(s, t) ==> LegalFrom(Provider, AcceptedEvent, s);
      case AGREED => assert Edge(s, t) ==> LegalFrom(Consumer, ContractAgreement("", "", permission), s);
      case VERIFIED => assert Edge(s, t) ==> LegalFrom(Provider, Verification, s);
      case FINALIZED => assert Edge(s, t) ==> LegalFrom(Consumer, FinalizedEvent, s);
      case TERMINATED => assert Edge(s, t) ==> LegalFrom(Provider, Termination, s);
    }
  }

  /** A handler that reads its row goes on if the message is legal from what it finds, and
      then holds the row to that; otherwise it refuses and changes nothing. */
  lemma HandlerReads(setup: Setup, w: World, m: Message, claim: Claim, c: Choice)
    requires !m.ContractRequest?
    ensures var s := StateOf(w, claim.role);
      Act(setup, w, Handling(m, Reading, claim), c) ==
        if s.Some? && LegalFrom(claim.role, m, s.value) then
          Effect(w, Handling(m, if m.ContractAgreement? then Inserting else Updating,
                             Claim(claim.role, s.value, |Log(w, claim.role)|, Target(m))), [])
        else Effect(w, Answered(claim.role, m, false), [])
  {
  }

  /** An agreement is put on record before the row moves, as what it says; one whose id is
      taken is refused. */
  lemma AgreementIsRecorded(setup: Setup, w: World, m: Message, claim: Claim, c: Choice)
    requires m.ContractAgreement?
    ensures var e := Act(setup, w, Handling(m, Inserting, claim), c);
      if m.id in w.consumerAgreements then e == Effect(w, Answered(Consumer, m, false), [])
      else
        && e.me == Handling(m, Updating, claim) && e.started == []
        && e.world == w.(consumerAgreements := w.consumerAgreements[
             m.id := Agreement(m.id, m.target, w.consumer.consumerPid, Origin.Agreed, w.consumer.counterparty)])
  {
  }

  /** A handler's update succeeds exactly on a row that has not moved; then it answers 200,
      and otherwise refuses and changes nothing. */
  lemma UpdateAnswers(setup: Setup, w: World, m: Message, claim: Claim, c: Choice)
    requires !m.CounterRequest?
    ensures var e := Act(setup, w, Handling(m, Updating, claim), c);
      if StateOf(w, claim.role) == Some(claim.from) then
        && e.me == Answered(claim.role, m, true)
        && (claim.role == Provider ==> e.world.provider == Some(w.provider.value.(state := claim.to)))
        && (claim.role == Consumer ==> e.world.consumer == w.consumer.(state := claim.to))
        && Log(e.world, claim.role) == Log(w, claim.role) + [claim.to]
        && e.world.providerAgreements == w.providerAgreements && e.world.consumerAgreements == w.consumerAgreements
        && (claim.role == Provider ==> e.world.consumer == w.consumer)
        && (claim.role == Consumer ==> e.world.provider == w.provider)
      else e == Effect(w, Answered(claim.role, m, false), [])
  {
    hide Dispatch, DecideAccept, TerminatesOnVerify, Attempts;
  }

  // ----- what the provider decides -----

  /** A push and the update it pairs with, as it starts. */
  function Starts(setup: Setup, role: Role, pid: string, m: Message, from: NegotiationState, seen: nat,
      to: NegotiationState, after: After): Goroutine {
    Pushing(role, pid, m, setup.backoffs + 1, None, m == Verification, Some(Claim(role, from, seen, to)), after)
  }

  /** The terms of a dataset: unrestricted, or until its validity ends. */
  function TermsOf(d: Dataset): seq<Permission> {
    [Permission(if d.validityUntil.None? then [] else [Constraint("dateTime", "lteq", true)])]
  }

  predicate StillValid(d: Dataset, now: int) {
    d.validityUntil.None? || now < d.validityUntil.value
  }

  /** An initial request creates the row it asks for. If the dataset is configured, a
      matching offer is agreed to while valid and declined after; any other is answered by
      the true offer, withdrawn again if that is no longer valid. If not, nothing follows. */
  lemma RequestIsDecided(setup: Setup, w: World, m: Message, claim: Claim, c: Choice, i: nat)
    requires m.ContractRequest? && w.provider.None?
    ensures var e := Act(setup, w, Handling(m, Reading, claim), c);
      && e.me == Answered(Provider, m, true)
      && e.world == w.(
           provider := Some(Negotiation(setup.providerPid, w.consumer.consumerPid, REQUESTED, m.target, m.offer, "",
                                        false, setup.consumerId)),
           providerLog := [REQUESTED])
      && ((forall d | d in setup.datasets :: d.id != m.target) ==> e.started == [])
      && (FirstDataset(setup.datasets, m.target, i) ==>
            var d := setup.datasets[i];
            var agreement := ContractAgreement(setup.providerPid, m.target, TermsOf(d));
            e.started ==
              if m.offer == m.target + "#offer" then
                if StillValid(d, c.now) then
                  [Starts(setup, Provider, "", agreement, REQUESTED, 1, AGREED, RecordAgreement)]
                else [Starts(setup, Provider, "", Termination, REQUESTED, 1, TERMINATED, Stop)]
              else [Starts(setup, Provider, "", ContractOffer(TermsOf(d)), REQUESTED, 1, OFFERED,
                           if StillValid(d, c.now) then Stop else WithdrawLater)])
  {
    if FirstDataset(setup.datasets, m.target, i) {
      FindsTheFirst(setup.datasets, m.target, i);
    } else if FindDataset(setup.datasets, m.target).Some? {
      assert FindDataset(setup.datasets, m.target).value in setup.datasets;
    }
  }

  /** There is one row to create. */
  lemma SecondRequestIsRefused(setup: Setup, w: World, m: Message, claim: Claim, c: Choice)
    requires m.ContractRequest? && w.provider.Some?
    ensures Act(setup, w, Handling(m, Reading, claim), c) == Effect(w, Answered(Provider, m, false), [])
  {
  }

  /** An acceptance is answered by the agreement if the dataset is still configured and
      valid, and by a termination if not. */
  lemma AcceptanceIsDecided(setup: Setup, w: World, claim: Claim, c: Choice, i: nat)
    requires claim.role == Provider && StateOf(w, Provider) == Some(claim.from) && claim.to == ACCEPTED
    ensures var n, seen := w.provider.value, |w.providerLog| + 1;
      var started := Act(setup, w, Handling(AcceptedEvent, Updating, claim), c).started;
      var declined := [Starts(setup, Provider, "", Termination, ACCEPTED, seen, TERMINATED, Stop)];
      && ((forall d | d in setup.datasets :: d.id != n.dataset) ==> started == declined)
      && (FirstDataset(setup.datasets, n.dataset, i) ==>
            var d := setup.datasets[i];
            var agreement := ContractAgreement(n.providerPid, n.dataset, TermsOf(d));
            started ==
              if StillValid(d, c.now) then
                [Starts(setup, Provider, "", agreement, ACCEPTED, seen, AGREED, RecordAgreement)]
              else declined)
  {
    var dataset := w.provider.value.dataset;
    if FirstDataset(setup.datasets, dataset, i) {
      FindsTheFirst(setup.datasets, dataset, i);
    } else if FindDataset(setup.datasets, dataset).Some? {
      assert FindDataset(setup.datasets, dataset).value in setup.datasets;
    }
  }

  /** A verification is answered by finalizing, or by a termination if the dataset is
      configured to end there. */
  lemma VerificationIsDecided(setup: Setup, w: World, claim: Claim, c: Choice, i: nat)
    requires claim.role == Provider && StateOf(w, Provider) == Some(claim.from) && claim.to == VERIFIED
    ensures var n, seen := w.provider.value, |w.providerLog| + 1;
      var started := Act(setup, w, Handling(Verification, Updating, claim), c).started;
      var finalizes := [Starts(setup, Provider, "", FinalizedEvent, VERIFIED, seen, FINALIZED, Stop)];
      && ((forall d | d in setup.datasets :: d.id != n.dataset) ==> started == finalizes)
      && (FirstDataset(setup.datasets, n.dataset, i) ==>
            started == if setup.datasets[i].terminateOnVerify then
                         [Starts(setup, Provider, "", Termination, VERIFIED, seen, TERMINATED, Stop)]
                       else finalizes)
  {
    var dataset := w.provider.value.dataset;
    if FirstDataset(setup.datasets, dataset, i) {
      FindsTheFirst(setup.datasets, dataset, i);
    } else if FindDataset(setup.datasets, dataset).Some? {
      assert FindDataset(setup.datasets, dataset).value in setup.datasets;
    }
  }

  /** The re-request is answered 200 exactly if the flag was clear; it is then set, and only
      a request for another offer starts a walk-away. */
  lemma ReRequestIsDecided(setup: Setup, w: World, m: Message, claim: Claim, c: Choice)
    requires m.CounterRequest?
    ensures var e := Act(setup, w, Handling(m, Updating, claim), c);
      if w.provider.Some? && !w.provider.value.rerequested then
        && e.me == Answered(Provider, m, true)
        && e.world.provider == Some(w.provider.value.(rerequested := true))
        && e.world.consumer == w.consumer && e.world.providerLog == w.providerLog
        && e.started == if m.offer == w.provider.value.offer then []
                        else [Pushing(Provider, "", Termination, setup.backoffs + 1, None, false, Some(claim), Stop)]
      else e == Effect(w, Answered(Provider, m, false), [])
  {
  }

  /** What no other message starts anything. */
  lemma OthersStartNothing(setup: Setup, w: World, m: Message, claim: Claim, c: Choice)
    requires m.FinalizedEvent? || m.Termination?
    ensures Act(setup, w, Handling(m, Updating, claim), c).started == []
  {
  }

  // ----- how the consumer reacts -----

  /** An offer or an agreement that moved the consumer's row is reacted to. */
  lemma ArrivalIsReactedTo(setup: Setup, w: World, m: Message, claim: Claim, c: Choice)
    requires (m.ContractOffer? || m.ContractAgreement?) && claim.role == Consumer
    requires StateOf(w, Consumer) == Some(claim.from)
    ensures Act(setup, w, Handling(m, Updating, claim), c).started == [Reacting(m, |w.consumerLog| + 1)]
  {
  }

  /** An offer is accepted exactly under a policy to accept, as without one, and if every
      term in it is known; a policy to accept one that has others rejects it, as one to
      reject does. To counter repeats the connector's own request, and passive does nothing. */
  lemma OfferIsDecided(setup: Setup, w: World, permission: seq<Permission>, seen: nat, c: Choice, i: nat)
    requires FirstPolicy(setup.consumerPolicies, w.consumer.dataset, i)
          || forall p | p in setup.consumerPolicies :: p.dataset != w.consumer.dataset
    ensures var policies, dataset := setup.consumerPolicies, w.consumer.dataset;
      var configured := if FirstPolicy(policies, dataset, i) then policies[i].onOffer else None;
      var pid := w.consumer.providerPid;
      Act(setup, w, Reacting(ContractOffer(permission), seen), c) == Effect(w,
        match configured
        case Some(Passive) => Over
        case Some(Counter) =>
          Pushing(Consumer, pid, CounterRequest(w.consumer.offer), setup.backoffs + 1, None, false, None, Stop)
        case Some(RejectOffer) => Starts(setup, Consumer, pid, Termination, OFFERED, seen, TERMINATED, Stop)
        case _ =>
          if EveryTermIsKnown(permission)
          then Starts(setup, Consumer, pid, AcceptedEvent, OFFERED, seen, ACCEPTED, Stop)
          else Starts(setup, Consumer, pid, Termination, OFFERED, seen, TERMINATED, Stop), [])
  {
    hide ResolvePolicy, HasUnenforceableConstraint;
    PolicyIsTheFirst(setup.consumerPolicies, w.consumer.dataset, i);
    EnforceableExactly(permission);
  }

  /** An agreement is verified exactly under a policy to verify, as without one, if every
      term in it is known and it is for the dataset asked for; otherwise it is rejected. */
  lemma AgreementIsDecided(setup: Setup, w: World, m: Message, seen: nat, c: Choice, i: nat)
    requires m.ContractAgreement?
    requires FirstPolicy(setup.consumerPolicies, w.consumer.dataset, i)
          || forall p | p in setup.consumerPolicies :: p.dataset != w.consumer.dataset
    ensures var policies, dataset := setup.consumerPolicies, w.consumer.dataset;
      var rejects := FirstPolicy(policies, dataset, i) && policies[i].onAgreement == Some(RejectAgreement);
      var pid := w.consumer.providerPid;
      Act(setup, w, Reacting(m, seen), c) == Effect(w,
        if !rejects && EveryTermIsKnown(m.permission) && m.target == w.consumer.dataset
        then Starts(setup, Consumer, pid, Verification, AGREED, seen, VERIFIED, Stop)
        else Starts(setup, Consumer, pid, Termination, AGREED, seen, TERMINATED, Stop), [])
  {
    hide ResolvePolicy, HasUnenforceableConstraint;
    PolicyIsTheFirst(setup.consumerPolicies, w.consumer.dataset, i);
    EnforceableExactly(m.permission);
  }

  /** So whatever messages arrive, a consumer commits ACCEPTED or VERIFIED only for a message
      whose every permission is unrestricted or ends at a readable time. */
  lemma CommitsOnlyToKnownTerms(setup: Setup, start: World, actions: seq<Action>)
    requires Fresh(start)
    ensures var w := RunAll(setup, start, actions);
      && (ACCEPTED in w.consumerLog ==>
            |w.offeredBy| == 1 && w.offeredBy[0].ContractOffer? && EveryTermIsKnown(w.offeredBy[0].permission))
      && (VERIFIED in w.consumerLog ==>
            && |w.agreedBy| == 1 && w.agreedBy[0].ContractAgreement? && EveryTermIsKnown(w.agreedBy[0].permission)
            && w.agreedBy[0].target == w.consumer.dataset)
  {
    hide RunAll, HasUnenforceableConstraint, EveryTermIsKnown;
    CommitsOnlyToItsTerms(setup, start, actions);
    var w := RunAll(setup, start, actions);
    if VERIFIED in w.consumerLog {
      EnforceableExactly(w.agreedBy[0].permission);
    }
    if ACCEPTED in w.consumerLog {
      EnforceableExactly(w.offeredBy[0].permission);
    }
  }

  // ----- pushes -----

  /** A push with attempts left sends one if it may; it gives up only without any or when it
      may not send. An attempt reaches the other side if it is not lost and, from the
      consumer, if it names the provider's row. */
  lemma PushSends(setup: Setup, w: World, g: Goroutine, c: Choice)
    requires g.Pushing? && g.waiting == None
    ensures var e := Act(setup, w, g, c);
      if g.left == 0 || !c.maySend then e == Effect(w, Spent(g), [])
      else
        var reaches := c.delivered && (g.role == Provider || (w.provider.Some? && g.pid == setup.providerPid));
        var receiver := if g.role == Provider then Consumer else Provider;
        && e.world == w.(sent := w.sent + 1)
        && e.me == g.(left := g.left - 1, waiting := if reaches then Some(|w.pool|) else None)
        && e.started == if reaches then
             [Handling(g.message, Reading, Claim(receiver, REQUESTED, 0, Target(g.message)))]
           else []
  {
  }

  /** A push that did not succeed goes on to its update all the same, unless it had to. */
  function Spent(g: Goroutine): Goroutine
    requires g.Pushing?
  {
    if g.next.None? || g.mustSucceed then Over else Swapping(g.next.value, g.after)
  }

  /** A push that waits for a reply succeeds on a 2xx and goes on to its update; on a refusal,
      or without a reply, it goes on with the attempts it has left. */
  lemma PushReads(setup: Setup, w: World, g: Goroutine, c: Choice)
    requires g.Pushing? && g.waiting.Some? && g.waiting.value < |w.pool|
    ensures var h, e := w.pool[g.waiting.value], Act(setup, w, g, c);
      && e.world == w && e.started == []
      && e.me ==
           if !c.answered then g.(waiting := None)
           else if !h.Answered? then g
           else if !h.ok then g.(waiting := None)
           else if g.next.None? then Over
           else Swapping(g.next.value, g.after)
  {
  }

  /** The update after a push commits exactly if its row has not moved, and what follows it
      follows either way. */
  lemma SwapThen(setup: Setup, w: World, claim: Claim, after: After, c: Choice)
    ensures var e := Act(setup, w, Swapping(claim, after), c);
      && (StateOf(w, claim.role) != Some(claim.from) ==> e.world == w)
      && (StateOf(w, claim.role) == Some(claim.from) ==>
            && StateOf(e.world, claim.role) == Some(claim.to)
            && Log(e.world, claim.role) == Log(w, claim.role) + [claim.to])
      && e.me == (if after == RecordAgreement then Recording else Over)
      && e.started == (if after == WithdrawLater then [Sleeping] else [])
  {
  }

  /** The delayed withdrawal withdraws exactly an offer that is still open. */
  lemma WithdrawsAnOpenOffer(setup: Setup, w: World, c: Choice)
    ensures Act(setup, w, Sleeping, c) == Effect(w,
      if w.provider.Some? && w.provider.value.state == OFFERED
      then Starts(setup, Provider, "", Termination, OFFERED, |w.providerLog|, TERMINATED, Stop)
      else Over, [])
  {
  }

  // ----- opening -----

  /** The initial request is sent once, if it may be, for what the consumer's row asks for;
      on a 2xx the provider's pid is stored, and a policy to abandon then abandons. */
  lemma OpeningGoes(setup: Setup, w: World, h: nat, pid: string, c: Choice, i: nat)
    ensures Act(setup, w, Opening, c) ==
      if !c.maySend then Effect(w, Over, [])
      else if !c.delivered then Effect(w.(sent := w.sent + 1), Over, [])
      else Effect(w.(sent := w.sent + 1), OpeningReply(|w.pool|),
        [Handling(ContractRequest(w.consumer.dataset, w.consumer.offer), Reading,
                  Claim(Provider, REQUESTED, 0, REQUESTED))])
    ensures h < |w.pool| ==>
      Act(setup, w, OpeningReply(h), c) == Effect(w,
        if !c.answered then Over
        else if !w.pool[h].Answered? then OpeningReply(h)
        else if w.pool[h].ok then OpeningSave(setup.providerPid)
        else Over, [])
    ensures var e := Act(setup, w, OpeningSave(pid), c);
      && e.world == w.(consumer := w.consumer.(providerPid := pid)) && e.started == []
      && (FirstPolicy(setup.consumerPolicies, w.consumer.dataset, i) ==>
            e.me == if setup.consumerPolicies[i].onIdle == Some(Abandon)
                    then Starts(setup, Consumer, pid, Termination, REQUESTED, 1, TERMINATED, Stop)
                    else Over)
      && ((forall p | p in setup.consumerPolicies :: p.dataset != w.consumer.dataset) ==> e.me == Over)
  {
    hide ResolvePolicy;
    PolicyIsTheFirst(setup.consumerPolicies, w.consumer.dataset, i);
  }
}
