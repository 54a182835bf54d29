/** That an agreement is reached: between any two such connectors, over a network that loses
    nothing, the direct negotiation of a valid dataset runs to FINALIZED on both sides. */
module NegotiationReached {
  import opened Prelude
  import opened Storage
  import opened Configuration
  import opened Decisions
  import opened NegotiationWorld
  import opened NegotiationRows
  import opened NegotiationSteps

  /** What is negotiated: the consumer asks for the offer the provider makes of a dataset
      that is valid and not configured to end in a termination, under policies to verify and
      to wait; and neither side has an agreement of that id yet. */
  ghost predicate Agreeable(setup: Setup, start: World, i: nat, now: int) {
    && Fresh(start)
    && FirstDataset(setup.datasets, start.consumer.dataset, i)
    && StillValid(setup.datasets[i], now) && !setup.datasets[i].terminateOnVerify
    && start.consumer.offer == start.consumer.dataset + "#offer"
    && (forall p | p in setup.consumerPolicies :: p.dataset != start.consumer.dataset)
    && setup.providerPid !in start.providerAgreements && setup.providerPid !in start.consumerAgreements
  }

  // ----- the worlds on the way -----

  function Wanted(start: World): Message {
    ContractRequest(start.consumer.dataset, start.consumer.offer)
  }

  function Given(setup: Setup, start: World, i: nat): Message
    requires i < |setup.datasets|
  {
    ContractAgreement(setup.providerPid, start.consumer.dataset, TermsOf(setup.datasets[i]))
  }

  function ProviderRow(setup: Setup, start: World, s: NegotiationState): Option<Negotiation> {
    Some(Negotiation(setup.providerPid, start.consumer.consumerPid, s, start.consumer.dataset, start.consumer.offer, "",
                     false, setup.consumerId))
  }

  function ConsumerRow(setup: Setup, start: World, s: NegotiationState): ConsumerNegotiation {
    start.consumer.(state := s, providerPid := setup.providerPid)
  }

  /** The request is acknowledged and the agreement is about to be pushed. */
  function Acknowledged(setup: Setup, start: World, i: nat): World
    requires i < |setup.datasets|
  {
    start.(provider := ProviderRow(setup, start, REQUESTED), providerLog := [REQUESTED],
           consumer := ConsumerRow(setup, start, REQUESTED), sent := 1,
           pool := [Over, Answered(Provider, Wanted(start), true),
                    Starts(setup, Provider, "", Given(setup, start, i), REQUESTED, 1, AGREED, RecordAgreement)])
  }

  /** The agreement has arrived and is on record at the consumer. */
  function Received(setup: Setup, start: World, i: nat): World
    requires i < |setup.datasets|
  {
    var m := Given(setup, start, i);
    var push := Starts(setup, Provider, "", m, REQUESTED, 1, AGREED, RecordAgreement);
    var a := Agreement(setup.providerPid, start.consumer.dataset, start.consumer.consumerPid, Origin.Agreed,
                       start.consumer.counterparty);
    Acknowledged(setup, start, i).(
      consumer := ConsumerRow(setup, start, AGREED), consumerLog := [REQUESTED, AGREED], agreedBy := [m], sent := 2,
      consumerAgreements := start.consumerAgreements[setup.providerPid := a],
      pool := [Over, Answered(Provider, Wanted(start), true),
               push.(left := setup.backoffs, waiting := Some(3)), Answered(Consumer, m, true), Reacting(m, 2)])
  }

  /** The provider has recorded it, and the consumer is about to verify. */
  function Recorded(setup: Setup, start: World, i: nat): World
    requires i < |setup.datasets|
  {
    var m := Given(setup, start, i);
    var a := Agreement(setup.providerPid, start.consumer.dataset, start.consumer.consumerPid, Origin.Negotiated,
                       setup.consumerId);
    Received(setup, start, i).(
      provider := ProviderRow(setup, start, AGREED), providerLog := [REQUESTED, AGREED],
      providerAgreements := start.providerAgreements[setup.providerPid := a],
      pool := [Over, Answered(Provider, Wanted(start), true), Over, Answered(Consumer, m, true),
               Starts(setup, Consumer, setup.providerPid, Verification, AGREED, 2, VERIFIED, Stop)])
  }

  /** Both sides are VERIFIED and the provider is about to finalize. */
  function Verified(setup: Setup, start: World, i: nat): World
    requires i < |setup.datasets|
  {
    var m := Given(setup, start, i);
    Recorded(setup, start, i).(
      provider := ProviderRow(setup, start, VERIFIED), providerLog := [REQUESTED, AGREED, VERIFIED],
      consumer := ConsumerRow(setup, start, VERIFIED), consumerLog := [REQUESTED, AGREED, VERIFIED], sent := 3,
      pool := [Over, Answered(Provider, Wanted(start), true), Over, Answered(Consumer, m, true), Over,
               Answered(Provider, Verification, true),
               Starts(setup, Provider, "", FinalizedEvent, VERIFIED, 3, FINALIZED, Stop)])
  }

  function Finalized(setup: Setup, start: World, i: nat): World
    requires i < |setup.datasets|
  {
    var m := Given(setup, start, i);
    Verified(setup, start, i).(
      provider := ProviderRow(setup, start, FINALIZED), providerLog := [REQUESTED, AGREED, VERIFIED, FINALIZED],
      consumer := ConsumerRow(setup, start, FINALIZED), consumerLog := [REQUESTED, AGREED, VERIFIED, FINALIZED],
      sent := 4,
      pool := [Over, Answered(Provider, Wanted(start), true), Over, Answered(Consumer, m, true), Over,
               Answered(Provider, Verification, true), Over, Answered(Consumer, FinalizedEvent, true)])
  }

  // ----- the way -----

  /** A goroutine's turn, nothing being lost. */
  function Turn(setup: Setup, w: World, g: nat, now: int): World {
    Step(setup, w, Run(g, Choice(true, true, true, now)))
  }

  /** Only the connectors' own goroutines take steps. */
  predicate NothingForged(actions: seq<Action>) {
    forall a | a in actions :: a.Run?
  }

  /** The connectors' own steps can take the one world to the other. */
  ghost predicate Leads(setup: Setup, w: World, w': World) {
    exists actions: seq<Action> :: NothingForged(actions) && RunAll(setup, w, actions) == w'
  }

  lemma TurnLeads(setup: Setup, w: World, g: nat, now: int)
    ensures Leads(setup, w, Turn(setup, w, g, now))
  {
    hide Step;
    var actions := [Run(g, Choice(true, true, true, now))];
    assert actions[1..] == [];
    assert RunAll(setup, w, actions) == Turn(setup, w, g, now);
  }

  lemma {:induction false} RunAppend(setup: Setup, w: World, a: seq<Action>, b: seq<Action>)
    ensures RunAll(setup, w, a + b) == RunAll(setup, RunAll(setup, w, a), b)
    decreases |a|
  {
    hide Step;
    if a == [] {
      assert a + b == b;
    } else {
      assert (a + b)[1..] == a[1..] + b;
      RunAppend(setup, Step(setup, w, a[0]), a[1..], b);
    }
  }

  lemma LeadsOn(setup: Setup, a: World, b: World, c: World)
    requires Leads(setup, a, b) && Leads(setup, b, c)
    ensures Leads(setup, a, c)
  {
    hide RunAll;
    var first: seq<Action> :| NothingForged(first) && RunAll(setup, a, first) == b;
    var later: seq<Action> :| NothingForged(later) && RunAll(setup, b, later) == c;
    RunAppend(setup, a, first, later);
  }

  lemma FourTurns(setup: Setup, w: World, a: nat, b: nat, c: nat, d: nat, now: int)
    ensures Leads(setup, w, Turn(setup, Turn(setup, Turn(setup, Turn(setup, w, a, now), b, now), c, now), d, now))
  {
    hide Turn, Leads;
    var w1 := Turn(setup, w, a, now);
    var w2 := Turn(setup, w1, b, now);
    var w3 := Turn(setup, w2, c, now);
    TurnLeads(setup, w, a, now);
    TurnLeads(setup, w1, b, now);
    LeadsOn(setup, w, w1, w2);
    TurnLeads(setup, w2, c, now);
    LeadsOn(setup, w, w2, w3);
    TurnLeads(setup, w3, d, now);
    LeadsOn(setup, w, w3, Turn(setup, w3, d, now));
  }

  lemma ToAcknowledged(setup: Setup, start: World, i: nat, now: int)
    requires Agreeable(setup, start, i, now)
    ensures Leads(setup, start, Acknowledged(setup, start, i))
  {
    hide Create, ResolvePolicy, RunAll, Leads;
    var c := Choice(true, true, true, now);
    var w1 := Turn(setup, start, 0, now);
    assert w1.pool == [OpeningReply(1), Arrived(Provider, Wanted(start))];
    var w2 := Turn(setup, w1, 1, now);
    RequestIsDecided(setup, w1, Wanted(start), w1.pool[1].claim, c, i);
    var push := Starts(setup, Provider, "", Given(setup, start, i), REQUESTED, 1, AGREED, RecordAgreement);
    assert w2.pool == [OpeningReply(1), Answered(Provider, Wanted(start), true), push];
    var w3 := Turn(setup, w2, 0, now);
    assert w3.pool == [OpeningSave(setup.providerPid), Answered(Provider, Wanted(start), true), push];
    OpeningGoes(setup, w3, 1, setup.providerPid, c, 0);
    assert Turn(setup, w3, 0, now) == Acknowledged(setup, start, i);
    FourTurns(setup, start, 0, 1, 0, 0, now);
  }

  lemma ToReceived(setup: Setup, start: World, i: nat, now: int)
    requires Agreeable(setup, start, i, now)
    ensures Leads(setup, Acknowledged(setup, start, i), Received(setup, start, i))
  {
    hide RunAll, Leads, ResolvePolicy;
    var w, m := Acknowledged(setup, start, i), Given(setup, start, i);
    var w1 := Turn(setup, w, 2, now);
    assert w1.pool[3] == Arrived(Consumer, m) && |w1.pool| == 4;
    var w2 := Turn(setup, w1, 3, now);
    assert w2.pool[3] == Handling(m, Inserting, Claim(Consumer, REQUESTED, 1, AGREED));
    var w3 := Turn(setup, w2, 3, now);
    assert w3.pool[3] == Handling(m, Updating, Claim(Consumer, REQUESTED, 1, AGREED));
    assert start.consumerLog + [AGREED] == [REQUESTED, AGREED];
    var w4 := Turn(setup, w3, 3, now);
    assert w4.pool == Received(setup, start, i).pool;
    assert w4 == Received(setup, start, i);
    FourTurns(setup, w, 2, 3, 3, 3, now);
  }

  lemma ToRecorded(setup: Setup, start: World, i: nat, now: int)
    requires Agreeable(setup, start, i, now)
    ensures Leads(setup, Received(setup, start, i), Recorded(setup, start, i))
  {
    hide RunAll, Leads, React;
    var w, m := Received(setup, start, i), Given(setup, start, i);
    var w1 := Turn(setup, w, 2, now);
    assert w1.pool[2] == Swapping(Claim(Provider, REQUESTED, 1, AGREED), RecordAgreement);
    assert [REQUESTED] + [AGREED] == [REQUESTED, AGREED];
    var w2 := Turn(setup, w1, 2, now);
    assert w2.pool[2] == Recording && w2.provider == ProviderRow(setup, start, AGREED);
    var w3 := Turn(setup, w2, 2, now);
    assert w3.pool[2] == Over && w3.pool[4] == Reacting(m, 2);
    AgreementIsDecided(setup, w3, m, 2, Choice(true, true, true, now), 0);
    KnownTerms(setup.datasets[i]);
    var w4 := Turn(setup, w3, 4, now);
    assert w4.pool == Recorded(setup, start, i).pool;
    assert w4 == Recorded(setup, start, i);
    FourTurns(setup, w, 2, 2, 2, 4, now);
  }

  lemma KnownTerms(d: Dataset)
    ensures EveryTermIsKnown(TermsOf(d))
  {
  }

  lemma ToVerified(setup: Setup, start: World, i: nat, now: int)
    requires Agreeable(setup, start, i, now)
    ensures Leads(setup, Recorded(setup, start, i), Verified(setup, start, i))
  {
    hide RunAll, Leads, FindDataset;
    var w := Recorded(setup, start, i);
    var push := w.pool[4].(left := setup.backoffs, waiting := Some(5));
    var w1 := Turn(setup, w, 4, now);
    assert w1.pool == w.pool[..4] + [push, Arrived(Provider, Verification)];
    var claim := Claim(Provider, AGREED, 2, VERIFIED);
    var w2 := Turn(setup, w1, 5, now);
    assert w2.pool == w.pool[..4] + [push, Handling(Verification, Updating, claim)];
    assert [REQUESTED, AGREED] + [VERIFIED] == [REQUESTED, AGREED, VERIFIED];
    VerificationIsDecided(setup, w2, claim, Choice(true, true, true, now), i);
    var w3 := Turn(setup, w2, 5, now);
    var last := Verified(setup, start, i).pool[5..];
    assert w3.pool == w.pool[..4] + [push] + last;
    var w4 := Turn(setup, w3, 4, now);
    assert w4.pool == w.pool[..4] + [Swapping(Claim(Consumer, AGREED, 2, VERIFIED), Stop)] + last;
    var w5 := Turn(setup, w4, 4, now);
    assert w5.pool == Verified(setup, start, i).pool;
    assert w5 == Verified(setup, start, i);
    FourTurns(setup, w, 4, 5, 5, 4, now);
    TurnLeads(setup, w4, 4, now);
    LeadsOn(setup, w, w4, w5);
  }

  lemma ToFinalized(setup: Setup, start: World, i: nat, now: int)
    requires Agreeable(setup, start, i, now)
    ensures Leads(setup, Verified(setup, start, i), Finalized(setup, start, i))
  {
    hide RunAll, Leads;
    var w := Verified(setup, start, i);
    var push := w.pool[6].(left := setup.backoffs, waiting := Some(7));
    var w1 := Turn(setup, w, 6, now);
    assert w1.pool == w.pool[..6] + [push, Arrived(Consumer, FinalizedEvent)];
    var w2 := Turn(setup, w1, 7, now);
    assert w2.pool == w.pool[..6] + [push, Handling(FinalizedEvent, Updating, Claim(Consumer, VERIFIED, 3, FINALIZED))];
    assert [REQUESTED, AGREED, VERIFIED] + [FINALIZED] == [REQUESTED, AGREED, VERIFIED, FINALIZED];
    var w3 := Turn(setup, w2, 7, now);
    assert w3.pool == w.pool[..6] + [push, Answered(Consumer, FinalizedEvent, true)];
    var w4 := Turn(setup, w3, 6, now);
    assert w4.pool[6] == Swapping(Claim(Provider, VERIFIED, 3, FINALIZED), Stop);
    var w5 := Turn(setup, w4, 6, now);
    assert w5.pool == Finalized(setup, start, i).pool;
    assert w5 == Finalized(setup, start, i);
    FourTurns(setup, w, 6, 7, 7, 6, now);
    TurnLeads(setup, w4, 6, now);
    LeadsOn(setup, w, w4, w5);
  }

  /** Any agreeable negotiation can run to FINALIZED on both sides by the connectors' own
      steps, both rows through the same states, with one attempt for each of its four
      messages, and with the agreement on record at both. */
  lemma AgreementIsReached(setup: Setup, start: World, i: nat, now: int)
    requires Agreeable(setup, start, i, now)
    ensures exists actions: seq<Action> ::
      && NothingForged(actions)
      && var w := RunAll(setup, start, actions);
         && w.providerLog == [REQUESTED, AGREED, VERIFIED, FINALIZED] == w.consumerLog
         && w.sent == 4
         && setup.providerPid in w.providerAgreements && setup.providerPid in w.consumerAgreements
         && w.providerAgreements[setup.providerPid].dataset == start.consumer.dataset
         && w.consumerAgreements[setup.providerPid].dataset == start.consumer.dataset
  {
    hide RunAll, Acknowledged, Received, Recorded, Verified;
    ToAcknowledged(setup, start, i, now);
    ToReceived(setup, start, i, now);
    LeadsOn(setup, start, Acknowledged(setup, start, i), Received(setup, start, i));
    ToRecorded(setup, start, i, now);
    LeadsOn(setup, start, Received(setup, start, i), Recorded(setup, start, i));
    ToVerified(setup, start, i, now);
    LeadsOn(setup, start, Recorded(setup, start, i), Verified(setup, start, i));
    ToFinalized(setup, start, i, now);
    LeadsOn(setup, start, Verified(setup, start, i), Finalized(setup, start, i));
    FinalizedSays(setup, start, i);
  }

  lemma FinalizedSays(setup: Setup, start: World, i: nat)
    requires i < |setup.datasets|
    ensures var w := Finalized(setup, start, i);
      && w.providerLog == [REQUESTED, AGREED, VERIFIED, FINALIZED] == w.consumerLog
      && w.sent == 4
      && setup.providerPid in w.providerAgreements && setup.providerPid in w.consumerAgreements
      && w.providerAgreements[setup.providerPid].dataset == start.consumer.dataset
      && w.consumerAgreements[setup.providerPid].dataset == start.consumer.dataset
  {
  }
}
