/** The two connectors together: what the consumer's row may rely on about the provider's,
    over a network that loses requests and replies and a retry loop that repeats them. */
module NegotiationParties {
  import opened Storage
  import opened Configuration
  import opened Decisions
  import opened NegotiationWorld
  import opened NegotiationRows
  import Dispatch = NegotiationDispatch
  import Terms = NegotiationTerms

  // ----- a verification is stored only after it was accepted -----

  /** A handler of the provider's for a verification, at work or done. */
  predicate Verifies(g: Goroutine) {
    && (g.Handling? || g.Answered?)
    && g.message == Verification
    && (if g.Handling? then g.claim.role else g.role) == Provider
  }

  predicate ToVerified(c: Claim) {
    c.role == Consumer && c.to == VERIFIED
  }

  /** What stands behind a goroutine about to store VERIFIED at the consumer. */
  ghost predicate Backed(w: World, g: Goroutine) {
    match g
    case Answered(role, message, ok) => Verifies(g) && ok ==> VERIFIED in w.providerLog
    case Pushing(role, _, message, _, waiting, mustSucceed, next, _) =>
      next.Some? && ToVerified(next.value) ==>
        && role == Consumer && message == Verification && mustSucceed
        && (waiting.Some? ==> waiting.value < |w.pool| && Verifies(w.pool[waiting.value]))
    case Swapping(claim, _) => ToVerified(claim) ==> VERIFIED in w.providerLog
    case _ => true
  }

  ghost predicate VerifiedTogether(w: World) {
    VERIFIED in w.consumerLog ==> VERIFIED in w.providerLog
  }

  ghost predicate BackedInvariant(w: World) {
    VerifiedTogether(w) && forall g | g in w.pool :: Backed(w, g)
  }

  /** The world as it is once a step's goroutines are in place. */
  function After(w: World, i: nat, e: Effect): World
    requires i < |w.pool|
  {
    e.world.(pool := w.pool[i := e.me] + e.started)
  }

  /** A handler of a verification stays one, and has its row VERIFIED when it answers 2xx. */
  ghost predicate KeepsBacked(w: World, i: nat, e: Effect)
    requires i < |w.pool|
  {
    && VerifiedTogether(e.world)
    && (Verifies(w.pool[i]) ==> Verifies(e.me))
    && Backed(After(w, i, e), e.me)
    && (forall s | s in e.started :: Backed(After(w, i, e), s))
  }

  lemma BackedLater(w: World, i: nat, e: Effect, g: Goroutine)
    requires i < |w.pool| && g in w.pool && Backed(w, g) && Later(w, e.world)
    requires Verifies(w.pool[i]) ==> Verifies(e.me)
    ensures Backed(After(w, i, e), g)
  {
  }

  lemma HandleKeepsBacked(setup: Setup, w: World, i: nat, now: int)
    requires i < |w.pool| && w.pool[i].Handling? && GoodLogs(w) && Settled(w, w.pool[i]) && BackedInvariant(w)
    ensures var g := w.pool[i];
      KeepsBacked(w, i, Handle(setup, w, g.message, g.pc, g.claim, now))
  {
    hide Path, Update, Create, Genuine;
    var g := w.pool[i];
    if g.pc == Reading && g.message.ContractRequest? {
      CreateKeepsBacked(setup, w, i, now);
    } else if g.pc == Updating && !g.message.CounterRequest? {
      UpdateKeepsBacked(setup, w, i, now);
    }
  }

  lemma CreateKeepsBacked(setup: Setup, w: World, i: nat, now: int)
    requires i < |w.pool| && w.pool[i].Handling? && w.pool[i].message.ContractRequest? && VerifiedTogether(w)
    requires w.provider.None? ==> w.providerLog == []
    ensures KeepsBacked(w, i, Create(setup, w, w.pool[i].message, now))
  {
    hide FindDataset, DecideInitialRequest, Attempts, BuildPermission;
  }

  lemma UpdateKeepsBacked(setup: Setup, w: World, i: nat, now: int)
    requires i < |w.pool| && w.pool[i].Handling? && w.pool[i].pc == Updating && !w.pool[i].message.CounterRequest?
    requires WellFormed(w.pool[i]) && VerifiedTogether(w)
    ensures KeepsBacked(w, i, Update(setup, w, w.pool[i].message, w.pool[i].claim, now))
  {
    hide FindDataset, DecideAccept, TerminatesOnVerify, Attempts, BuildPermission;
    var claim := w.pool[i].claim;
    if Succeeds(w, claim) {
      var w' := Commit(w, claim.role, claim.to);
      assert Log(w', claim.role)[|Log(w, claim.role)|] == claim.to;
    }
  }

  lemma ReactKeepsBacked(setup: Setup, w: World, i: nat)
    requires i < |w.pool| && w.pool[i].Reacting? && VerifiedTogether(w)
    ensures KeepsBacked(w, i, React(setup, w, w.pool[i].message, w.pool[i].seen))
  {
    hide ResolvePolicy, Attempts, HasUnenforceableConstraint;
  }

  lemma PushKeepsBacked(setup: Setup, w: World, i: nat, c: Choice)
    requires i < |w.pool| && w.pool[i].Pushing? && BackedInvariant(w)
    ensures KeepsBacked(w, i, PushStep(setup, w, w.pool[i], c))
  {
    hide Reaches;
    var g, e := w.pool[i], PushStep(setup, w, w.pool[i], c);
    assert Backed(w, g);
    if g.waiting.Some? && g.waiting.value < |w.pool| {
      assert Backed(w, w.pool[g.waiting.value]);
    }
    if e.started != [] {
      assert After(w, i, e).pool[|w.pool|] == e.started[0];
    }
  }

  lemma SwapKeepsBacked(w: World, i: nat)
    requires i < |w.pool| && w.pool[i].Swapping? && BackedInvariant(w)
    ensures KeepsBacked(w, i, SwapStep(w, w.pool[i].claim, w.pool[i].after))
  {
    assert Backed(w, w.pool[i]);
  }

  lemma ActKeepsBacked(setup: Setup, w: World, i: nat, c: Choice)
    requires i < |w.pool| && GoodLogs(w) && Settled(w, w.pool[i]) && BackedInvariant(w)
    ensures KeepsBacked(w, i, Act(setup, w, w.pool[i], c))
  {
    hide Path, Handle, React, PushStep, SwapStep, ResolvePolicy, Attempts;
    assert Backed(w, w.pool[i]);
    match w.pool[i] {
      case Handling(_, _, _) => HandleKeepsBacked(setup, w, i, c.now);
      case Reacting(_, _) => ReactKeepsBacked(setup, w, i);
      case Pushing(_, _, _, _, _, _, _, _) => PushKeepsBacked(setup, w, i, c);
      case Swapping(_, _) => SwapKeepsBacked(w, i);
      case _ =>
    }
  }

  lemma StepKeepsBacked(setup: Setup, w: World, a: Action)
    requires RowsInvariant(w) && BackedInvariant(w)
    ensures BackedInvariant(Step(setup, w, a))
  {
    hide Act, Path, Settled, Backed, Verifies;
    var w' := Step(setup, w, a);
    match a {
      case Run(i, c) =>
        if i < |w.pool| {
          var e := Act(setup, w, w.pool[i], c);
          ActKeepsBacked(setup, w, i, c);
          ActSound(setup, w, w.pool[i], c);
          assert w' == After(w, i, e);
          forall g | g in w'.pool
            ensures Backed(w', g)
          {
            if g in w.pool {
              BackedLater(w, i, e, g);
            }
          }
        }
      case Forge(role, message) =>
        ForgeKeepsBacked(setup, w, role, message);
    }
  }

  lemma ForgeKeepsBacked(setup: Setup, w: World, role: Role, message: Message)
    requires BackedInvariant(w)
    ensures BackedInvariant(Step(setup, w, Forge(role, message)))
  {
    var w' := Step(setup, w, Forge(role, message));
    assert forall g | g in w'.pool :: g in w.pool || g == Arrived(role, message);
    assert forall g | g in w.pool :: Backed(w, g);
  }

  lemma {:induction false} RunKeepsBacked(setup: Setup, w: World, actions: seq<Action>)
    requires RowsInvariant(w) && BackedInvariant(w)
    ensures BackedInvariant(RunAll(setup, w, actions))
    decreases |actions|
  {
    hide RowsInvariant, BackedInvariant, Step;
    if actions == [] {
    } else {
      StepKeepsRows(setup, w, actions[0]);
      StepKeepsBacked(setup, w, actions[0]);
      RunKeepsBacked(setup, Step(setup, w, actions[0]), actions[1..]);
    }
  }

  // ----- whose agreement it is -----

  /** The two connectors' setup, the consumer's row at the start, and all that happens. */
  datatype Parties = Parties(setup: Setup, consumer: ConsumerNegotiation, all: seq<Action>)

  /** An agreement message that names the provider's negotiation and the dataset wanted, or
      a request for what the consumer wants. */
  predicate Own(p: Parties, m: Message) {
    && (m.ContractAgreement? ==> m.id == p.setup.providerPid && m.target == p.consumer.dataset)
    && (m.ContractRequest? ==> m.target == p.consumer.dataset && m.offer == p.consumer.offer)
  }

  /** An agreement that arrived although neither connector sent it. */
  ghost predicate Forged(all: seq<Action>, m: Message) {
    m.ContractAgreement? && exists role :: Forge(role, m) in all
  }

  ghost predicate Accountable(p: Parties, m: Message) {
    Own(p, m) || Forged(p.all, m)
  }

  ghost predicate CarriesOwn(p: Parties, g: Goroutine) {
    (g.Handling? || g.Reacting? || g.Pushing?) ==> Accountable(p, g.message)
  }

  ghost predicate OwnInvariant(p: Parties, w: World) {
    && (forall g | g in w.pool :: CarriesOwn(p, g))
    && (forall m | m in w.agreedBy :: Accountable(p, m))
    && OwnRows(p, w)
  }

  /** Neither row's terms or parties change; the provider's are those of the request. */
  ghost predicate OwnRows(p: Parties, w: World) {
    && w.consumer == p.consumer.(state := w.consumer.state, providerPid := w.consumer.providerPid)
    && (w.provider.Some? ==>
          w.provider.value == Negotiation(
            p.setup.providerPid, p.consumer.consumerPid, w.provider.value.state, p.consumer.dataset, p.consumer.offer,
            "", w.provider.value.rerequested, p.setup.consumerId))
  }

  ghost predicate KeepsOwn(p: Parties, w: World, e: Effect) {
    && OwnRows(p, e.world)
    && CarriesOwn(p, e.me)
    && (forall s | s in e.started :: CarriesOwn(p, s))
    && (forall m | m in e.world.agreedBy :: m in w.agreedBy || Accountable(p, m))
  }

  lemma HandleKeepsOwn(p: Parties, w: World, g: Goroutine, now: int)
    requires g.Handling? && OwnRows(p, w) && CarriesOwn(p, g)
    ensures KeepsOwn(p, w, Handle(p.setup, w, g.message, g.pc, g.claim, now))
  {
    hide Update, FindDataset, DecideInitialRequest, Attempts, BuildPermission, LegalFrom;
    if g.pc == Updating && !g.message.CounterRequest? {
      UpdateKeepsOwn(p, w, g, now);
    }
  }

  lemma UpdateKeepsOwn(p: Parties, w: World, g: Goroutine, now: int)
    requires g.Handling? && OwnRows(p, w) && CarriesOwn(p, g)
    ensures KeepsOwn(p, w, Update(p.setup, w, g.message, g.claim, now))
  {
    hide FindDataset, DecideAccept, TerminatesOnVerify, Attempts, BuildPermission;
  }

  lemma ActKeepsOwn(p: Parties, w: World, g: Goroutine, c: Choice)
    requires OwnRows(p, w) && CarriesOwn(p, g)
    ensures KeepsOwn(p, w, Act(p.setup, w, g, c))
  {
    hide Handle, PushStep, React, ResolvePolicy, Attempts;
    if g.Handling? {
      HandleKeepsOwn(p, w, g, c.now);
    } else if g.Pushing? {
      PushKeepsOwn(p, w, g, c);
    } else if g.Reacting? {
      ReactKeepsOwn(p, w, g);
    }
  }

  lemma PushKeepsOwn(p: Parties, w: World, g: Goroutine, c: Choice)
    requires g.Pushing? && OwnRows(p, w) && CarriesOwn(p, g)
    ensures KeepsOwn(p, w, PushStep(p.setup, w, g, c))
  {
    hide Reaches;
  }

  lemma ReactKeepsOwn(p: Parties, w: World, g: Goroutine)
    requires g.Reacting? && OwnRows(p, w)
    ensures KeepsOwn(p, w, React(p.setup, w, g.message, g.seen))
  {
    hide ResolvePolicy, Attempts, HasUnenforceableConstraint;
  }

  lemma StepKeepsOwn(p: Parties, w: World, a: Action)
    requires OwnInvariant(p, w) && a in p.all
    ensures OwnInvariant(p, Step(p.setup, w, a))
  {
    hide Act;
    var w' := Step(p.setup, w, a);
    match a {
      case Run(i, c) =>
        if i < |w.pool| {
          assert w.pool[i] in w.pool;
          ActKeepsOwn(p, w, w.pool[i], c);
        }
      case Forge(role, message) =>
        assert a == Forge(role, message);
        assert forall g | g in w'.pool :: g in w.pool || g == Arrived(role, message);
    }
  }

  lemma {:induction false} RunKeepsOwn(p: Parties, w: World, actions: seq<Action>)
    requires OwnInvariant(p, w) && forall a | a in actions :: a in p.all
    ensures OwnInvariant(p, RunAll(p.setup, w, actions))
    decreases |actions|
  {
    hide OwnInvariant, Step;
    if actions == [] {
    } else {
      StepKeepsOwn(p, w, actions[0]);
      RunKeepsOwn(p, Step(p.setup, w, actions[0]), actions[1..]);
    }
  }

  // ----- the main results -----

  lemma VerifiedFromAgreed(log: seq<NegotiationState>)
    requires Path(log) && VERIFIED in log
    ensures exists j :: 0 < j < |log| && log[j - 1] == AGREED && log[j] == VERIFIED
  {
    var j :| 0 <= j < |log| && log[j] == VERIFIED;
    assert Edge(log[j - 1], log[j]);
  }

  /** In every run, whatever messages arrive and whatever is lost: a consumer that is
      VERIFIED or FINALIZED has a provider whose row committed AGREED and then VERIFIED. */
  lemma VerifiedOnlyTogether(setup: Setup, start: World, actions: seq<Action>)
    requires Fresh(start)
    ensures var w := RunAll(setup, start, actions);
      w.consumer.state in {VERIFIED, FINALIZED} ==>
        exists j :: 0 < j < |w.providerLog| && w.providerLog[j - 1] == AGREED && w.providerLog[j] == VERIFIED
  {
    FreshRows(start);
    RunKeepsRows(setup, start, actions);
    RunKeepsBacked(setup, start, actions);
    var w := RunAll(setup, start, actions);
    if w.consumer.state in {VERIFIED, FINALIZED} {
      VerifiedOnPath(w.consumerLog);
      VerifiedFromAgreed(w.providerLog);
    }
  }

  lemma VerifiedOnPath(log: seq<NegotiationState>)
    requires Path(log) && log != [] && log[|log| - 1] in {VERIFIED, FINALIZED}
    ensures VERIFIED in log
  {
    assert log[|log| - 1] == FINALIZED ==> Edge(log[|log| - 2], log[|log| - 1]);
  }

  /** In every run, whatever messages arrive: a consumer past AGREED has on record the one
      agreement that moved it there. That names the provider's pid and the dataset both rows
      are about, unless it is an agreement neither connector sent; and at VERIFIED and
      FINALIZED it is about the dataset in any case, with terms the consumer can enforce. */
  lemma VerifiedAgreementIsTheProviders(setup: Setup, start: World, actions: seq<Action>)
    requires Fresh(start)
    ensures var w := RunAll(setup, start, actions);
      w.consumer.state in AGREED_STATES ==>
        && |w.agreedBy| == 1
        && var m := w.agreedBy[0];
           && Terms.OnRecord(w, m)
           && ((m.id == setup.providerPid && m.target == start.consumer.dataset) || Forged(actions, m))
           && (w.consumer.state != AGREED ==> Terms.Adoptable(w, m))
    ensures var w := RunAll(setup, start, actions);
      && w.consumer.dataset == start.consumer.dataset
      && (w.provider.Some? ==>
            && w.provider.value.providerPid == setup.providerPid
            && w.provider.value.dataset == start.consumer.dataset)
  {
    hide Path, RunAll, HasUnenforceableConstraint, Settled, Forged;
    FreshRows(start);
    RunKeepsRows(setup, start, actions);
    RunKeepsOwn(Parties(setup, start.consumer, actions), start, actions);
    Terms.CommitsOnlyToItsTerms(setup, start, actions);
    var w := RunAll(setup, start, actions);
    if w.consumer.state in AGREED_STATES {
      AgreedOnPath(w.consumerLog);
      assert w.agreedBy[0] in w.agreedBy;
      if w.consumer.state != AGREED {
        VerifiedOnPath(w.consumerLog);
      }
    }
  }

  /** So if no other negotiation's agreement arrives, the consumer's agreement row names the
      provider's pid and the dataset. */
  lemma AgreementRowIsTheProviders(setup: Setup, start: World, actions: seq<Action>)
    requires Fresh(start)
    requires forall a | a in actions && a.Forge? && a.message.ContractAgreement? ::
      a.message.id == setup.providerPid && a.message.target == start.consumer.dataset
    ensures var w := RunAll(setup, start, actions);
      w.consumer.state in AGREED_STATES ==>
        && setup.providerPid in w.consumerAgreements
        && w.consumerAgreements[setup.providerPid].dataset == start.consumer.dataset
        && w.consumerAgreements[setup.providerPid].origin == Origin.Agreed
  {
    hide RunAll;
    VerifiedAgreementIsTheProviders(setup, start, actions);
  }

  // ----- what is recorded at the provider -----

  /** The provider's table has what it had, and for this negotiation, if anything, its own
      agreement, with the consumer who asked. */
  ghost predicate RecordsOwn(p: Parties, before: map<string, Agreement>, w: World) {
    && (forall id | id in before :: id in w.providerAgreements && w.providerAgreements[id] == before[id])
    && (forall id | id in w.providerAgreements && id !in before ::
          && id == p.setup.providerPid
          && w.providerAgreements[id] ==
             Agreement(id, p.consumer.dataset, p.consumer.consumerPid, Origin.Negotiated, p.setup.consumerId))
  }

  lemma StepKeepsRecords(p: Parties, before: map<string, Agreement>, w: World, a: Action)
    requires OwnRows(p, w) && RecordsOwn(p, before, w)
    ensures RecordsOwn(p, before, Step(p.setup, w, a))
  {
    hide Act;
    if a.Run? && a.i < |w.pool| {
      Dispatch.ActFiles(p.setup, w, w.pool[a.i], a.choice);
    }
  }

  lemma {:induction false} RunKeepsRecords(p: Parties, before: map<string, Agreement>, w: World, actions: seq<Action>)
    requires OwnInvariant(p, w) && RecordsOwn(p, before, w) && forall a | a in actions :: a in p.all
    ensures RecordsOwn(p, before, RunAll(p.setup, w, actions))
    decreases |actions|
  {
    hide Step, RecordsOwn, CarriesOwn, Accountable;
    if actions == [] {
    } else {
      StepKeepsOwn(p, w, actions[0]);
      StepKeepsRecords(p, before, w, actions[0]);
      RunKeepsRecords(p, before, Step(p.setup, w, actions[0]), actions[1..]);
    }
  }

  /** In every run the agreement recorded for this negotiation is for the dataset the
      consumer asked for, with the consumer's pid and the participant who asked, and marked
      as negotiated; and no other agreement is touched. */
  lemma RecordedAgreementSays(setup: Setup, start: World, actions: seq<Action>)
    requires Fresh(start)
    ensures var w := RunAll(setup, start, actions);
      && (forall id | id != setup.providerPid :: id in w.providerAgreements <==> id in start.providerAgreements)
      && (forall id | id in start.providerAgreements ::
            id in w.providerAgreements && w.providerAgreements[id] == start.providerAgreements[id])
      && (setup.providerPid in w.providerAgreements && setup.providerPid !in start.providerAgreements ==>
            var a := w.providerAgreements[setup.providerPid];
            && a.id == setup.providerPid
            && a.dataset == start.consumer.dataset
            && a.consumerPid == start.consumer.consumerPid
            && a.origin == Origin.Negotiated
            && a.counterparty == setup.consumerId)
  {
    hide RunAll;
    RunKeepsRecords(Parties(setup, start.consumer, actions), start.providerAgreements, start, actions);
  }
}
