/** What the consumer's row has committed to: whatever messages arrive, it verifies only the
    one agreement that moved it to AGREED and accepts only the one offer that moved it to
    OFFERED, and those carry no term it cannot enforce and no dataset it did not ask for. */
module NegotiationTerms {
  import opened Storage
  import opened Configuration
  import opened Decisions
  import opened NegotiationWorld
  import opened NegotiationRows

  /** An agreement this connector may verify. */
  predicate Adoptable(w: World, m: Message) {
    m.ContractAgreement? && !HasUnenforceableConstraint(m.permission) && m.target == w.consumer.dataset
  }

  /** An offer this connector may accept. */
  predicate Acceptable(m: Message) {
    m.ContractOffer? && !HasUnenforceableConstraint(m.permission)
  }

  /** The consumer's agreement table holds the agreement this message announced. */
  predicate OnRecord(w: World, m: Message) {
    m.ContractAgreement? && m.id in w.consumerAgreements
    && w.consumerAgreements[m.id] ==
       Agreement(m.id, m.target, w.consumer.consumerPid, Origin.Agreed, w.consumer.counterparty)
  }

  /** A claim of the consumer's outside its handlers has the grounds it needs. */
  ghost predicate Grounded(w: World, c: Claim) {
    c.role == Consumer ==>
      && c.to in {ACCEPTED, VERIFIED, TERMINATED}
      && (c.to == ACCEPTED ==> |w.offeredBy| == 1 && Acceptable(w.offeredBy[0]))
      && (c.to == VERIFIED ==> |w.agreedBy| == 1 && Adoptable(w, w.agreedBy[0]))
  }

  ghost predicate Justified(w: World, g: Goroutine) {
    match g
    case Pushing(_, _, _, _, _, _, next, _) => next.Some? ==> Grounded(w, next.value)
    case Swapping(claim, _) => Grounded(w, claim)
    case Reacting(m, _) => if m.ContractOffer? then w.offeredBy == [m] else w.agreedBy == [m]
    case Handling(m, pc, claim) => pc == Updating && m.ContractAgreement? ==> OnRecord(w, m)
    case _ => true
  }

  /** The messages kept with the row are the ones its log calls for. */
  ghost predicate Remembered(w: World) {
    && |w.offeredBy| == (if OFFERED in w.consumerLog then 1 else 0)
    && |w.agreedBy| == (if AGREED in w.consumerLog then 1 else 0)
    && (ACCEPTED in w.consumerLog ==> |w.offeredBy| == 1 && Acceptable(w.offeredBy[0]))
    && (VERIFIED in w.consumerLog ==> |w.agreedBy| == 1 && Adoptable(w, w.agreedBy[0]))
    && (w.agreedBy != [] ==> OnRecord(w, w.agreedBy[0]))
  }

  ghost predicate TermsInvariant(w: World) {
    Remembered(w) && forall g | g in w.pool :: Justified(w, g)
  }

  /** The consumer's row keeps its identity, its tables keep their rows, its memory its
      messages. */
  ghost predicate Keeps(w: World, w': World) {
    && w'.consumer.consumerPid == w.consumer.consumerPid
    && w'.consumer.dataset == w.consumer.dataset
    && w'.consumer.counterparty == w.consumer.counterparty
    && (forall id | id in w.consumerAgreements ::
          id in w'.consumerAgreements && w'.consumerAgreements[id] == w.consumerAgreements[id])
    && w.offeredBy <= w'.offeredBy && w.agreedBy <= w'.agreedBy
    && |w'.offeredBy| <= 1 && |w'.agreedBy| <= 1
  }

  lemma JustifiedLater(w: World, w': World, g: Goroutine)
    requires Keeps(w, w') && Justified(w, g)
    ensures Justified(w', g)
  {
  }

  ghost predicate KeepsTerms(w: World, e: Effect) {
    && Remembered(e.world) && Keeps(w, e.world)
    && Justified(e.world, e.me)
    && (forall g | g in e.started :: Justified(e.world, g))
  }

  /** A log that gains a state it did not have. */
  lemma NewState(w: World, c: Claim)
    requires GoodLogs(w) && Succeeds(w, c) && Edge(c.from, c.to)
    ensures c.to !in Log(w, c.role)
    ensures forall s :: s in Log(w, c.role) + [c.to] <==> s in Log(w, c.role) || s == c.to
  {
    CommitSound(w, c);
    var log := Log(Commit(w, c.role, c.to), c.role);
    PathIsShort(log);
    assert log[|log| - 1] == c.to;
  }

  lemma UpdateKeepsTerms(setup: Setup, w: World, message: Message, claim: Claim, now: int)
    requires GoodLogs(w) && Settled(w, Handling(message, Updating, claim))
      && Justified(w, Handling(message, Updating, claim))
    requires Remembered(w) && !message.CounterRequest?
    ensures KeepsTerms(w, Update(setup, w, message, claim, now))
  {
    hide Path, Update, KeepsTerms, Remembered;
    if !Succeeds(w, claim) {
      LostUpdateKeepsTerms(setup, w, message, claim, now);
    } else if claim.role == Provider {
      ProviderUpdateKeepsTerms(setup, w, message, claim, now);
    } else {
      ConsumerUpdateKeepsTerms(setup, w, message, claim, now);
    }
  }

  lemma LostUpdateKeepsTerms(setup: Setup, w: World, message: Message, claim: Claim, now: int)
    requires Remembered(w) && !Succeeds(w, claim)
    ensures KeepsTerms(w, Update(setup, w, message, claim, now))
  {
    hide HasUnenforceableConstraint;
  }

  lemma ProviderUpdateKeepsTerms(setup: Setup, w: World, message: Message, claim: Claim, now: int)
    requires Settled(w, Handling(message, Updating, claim)) && Remembered(w) && !message.CounterRequest?
    requires Succeeds(w, claim) && claim.role == Provider
    ensures KeepsTerms(w, Update(setup, w, message, claim, now))
  {
    hide Path, FindDataset, HasUnenforceableConstraint, DecideAccept, TerminatesOnVerify;
    var e := Update(setup, w, message, claim, now);
    assert Remembered(e.world) && Keeps(w, e.world);
  }

  lemma ConsumerUpdateKeepsTerms(setup: Setup, w: World, message: Message, claim: Claim, now: int)
    requires GoodLogs(w) && Settled(w, Handling(message, Updating, claim))
      && Justified(w, Handling(message, Updating, claim))
    requires Remembered(w) && !message.CounterRequest?
    requires Succeeds(w, claim) && claim.role == Consumer
    ensures KeepsTerms(w, Update(setup, w, message, claim, now))
  {
    hide Path, HasUnenforceableConstraint, DecideAccept, TerminatesOnVerify, Dispatch;
    NewState(w, claim);
    var e := Update(setup, w, message, claim, now);
    assert e.world.consumerLog == w.consumerLog + [claim.to];
    assert Remembered(e.world);
  }

  lemma SwapKeepsTerms(w: World, claim: Claim, after: After)
    requires GoodLogs(w) && Genuine(w, claim) && Grounded(w, claim) && Remembered(w)
    ensures KeepsTerms(w, SwapStep(w, claim, after))
  {
    hide Path, HasUnenforceableConstraint, Swap, Remembered, Keeps, GoodLog;
    SwapRemembers(w, claim);
  }

  lemma SwapRemembers(w: World, claim: Claim)
    requires GoodLogs(w) && Genuine(w, claim) && Grounded(w, claim) && Remembered(w)
    ensures Remembered(Swap(w, claim)) && Keeps(w, Swap(w, claim))
  {
    hide Path, HasUnenforceableConstraint, GoodLog;
    if Succeeds(w, claim) {
      NewState(w, claim);
      if claim.role == Consumer {
        CommitRemembers(w, claim);
      }
    }
  }

  lemma CommitRemembers(w: World, claim: Claim)
    requires GoodLogs(w) && Succeeds(w, claim) && Edge(claim.from, claim.to) && claim.role == Consumer
    requires Grounded(w, claim) && Remembered(w)
    ensures var w' := Commit(w, Consumer, claim.to); Remembered(w') && Keeps(w, w')
  {
    hide Path, HasUnenforceableConstraint, GoodLog;
    NewState(w, claim);
    assert Commit(w, Consumer, claim.to).consumerLog == w.consumerLog + [claim.to];
  }

  lemma HandleKeepsTerms(setup: Setup, w: World, message: Message, pc: HandlerPc, claim: Claim, now: int)
    requires GoodLogs(w) && Settled(w, Handling(message, pc, claim)) && Justified(w, Handling(message, pc, claim))
    requires Remembered(w)
    ensures KeepsTerms(w, Handle(setup, w, message, pc, claim, now))
  {
    hide Read, Create, Insert, Flag, Update, Path, KeepsTerms, Remembered;
    match pc {
      case Reading =>
        if message.ContractRequest? {
          CreateKeepsTerms(setup, w, message, now);
        } else {
          ReadKeepsTerms(w, claim.role, message);
        }
      case Inserting =>
        InsertKeepsTerms(w, message, claim);
      case Updating =>
        if message.CounterRequest? {
          FlagKeepsTerms(setup, w, message, claim);
        } else {
          UpdateKeepsTerms(setup, w, message, claim, now);
        }
    }
  }

  lemma CreateKeepsTerms(setup: Setup, w: World, message: Message, now: int)
    requires Remembered(w) && message.ContractRequest?
    ensures KeepsTerms(w, Create(setup, w, message, now))
  {
    hide HasUnenforceableConstraint, FindDataset, DecideInitialRequest, Attempts, BuildPermission;
  }

  lemma ReadKeepsTerms(w: World, role: Role, message: Message)
    requires Remembered(w)
    ensures KeepsTerms(w, Read(w, role, message))
  {
    hide HasUnenforceableConstraint;
  }

  lemma InsertKeepsTerms(w: World, message: Message, claim: Claim)
    requires Remembered(w) && message.ContractAgreement?
    ensures KeepsTerms(w, Insert(w, message, claim))
  {
    hide HasUnenforceableConstraint;
  }

  lemma FlagKeepsTerms(setup: Setup, w: World, message: Message, claim: Claim)
    requires Remembered(w) && message.CounterRequest? && claim.role == Provider
    ensures KeepsTerms(w, Flag(setup, w, message, claim))
  {
    hide HasUnenforceableConstraint, Attempts;
  }

  lemma ActKeepsTerms(setup: Setup, w: World, g: Goroutine, c: Choice)
    requires GoodLogs(w) && Settled(w, g) && Justified(w, g) && Remembered(w)
    ensures KeepsTerms(w, Act(setup, w, g, c))
  {
    hide GoodLog, Handle, SwapStep, React, PushStep, Open, OpenReply, OpenSave, Record, Wake, KeepsTerms, Remembered;
    match g {
      case Over => IdleKeepsTerms(w, g);
      case Answered(_, _, _) => IdleKeepsTerms(w, g);
      case Opening => OpenKeepsTerms(setup, w, 0, c);
      case OpeningReply(h) => OpenKeepsTerms(setup, w, h, c);
      case OpeningSave(pid) => OpenSaveKeepsTerms(setup, w, pid);
      case Handling(message, pc, claim) => HandleKeepsTerms(setup, w, message, pc, claim, c.now);
      case Swapping(claim, after) => SwapKeepsTerms(w, claim, after);
      case Reacting(message, seen) => ReactKeepsTerms(setup, w, message, seen);
      case Pushing(_, _, _, _, _, _, _, _) => PushKeepsTerms(setup, w, g, c);
      case Recording => ProviderStepKeepsTerms(setup, w);
      case Sleeping => ProviderStepKeepsTerms(setup, w);
    }
  }

  lemma IdleKeepsTerms(w: World, g: Goroutine)
    requires Remembered(w) && Justified(w, g)
    ensures KeepsTerms(w, Effect(w, g, []))
  {
    hide HasUnenforceableConstraint;
  }

  lemma OpenKeepsTerms(setup: Setup, w: World, h: nat, c: Choice)
    requires Remembered(w)
    ensures KeepsTerms(w, Open(w, c)) && KeepsTerms(w, OpenReply(setup, w, h, c))
  {
    hide HasUnenforceableConstraint;
  }

  lemma OpenSaveKeepsTerms(setup: Setup, w: World, pid: string)
    requires Remembered(w)
    ensures KeepsTerms(w, OpenSave(setup, w, pid))
  {
    hide HasUnenforceableConstraint, ResolvePolicy;
  }

  lemma PushKeepsTerms(setup: Setup, w: World, g: Goroutine, c: Choice)
    requires g.Pushing? && Remembered(w) && Justified(w, g)
    ensures KeepsTerms(w, PushStep(setup, w, g, c))
  {
    hide HasUnenforceableConstraint, Reaches, Grounded;
    var e := PushStep(setup, w, g, c);
    assert Remembered(e.world) && Keeps(w, e.world);
    JustifiedLater(w, e.world, g);
  }

  lemma ProviderStepKeepsTerms(setup: Setup, w: World)
    requires Remembered(w)
    ensures KeepsTerms(w, Record(w)) && KeepsTerms(w, Wake(setup, w))
  {
    hide HasUnenforceableConstraint, Attempts;
  }

  lemma ReactKeepsTerms(setup: Setup, w: World, message: Message, seen: nat)
    requires Settled(w, Reacting(message, seen)) && Justified(w, Reacting(message, seen)) && Remembered(w)
    ensures KeepsTerms(w, React(setup, w, message, seen))
  {
    hide GoodLog, HasUnenforceableConstraint, ResolvePolicy, Attempts;
  }

  lemma StepKeepsTerms(setup: Setup, w: World, a: Action)
    requires RowsInvariant(w) && TermsInvariant(w)
    ensures TermsInvariant(Step(setup, w, a))
  {
    hide Act, Path, HasUnenforceableConstraint;
    var w' := Step(setup, w, a);
    match a {
      case Run(i, c) =>
        if i < |w.pool| {
          var e := Act(setup, w, w.pool[i], c);
          ActKeepsTerms(setup, w, w.pool[i], c);
          forall g | g in w'.pool
            ensures Justified(w', g)
          {
            JustifiedLater(if g in w.pool then w else e.world, w', g);
          }
        }
      case Forge(role, message) =>
        forall g | g in w'.pool
          ensures Justified(w', g)
        {
          assert g in w.pool || g == Arrived(role, message);
        }
    }
  }

  lemma {:induction false} RunKeepsTerms(setup: Setup, w: World, actions: seq<Action>)
    requires RowsInvariant(w) && TermsInvariant(w)
    ensures TermsInvariant(RunAll(setup, w, actions))
    decreases |actions|
  {
    if actions == [] {
    } else {
      StepKeepsRows(setup, w, actions[0]);
      StepKeepsTerms(setup, w, actions[0]);
      RunKeepsTerms(setup, Step(setup, w, actions[0]), actions[1..]);
    }
  }

  /** Whatever messages arrive and however the goroutines interleave: a consumer row that
      commits VERIFIED did so for the single agreement message that moved it to AGREED, and
      that message carried only recognised constraints and the requested dataset; one that
      commits ACCEPTED did so for the single, enforceable offer that moved it to OFFERED;
      and one that commits AGREED has that agreement on record. */
  lemma CommitsOnlyToItsTerms(setup: Setup, w: World, actions: seq<Action>)
    requires Fresh(w)
    ensures var w' := RunAll(setup, w, actions);
      && |w'.agreedBy| <= 1 && |w'.offeredBy| <= 1
      && (VERIFIED in w'.consumerLog ==> |w'.agreedBy| == 1 && Adoptable(w', w'.agreedBy[0]))
      && (ACCEPTED in w'.consumerLog ==> |w'.offeredBy| == 1 && Acceptable(w'.offeredBy[0]))
      && (AGREED in w'.consumerLog ==> |w'.agreedBy| == 1 && OnRecord(w', w'.agreedBy[0]))
  {
    FreshRows(w);
    RunKeepsTerms(setup, w, actions);
  }
}
