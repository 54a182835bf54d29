/** How dispatch's agreement branch ends, under every interleaving and whatever messages
    arrive, and what becomes of an agreement. */
module NegotiationDispatch {
  import opened Prelude
  import opened Storage
  import opened Configuration
  import opened Decisions
  import opened NegotiationWorld
  import opened NegotiationRows

  // ----- one dispatch at a time -----

  /** The claim of a push or of the update after it, and what follows. */
  function NextClaim(g: Goroutine): Option<Claim> {
    match g
    case Pushing(_, _, _, _, _, _, next, _) => next
    case Swapping(claim, _) => Some(claim)
    case _ => None
  }

  predicate Records(g: Goroutine) {
    (g.Pushing? || g.Swapping?) && g.after == RecordAgreement
  }

  /** Dispatch on its way to move the provider's row on, before its update. */
  predicate Forward(g: Goroutine) {
    var c := NextClaim(g);
    c.Some? && c.value.role == Provider && c.value.to != TERMINATED && c.value.from in {REQUESTED, ACCEPTED}
  }

  /** Dispatch before its update or, in the agreement branch, before its transaction. */
  predicate Busy(g: Goroutine) {
    Forward(g) || g.Recording?
  }

  const AFTER_AGREEMENT: set<Option<NegotiationState>> :=
    {Some(AGREED), Some(VERIFIED), Some(FINALIZED), Some(TERMINATED)}

  /** Before its update, dispatch finds its row where it left it or terminated; before its
      transaction it finds it past the agreement or terminated. */
  ghost predicate OnTrack(w: World, g: Goroutine) {
    && (Forward(g) ==> StateOf(w, Provider) in {Some(NextClaim(g).value.from), Some(TERMINATED)})
    && (Records(g) ==> NextClaim(g).Some? && Forward(g) && NextClaim(g).value.to == AGREED)
    && (Records(g) && g.Pushing? ==> !g.mustSucceed)
    && (g.Recording? ==> StateOf(w, Provider) in AFTER_AGREEMENT)
  }

  /** A claim of the provider's outside its handlers either is dispatch's, terminates, or
      finalizes; one to AGREED is in dispatch's agreement branch. */
  ghost predicate Plain(g: Goroutine) {
    var c := NextClaim(g);
    c.Some? && c.value.role == Provider ==>
      && (Forward(g) || c.value.to == TERMINATED || (c.value.from == VERIFIED && c.value.to == FINALIZED))
      && (c.value.to == AGREED ==> Records(g))
  }

  ghost predicate NoneBusy(w: World) {
    forall g | g in w.pool :: !Busy(g)
  }

  ghost predicate OneBusy(w: World) {
    forall i, j | 0 <= i < |w.pool| && 0 <= j < |w.pool| && Busy(w.pool[i]) && Busy(w.pool[j]) :: i == j
  }

  /** The agreement is recorded only once it has been committed, and not while dispatch has
      still to record it. */
  ghost predicate RecordedOnce(setup: Setup, w: World) {
    && (setup.providerPid in w.providerAgreements ==> AGREED in w.providerLog)
    && (forall g | g in w.pool && (Records(g) || g.Recording?) :: setup.providerPid !in w.providerAgreements)
    && (w.provider.Some? ==> w.provider.value.providerPid == setup.providerPid)
  }

  ghost predicate DispatchInvariant(setup: Setup, w: World) {
    && (forall g | g in w.pool :: OnTrack(w, g) && Plain(g))
    && OneBusy(w)
    && RecordedOnce(setup, w)
  }

  // ----- a step that moves the provider's row -----

  /** What a step may do to the provider's state without derailing the others: nothing,
      terminate it, or move it on when no other goroutine is busy. */
  ghost predicate Moves(w: World, w': World, g: Goroutine) {
    || StateOf(w', Provider) == StateOf(w, Provider)
    || StateOf(w', Provider) == Some(TERMINATED)
    || StateOf(w, Provider) in {None, Some(OFFERED)}
    || Forward(g)
    || (StateOf(w, Provider) in {Some(AGREED), Some(VERIFIED)} && StateOf(w', Provider) in AFTER_AGREEMENT)
  }

  /** What the goroutines a step leaves may be: busy only if it was, or if none was. */
  ghost predicate Hands(setup: Setup, w: World, g: Goroutine, e: Effect) {
    && OnTrack(e.world, e.me) && (forall s | s in e.started :: OnTrack(e.world, s))
    && |e.started| <= 1
    && (Busy(e.me) ==> Busy(g) && forall s | s in e.started :: !Busy(s))
    && (Records(e.me) || e.me.Recording? ==> Records(g))
    && (forall s | s in e.started && Busy(s) :: NoneBusy(w) && setup.providerPid !in w.providerAgreements)
  }

  lemma OthersOnTrack(w: World, w': World, i: nat, j: nat)
    requires i < |w.pool| && j < |w.pool| && i != j && OneBusy(w)
    requires Moves(w, w', w.pool[i]) && OnTrack(w, w.pool[j])
    ensures OnTrack(w', w.pool[j])
  {
  }

  lemma NoneBusyBefore(w: World)
    requires StateOf(w, Provider) in {None, Some(OFFERED)}
    requires forall g | g in w.pool :: OnTrack(w, g)
    ensures NoneBusy(w)
  {
  }

  // ----- every kind of step -----

  ghost predicate Steers(setup: Setup, w: World, g: Goroutine, e: Effect) {
    Hands(setup, w, g, e) && Moves(w, e.world, g)
  }

  lemma CreateSteers(setup: Setup, w: World, message: Message, now: int, g: Goroutine)
    requires GoodLogs(w) && DispatchInvariant(setup, w) && message.ContractRequest?
    ensures Steers(setup, w, g, Create(setup, w, message, now))
  {
    hide Path, FindDataset, DecideInitialRequest, Attempts, BuildPermission;
    if w.provider.None? {
      NoneBusyBefore(w);
    }
  }

  lemma UpdateSteers(setup: Setup, w: World, message: Message, claim: Claim, now: int)
    requires GoodLogs(w) && DispatchInvariant(setup, w) && Settled(w, Handling(message, Updating, claim))
    requires !message.CounterRequest?
    ensures Steers(setup, w, Handling(message, Updating, claim), Update(setup, w, message, claim, now))
  {
    hide Path, Steers, Update, OneBusy, Plain, Genuine;
    if claim.role == Consumer || !Succeeds(w, claim) {
      QuietUpdateSteers(setup, w, message, claim, now);
    } else if message.AcceptedEvent? {
      AgreedOnPath(w.providerLog);
      NoneBusyBefore(w);
      AcceptSteers(setup, w, message, claim, now);
    } else {
      ProviderUpdateSteers(setup, w, message, claim, now);
    }
  }

  lemma QuietUpdateSteers(setup: Setup, w: World, message: Message, claim: Claim, now: int)
    requires WellFormed(Handling(message, Updating, claim)) && !message.CounterRequest?
    requires claim.role == Consumer || !Succeeds(w, claim)
    ensures Steers(setup, w, Handling(message, Updating, claim), Update(setup, w, message, claim, now))
  {
  }

  lemma ProviderUpdateSteers(setup: Setup, w: World, message: Message, claim: Claim, now: int)
    requires WellFormed(Handling(message, Updating, claim)) && !message.CounterRequest? && !message.AcceptedEvent?
    requires claim.role == Provider && Succeeds(w, claim)
    ensures Steers(setup, w, Handling(message, Updating, claim), Update(setup, w, message, claim, now))
  {
    hide TerminatesOnVerify, Attempts;
  }

  lemma AcceptSteers(setup: Setup, w: World, message: Message, claim: Claim, now: int)
    requires WellFormed(Handling(message, Updating, claim)) && message.AcceptedEvent? && Succeeds(w, claim)
    requires NoneBusy(w) && setup.providerPid !in w.providerAgreements
    ensures Steers(setup, w, Handling(message, Updating, claim), Update(setup, w, message, claim, now))
  {
    hide FindDataset, DecideAccept, Attempts, BuildPermission, NoneBusy;
  }

  lemma HandleSteers(setup: Setup, w: World, message: Message, pc: HandlerPc, claim: Claim, now: int)
    requires GoodLogs(w) && DispatchInvariant(setup, w) && Settled(w, Handling(message, pc, claim))
    ensures Steers(setup, w, Handling(message, pc, claim), Handle(setup, w, message, pc, claim, now))
  {
    hide Path, Create, Update, Attempts, NoneBusy, OneBusy;
    var g := Handling(message, pc, claim);
    match pc {
      case Reading =>
        if message.ContractRequest? {
          CreateSteers(setup, w, message, now, g);
        }
      case Inserting =>
      case Updating =>
        if !message.CounterRequest? {
          UpdateSteers(setup, w, message, claim, now);
        }
    }
  }

  lemma SwapSteers(setup: Setup, w: World, claim: Claim, after: After)
    requires GoodLogs(w) && DispatchInvariant(setup, w) && OnTrack(w, Swapping(claim, after)) && Genuine(w, claim)
    requires Plain(Swapping(claim, after))
    ensures Steers(setup, w, Swapping(claim, after), SwapStep(w, claim, after))
  {
    hide Path, NoneBusy, OneBusy;
  }

  lemma ActSteers(setup: Setup, w: World, g: Goroutine, c: Choice)
    requires GoodLogs(w) && DispatchInvariant(setup, w) && g in w.pool && Settled(w, g)
    ensures Steers(setup, w, g, Act(setup, w, g, c))
  {
    hide Path, Handle, SwapStep, ResolvePolicy, Attempts, NoneBusy, OneBusy, PushStep, React, Genuine;
    match g {
      case Handling(message, pc, claim) => HandleSteers(setup, w, message, pc, claim, c.now);
      case Swapping(claim, after) => SwapSteers(setup, w, claim, after);
      case Pushing(_, _, _, _, _, _, _, _) => PushSteers(setup, w, g, c);
      case Reacting(message, seen) => ReactSteers(setup, w, message, seen);
      case _ =>
    }
  }

  lemma PushSteers(setup: Setup, w: World, g: Goroutine, c: Choice)
    requires g.Pushing? && OnTrack(w, g)
    ensures Steers(setup, w, g, PushStep(setup, w, g, c))
  {
    hide NoneBusy, Reaches;
  }

  lemma ReactSteers(setup: Setup, w: World, message: Message, seen: nat)
    ensures Steers(setup, w, Reacting(message, seen), React(setup, w, message, seen))
  {
    hide NoneBusy, ResolvePolicy, Attempts, HasUnenforceableConstraint;
  }

  ghost predicate AllPlain(e: Effect) {
    Plain(e.me) && forall s | s in e.started :: Plain(s)
  }

  lemma ActKeepsPlain(setup: Setup, w: World, g: Goroutine, c: Choice)
    requires Settled(w, g) && Plain(g)
    ensures AllPlain(Act(setup, w, g, c))
  {
    hide Genuine, Handle, PushStep, React;
    match g {
      case Handling(message, pc, claim) => HandleKeepsPlain(setup, w, message, pc, claim, c.now);
      case Pushing(_, _, _, _, _, _, _, _) => PushKeepsPlain(setup, w, g, c);
      case Reacting(message, seen) => ReactKeepsPlain(setup, w, message, seen);
      case _ =>
    }
  }

  lemma HandleKeepsPlain(setup: Setup, w: World, message: Message, pc: HandlerPc, claim: Claim, now: int)
    requires WellFormed(Handling(message, pc, claim))
    ensures AllPlain(Handle(setup, w, message, pc, claim, now))
  {
    hide Attempts, FindDataset, DecideInitialRequest, DecideAccept, BuildPermission, TerminatesOnVerify;
  }

  lemma PushKeepsPlain(setup: Setup, w: World, g: Goroutine, c: Choice)
    requires g.Pushing? && Plain(g)
    ensures AllPlain(PushStep(setup, w, g, c))
  {
    hide Reaches;
  }

  lemma ReactKeepsPlain(setup: Setup, w: World, message: Message, seen: nat)
    ensures AllPlain(React(setup, w, message, seen))
  {
    hide ResolvePolicy, Attempts, HasUnenforceableConstraint;
  }

  // ----- the invariant, over runs -----

  lemma StepKeepsOneBusy(setup: Setup, w: World, i: nat, e: Effect)
    requires i < |w.pool| && OneBusy(w) && Hands(setup, w, w.pool[i], e)
    ensures OneBusy(e.world.(pool := w.pool[i := e.me] + e.started))
  {
    hide Busy, OnTrack, Records;
    var pool' := w.pool[i := e.me] + e.started;
    forall j, k | 0 <= j < |pool'| && 0 <= k < |pool'| && Busy(pool'[j]) && Busy(pool'[k])
      ensures j == k
    {
      assert j < |w.pool| && j != i ==> Busy(w.pool[j]) && pool'[j] in w.pool;
      assert k < |w.pool| && k != i ==> Busy(w.pool[k]) && pool'[k] in w.pool;
      assert j >= |w.pool| ==> pool'[j] in e.started;
      assert k >= |w.pool| ==> pool'[k] in e.started;
    }
  }

  /** The provider's row keeps its identifier, and only dispatch's transaction adds to the
      provider's agreements: what the row says, if the row has been agreed. */
  ghost predicate Files(setup: Setup, w: World, g: Goroutine, e: Effect) {
    && (e.world.provider.Some? ==>
          e.world.provider.value.providerPid == if w.provider.Some? then w.provider.value.providerPid
            else setup.providerPid)
    && (w.provider.Some? ==> e.world.provider.Some?)
    && (e.world.providerAgreements == w.providerAgreements
        || (&& g.Recording? && e.world.provider == w.provider && w.provider.Some?
            && e.me == Over && e.started == []
            && w.provider.value.state in AGREED_STATES
            && w.provider.value.providerPid !in w.providerAgreements
            && e.world.providerAgreements == w.providerAgreements[w.provider.value.providerPid :=
               NegotiatedAgreement(w.provider.value)]))
  }

  lemma ActFiles(setup: Setup, w: World, g: Goroutine, c: Choice)
    ensures Files(setup, w, g, Act(setup, w, g, c))
  {
    hide Handle, PushStep, React, Open, OpenReply, OpenSave;
    match g {
      case Handling(message, pc, claim) => HandleFiles(setup, w, message, pc, claim, c.now);
      case Pushing(_, _, _, _, _, _, _, _) => OtherFiles(setup, w, g, c);
      case Reacting(_, _) => OtherFiles(setup, w, g, c);
      case Opening => OtherFiles(setup, w, g, c);
      case OpeningReply(_) => OtherFiles(setup, w, g, c);
      case OpeningSave(_) => OtherFiles(setup, w, g, c);
      case _ =>
    }
  }

  lemma HandleFiles(setup: Setup, w: World, message: Message, pc: HandlerPc, claim: Claim, now: int)
    ensures Files(setup, w, Handling(message, pc, claim), Handle(setup, w, message, pc, claim, now))
  {
    hide Attempts, FindDataset, DecideInitialRequest, DecideAccept, BuildPermission, TerminatesOnVerify, Dispatch,
      LegalFrom;
  }

  lemma OtherFiles(setup: Setup, w: World, g: Goroutine, c: Choice)
    requires !g.Handling? && !g.Swapping? && !g.Recording?
    ensures Files(setup, w, g, Act(setup, w, g, c))
  {
    hide ResolvePolicy, Attempts, HasUnenforceableConstraint, Reaches;
  }

  lemma StepKeepsRecordedOnce(setup: Setup, w: World, i: nat, e: Effect)
    requires RowsInvariant(w) && DispatchInvariant(setup, w) && i < |w.pool|
    requires Hands(setup, w, w.pool[i], e) && Files(setup, w, w.pool[i], e) && Later(w, e.world)
    ensures RecordedOnce(setup, e.world.(pool := w.pool[i := e.me] + e.started))
  {
    hide Path, Settled, Plain;
    var w' := e.world.(pool := w.pool[i := e.me] + e.started);
    if w.pool[i].Recording? && w.provider.Some? {
      AgreedOnPath(w.providerLog);
    }
    assert forall s | s in e.started && (Records(s) || s.Recording?) :: Busy(s);
    forall j: nat | j < |w'.pool| && (Records(w'.pool[j]) || w'.pool[j].Recording?)
      ensures setup.providerPid !in w'.providerAgreements
    {
      assert j < |w.pool| && j != i ==> w'.pool[j] == w.pool[j] && w.pool[j] in w.pool && Busy(w.pool[j]);
      assert j >= |w.pool| ==> w'.pool[j] in e.started;
    }
  }

  lemma StepKeepsDispatch(setup: Setup, w: World, a: Action)
    requires RowsInvariant(w) && DispatchInvariant(setup, w)
    ensures DispatchInvariant(setup, Step(setup, w, a))
  {
    hide Act, Path, Settled, OneBusy, Plain, RecordedOnce, Hands, Moves, Files, OnTrack;
    match a {
      case Run(i, c) =>
        if i < |w.pool| {
          var e, w' := Act(setup, w, w.pool[i], c), Step(setup, w, a);
          ActSteers(setup, w, w.pool[i], c);
          ActKeepsPlain(setup, w, w.pool[i], c);
          ActFiles(setup, w, w.pool[i], c);
          StepKeepsRows(setup, w, a);
          StepKeepsOneBusy(setup, w, i, e);
          StepKeepsRecordedOnce(setup, w, i, e);
          StepKeepsOnTrack(setup, w, i, e);
        }
      case Forge(role, message) =>
        ForgeKeepsDispatch(setup, w, role, message);
    }
  }

  lemma StepKeepsOnTrack(setup: Setup, w: World, i: nat, e: Effect)
    requires DispatchInvariant(setup, w) && i < |w.pool| && Steers(setup, w, w.pool[i], e)
    requires AllPlain(e)
    ensures var w' := e.world.(pool := w.pool[i := e.me] + e.started);
      forall g | g in w'.pool :: OnTrack(w', g) && Plain(g)
  {
    hide Plain, Moves, RecordedOnce, OneBusy, Records, Forward;
    var w' := e.world.(pool := w.pool[i := e.me] + e.started);
    forall j: nat | j < |w'.pool|
      ensures OnTrack(w', w'.pool[j]) && Plain(w'.pool[j])
    {
      if j < |w.pool| && j != i {
        assert w'.pool[j] == w.pool[j] && w.pool[j] in w.pool;
        OthersOnTrack(w, e.world, i, j);
      } else if j >= |w.pool| {
        assert w'.pool[j] in e.started;
      }
    }
  }

  lemma ForgeKeepsDispatch(setup: Setup, w: World, role: Role, message: Message)
    requires DispatchInvariant(setup, w)
    ensures DispatchInvariant(setup, Step(setup, w, Forge(role, message)))
  {
    var w' := Step(setup, w, Forge(role, message));
    if !message.ContractRequest? {
      assert forall g | g in w'.pool :: g in w.pool || g == Arrived(role, message);
      assert !Busy(Arrived(role, message));
      forall j, k | 0 <= j < |w'.pool| && 0 <= k < |w'.pool| && Busy(w'.pool[j]) && Busy(w'.pool[k])
        ensures j == k
      {
        assert j < |w.pool| && k < |w.pool|;
      }
    }
  }

  lemma {:induction false} RunKeepsDispatch(setup: Setup, w: World, actions: seq<Action>)
    requires RowsInvariant(w) && DispatchInvariant(setup, w)
    ensures RowsInvariant(RunAll(setup, w, actions)) && DispatchInvariant(setup, RunAll(setup, w, actions))
    decreases |actions|
  {
    hide RowsInvariant, DispatchInvariant, Step;
    if actions == [] {
    } else {
      StepKeepsRows(setup, w, actions[0]);
      StepKeepsDispatch(setup, w, actions[0]);
      RunKeepsDispatch(setup, Step(setup, w, actions[0]), actions[1..]);
    }
  }

  lemma FreshDispatch(setup: Setup, w: World)
    requires Fresh(w) && setup.providerPid !in w.providerAgreements
    ensures RowsInvariant(w) && DispatchInvariant(setup, w)
  {
    FreshRows(w);
  }

  /** The agreement branch goes on to its transaction whether or not the push arrives. */
  lemma AgreementBranchGoesOn(setup: Setup, start: World, actions: seq<Action>, i: nat, c: Choice)
    requires Fresh(start) && setup.providerPid !in start.providerAgreements
    requires i < |RunAll(setup, start, actions).pool| && Records(RunAll(setup, start, actions).pool[i])
    ensures var w' := Step(setup, RunAll(setup, start, actions), Run(i, c));
      Records(w'.pool[i]) || w'.pool[i].Recording?
  {
    hide Path, Settled, Plain, Forward, OneBusy, Reaches;
    FreshDispatch(setup, start);
    RunKeepsDispatch(setup, start, actions);
    var w := RunAll(setup, start, actions);
    assert w.pool[i] in w.pool;
  }

  /** The agreement branch ends in exactly one of two ways. In every run, whatever arrives,
      a goroutine at its recording transaction either finds the row past AGREED and records
      exactly what the row says, or finds it TERMINATED and records nothing. */
  lemma RecordingEndsOneOfTwoWays(setup: Setup, start: World, actions: seq<Action>, i: nat, c: Choice)
    requires Fresh(start) && setup.providerPid !in start.providerAgreements
    requires i < |RunAll(setup, start, actions).pool| && RunAll(setup, start, actions).pool[i].Recording?
    ensures var w := RunAll(setup, start, actions);
      var w' := Step(setup, w, Run(i, c));
      && w.provider.Some? && w'.provider == w.provider && w'.pool[i] == Over
      && if w.provider.value.state == TERMINATED then w'.providerAgreements == w.providerAgreements
         else
           && AGREED in w.providerLog
           && setup.providerPid !in w.providerAgreements
           && w'.providerAgreements == w.providerAgreements[setup.providerPid := NegotiatedAgreement(w.provider.value)]
  {
    hide Path, Settled, Plain, Busy, OneBusy, Fresh, RunAll;
    FreshDispatch(setup, start);
    RunKeepsDispatch(setup, start, actions);
    var w := RunAll(setup, start, actions);
    assert w.pool[i] in w.pool && OnTrack(w, w.pool[i]);
    AgreedOnPath(w.providerLog);
  }

  /** In every run an agreement of the negotiation is on record at the provider only if the
      provider's row committed AGREED. */
  lemma RecordedMeansAgreed(setup: Setup, start: World, actions: seq<Action>)
    requires Fresh(start) && setup.providerPid !in start.providerAgreements
    ensures var w := RunAll(setup, start, actions);
      setup.providerPid in w.providerAgreements ==> AGREED in w.providerLog
  {
    FreshDispatch(setup, start);
    RunKeepsDispatch(setup, start, actions);
  }

  // ----- what becomes of an agreement -----

  /** A committed agreement is on record, or about to be, or its negotiation was terminated. */
  ghost predicate Accounted(setup: Setup, w: World) {
    AGREED in w.providerLog ==>
      || setup.providerPid in w.providerAgreements
      || StateOf(w, Provider) == Some(TERMINATED)
      || exists g :: g in w.pool && g.Recording?
  }

  /** Only dispatch's agreement branch commits AGREED at the provider, and then goes on to
      its transaction. */
  lemma ActCommitsAgreed(setup: Setup, w: World, g: Goroutine, c: Choice)
    requires Settled(w, g) && Plain(g)
    ensures var e := Act(setup, w, g, c);
      AGREED in e.world.providerLog && AGREED !in w.providerLog ==> e.me.Recording?
  {
    hide Handle, PushStep, React, ResolvePolicy, Attempts, Genuine;
    if g.Handling? {
      HandleCommitsNoAgreement(setup, w, g, c.now);
    } else if g.Pushing? || g.Reacting? {
      LogUntouched(setup, w, g, c);
    }
  }

  lemma HandleCommitsNoAgreement(setup: Setup, w: World, g: Goroutine, now: int)
    requires g.Handling? && WellFormed(g)
    ensures AGREED in Handle(setup, w, g.message, g.pc, g.claim, now).world.providerLog ==> AGREED in w.providerLog
  {
    hide Attempts, FindDataset, DecideInitialRequest, DecideAccept, BuildPermission, TerminatesOnVerify, Dispatch;
  }

  lemma LogUntouched(setup: Setup, w: World, g: Goroutine, c: Choice)
    requires g.Pushing? || g.Reacting?
    ensures Act(setup, w, g, c).world.providerLog == w.providerLog
  {
    hide Reaches, ResolvePolicy, Attempts, HasUnenforceableConstraint;
  }

  lemma StepKeepsAccounted(setup: Setup, w: World, a: Action)
    requires RowsInvariant(w) && DispatchInvariant(setup, w) && Accounted(setup, w)
    ensures Accounted(setup, Step(setup, w, a))
  {
    hide Act, Path, Settled, OneBusy, Plain, Hands, Moves, Genuine;
    var w' := Step(setup, w, a);
    StepKeepsRows(setup, w, a);
    if a.Run? && a.i < |w.pool| {
      var e := Act(setup, w, w.pool[a.i], a.choice);
      ActCommitsAgreed(setup, w, w.pool[a.i], a.choice);
      ActFiles(setup, w, w.pool[a.i], a.choice);
      assert w'.pool[a.i] == e.me;
      TerminatedStays(w, w');
      if w.pool[a.i].Recording? {
        RecordingSettles(setup, w, a.i, a.choice);
      } else if g :| g in w.pool && g.Recording? {
        var j :| 0 <= j < |w.pool| && w.pool[j] == g;
        assert w'.pool[j] == g;
      }
    }
  }

  lemma TerminatedStays(w: World, w': World)
    requires GoodLogs(w) && GoodLogs(w') && Later(w, w')
    ensures StateOf(w, Provider) == Some(TERMINATED) ==> StateOf(w', Provider) == Some(TERMINATED)
  {
    PathIsShort(w'.providerLog);
  }

  lemma RecordingSettles(setup: Setup, w: World, i: nat, c: Choice)
    requires RowsInvariant(w) && DispatchInvariant(setup, w) && i < |w.pool| && w.pool[i].Recording?
    ensures var w' := Step(setup, w, Run(i, c));
      setup.providerPid in w'.providerAgreements || StateOf(w', Provider) == Some(TERMINATED)
  {
    hide Path, Settled, Plain, OneBusy;
    assert w.pool[i] in w.pool && OnTrack(w, w.pool[i]);
  }

  lemma {:induction false} RunKeepsAccounted(setup: Setup, w: World, actions: seq<Action>)
    requires RowsInvariant(w) && DispatchInvariant(setup, w) && Accounted(setup, w)
    ensures Accounted(setup, RunAll(setup, w, actions))
    decreases |actions|
  {
    hide RowsInvariant, DispatchInvariant, Step, Accounted;
    if actions == [] {
    } else {
      StepKeepsRows(setup, w, actions[0]);
      StepKeepsDispatch(setup, w, actions[0]);
      StepKeepsAccounted(setup, w, actions[0]);
      RunKeepsAccounted(setup, Step(setup, w, actions[0]), actions[1..]);
    }
  }

  /** In every run, once no goroutine is at its recording transaction, a negotiation that
      was agreed either is on record at the provider or was terminated. */
  lemma EveryAgreementIsRecordedOrTerminated(setup: Setup, start: World, actions: seq<Action>)
    requires Fresh(start) && setup.providerPid !in start.providerAgreements
    ensures var w := RunAll(setup, start, actions);
      AGREED in w.providerLog && (forall g | g in w.pool :: !g.Recording?) ==>
        setup.providerPid in w.providerAgreements || w.providerLog[|w.providerLog| - 1] == TERMINATED
  {
    FreshDispatch(setup, start);
    RunKeepsDispatch(setup, start, actions);
    RunKeepsAccounted(setup, start, actions);
  }
}
