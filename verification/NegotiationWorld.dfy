/** One negotiation between two connectors of this code, as a state machine over its atomic
    steps. Handlers and goroutines run concurrently and any of them may go next; a step is
    one SQL statement or transaction, one request attempt sent, or one reply read. Every
    step is a function of the world and of what the environment chooses. */
module NegotiationWorld {
  import opened Prelude
  import opened Storage
  import opened Configuration
  import opened Decisions

  datatype Role = Provider | Consumer

  /** What does not change during a negotiation. backoffs is the length of the retry
      schedule, so that a push makes at most backoffs + 1 attempts; providerPid is the
      identifier the provider generates for its row. */
  datatype Setup = Setup(
    backoffs: nat, datasets: seq<Dataset>, consumerPolicies: seq<ConsumerPolicy>,
    providerPid: string, consumerId: string)

  function Attempts(setup: Setup): nat {
    setup.backoffs + 1
  }

  // ----- goroutines -----

  /** A conditional update a goroutine means to make: from the state it read or wrote
      itself, which was the row's seen-th committed state, to another. */
  datatype Claim = Claim(role: Role, from: NegotiationState, seen: nat, to: NegotiationState)

  /** What dispatch does once its update has been tried. */
  datatype After = Stop | RecordAgreement | WithdrawLater

  datatype HandlerPc = Reading | Inserting | Updating

  datatype Goroutine =
    | Over
    /** The goroutine that opens the negotiation: about to send the initial request, waiting
        for its reply, about to store the provider pid the reply carried. */
    | Opening
    | OpeningReply(handler: nat)
    | OpeningSave(pid: string)
    /** The handler of a delivered request. Once it has read the row it holds a claim. */
    | Handling(message: Message, pc: HandlerPc, claim: Claim)
    /** A handler that has answered: 2xx or not. */
    | Answered(role: Role, message: Message, ok: bool)
    /** A consumer reaction about to re-read the provider pid and apply the policy. */
    | Reacting(message: Message, seen: nat)
    /** A push on its retry schedule: attempts left, the handler whose reply it waits for.
        If the push succeeds, or need not, the claim in next is tried. */
    | Pushing(role: Role, pid: string, message: Message, left: nat, waiting: Option<nat>, mustSucceed: bool,
              next: Option<Claim>, after: After)
    | Swapping(claim: Claim, after: After)
    /** Dispatch's agreement transaction. */
    | Recording
    /** The delayed withdrawal of an informational offer, before it re-reads the state. */
    | Sleeping

  // ----- the world -----

  /** Rows, agreement tables and goroutines of both connectors. providerLog and consumerLog
      are the states each row has committed, in order; sent counts request attempts;
      offeredBy and agreedBy are the messages that moved the consumer's row to OFFERED and
      to AGREED; rerequests counts re-requests answered 200 and walkaways the termination
      goroutines they started. */
  datatype World = World(
    provider: Option<Negotiation>, consumer: ConsumerNegotiation,
    providerAgreements: map<string, Agreement>, consumerAgreements: map<string, Agreement>,
    pool: seq<Goroutine>,
    sent: nat, providerLog: seq<NegotiationState>, consumerLog: seq<NegotiationState>,
    offeredBy: seq<Message>, agreedBy: seq<Message>, rerequests: nat, walkaways: nat)

  function Initial(row: ConsumerNegotiation, providerAgreements: map<string, Agreement>,
      consumerAgreements: map<string, Agreement>): World {
    World(None, row, providerAgreements, consumerAgreements, [Opening], 0, [], [row.state], [], [], 0, 0)
  }

  function Log(w: World, role: Role): seq<NegotiationState> {
    if role == Provider then w.providerLog else w.consumerLog
  }

  function StateOf(w: World, role: Role): Option<NegotiationState> {
    if role == Consumer then Some(w.consumer.state)
    else if w.provider.Some? then Some(w.provider.value.state)
    else None
  }

  /** A row commits a new state. */
  function Commit(w: World, role: Role, to: NegotiationState): World
    requires StateOf(w, role).Some?
  {
    if role == Provider then
      w.(provider := Some(w.provider.value.(state := to)), providerLog := w.providerLog + [to])
    else
      w.(consumer := w.consumer.(state := to), consumerLog := w.consumerLog + [to])
  }

  predicate Succeeds(w: World, claim: Claim) {
    StateOf(w, claim.role) == Some(claim.from)
  }

  /** The compare-and-swap a claim makes. */
  function Swap(w: World, claim: Claim): World {
    if Succeeds(w, claim) then Commit(w, claim.role, claim.to) else w
  }

  // ----- what the environment chooses at a step -----

  /** delivered: an attempt reaches its handler; answered: a waiting attempt reads its
      reply rather than giving up; maySend: the outgoing-address guard and the roster let a
      push go on; now: the time. */
  datatype Choice = Choice(delivered: bool, answered: bool, maySend: bool, now: int)

  /** What a step leaves: the rows, tables and counters; the goroutine that took it; the
      goroutines it started. */
  datatype Effect = Effect(world: World, me: Goroutine, started: seq<Goroutine>)

  // ----- requests handled -----

  /** The state a handled message moves its row to, and where it is legal from. */
  function Target(message: Message): NegotiationState {
    match message
    case ContractRequest(_, _) => REQUESTED
    case CounterRequest(_) => TERMINATED
    case ContractOffer(_) => OFFERED
    case ContractAgreement(_, _, _) => AGREED
    case AcceptedEvent => ACCEPTED
    case FinalizedEvent => FINALIZED
    case Verification => VERIFIED
    case Termination => TERMINATED
  }

  predicate LegalFrom(role: Role, message: Message, state: NegotiationState) {
    match message
    case ContractRequest(_, _) => false
    case CounterRequest(_) => role == Provider && state == OFFERED
    case ContractOffer(_) => role == Consumer && OfferLegalFrom(state)
    case ContractAgreement(_, _, _) => role == Consumer && AgreementLegalFrom(state)
    case AcceptedEvent => role == Provider && state == OFFERED
    case FinalizedEvent => role == Consumer && FinalizedEventLegalFrom(state)
    case Verification => role == Provider && state == AGREED
    case Termination => TerminationLegalFrom(state)
  }

  /** A handler's goroutine at its start. */
  function Arrived(role: Role, message: Message): Goroutine {
    Handling(message, Reading, Claim(role, REQUESTED, 0, Target(message)))
  }

  /** The handler's read: look the row up and check the message against its state. */
  function Read(w: World, role: Role, message: Message): Effect {
    match StateOf(w, role)
    case None => Effect(w, Answered(role, message, false), [])
    case Some(state) =>
      if !LegalFrom(role, message, state) then Effect(w, Answered(role, message, false), [])
      else
        var claim := Claim(role, state, |Log(w, role)|, Target(message));
        Effect(w, Handling(message, if message.ContractAgreement? then Inserting else Updating, claim), [])
  }

  /** The initial request: create the row, acknowledge, start dispatch. */
  function Create(setup: Setup, w: World, message: Message, now: int): Effect
    requires message.ContractRequest?
  {
    if w.provider.Some? then Effect(w, Answered(Provider, message, false), []) else
    var row := Negotiation(setup.providerPid, w.consumer.consumerPid, REQUESTED, message.target, message.offer, "",
      false, setup.consumerId);
    Effect(w.(provider := Some(row), providerLog := [REQUESTED]),
      Answered(Provider, message, true),
      Dispatch(setup, row, 1, DecideInitialRequest(setup.datasets, message.target, message.offer, now)))
  }

  /** Recording what was agreed to, before that it was agreed. */
  function Insert(w: World, message: Message, claim: Claim): Effect
    requires message.ContractAgreement?
  {
    if message.id in w.consumerAgreements then Effect(w, Answered(Consumer, message, false), [])
    else
      var a := Agreement(message.id, message.target, w.consumer.consumerPid, Origin.Agreed, w.consumer.counterparty);
      Effect(w.(consumerAgreements := w.consumerAgreements[message.id := a]), Handling(message, Updating, claim), [])
  }

  /** The one re-request: the flag decides, not the state. */
  function Flag(setup: Setup, w: World, message: Message, claim: Claim): Effect
    requires message.CounterRequest?
  {
    if w.provider.None? || w.provider.value.rerequested then Effect(w, Answered(Provider, message, false), []) else
    var row := w.provider.value;
    var flagged := w.(provider := Some(row.(rerequested := true)), rerequests := w.rerequests + 1);
    if DecideReRequestMatches(row.offer, message.offer) then Effect(flagged, Answered(Provider, message, true), [])
    else Effect(flagged.(walkaways := w.walkaways + 1), Answered(Provider, message, true),
                [Push(setup, Provider, "", Termination, false, Some(claim), Stop)])
  }

  /** The handler's conditional update, and the goroutine a successful one starts. */
  function Update(setup: Setup, w: World, message: Message, claim: Claim, now: int): Effect {
    if !Succeeds(w, claim) then Effect(w, Answered(claim.role, message, false), []) else
    var w' := Commit(w, claim.role, claim.to);
    var seen := |Log(w', claim.role)|;
    var done := Answered(claim.role, message, true);
    match message
    case AcceptedEvent =>
      Effect(w', done, if w'.provider.None? then [] else
        Dispatch(setup, w'.provider.value, seen, DecideAccept(setup.datasets, w'.provider.value.dataset, now)))
    case Verification =>
      Effect(w', done, if w'.provider.None? then [] else
        if TerminatesOnVerify(setup.datasets, w'.provider.value.dataset) then
          [Push(setup, Provider, "", Termination, false, Some(Claim(Provider, VERIFIED, seen, TERMINATED)), Stop)]
        else
          [Push(setup, Provider, "", FinalizedEvent, false, Some(Claim(Provider, VERIFIED, seen, FINALIZED)), Stop)])
    case ContractOffer(_) => Effect(w'.(offeredBy := w.offeredBy + [message]), done, [Reacting(message, seen)])
    case ContractAgreement(_, _, _) => Effect(w'.(agreedBy := w.agreedBy + [message]), done, [Reacting(message, seen)])
    case _ => Effect(w', done, [])
  }

  function Handle(setup: Setup, w: World, message: Message, pc: HandlerPc, claim: Claim, now: int): Effect {
    match pc
    case Reading => if message.ContractRequest? then Create(setup, w, message, now) else Read(w, claim.role, message)
    case Inserting => if message.ContractAgreement? then Insert(w, message, claim) else Effect(w, Over, [])
    case Updating => if message.CounterRequest? then Flag(setup, w, message, claim)
      else Update(setup, w, message, claim, now)
  }

  // ----- pushes -----

  function Push(setup: Setup, role: Role, pid: string, message: Message, mustSucceed: bool, claim: Option<Claim>,
    after: After): Goroutine {
    Pushing(role, pid, message, Attempts(setup), None, mustSucceed, claim, after)
  }

  /** The push dispatch makes for an outcome, and the update it pairs with it. */
  function Dispatch(setup: Setup, n: Negotiation, seen: nat, outcome: NegotiationOutcome): seq<Goroutine> {
    var offer := ContractOffer(BuildPermission(FindDataset(setup.datasets, n.dataset)));
    var agreement :=
      ContractAgreement(n.providerPid, n.dataset, BuildPermission(FindDataset(setup.datasets, n.dataset)));
    if outcome.pushOffer then
      [Push(setup, Provider, "", offer, false, Some(Claim(Provider, n.state, seen, OFFERED)),
            if outcome.pushTermination then WithdrawLater else Stop)]
    else if outcome.pushAgreement then
      [Push(setup, Provider, "", agreement, false, Some(Claim(Provider, n.state, seen, AGREED)), RecordAgreement)]
    else if outcome.pushTermination then
      [Push(setup, Provider, "", Termination, false, Some(Claim(Provider, n.state, seen, TERMINATED)), Stop)]
    else
      []
  }

  /** The consumer's reaction: the policy, diverted when the terms cannot be adopted. */
  function React(setup: Setup, w: World, message: Message, seen: nat): Effect {
    var policy := ResolvePolicy(setup.consumerPolicies, w.consumer.dataset);
    var pid := w.consumer.providerPid;
    match message
    case ContractOffer(permission) =>
      var action := DecideOfferReaction(policy.onOffer, HasUnenforceableConstraint(permission));
      (match action
       case Accept => Effect(w, Push(setup, Consumer, pid, AcceptedEvent, false,
         Some(Claim(Consumer, OFFERED, seen, ACCEPTED)), Stop), [])
       case RejectOffer => Effect(w, Push(setup, Consumer, pid, Termination, false,
         Some(Claim(Consumer, OFFERED, seen, TERMINATED)), Stop), [])
       case Counter => Effect(w, Push(setup, Consumer, pid, CounterRequest(w.consumer.offer), false, None, Stop), [])
       case Passive => Effect(w, Over, []))
    case ContractAgreement(_, target, permission) =>
      var action := DecideAgreementReaction(policy.onAgreement, HasUnenforceableConstraint(permission),
        target != w.consumer.dataset);
      (match action
       case Verify => Effect(w, Push(setup, Consumer, pid, Verification, true,
         Some(Claim(Consumer, AGREED, seen, VERIFIED)), Stop), [])
       case RejectAgreement => Effect(w, Push(setup, Consumer, pid, Termination, false,
         Some(Claim(Consumer, AGREED, seen, TERMINATED)), Stop), []))
    case _ => Effect(w, Over, [])
  }

  /** After a push: the update that follows it, unless it had to succeed and did not. */
  function AfterPush(g: Goroutine, succeeded: bool): Goroutine
    requires g.Pushing?
  {
    if (g.mustSucceed && !succeeded) || g.next.None? then Over else Swapping(g.next.value, g.after)
  }

  /** Whether a request sent by g has a row to reach at the other side. */
  predicate Reaches(setup: Setup, w: World, g: Goroutine)
    requires g.Pushing?
  {
    g.role == Provider || (w.provider.Some? && g.pid == setup.providerPid)
  }

  function Other(role: Role): Role {
    if role == Provider then Consumer else Provider
  }

  /** One turn of the retry loop: send an attempt, or read or give up on its reply. */
  function PushStep(setup: Setup, w: World, g: Goroutine, c: Choice): Effect
    requires g.Pushing?
  {
    match g.waiting
    case None =>
      if g.left == 0 || !c.maySend then Effect(w, AfterPush(g, false), [])
      else if c.delivered && Reaches(setup, w, g) then
        Effect(w.(sent := w.sent + 1), g.(left := g.left - 1, waiting := Some(|w.pool|)),
          [Arrived(Other(g.role), g.message)])
      else
        Effect(w.(sent := w.sent + 1), g.(left := g.left - 1), [])
    case Some(h) =>
      if !c.answered || h >= |w.pool| then Effect(w, g.(waiting := None), [])
      else if !w.pool[h].Answered? then Effect(w, g, [])
      else if w.pool[h].ok then Effect(w, AfterPush(g, true), [])
      else Effect(w, g.(waiting := None), [])
  }

  // ----- the goroutine that opens the negotiation -----

  function Open(w: World, c: Choice): Effect {
    if !c.maySend then Effect(w, Over, [])
    else if c.delivered then
      Effect(w.(sent := w.sent + 1), OpeningReply(|w.pool|),
        [Arrived(Provider, ContractRequest(w.consumer.dataset, w.consumer.offer))])
    else Effect(w.(sent := w.sent + 1), Over, [])
  }

  function OpenReply(setup: Setup, w: World, h: nat, c: Choice): Effect {
    if !c.answered || h >= |w.pool| then Effect(w, Over, [])
    else if !w.pool[h].Answered? then Effect(w, OpeningReply(h), [])
    else if w.pool[h].ok then Effect(w, OpeningSave(setup.providerPid), [])
    else Effect(w, Over, [])
  }

  function OpenSave(setup: Setup, w: World, pid: string): Effect {
    var w' := w.(consumer := w.consumer.(providerPid := pid));
    if ResolvePolicy(setup.consumerPolicies, w.consumer.dataset).onIdle == Abandon then
      var claim := Claim(Consumer, REQUESTED, 1, TERMINATED);
      Effect(w', Push(setup, Consumer, pid, Termination, false, Some(claim), Stop), [])
    else
      Effect(w', Over, [])
  }

  // ----- dispatch's later steps -----

  function SwapStep(w: World, claim: Claim, after: After): Effect {
    match after
    case Stop => Effect(Swap(w, claim), Over, [])
    case RecordAgreement => Effect(Swap(w, claim), Recording, [])
    case WithdrawLater => Effect(Swap(w, claim), Over, [Sleeping])
  }

  /** The agreement recorded for a negotiation that has been agreed. */
  function NegotiatedAgreement(n: Negotiation): Agreement {
    Agreement(n.providerPid, n.dataset, n.consumerPid, Origin.Negotiated, n.counterparty)
  }

  const AGREED_STATES: set<NegotiationState> := {AGREED, VERIFIED, FINALIZED}

  function Record(w: World): Effect {
    if w.provider.Some? && w.provider.value.state in AGREED_STATES
      && w.provider.value.providerPid !in w.providerAgreements then
      var a := NegotiatedAgreement(w.provider.value);
      Effect(w.(providerAgreements := w.providerAgreements[a.id := a]), Over, [])
    else
      Effect(w, Over, [])
  }

  function Wake(setup: Setup, w: World): Effect {
    if StateOf(w, Provider) == Some(OFFERED) then
      var claim := Claim(Provider, OFFERED, |w.providerLog|, TERMINATED);
      Effect(w, Push(setup, Provider, "", Termination, false, Some(claim), Stop), [])
    else
      Effect(w, Over, [])
  }

  // ----- steps and runs -----

  function Act(setup: Setup, w: World, g: Goroutine, c: Choice): Effect {
    match g
    case Over => Effect(w, g, [])
    case Opening => Open(w, c)
    case OpeningReply(h) => OpenReply(setup, w, h, c)
    case OpeningSave(pid) => OpenSave(setup, w, pid)
    case Handling(message, pc, claim) => Handle(setup, w, message, pc, claim, c.now)
    case Answered(_, _, _) => Effect(w, g, [])
    case Reacting(message, seen) => React(setup, w, message, seen)
    case Pushing(_, _, _, _, _, _, _, _) => PushStep(setup, w, g, c)
    case Swapping(claim, after) => SwapStep(w, claim, after)
    case Recording => Record(w)
    case Sleeping => Wake(setup, w)
  }

  /** Either a goroutine takes its next step, or a message from anyone at all arrives: one
      that this model's two connectors never sent. */
  datatype Action = Run(i: nat, choice: Choice) | Forge(role: Role, message: Message)

  function Step(setup: Setup, w: World, a: Action): World {
    match a
    case Run(i, c) =>
      if i >= |w.pool| then w else
      var e := Act(setup, w, w.pool[i], c);
      e.world.(pool := w.pool[i := e.me] + e.started)
    case Forge(role, message) =>
      if message.ContractRequest? then w else w.(pool := w.pool + [Arrived(role, message)])
  }

  function RunAll(setup: Setup, w: World, actions: seq<Action>): World
    decreases |actions|
  {
    if actions == [] then w else RunAll(setup, Step(setup, w, actions[0]), actions[1..])
  }
}
