/** What every run keeps about the two rows: they only climb, a conditional update succeeds
    only on a row that has not moved, and whatever messages arrive cannot change that. */
module NegotiationRows {
  import opened Prelude
  import opened Storage
  import opened Configuration
  import opened Decisions
  import opened NegotiationWorld

  // ----- the order of states -----

  function Rank(s: NegotiationState): nat {
    match s
    case REQUESTED => 0
    case OFFERED => 1
    case ACCEPTED => 2
    case AGREED => 3
    case VERIFIED => 4
    case FINALIZED => 5
    case TERMINATED => 5
  }

  /** The transitions of the negotiation protocol. */
  predicate Edge(a: NegotiationState, b: NegotiationState) {
    match a
    case REQUESTED => b in {OFFERED, AGREED, TERMINATED}
    case OFFERED => b in {ACCEPTED, TERMINATED}
    case ACCEPTED => b in {AGREED, TERMINATED}
    case AGREED => b in {VERIFIED, TERMINATED}
    case VERIFIED => b in {FINALIZED, TERMINATED}
    case FINALIZED => false
    case TERMINATED => false
  }

  ghost predicate Path(log: seq<NegotiationState>) {
    && (log != [] ==> log[0] == REQUESTED)
    && (forall i | 0 < i < |log| :: Edge(log[i - 1], log[i]))
  }

  lemma {:induction false} PathClimbs(log: seq<NegotiationState>, i: nat, j: nat)
    requires Path(log) && i < j < |log|
    ensures Rank(log[i]) < Rank(log[j])
    decreases j
  {
    assert Edge(log[j - 1], log[j]);
    if i < j - 1 {
      PathClimbs(log, i, j - 1);
    }
  }

  lemma {:induction false} PathRank(log: seq<NegotiationState>, i: nat)
    requires Path(log) && i < |log|
    ensures Rank(log[i]) >= i
  {
    if i == 0 {
    } else {
      PathRank(log, i - 1);
      assert Edge(log[i - 1], log[i]);
    }
  }

  /** A path never repeats a state, never leaves FINALIZED or TERMINATED, and has at most
      five steps. */
  lemma PathIsShort(log: seq<NegotiationState>)
    requires Path(log)
    ensures |log| <= 6
    ensures forall i, j | 0 <= i < j < |log| :: log[i] != log[j] && log[i] != FINALIZED && log[i] != TERMINATED
  {
    if log != [] {
      PathRank(log, |log| - 1);
    }
    forall i, j | 0 <= i < j < |log|
      ensures log[i] != log[j] && log[i] != FINALIZED && log[i] != TERMINATED
    {
      PathClimbs(log, i, j);
      assert Edge(log[i], log[i + 1]);
    }
  }

  /** A row that has not been agreed yet has never committed AGREED, and one that has, has. */
  lemma AgreedOnPath(log: seq<NegotiationState>)
    requires Path(log) && log != []
    ensures log[|log| - 1] in AGREED_STATES ==> AGREED in log
    ensures log[|log| - 1] in {REQUESTED, OFFERED, ACCEPTED} ==> AGREED !in log
  {
    PathIsShort(log);
    if log[|log| - 1] == VERIFIED {
      assert Edge(log[|log| - 2], log[|log| - 1]);
    } else if log[|log| - 1] == FINALIZED {
      assert Edge(log[|log| - 2], log[|log| - 1]);
      assert Edge(log[|log| - 3], log[|log| - 2]);
    }
    if AGREED in log && log[|log| - 1] in {REQUESTED, OFFERED, ACCEPTED} {
      var k :| 0 <= k < |log| && log[k] == AGREED;
      PathClimbs(log, k, |log| - 1);
    }
  }

  // ----- the invariant -----

  /** The row's log is a path to its present state. */
  ghost predicate GoodLog(w: World, role: Role) {
    && Path(Log(w, role))
    && (match StateOf(w, role)
        case None => Log(w, role) == []
        case Some(s) => Log(w, role) != [] && Log(w, role)[|Log(w, role)| - 1] == s)
  }

  /** The conditional update a goroutine is on its way to, if it is on its way to one. */
  function ClaimOf(g: Goroutine): Option<Claim> {
    match g
    case Handling(message, pc, claim) => if pc == Reading then None else Some(claim)
    case Reacting(message, seen) => Some(Claim(Consumer, Target(message), seen, TERMINATED))
    case Pushing(_, _, _, _, _, _, next, _) => next
    case Swapping(claim, _) => Some(claim)
    case _ => None
  }

  /** A claim names a state its row did commit, and a transition of the protocol. */
  ghost predicate Genuine(w: World, c: Claim) {
    && 1 <= c.seen <= |Log(w, c.role)|
    && Log(w, c.role)[c.seen - 1] == c.from
    && Edge(c.from, c.to)
  }

  /** A goroutine is where its message can have brought it. */
  ghost predicate WellFormed(g: Goroutine) {
    match g
    case Handling(message, pc, claim) =>
      && (pc == Inserting ==> message.ContractAgreement?)
      && (pc != Reading ==> LegalFrom(claim.role, message, claim.from) && claim.to == Target(message))
    case Reacting(message, _) => message.ContractOffer? || message.ContractAgreement?
    case _ => true
  }

  ghost predicate Settled(w: World, g: Goroutine) {
    WellFormed(g) && (ClaimOf(g).Some? ==> Genuine(w, ClaimOf(g).value))
  }

  ghost predicate RowsInvariant(w: World) {
    && GoodLog(w, Provider) && GoodLog(w, Consumer)
    && forall g | g in w.pool :: Settled(w, g)
  }

  /** w' is w or later. */
  ghost predicate Later(w: World, w': World) {
    w.providerLog <= w'.providerLog && w.consumerLog <= w'.consumerLog
  }

  lemma SettledLater(w: World, w': World, g: Goroutine)
    requires Later(w, w') && Settled(w, g)
    ensures Settled(w', g)
  {
  }

  /** A step's effect keeps the rows sound and starts only settled goroutines. */
  ghost predicate Sound(w: World, e: Effect) {
    && GoodLog(e.world, Provider) && GoodLog(e.world, Consumer)
    && Later(w, e.world)
    && Settled(e.world, e.me)
    && (forall g | g in e.started :: Settled(e.world, g))
  }

  ghost predicate GoodLogs(w: World) {
    GoodLog(w, Provider) && GoodLog(w, Consumer)
  }

  // ----- every kind of step is sound -----

  lemma CommitSound(w: World, c: Claim)
    requires GoodLogs(w) && Succeeds(w, c) && Edge(c.from, c.to)
    ensures var w' := Commit(w, c.role, c.to);
      && GoodLogs(w') && Later(w, w')
      && StateOf(w', c.role) == Some(c.to)
      && Log(w', c.role) == Log(w, c.role) + [c.to]
  {
  }

  lemma DispatchSound(setup: Setup, w: World, n: Negotiation, seen: nat, outcome: NegotiationOutcome)
    requires 1 <= seen <= |w.providerLog| && w.providerLog[seen - 1] == n.state
    requires n.state == REQUESTED || (n.state == ACCEPTED && !outcome.pushOffer)
    ensures forall g | g in Dispatch(setup, n, seen, outcome) :: Settled(w, g)
  {
  }

  lemma HandleSound(setup: Setup, w: World, message: Message, pc: HandlerPc, claim: Claim, now: int)
    requires GoodLogs(w) && Settled(w, Handling(message, pc, claim))
    ensures Sound(w, Handle(setup, w, message, pc, claim, now))
  {
    hide Read, Create, Insert, Flag, Update, Path, Sound;
    match pc {
      case Reading =>
        if message.ContractRequest? {
          CreateSound(setup, w, message, now);
        } else {
          ReadSound(w, claim.role, message);
        }
      case Inserting =>
        InsertSound(w, message, claim);
      case Updating =>
        if message.CounterRequest? {
          FlagSound(setup, w, message, claim);
        } else {
          UpdateSound(setup, w, message, claim, now);
        }
    }
  }

  lemma CreateSound(setup: Setup, w: World, message: Message, now: int)
    requires GoodLogs(w) && message.ContractRequest?
    ensures Sound(w, Create(setup, w, message, now))
  {
    hide Dispatch, DecideInitialRequest;
    if w.provider.None? {
      var e := Create(setup, w, message, now);
      DispatchSound(setup, e.world, e.world.provider.value, 1,
        DecideInitialRequest(setup.datasets, message.target, message.offer, now));
    }
  }

  lemma InsertSound(w: World, message: Message, claim: Claim)
    requires GoodLogs(w) && Settled(w, Handling(message, Inserting, claim))
    ensures Sound(w, Insert(w, message, claim))
  {
    hide Path;
  }

  lemma FlagSound(setup: Setup, w: World, message: Message, claim: Claim)
    requires GoodLogs(w) && Settled(w, Handling(message, Updating, claim)) && message.CounterRequest?
    ensures Sound(w, Flag(setup, w, message, claim))
  {
    hide Path;
  }

  lemma ReadSound(w: World, role: Role, message: Message)
    requires GoodLogs(w) && !message.ContractRequest?
    ensures Sound(w, Read(w, role, message))
  {
  }

  lemma UpdateSound(setup: Setup, w: World, message: Message, claim: Claim, now: int)
    requires GoodLogs(w) && Settled(w, Handling(message, Updating, claim)) && !message.CounterRequest?
    ensures Sound(w, Update(setup, w, message, claim, now))
  {
    hide Path, FindDataset, Dispatch;
    if Succeeds(w, claim) {
      CommitSound(w, claim);
      StartedSound(setup, w, message, claim, now);
    }
  }

  /** What a successful update starts claims the state it has just written. */
  lemma StartedSound(setup: Setup, w: World, message: Message, claim: Claim, now: int)
    requires GoodLogs(w) && Settled(w, Handling(message, Updating, claim)) && !message.CounterRequest?
    requires Succeeds(w, claim)
    ensures forall g | g in Update(setup, w, message, claim, now).started ::
      Settled(Update(setup, w, message, claim, now).world, g)
  {
    hide Path, FindDataset, Dispatch;
    CommitSound(w, claim);
    if message.AcceptedEvent? {
      var w' := Commit(w, claim.role, claim.to);
      DispatchSound(setup, w', w'.provider.value, |w'.providerLog|,
        DecideAccept(setup.datasets, w'.provider.value.dataset, now));
    }
  }

  lemma SwapSound(w: World, claim: Claim, after: After)
    requires GoodLogs(w) && Genuine(w, claim)
    ensures Sound(w, SwapStep(w, claim, after))
  {
    if Succeeds(w, claim) {
      CommitSound(w, claim);
    }
  }

  lemma ActSound(setup: Setup, w: World, g: Goroutine, c: Choice)
    requires GoodLogs(w) && Settled(w, g)
    ensures Sound(w, Act(setup, w, g, c))
  {
    hide Handle, SwapStep, OpenSave, React, PushStep, Open, OpenReply, Path;
    match g {
      case Handling(message, pc, claim) => HandleSound(setup, w, message, pc, claim, c.now);
      case Swapping(claim, after) => SwapSound(w, claim, after);
      case Reacting(message, seen) => ReactSound(setup, w, message, seen);
      case OpeningSave(pid) => OpenSaveSound(setup, w, pid);
      case Opening => OpenSound(w, c);
      case OpeningReply(h) => OpenReplySound(setup, w, h, c);
      case Pushing(_, _, _, _, _, _, _, _) => PushSound(setup, w, g, c);
      case _ =>
    }
  }

  lemma PushSound(setup: Setup, w: World, g: Goroutine, c: Choice)
    requires GoodLogs(w) && g.Pushing? && Settled(w, g)
    ensures Sound(w, PushStep(setup, w, g, c))
  {
    hide Path, Reaches, Attempts;
  }

  lemma OpenSound(w: World, c: Choice)
    requires GoodLogs(w)
    ensures Sound(w, Open(w, c))
  {
    hide Path, Genuine;
  }

  lemma OpenReplySound(setup: Setup, w: World, h: nat, c: Choice)
    requires GoodLogs(w)
    ensures Sound(w, OpenReply(setup, w, h, c))
  {
    hide Path, Genuine;
  }

  lemma OpenSaveSound(setup: Setup, w: World, pid: string)
    requires GoodLogs(w)
    ensures Sound(w, OpenSave(setup, w, pid))
  {
    hide ResolvePolicy;
    assert w.consumerLog[0] == REQUESTED;
  }

  lemma ReactSound(setup: Setup, w: World, message: Message, seen: nat)
    requires GoodLogs(w) && Settled(w, Reacting(message, seen))
    ensures Sound(w, React(setup, w, message, seen))
  {
    hide ResolvePolicy, Path, HasUnenforceableConstraint, Attempts;
  }

  lemma StepKeepsRows(setup: Setup, w: World, a: Action)
    requires RowsInvariant(w)
    ensures RowsInvariant(Step(setup, w, a))
    ensures Later(w, Step(setup, w, a))
  {
    hide Act, Settled, Path;
    var w' := Step(setup, w, a);
    match a {
      case Run(i, c) =>
        if i < |w.pool| {
          var e := Act(setup, w, w.pool[i], c);
          ActSound(setup, w, w.pool[i], c);
          forall g | g in w'.pool
            ensures Settled(w', g)
          {
            if g in w.pool {
              SettledLater(w, w', g);
            } else {
              SettledLater(e.world, w', g);
            }
          }
        }
      case Forge(role, message) =>
        forall g | g in w'.pool
          ensures Settled(w', g)
        {
          if g in w.pool {
            SettledLater(w, w', g);
          } else {
            ArrivedSettled(w', role, message);
          }
        }
    }
  }

  lemma ArrivedSettled(w: World, role: Role, message: Message)
    ensures Settled(w, Arrived(role, message))
  {
  }

  /** From the start, under every interleaving and whatever messages arrive. */
  lemma {:induction false} RunKeepsRows(setup: Setup, w: World, actions: seq<Action>)
    requires RowsInvariant(w)
    ensures RowsInvariant(RunAll(setup, w, actions))
    ensures Later(w, RunAll(setup, w, actions))
    decreases |actions|
  {
    if actions == [] {
    } else {
      StepKeepsRows(setup, w, actions[0]);
      RunKeepsRows(setup, Step(setup, w, actions[0]), actions[1..]);
    }
  }

  // ----- what the invariant gives -----

  /** A connector about to start negotiating, with whatever agreements it already has. */
  predicate Fresh(w: World) {
    w == Initial(w.consumer, w.providerAgreements, w.consumerAgreements) && w.consumer.state == REQUESTED
      && w.consumer.providerPid == ""
  }

  lemma FreshRows(w: World)
    requires Fresh(w)
    ensures RowsInvariant(w)
  {
  }

  /** In every run a row's committed states climb strictly: a row changes at most five
      times, never twice to the same state, and never leaves FINALIZED or TERMINATED. */
  lemma RowsOnlyClimb(setup: Setup, w: World, actions: seq<Action>, role: Role)
    requires Fresh(w)
    ensures var log := Log(RunAll(setup, w, actions), role);
      && |log| <= 6
      && (forall i, j | 0 <= i < j < |log| ::
            Rank(log[i]) < Rank(log[j]) && log[i] != FINALIZED && log[i] != TERMINATED)
  {
    FreshRows(w);
    RunKeepsRows(setup, w, actions);
    var log := Log(RunAll(setup, w, actions), role);
    PathIsShort(log);
    forall i, j | 0 <= i < j < |log|
      ensures Rank(log[i]) < Rank(log[j])
    {
      PathClimbs(log, i, j);
    }
  }

  lemma CurrentClaim(w: World, g: Goroutine)
    requires RowsInvariant(w) && g in w.pool && ClaimOf(g).Some? && Succeeds(w, ClaimOf(g).value)
    ensures var c := ClaimOf(g).value;
      c.seen == |Log(w, c.role)| && Edge(c.from, c.to)
  {
    var c := ClaimOf(g).value;
    assert Settled(w, g);
    PathIsShort(Log(w, c.role));
  }

  /** In every run, whatever messages arrive: a conditional update that succeeds finds the
      very state its goroutine read or wrote. The row has committed nothing since, not even
      a change that was changed back. */
  lemma SwapMeansUnmoved(setup: Setup, start: World, actions: seq<Action>, g: Goroutine)
    requires Fresh(start) && g in RunAll(setup, start, actions).pool
    requires ClaimOf(g).Some? && Succeeds(RunAll(setup, start, actions), ClaimOf(g).value)
    ensures var c, w := ClaimOf(g).value, RunAll(setup, start, actions);
      c.seen == |Log(w, c.role)| && Edge(c.from, c.to)
  {
    hide RunAll, RowsInvariant, Fresh, ClaimOf;
    FreshRows(start);
    RunKeepsRows(setup, start, actions);
    CurrentClaim(RunAll(setup, start, actions), g);
  }
}
