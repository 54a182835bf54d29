/** A negotiation goes quiet: under every interleaving its goroutines end, having sent a
    bounded number of requests. */
module NegotiationQuiet {
  import opened Prelude
  import opened Storage
  import opened Configuration
  import opened Decisions
  import opened NegotiationWorld
  import opened NegotiationRows

  // ----- what is still to come -----

  /** What is counted: request attempts or goroutine steps. */
  datatype Unit = Requests | Steps

  function Amount(u: Unit, requests: nat, steps: nat): nat {
    if u.Requests? then requests else steps
  }

  /** The most that the update after a push may lead to. An attempt costs five steps:
      sending it, three of its handler, reading its reply. */
  function OfSwap(u: Unit, k: nat, after: After): nat {
    match after
    case Stop => Amount(u, 0, 1)
    case RecordAgreement => Amount(u, 0, 2)
    case WithdrawLater => Amount(u, k, 5 * k + 4)
  }

  /** The most a goroutine may still do, apart from the goroutines its commits start. */
  function Owed(u: Unit, k: nat, g: Goroutine): nat {
    match g
    case Over => 0
    case Opening => Amount(u, k + 1, 5 * k + 8)
    case OpeningReply(_) => Amount(u, k, 5 * k + 4)
    case OpeningSave(_) => Amount(u, k, 5 * k + 3)
    case Handling(_, pc, _) => Amount(u, 0, if pc == Reading then 3 else if pc == Inserting then 2 else 1)
    case Answered(_, _, _) => 0
    case Reacting(_, _) => Amount(u, k, 5 * k + 3)
    case Pushing(_, _, _, left, waiting, _, _, after) =>
      Amount(u, left, 5 * left + if waiting.Some? then 2 else 1) + OfSwap(u, k, after)
    case Swapping(_, after) => OfSwap(u, k, after)
    case Recording => Amount(u, 0, 1)
    case Sleeping => Amount(u, k, 5 * k + 3)
  }

  function Total(u: Unit, k: nat, pool: seq<Goroutine>): nat {
    if pool == [] then 0 else Owed(u, k, pool[0]) + Total(u, k, pool[1..])
  }

  /** One more push, if the rows still allow what would start it. */
  function Chance(u: Unit, k: nat, open: bool): nat {
    if open then Amount(u, k, 5 * k + 3) else 0
  }

  predicate Below(s: Option<NegotiationState>, rank: nat) {
    s.None? || Rank(s.value) < rank
  }

  predicate Rerequested(w: World) {
    w.provider.Some? && w.provider.value.rerequested
  }

  /** What the rows' remaining transitions may start: two pushes for the row's creation,
      one for its acceptance, its verification and its re-request; a reaction to the offer
      and one to the agreement. */
  function OfRows(u: Unit, k: nat, w: World): nat {
    var provider, consumer := StateOf(w, Provider), StateOf(w, Consumer);
    Chance(u, k, provider.None?) + Chance(u, k, provider.None?)
    + Chance(u, k, Below(provider, 2)) + Chance(u, k, Below(provider, 4)) + Chance(u, k, !Rerequested(w))
    + Chance(u, k, Below(consumer, 1)) + Chance(u, k, Below(consumer, 3))
  }

  function ToCome(u: Unit, setup: Setup, w: World): nat {
    Total(u, Attempts(setup), w.pool) + OfRows(u, Attempts(setup), w)
  }

  // ----- sums -----

  lemma {:induction false} TotalAppend(u: Unit, k: nat, a: seq<Goroutine>, b: seq<Goroutine>)
    ensures Total(u, k, a + b) == Total(u, k, a) + Total(u, k, b)
  {
    hide Owed;
    if a == [] {
      assert a + b == b;
    } else {
      assert (a + b)[1..] == a[1..] + b;
      TotalAppend(u, k, a[1..], b);
    }
  }

  lemma TotalUpdate(u: Unit, k: nat, pool: seq<Goroutine>, i: nat, g: Goroutine)
    requires i < |pool|
    ensures Total(u, k, pool[i := g]) + Owed(u, k, pool[i]) == Total(u, k, pool) + Owed(u, k, g)
  {
    hide Owed;
    var a, b := pool[..i], pool[i + 1..];
    assert pool == a + ([pool[i]] + b) && pool[i := g] == a + ([g] + b);
    TotalAppend(u, k, a, [pool[i]] + b);
    TotalAppend(u, k, a, [g] + b);
    assert ([pool[i]] + b)[1..] == b && ([g] + b)[1..] == b;
  }

  // ----- every step is paid for -----

  function OfStarted(u: Unit, k: nat, started: seq<Goroutine>): nat {
    if started == [] then 0 else Owed(u, k, started[0])
  }

  lemma OfStartedTotal(u: Unit, k: nat, started: seq<Goroutine>)
    requires |started| <= 1
    ensures Total(u, k, started) == OfStarted(u, k, started)
  {
    hide Owed;
    if started != [] {
      assert started[1..] == [];
    }
  }

  /** An attempt and a step that changes anything are both paid for out of what g and the
      rows owed. */
  ghost predicate Paid(u: Unit, k: nat, w: World, g: Goroutine, e: Effect) {
    && |e.started| <= 1 && w.sent <= e.world.sent
    && Owed(u, k, e.me) + OfStarted(u, k, e.started) + OfRows(u, k, e.world)
         + Amount(u, e.world.sent - w.sent, if e == Effect(w, g, []) then 0 else 1)
       <= Owed(u, k, g) + OfRows(u, k, w)
  }

  /** A commit gives up its chances, and one at least if it starts anything. */
  lemma CommitGivesUp(u: Unit, k: nat, w: World, c: Claim)
    requires Succeeds(w, c) && Edge(c.from, c.to)
    ensures var starting := if c.role == Provider then {ACCEPTED, VERIFIED} else {OFFERED, AGREED};
      OfRows(u, k, Commit(w, c.role, c.to)) + Chance(u, k, c.to in starting) <= OfRows(u, k, w)
  {
    assert Rerequested(Commit(w, c.role, c.to)) == Rerequested(w);
    assert Rank(c.from) < Rank(c.to);
  }

  lemma SameRows(u: Unit, k: nat, w: World, w': World)
    requires w'.provider == w.provider && w'.consumer.state == w.consumer.state
    ensures OfRows(u, k, w') == OfRows(u, k, w)
  {
  }

  lemma CreatePaid(u: Unit, setup: Setup, w: World, message: Message, claim: Claim, now: int)
    requires message.ContractRequest?
    ensures Paid(u, Attempts(setup), w, Handling(message, Reading, claim), Create(setup, w, message, now))
  {
    hide FindDataset, DecideInitialRequest, BuildPermission, Attempts;
  }

  lemma FlagPaid(u: Unit, setup: Setup, w: World, message: Message, claim: Claim)
    requires message.CounterRequest?
    ensures Paid(u, Attempts(setup), w, Handling(message, Updating, claim), Flag(setup, w, message, claim))
  {
    hide Attempts;
  }

  lemma UpdatePaid(u: Unit, setup: Setup, w: World, message: Message, claim: Claim, now: int)
    requires Settled(w, Handling(message, Updating, claim)) && !message.CounterRequest?
    ensures Paid(u, Attempts(setup), w, Handling(message, Updating, claim), Update(setup, w, message, claim, now))
  {
    hide Attempts, FindDataset, BuildPermission, TerminatesOnVerify, OfRows;
    if Succeeds(w, claim) {
      CommitGivesUp(u, Attempts(setup), w, claim);
      SameRows(u, Attempts(setup), Commit(w, claim.role, claim.to), Update(setup, w, message, claim, now).world);
    }
  }

  lemma HandlePaid(u: Unit, setup: Setup, w: World, message: Message, pc: HandlerPc, claim: Claim, now: int)
    requires Settled(w, Handling(message, pc, claim))
    ensures Paid(u, Attempts(setup), w, Handling(message, pc, claim), Handle(setup, w, message, pc, claim, now))
  {
    hide Attempts, Create, Flag, Update, Genuine, OfRows;
    match pc {
      case Reading =>
        if message.ContractRequest? {
          CreatePaid(u, setup, w, message, claim, now);
        }
      case Inserting =>
        SameRows(u, Attempts(setup), w, Handle(setup, w, message, pc, claim, now).world);
      case Updating =>
        if message.CounterRequest? {
          FlagPaid(u, setup, w, message, claim);
        } else {
          UpdatePaid(u, setup, w, message, claim, now);
        }
    }
  }

  lemma SwapPaid(u: Unit, k: nat, w: World, claim: Claim, after: After)
    requires Genuine(w, claim)
    ensures Paid(u, k, w, Swapping(claim, after), SwapStep(w, claim, after))
  {
    hide OfRows;
    if Succeeds(w, claim) {
      CommitGivesUp(u, k, w, claim);
    }
  }

  lemma PushPaid(u: Unit, setup: Setup, w: World, g: Goroutine, c: Choice)
    requires g.Pushing?
    ensures Paid(u, Attempts(setup), w, g, PushStep(setup, w, g, c))
  {
    hide Attempts, Reaches, OfRows;
    SameRows(u, Attempts(setup), w, PushStep(setup, w, g, c).world);
  }

  lemma OpenPaid(u: Unit, setup: Setup, w: World, g: Goroutine, c: Choice)
    requires g.Opening? || g.OpeningReply? || g.OpeningSave?
    ensures Paid(u, Attempts(setup), w, g, Act(setup, w, g, c))
  {
    hide Attempts, ResolvePolicy, OfRows;
    SameRows(u, Attempts(setup), w, Act(setup, w, g, c).world);
  }

  lemma ActPaid(u: Unit, setup: Setup, w: World, g: Goroutine, c: Choice)
    requires Settled(w, g)
    ensures Paid(u, Attempts(setup), w, g, Act(setup, w, g, c))
  {
    hide Attempts, Handle, SwapStep, PushStep, Open, OpenReply, OpenSave, ResolvePolicy, HasUnenforceableConstraint,
      Genuine, Paid, React, Record, Wake;
    match g {
      case Handling(message, pc, claim) => HandlePaid(u, setup, w, message, pc, claim, c.now);
      case Swapping(claim, after) => SwapPaid(u, Attempts(setup), w, claim, after);
      case Pushing(_, _, _, _, _, _, _, _) => PushPaid(u, setup, w, g, c);
      case Opening => OpenPaid(u, setup, w, g, c);
      case OpeningReply(_) => OpenPaid(u, setup, w, g, c);
      case OpeningSave(_) => OpenPaid(u, setup, w, g, c);
      case _ => OthersPaid(u, setup, w, g, c);
    }
  }

  lemma OthersPaid(u: Unit, setup: Setup, w: World, g: Goroutine, c: Choice)
    requires g.Over? || g.Answered? || g.Reacting? || g.Recording? || g.Sleeping?
    ensures Paid(u, Attempts(setup), w, g, Act(setup, w, g, c))
  {
    hide Attempts, ResolvePolicy, HasUnenforceableConstraint;
  }

  // ----- runs -----

  /** Whether an action is a goroutine's step that changes anything. */
  predicate Effective(setup: Setup, w: World, a: Action) {
    a.Run? && a.i < |w.pool| && Act(setup, w, w.pool[a.i], a.choice) != Effect(w, w.pool[a.i], [])
  }

  function EffectiveSteps(setup: Setup, w: World, actions: seq<Action>): nat
    decreases |actions|
  {
    if actions == [] then 0
    else
      (if Effective(setup, w, actions[0]) then 1 else 0)
      + EffectiveSteps(setup, Step(setup, w, actions[0]), actions[1..])
  }

  function Forgeries(actions: seq<Action>): nat {
    if actions == [] then 0 else (if actions[0].Forge? then 1 else 0) + Forgeries(actions[1..])
  }

  lemma StepPaid(u: Unit, setup: Setup, w: World, a: Action)
    requires RowsInvariant(w)
    ensures var w' := Step(setup, w, a);
      && w.sent <= w'.sent
      && ToCome(u, setup, w') + Amount(u, w'.sent - w.sent, if Effective(setup, w, a) then 1 else 0)
         <= ToCome(u, setup, w) + Amount(u, 0, if a.Forge? then 3 else 0)
  {
    hide Act, Attempts, Settled, Owed, OfRows, GoodLog, OfStarted;
    var k, w' := Attempts(setup), Step(setup, w, a);
    match a {
      case Run(i, c) =>
        if i < |w.pool| {
          var e := Act(setup, w, w.pool[i], c);
          ActPaid(u, setup, w, w.pool[i], c);
          TotalUpdate(u, k, w.pool, i, e.me);
          TotalAppend(u, k, w.pool[i := e.me], e.started);
          OfStartedTotal(u, k, e.started);
          SameRows(u, k, e.world, w');
        }
      case Forge(role, message) =>
        ArrivalOwes(u, k, role, message);
        TotalAppend(u, k, w.pool, [Arrived(role, message)]);
        SameRows(u, k, w, w');
    }
  }

  lemma ArrivalOwes(u: Unit, k: nat, role: Role, message: Message)
    ensures Total(u, k, [Arrived(role, message)]) == Amount(u, 0, 3)
  {
    OfStartedTotal(u, k, [Arrived(role, message)]);
  }

  lemma {:induction false} RunPaid(u: Unit, setup: Setup, w: World, actions: seq<Action>)
    requires RowsInvariant(w)
    ensures var w' := RunAll(setup, w, actions);
      && w.sent <= w'.sent
      && ToCome(u, setup, w') + Amount(u, w'.sent - w.sent, EffectiveSteps(setup, w, actions))
         <= ToCome(u, setup, w) + Amount(u, 0, 3 * Forgeries(actions))
    decreases |actions|
  {
    hide ToCome, Step, RowsInvariant, Effective;
    if actions == [] {
    } else {
      StepPaid(u, setup, w, actions[0]);
      StepKeepsRows(setup, w, actions[0]);
      RunPaid(u, setup, Step(setup, w, actions[0]), actions[1..]);
    }
  }

  /** However its goroutines interleave, whatever is lost and whatever other messages
      arrive, a negotiation sends at most 1 + 8 * (backoffs + 1) request attempts, and its
      goroutines take a bounded number of steps: three more for every message that neither
      connector sent. */
  lemma GoesQuiet(setup: Setup, start: World, actions: seq<Action>)
    requires Fresh(start)
    ensures RunAll(setup, start, actions).sent <= 1 + 8 * (setup.backoffs + 1)
    ensures EffectiveSteps(setup, start, actions) <= 40 * (setup.backoffs + 1) + 29 + 3 * Forgeries(actions)
  {
    FreshRows(start);
    forall u
      ensures ToCome(u, setup, start) == Amount(u, 1 + 8 * (setup.backoffs + 1), 40 * (setup.backoffs + 1) + 29)
    {
      OfStartedTotal(u, Attempts(setup), [Opening]);
    }
    RunPaid(Requests, setup, start, actions);
    RunPaid(Steps, setup, start, actions);
  }

  // ----- nothing gets stuck -----

  predicate Ended(g: Goroutine) {
    g.Over? || g.Answered?
  }

  /** The handler whose reply a goroutine waits for. */
  function Awaited(g: Goroutine): Option<nat> {
    match g
    case OpeningReply(h) => Some(h)
    case Pushing(_, _, _, _, waiting, _, _, _) => waiting
    case _ => None
  }

  predicate IsHandler(g: Goroutine) {
    g.Handling? || g.Answered?
  }

  ghost predicate AwaitsHandler(w: World, g: Goroutine) {
    Awaited(g).Some? ==> Awaited(g).value < |w.pool| && IsHandler(w.pool[Awaited(g).value])
  }

  ghost predicate AwaitsInvariant(w: World) {
    forall g | g in w.pool :: AwaitsHandler(w, g)
  }

  lemma ActKeepsAwaits(setup: Setup, w: World, i: nat, c: Choice)
    requires i < |w.pool| && WellFormed(w.pool[i])
    ensures var g, e := w.pool[i], Act(setup, w, w.pool[i], c);
      && (IsHandler(g) ==> IsHandler(e.me))
      && (forall s | s in e.started :: Awaited(s) == None)
      && (Awaited(e.me) == None || (Awaited(e.me) == Awaited(g) && e.started == [])
          || (Awaited(e.me) == Some(|w.pool|) && |e.started| == 1 && IsHandler(e.started[0])))
  {
    hide Handle, Reaches, ResolvePolicy, HasUnenforceableConstraint, Attempts;
    var g := w.pool[i];
    if g.Handling? {
      HandlerStays(setup, w, g.message, g.pc, g.claim, c.now);
    }
  }

  lemma HandlerStays(setup: Setup, w: World, message: Message, pc: HandlerPc, claim: Claim, now: int)
    requires WellFormed(Handling(message, pc, claim))
    ensures var e := Handle(setup, w, message, pc, claim, now);
      && IsHandler(e.me) && e.me != Handling(message, pc, claim)
      && (forall s | s in e.started :: Awaited(s) == None)
  {
    hide FindDataset, DecideInitialRequest, DecideAccept, TerminatesOnVerify, Attempts, BuildPermission, LegalFrom;
  }

  lemma StepKeepsAwaits(setup: Setup, w: World, a: Action)
    requires RowsInvariant(w) && AwaitsInvariant(w)
    ensures AwaitsInvariant(Step(setup, w, a))
  {
    hide Act, Awaited, IsHandler, GoodLog, Genuine;
    var w' := Step(setup, w, a);
    if a.Run? && a.i < |w.pool| {
      var e := Act(setup, w, w.pool[a.i], a.choice);
      assert w.pool[a.i] in w.pool;
      ActKeepsAwaits(setup, w, a.i, a.choice);
      assert e.started != [] ==> w'.pool[|w.pool|] == e.started[0];
      forall g | g in w'.pool
        ensures AwaitsHandler(w', g)
      {
        if g in w.pool {
          assert AwaitsHandler(w, g);
        } else if g == e.me {
          assert AwaitsHandler(w, w.pool[a.i]);
        }
      }
    } else if a.Forge? {
      ForgeKeepsAwaits(setup, w, a.role, a.message);
    }
  }

  lemma ForgeKeepsAwaits(setup: Setup, w: World, role: Role, message: Message)
    requires AwaitsInvariant(w)
    ensures AwaitsInvariant(Step(setup, w, Forge(role, message)))
  {
    var w' := Step(setup, w, Forge(role, message));
    assert forall g | g in w'.pool :: g in w.pool || g == Arrived(role, message);
    assert forall g | g in w.pool :: AwaitsHandler(w, g);
  }

  lemma {:induction false} RunKeepsAwaits(setup: Setup, w: World, actions: seq<Action>)
    requires RowsInvariant(w) && AwaitsInvariant(w)
    ensures AwaitsInvariant(RunAll(setup, w, actions))
    decreases |actions|
  {
    hide RowsInvariant, AwaitsInvariant, Step;
    if actions == [] {
    } else {
      StepKeepsRows(setup, w, actions[0]);
      StepKeepsAwaits(setup, w, actions[0]);
      RunKeepsAwaits(setup, Step(setup, w, actions[0]), actions[1..]);
    }
  }

  /** In every run, a goroutine that has not ended goes on whatever is chosen for it, or the
      handler whose reply it waits for does. */
  lemma NothingIsStuck(setup: Setup, start: World, actions: seq<Action>, i: nat, c: Choice)
    requires Fresh(start) && i < |RunAll(setup, start, actions).pool| && !Ended(RunAll(setup, start, actions).pool[i])
    ensures var w := RunAll(setup, start, actions);
      || Effective(setup, w, Run(i, c))
      || (Awaited(w.pool[i]).Some? && Effective(setup, w, Run(Awaited(w.pool[i]).value, c)))
  {
    hide Fresh, RunAll, Handle, PushStep, OpenReply, Genuine, GoodLog;
    FreshAwaits(start);
    RunKeepsRows(setup, start, actions);
    RunKeepsAwaits(setup, start, actions);
    var w := RunAll(setup, start, actions);
    var g := w.pool[i];
    assert g in w.pool && Settled(w, g) && AwaitsHandler(w, g);
    if g.Handling? {
      HandlerStays(setup, w, g.message, g.pc, g.claim, c.now);
    } else if Awaited(g).Some? {
      var h := w.pool[Awaited(g).value];
      assert h in w.pool && Settled(w, h);
      WaiterGoesOn(setup, w, g, c);
      if h.Handling? {
        HandlerStays(setup, w, h.message, h.pc, h.claim, c.now);
      }
    } else {
      OthersGoOn(setup, w, g, c);
    }
  }

  lemma FreshAwaits(w: World)
    requires Fresh(w)
    ensures RowsInvariant(w) && AwaitsInvariant(w)
  {
    FreshRows(w);
  }

  lemma WaiterGoesOn(setup: Setup, w: World, g: Goroutine, c: Choice)
    requires Awaited(g).Some? && Awaited(g).value < |w.pool|
    ensures w.pool[Awaited(g).value].Answered? ==> Act(setup, w, g, c).me != g
  {
  }

  lemma OthersGoOn(setup: Setup, w: World, g: Goroutine, c: Choice)
    requires !Ended(g) && !g.Handling? && Awaited(g).None?
    ensures Act(setup, w, g, c).me != g
  {
    hide Reaches, ResolvePolicy, HasUnenforceableConstraint, Attempts;
  }
}
