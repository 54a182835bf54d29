/** How often a negotiation's re-request is accepted, although every handler may have read
    the flag clear. */
module NegotiationReRequests {
  import opened Configuration
  import opened Decisions
  import opened NegotiationWorld
  import opened NegotiationRows

  predicate Granted(g: Goroutine) {
    g.Answered? && g.role == Provider && g.message.CounterRequest? && g.ok
  }

  predicate Flagged(w: World) {
    w.provider.Some? && w.provider.value.rerequested
  }

  ghost predicate OneGrant(w: World) {
    && w.walkaways <= w.rerequests
    && w.rerequests == (if Flagged(w) then 1 else 0)
    && (forall g | g in w.pool && Granted(g) :: Flagged(w))
    && (forall i, j | 0 <= i < |w.pool| && 0 <= j < |w.pool| && Granted(w.pool[i]) && Granted(w.pool[j]) :: i == j)
  }

  /** A step accepts a re-request only by setting the flag, starts a walk-away only with it,
      and never clears it. */
  ghost predicate Grants(w: World, g: Goroutine, e: Effect) {
    && (Flagged(w) ==> Flagged(e.world))
    && e.world.rerequests == w.rerequests + (if Flagged(e.world) && !Flagged(w) then 1 else 0)
    && w.walkaways <= e.world.walkaways <= w.walkaways + (e.world.rerequests - w.rerequests)
    && (Granted(e.me) ==> Granted(g) || (Flagged(e.world) && !Flagged(w)))
    && (forall s | s in e.started :: !Granted(s))
  }

  lemma ActGrants(setup: Setup, w: World, g: Goroutine, c: Choice)
    requires w.provider.None? ==> w.rerequests == 0
    requires Settled(w, g)
    ensures Grants(w, g, Act(setup, w, g, c))
  {
    hide Handle, PushStep, React, Open, OpenReply, OpenSave, Genuine, Dispatch;
    match g {
      case Handling(message, pc, claim) => HandleGrants(setup, w, message, pc, claim, c.now);
      case Pushing(_, _, _, _, _, _, _, _) => OtherGrants(setup, w, g, c);
      case Reacting(_, _) => OtherGrants(setup, w, g, c);
      case Opening => OtherGrants(setup, w, g, c);
      case OpeningReply(_) => OtherGrants(setup, w, g, c);
      case OpeningSave(_) => OtherGrants(setup, w, g, c);
      case _ =>
    }
  }

  lemma OtherGrants(setup: Setup, w: World, g: Goroutine, c: Choice)
    requires !g.Handling? && !g.Swapping?
    ensures Grants(w, g, Act(setup, w, g, c))
  {
    hide ResolvePolicy, Attempts, HasUnenforceableConstraint, Reaches;
  }

  lemma HandleGrants(setup: Setup, w: World, message: Message, pc: HandlerPc, claim: Claim, now: int)
    requires w.provider.None? ==> w.rerequests == 0
    requires WellFormed(Handling(message, pc, claim))
    ensures Grants(w, Handling(message, pc, claim), Handle(setup, w, message, pc, claim, now))
  {
    hide Update, FindDataset, DecideInitialRequest, BuildPermission, Attempts;
    if pc == Updating && !message.CounterRequest? {
      UpdateGrants(setup, w, message, claim, now);
    }
  }

  lemma UpdateGrants(setup: Setup, w: World, message: Message, claim: Claim, now: int)
    requires !message.CounterRequest?
    ensures Grants(w, Handling(message, Updating, claim), Update(setup, w, message, claim, now))
  {
    hide FindDataset, DecideAccept, BuildPermission, Attempts, TerminatesOnVerify;
  }

  lemma StepKeepsOneGrant(setup: Setup, w: World, a: Action)
    requires RowsInvariant(w) && OneGrant(w)
    ensures OneGrant(Step(setup, w, a))
  {
    hide Act, Settled, Granted;
    var w' := Step(setup, w, a);
    match a {
      case Run(i, c) =>
        if i < |w.pool| {
          var e := Act(setup, w, w.pool[i], c);
          ActGrants(setup, w, w.pool[i], c);
          assert forall j | 0 <= j < |w.pool| :: w.pool[j] in w.pool;
          assert forall j | |w.pool| <= j < |w'.pool| :: w'.pool[j] == e.started[j - |w.pool|];
          forall j, k | 0 <= j < |w'.pool| && 0 <= k < |w'.pool| && Granted(w'.pool[j]) && Granted(w'.pool[k])
            ensures j == k && Flagged(w')
          {
            assert j != i ==> w'.pool[j] == w.pool[j];
            assert k != i ==> w'.pool[k] == w.pool[k];
          }
        }
      case Forge(role, message) =>
        ArrivalGrantsNothing(role, message);
        forall j, k | 0 <= j < |w'.pool| && 0 <= k < |w'.pool| && Granted(w'.pool[j]) && Granted(w'.pool[k])
          ensures j == k
        {
          assert j < |w.pool| && k < |w.pool|;
        }
    }
  }

  lemma ArrivalGrantsNothing(role: Role, message: Message)
    ensures !Granted(Arrived(role, message))
  {
  }

  lemma {:induction false} RunKeepsOneGrant(setup: Setup, w: World, actions: seq<Action>)
    requires RowsInvariant(w) && OneGrant(w)
    ensures OneGrant(RunAll(setup, w, actions))
    decreases |actions|
  {
    hide RowsInvariant, OneGrant, Step;
    if actions == [] {
    } else {
      StepKeepsRows(setup, w, actions[0]);
      StepKeepsOneGrant(setup, w, actions[0]);
      RunKeepsOneGrant(setup, Step(setup, w, actions[0]), actions[1..]);
    }
  }

  /** In every run, however many re-requests arrive and however their handlers interleave,
      at most one of them is answered 200 and at most one walk-away is ever started. */
  lemma OneReRequestIsGranted(setup: Setup, start: World, actions: seq<Action>, i: nat, j: nat)
    requires Fresh(start)
    ensures var w := RunAll(setup, start, actions);
      && w.walkaways <= w.rerequests <= 1
      && (i < |w.pool| && j < |w.pool| && Granted(w.pool[i]) && Granted(w.pool[j]) ==> i == j)
  {
    FreshRows(start);
    RunKeepsOneGrant(setup, start, actions);
  }
}
