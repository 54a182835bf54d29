/** What the transfer invariant gives, from an empty store and over every run. */
module TransferSafety {
  import opened Prelude
  import opened Storage
  import opened Configuration
  import opened TransferWorld
  import opened TransferRuns
  import DataPlane

  lemma {:induction false} RunKeeps(cfg: Config, w: World, actions: seq<Action>)
    requires Invariant(cfg, w)
    ensures Invariant(cfg, RunAll(cfg, w, actions)) && Later(w, RunAll(cfg, w, actions))
    decreases |actions|
  {
    hide Invariant, Step, Later;
    LaterReflexive(w);
    if actions == [] {
    } else {
      var next := Step(cfg, w, actions[0]);
      StepKeeps(cfg, w, actions[0]);
      RunKeeps(cfg, next, actions[1..]);
      LaterTransitive(w, next, RunAll(cfg, w, actions));
    }
  }

  lemma LaterReflexive(w: World)
    ensures Later(w, w)
  {
  }

  lemma LaterTransitive(a: World, b: World, c: World)
    requires Later(a, b) && Later(b, c)
    ensures Later(a, c)
  {
  }

  lemma ReachableGood(cfg: Config, actions: seq<Action>)
    ensures Invariant(cfg, RunAll(cfg, EMPTY, actions))
  {
    forall key: Key, i: nat
      ensures GoodLog(EMPTY, key) && StepsBy(Log(EMPTY, key), i) == []
    {
    }
    RunKeeps(cfg, EMPTY, actions);
  }

  // ----- what a driver commits -----

  /** In every run, whatever messages interleave: the states a driver has committed are the
      first of the sequence its agreement resolves to, and it has announced those and at
      most one more. */
  lemma DriverWalksItsSequence(cfg: Config, actions: seq<Action>, i: nat)
    requires i < |RunAll(cfg, EMPTY, actions).pool| && RunAll(cfg, EMPTY, actions).pool[i].Driver?
    requires RunAll(cfg, EMPTY, actions).pool[i].phase != Resolving
    ensures var w := RunAll(cfg, EMPTY, actions);
      var d := w.pool[i];
      && d.sequence == SequenceOf(cfg, w.agreements, d.key.role, d.agreement)
      && d.at <= |d.sequence| && StepsBy(Log(w, d.key), i) == d.sequence[..d.at]
      && d.at <= d.pushed <= d.at + 1 && d.pushed <= |d.sequence|
      && (forall key: Key | key != d.key :: StepsBy(Log(w, key), i) == [])
  {
    hide RunAll, GoodLogs, GoodRows, SequenceOf, StepsBy;
    ReachableGood(cfg, actions);
    var w := RunAll(cfg, EMPTY, actions);
    assert GoodTask(cfg, w, w.pool[i], i);
  }

  // ----- what any row goes through -----

  /** The transitions of the transfer protocol. */
  predicate Edge(a: TransferState, b: TransferState) {
    match a
    case Requested => b in {Started, Terminated}
    case Started => b in {Suspended, Completed, Terminated}
    case Suspended => b in {Started, Terminated}
    case Completed => false
    case Terminated => false
  }

  /** In every run every committed change, by a message or by a driver, is a transition of
      the protocol, and COMPLETED and TERMINATED are never left. */
  lemma EveryChangeIsAnEdge(cfg: Config, actions: seq<Action>, key: Key, j: nat)
    requires j + 1 < |Log(RunAll(cfg, EMPTY, actions), key)|
    ensures var log := Log(RunAll(cfg, EMPTY, actions), key);
      && log[0] == Change(Requested, None)
      && Edge(log[j].to, log[j + 1].to)
      && log[j].to != Completed && log[j].to != Terminated
  {
    hide RunAll, GoodTasks, GoodRows, Signed;
    ReachableGood(cfg, actions);
    var w := RunAll(cfg, EMPTY, actions);
    assert GoodLog(w, key);
    assert Allowed(key.role, Log(w, key)[j].to, Log(w, key)[j + 1]);
  }

  // ----- who starts a transfer this connector serves -----

  lemma {:induction false} FirstOwnStep(log: seq<Change>, i: nat)
    requires |log| > 1 && log[0].driver == None && log[1].driver == Some(i)
    ensures StepsBy(log, i) != [] && StepsBy(log, i)[0] == log[1].to
  {
    var front := log[..|log| - 1];
    if |log| == 2 {
      assert front == [log[0]] && front[..0] == [];
      assert StepsBy(front, i) == StepsBy(front[..0], i) + [] == [];
    } else {
      FirstOwnStep(front, i);
    }
  }

  /** The first change of a provider's row that was ever STARTED is its start, made by a
      driver of this connector. */
  lemma {:induction false} FirstStart(log: seq<Change>, j: nat)
    requires Path(Provider, log) && j < |log| && log[j].to == Started
    ensures |log| > 1 && log[1].to == Started && log[1].driver.Some?
  {
    assert j != 0;
    assert Allowed(Provider, log[0].to, log[1]);
    if j > 1 && log[1].to == Terminated {
      assert Allowed(Provider, log[1].to, log[2]);
    }
  }

  /** In every run, whatever the counterparty sends: a provider's row that was ever STARTED
      was first started by this connector's own driver, whose sequence begins with STARTED. */
  lemma StartedByOwnDriver(cfg: Config, actions: seq<Action>, pid: string, j: nat)
    requires var log := Log(RunAll(cfg, EMPTY, actions), Key(Provider, pid)); j < |log| && log[j].to == Started
    ensures var w := RunAll(cfg, EMPTY, actions);
      var log := Log(w, Key(Provider, pid));
      && |log| > 1 && log[1].to == Started && log[1].driver.Some?
      && pid in w.transfers
      && var sequence := SequenceOf(cfg, w.agreements, Provider, w.transfers[pid].agreement);
         sequence != [] && sequence[0] == Started
  {
    hide RunAll, GoodRows, SequenceOf, StepsBy, Path;
    ReachableGood(cfg, actions);
    var w, key := RunAll(cfg, EMPTY, actions), Key(Provider, pid);
    var log := Log(w, key);
    assert GoodLog(w, key);
    FirstStart(log, j);
    PathBegins(log);
    var i := log[1].driver.value;
    FirstOwnStep(log, i);
    assert IsDriverOf(w, key, i) && GoodTask(cfg, w, w.pool[i], i);
  }

  lemma PathBegins(log: seq<Change>)
    requires Path(Provider, log) && log != []
    ensures log[0] == Change(Requested, None)
  {
  }

  /** A transfer whose sequence does not begin with STARTED is never STARTED, and every
      request for its data, at any moment of any run, is refused. */
  lemma UnstartedNeverServes(cfg: Config, actions: seq<Action>, req: DataPlane.DataRequest, env: DataPlane.ServeEnv)
    requires var w := RunAll(cfg, EMPTY, actions);
      req.pid in w.transfers ==>
        var sequence := SequenceOf(cfg, w.agreements, Provider, w.transfers[req.pid].agreement);
        sequence == [] || sequence[0] != Started
    ensures var w := RunAll(cfg, EMPTY, actions);
      DataPlane.Authorize(w.transfers, w.agreements, cfg, req, env).Refused?
  {
    hide RunAll, GoodRows, GoodTasks, Signed, SequenceOf, Path;
    ReachableGood(cfg, actions);
    var w, key := RunAll(cfg, EMPTY, actions), Key(Provider, req.pid);
    assert GoodLog(w, key);
    if req.pid in w.transfers && w.transfers[req.pid].state == Started {
      StartedByOwnDriver(cfg, actions, req.pid, |Log(w, key)| - 1);
    }
  }

  // ----- agreements -----

  /** In every reachable state each row created by a request names an agreement that is on
      record, is not one this connector accepted as consumer and, with authentication on,
      is with the participant who asked if it is with anyone; and from then on, in every
      continuation, neither the row's terms nor the agreement change. */
  lemma TransfersKeepTheirAgreements(cfg: Config, before: seq<Action>, after: seq<Action>, pid: string)
    requires pid in RunAll(cfg, EMPTY, before).transfers
    ensures var w := RunAll(cfg, EMPTY, before);
      var w', t := RunAll(cfg, w, after), w.transfers[pid];
      && Entitled(cfg, w, t)
      && pid in w'.transfers && w'.transfers[pid] == t.(state := w'.transfers[pid].state)
      && t.agreement in w'.agreements && w'.agreements[t.agreement] == w.agreements[t.agreement]
  {
    hide RunAll, GoodLogs, GoodTasks, Signed;
    ReachableGood(cfg, before);
    RunKeeps(cfg, RunAll(cfg, EMPTY, before), after);
  }

  /** A transfer this connector initiates names an agreement on record too, of either role,
      and neither the row's agreement and counterparty nor the agreement ever change. */
  lemma InitiatedTransfersKeepTheirAgreements(cfg: Config, before: seq<Action>, after: seq<Action>, pid: string)
    requires pid in RunAll(cfg, EMPTY, before).consumerTransfers
    ensures var w := RunAll(cfg, EMPTY, before);
      var w', t := RunAll(cfg, w, after), w.consumerTransfers[pid];
      && t.agreement in w.agreements
      && pid in w'.consumerTransfers && w'.consumerTransfers[pid].agreement == t.agreement
      && w'.consumerTransfers[pid].counterparty == t.counterparty
      && t.agreement in w'.agreements && w'.agreements[t.agreement] == w.agreements[t.agreement]
  {
    hide RunAll, GoodLogs, GoodTasks, Signed;
    ReachableGood(cfg, before);
    RunKeeps(cfg, RunAll(cfg, EMPTY, before), after);
  }

  // ----- away and back -----

  lemma {:induction false} RunAppend(cfg: Config, w: World, a: seq<Action>, b: seq<Action>)
    ensures RunAll(cfg, w, a + b) == RunAll(cfg, RunAll(cfg, w, a), b)
    decreases |a|
  {
    hide Step;
    if a == [] {
      assert a + b == b;
    } else {
      assert (a + b)[1..] == a[1..] + b;
      RunAppend(cfg, Step(cfg, w, a[0]), a[1..], b);
    }
  }

  /** The arrival and the handling of one transition message. */
  function Handled(w: World, pid: string, issuer: string, to: TransferState, c: Choice): seq<Action> {
    [AMessage(pid, issuer, to), Run(|w.pool|, c), Run(|w.pool|, c)]
  }

  lemma MessageGoesThrough(cfg: Config, w: World, pid: string, to: TransferState, c: Choice)
    requires pid in w.transfers && pid !in w.consumerTransfers
    requires InboundLegal(Provider, w.transfers[pid].state, to)
    ensures RunAll(cfg, w, Handled(w, pid, w.transfers[pid].counterparty, to, c))
         == Commit(w, Key(Provider, pid), to, None).(pool := w.pool + [Over])
  {
    var t := w.transfers[pid];
    var key, n := Key(Provider, pid), |w.pool|;
    var actions := Handled(w, pid, t.counterparty, to, c);
    var w1 := Step(cfg, w, actions[0]);
    var w2 := Step(cfg, w1, actions[1]);
    assert w2.pool[n] == Applying(key, t.state, to, t.agreement, t.consumerPid);
    assert w2 == w.(pool := w2.pool);
    var w3 := Step(cfg, w2, actions[2]);
    assert w3.pool == w.pool + [Over];
    assert w3 == Commit(w, key, to, None).(pool := w.pool + [Over]);
    assert RunAll(cfg, w3, []) == w3;
    assert RunAll(cfg, w2, [actions[2]]) == w3;
    assert RunAll(cfg, w1, [actions[1], actions[2]]) == w3;
    assert actions[1..] == [actions[1], actions[2]] && actions[1..][1..] == [actions[2]]
      && actions[1..][1..][1..] == [];
  }

  /** A driver about to store COMPLETED, say, from STARTED may find its row STARTED again
      after it was suspended and resumed: its update succeeds although the row has moved
      twice since the driver last wrote it. */
  lemma AwayAndBack(cfg: Config, w: World, i: nat, pid: string, c: Choice)
    requires i < |w.pool| && w.pool[i].Driver? && w.pool[i].key == Key(Provider, pid) && w.pool[i].phase == Storing
    requires w.pool[i].at < |w.pool[i].sequence| && w.pool[i].from == Started
    requires pid in w.transfers && w.transfers[pid].state == Started && pid !in w.consumerTransfers
    ensures exists meanwhile ::
      var w' := RunAll(cfg, w, meanwhile);
      && Log(w', Key(Provider, pid)) == Log(w, Key(Provider, pid)) + [Change(Suspended, None), Change(Started, None)]
      && i < |w'.pool| && w'.pool[i] == w.pool[i]
      && Log(Step(cfg, w', Run(i, c)), Key(Provider, pid))
         == Log(w', Key(Provider, pid)) + [Change(w.pool[i].sequence[w.pool[i].at], Some(i))]
  {
    hide RunAll;
    var key, issuer := Key(Provider, pid), w.transfers[pid].counterparty;
    var away := Handled(w, pid, issuer, Suspended, c);
    MessageGoesThrough(cfg, w, pid, Suspended, c);
    var there := RunAll(cfg, w, away);
    var back := Handled(there, pid, issuer, Started, c);
    MessageGoesThrough(cfg, there, pid, Started, c);
    var w' := RunAll(cfg, there, back);
    RunAppend(cfg, w, away, back);
    assert Log(w', key) == Log(w, key) + [Change(Suspended, None)] + [Change(Started, None)];
    assert Log(w', key) == Log(w, key) + [Change(Suspended, None), Change(Started, None)];
    assert w' == RunAll(cfg, w, away + back);
  }

  // ----- that it happens -----

  const AGREEMENT := Agreement("a", "d", "c", Origin.Imported, "")

  /** A connector that starts and completes the transfers of one agreement by itself. */
  const STARTS_AND_COMPLETES := Config(false, [], [], [TransferPolicy("a", [Started, Completed])], [])

  const GO := Choice(true, None)

  /** A request under that agreement, and its driver as far as announcing COMPLETED. */
  const TO_THE_LAST_STEP: seq<Action> := [
    AnAgreement(AGREEMENT), ARequest(Request("c", "a", "f", "u"), "", "p"), Run(0, GO), Run(0, GO),
    Run(1, GO), Run(1, GO), Run(1, GO), Run(1, GO)]

  /** The worlds after the first steps of that run: the request is accepted, ... */
  lemma RequestIsAccepted()
    ensures RunAll(STARTS_AND_COMPLETES, EMPTY, TO_THE_LAST_STEP[..4]) == Accepted()
  {
    var cfg, actions := STARTS_AND_COMPLETES, TO_THE_LAST_STEP[..4];
    var w1 := Step(cfg, EMPTY, actions[0]);
    var w2 := Step(cfg, w1, actions[1]);
    var w3 := Step(cfg, w2, actions[2]);
    var w4 := Step(cfg, w3, actions[3]);
    assert w3.pool == [Creating(Accepted().transfers["p"])];
    assert w4 == Accepted();
    FourSteps(cfg, EMPTY, actions);
  }

  /** ... and then the driver looks its sequence up, announces and stores STARTED, and
      announces COMPLETED. */
  lemma DriverIsAtItsLastStep()
    ensures RunAll(STARTS_AND_COMPLETES, Accepted(), TO_THE_LAST_STEP[4..]) == AtTheLastStep()
  {
    var cfg, actions := STARTS_AND_COMPLETES, TO_THE_LAST_STEP[4..];
    var w1 := Step(cfg, Accepted(), actions[0]);
    assert w1.pool[1].sequence == [Started, Completed];
    var w2 := Step(cfg, w1, actions[1]);
    assert w2.pool[1].pushed == 1 && w2.pool[1].phase == Storing;
    var w3 := Step(cfg, w2, actions[2]);
    assert [Change(Requested, None)] + [Change(Started, Some(1))] ==
      [Change(Requested, None), Change(Started, Some(1))];
    assert w3.logs == AtTheLastStep().logs && w3.transfers == AtTheLastStep().transfers;
    assert w3.pool[1].at == 1 && w3.pool[1].phase == Stepping && w3.pool[1].from == Started;
    var w4 := Step(cfg, w3, actions[3]);
    assert w4.pool == AtTheLastStep().pool;
    assert w4 == AtTheLastStep();
    FourSteps(cfg, Accepted(), actions);
  }

  lemma FourSteps(cfg: Config, w: World, actions: seq<Action>)
    requires |actions| == 4
    ensures RunAll(cfg, w, actions)
         == Step(cfg, Step(cfg, Step(cfg, Step(cfg, w, actions[0]), actions[1]), actions[2]), actions[3])
  {
    hide Step;
    var w1 := Step(cfg, w, actions[0]);
    var w2 := Step(cfg, w1, actions[1]);
    var w3 := Step(cfg, w2, actions[2]);
    assert RunAll(cfg, w, actions) == RunAll(cfg, w1, actions[1..]);
    assert actions[1..][1..] == actions[2..];
    assert RunAll(cfg, w1, actions[1..]) == RunAll(cfg, w2, actions[2..]);
    assert actions[2..][1..] == actions[3..];
    assert RunAll(cfg, w2, actions[2..]) == RunAll(cfg, w3, actions[3..]);
    assert actions[3..] == [actions[3]];
    OneStep(cfg, w3, actions[3]);
  }

  function Accepted(): World {
    var key := Key(Provider, "p");
    World(map["a" := AGREEMENT], map["p" := TransferProcess("p", "c", "a", Requested, "u", "f", "")], map[],
      map[key := [Change(Requested, None)]], [Over, NewDriver(key, "a", "c", Requested)])
  }

  function AtTheLastStep(): World {
    var key := Key(Provider, "p");
    World(map["a" := AGREEMENT], map["p" := TransferProcess("p", "c", "a", Started, "u", "f", "")], map[],
      map[key := [Change(Requested, None), Change(Started, Some(1))]],
      [Over, Driver(key, "a", "c", [Started, Completed], 1, 2, Started, Storing)])
  }

  /** There is a run in which a driver's update succeeds on a row that has moved away from
      the state it expects and back. */
  lemma AwayAndBackHappens()
    ensures exists cfg, actions ::
      Log(RunAll(cfg, EMPTY, actions), Key(Provider, "p")) ==
        [Change(Requested, None), Change(Started, Some(1)), Change(Suspended, None), Change(Started, None),
          Change(Completed, Some(1))]
  {
    hide RunAll, Step;
    var cfg, key := STARTS_AND_COMPLETES, Key(Provider, "p");
    RequestIsAccepted();
    DriverIsAtItsLastStep();
    RunAppend(cfg, EMPTY, TO_THE_LAST_STEP[..4], TO_THE_LAST_STEP[4..]);
    assert TO_THE_LAST_STEP[..4] + TO_THE_LAST_STEP[4..] == TO_THE_LAST_STEP;
    var w := AtTheLastStep();
    AwayAndBack(cfg, w, 1, "p", GO);
    var meanwhile :| var w' := RunAll(cfg, w, meanwhile);
      && Log(w', key) == Log(w, key) + [Change(Suspended, None), Change(Started, None)]
      && 1 < |w'.pool| && w'.pool[1] == w.pool[1]
      && Log(Step(cfg, w', Run(1, GO)), key) == Log(w', key) + [Change(Completed, Some(1))];
    RunAppend(cfg, EMPTY, TO_THE_LAST_STEP, meanwhile);
    RunAppend(cfg, EMPTY, TO_THE_LAST_STEP + meanwhile, [Run(1, GO)]);
    OneStep(cfg, RunAll(cfg, w, meanwhile), Run(1, GO));
    var all := TO_THE_LAST_STEP + meanwhile + [Run(1, GO)];
    assert Log(RunAll(cfg, EMPTY, all), key) ==
      [Change(Requested, None), Change(Started, Some(1)), Change(Suspended, None), Change(Started, None),
        Change(Completed, Some(1))];
  }

  lemma OneStep(cfg: Config, w: World, a: Action)
    ensures RunAll(cfg, w, [a]) == Step(cfg, w, a)
  {
    hide Step;
    assert [a][1..] == [];
  }
}
