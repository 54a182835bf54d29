/** What every run of a connector's transfers keeps, whatever messages arrive and however
    its handlers and drivers interleave. */
module TransferRuns {
  import opened Prelude
  import opened Storage
  import opened Configuration
  import opened TransferWorld

  // ----- rows and their logs -----

  /** A committed change is one the legality table allows whoever made it. */
  predicate Allowed(role: Role, from: TransferState, c: Change) {
    if c.driver.Some? then StepLegal(role, from, c.to) else InboundLegal(role, from, c.to)
  }

  ghost predicate Path(role: Role, log: seq<Change>) {
    && (log != [] ==> log[0] == Change(Requested, None))
    && (forall j | 0 < j < |log| :: Allowed(role, log[j - 1].to, log[j]))
  }

  /** A row's log is a path to its present state. */
  ghost predicate GoodLog(w: World, key: Key) {
    && Path(key.role, Log(w, key))
    && (match StateOf(w, key)
        case None => Log(w, key) == []
        case Some(s) => Log(w, key) != [] && Log(w, key)[|Log(w, key)| - 1].to == s)
  }

  ghost predicate GoodLogs(w: World) {
    forall key: Key :: GoodLog(w, key)
  }

  /** The states driver i committed, in order. */
  function StepsBy(log: seq<Change>, i: nat): seq<TransferState> {
    if log == [] then []
    else
      var last := log[|log| - 1];
      StepsBy(log[..|log| - 1], i) + (if last.driver == Some(i) then [last.to] else [])
  }

  lemma StepsByAppend(log: seq<Change>, c: Change, i: nat)
    ensures StepsBy(log + [c], i) == StepsBy(log, i) + (if c.driver == Some(i) then [c.to] else [])
  {
    assert (log + [c])[..|log|] == log;
  }

  // ----- tasks -----

  /** A driver has committed exactly the first at steps of its sequence, and announced those
      and at most the next. */
  ghost predicate GoodDriver(w: World, d: Task, i: nat)
    requires d.Driver?
  {
    && StateOf(w, d.key).Some?
    && d.at <= |d.sequence|
    && StepsBy(Log(w, d.key), i) == d.sequence[..d.at]
    && (d.pushed == d.at || (d.pushed == d.at + 1 && d.at < |d.sequence| && d.phase in {Storing, Finished}))
    && (d.phase == Resolving ==> d.sequence == [])
    && (d.phase == Storing ==>
          d.pushed == d.at + 1 && d.at < |d.sequence| && StepLegal(d.key.role, d.from, d.sequence[d.at]))
  }

  /** The row a driver walks and the sequence its agreement resolves to. */
  ghost predicate OnItsSequence(cfg: Config, w: World, d: Task)
    requires d.Driver?
  {
    && (d.phase != Resolving ==> d.sequence == SequenceOf(cfg, w.agreements, d.key.role, d.agreement))
    && AgreementOf(w, d.key) == Some(d.agreement)
    && (d.key.role == Provider ==> d.agreement in w.agreements)
  }

  function AgreementOf(w: World, key: Key): Option<string> {
    if key.role == Provider then (if key.pid in w.transfers then Some(w.transfers[key.pid].agreement) else None)
    else (if key.pid in w.consumerTransfers then Some(w.consumerTransfers[key.pid].agreement) else None)
  }

  /** The grounds on which a provider row may exist: an agreement this connector serves
      under, with the participant who asked if the agreement names one. */
  ghost predicate Entitled(cfg: Config, w: World, t: TransferProcess) {
    && t.agreement in w.agreements
    && ServableAsProvider(w.agreements[t.agreement])
    && (cfg.authRequired && w.agreements[t.agreement].counterparty != "" ==>
       t.counterparty == w.agreements[t.agreement].counterparty)
  }

  ghost predicate GoodTask(cfg: Config, w: World, t: Task, i: nat) {
    && (t.Driver? ==> GoodDriver(w, t, i) && OnItsSequence(cfg, w, t))
    && (t.Applying? ==> InboundLegal(t.key.role, t.from, t.to) && AgreementOf(w, t.key) == Some(t.agreement))
    && (t.Creating? ==> Entitled(cfg, w, t.row) && t.row.state == Requested)
    && (t.Initiating? ==> t.wanted.state == Requested)
    && (t.Opening? ==> t.initiated.state == Requested && t.initiated.agreement in w.agreements)
  }

  ghost predicate GoodTasks(cfg: Config, w: World) {
    forall i: nat | i < |w.pool| :: GoodTask(cfg, w, w.pool[i], i)
  }

  /** Only a row's own drivers put their names in its log. */
  ghost predicate Signed(w: World) {
    forall key: Key, i: nat :: StepsBy(Log(w, key), i) == [] || IsDriverOf(w, key, i)
  }

  predicate IsDriverOf(w: World, key: Key, i: nat) {
    i < |w.pool| && w.pool[i].Driver? && w.pool[i].key == key
  }

  ghost predicate GoodRows(cfg: Config, w: World) {
    && (forall pid | pid in w.transfers :: Entitled(cfg, w, w.transfers[pid]))
    && (forall pid | pid in w.consumerTransfers :: w.consumerTransfers[pid].agreement in w.agreements)
  }

  ghost predicate Invariant(cfg: Config, w: World) {
    GoodLogs(w) && GoodTasks(cfg, w) && Signed(w) && GoodRows(cfg, w)
  }

  // ----- one step -----

  /** A later world: agreements are unchanged, rows keep the agreement and the counterparty
      they were created with. */
  ghost predicate Later(w: World, w': World) {
    && (forall id | id in w.agreements :: id in w'.agreements && w'.agreements[id] == w.agreements[id])
    && (forall pid | pid in w.transfers ::
          pid in w'.transfers && w'.transfers[pid] == w.transfers[pid].(state := w'.transfers[pid].state))
    && (forall pid | pid in w.consumerTransfers ::
          pid in w'.consumerTransfers && w'.consumerTransfers[pid].agreement == w.consumerTransfers[pid].agreement
          && w'.consumerTransfers[pid].counterparty == w.consumerTransfers[pid].counterparty)
  }

  /** A step commits at most one state to a row, and nobody's but its own task's. */
  predicate Extended(log: seq<Change>, log': seq<Change>, me: nat) {
    || log' == log
    || (|log'| == |log| + 1 && log'[..|log|] == log && log'[|log|].driver in {None, Some(me)})
  }

  ghost predicate Extends(w: World, w': World, me: nat) {
    forall key: Key :: Extended(Log(w, key), Log(w', key), me)
  }

  lemma ExtendedSteps(log: seq<Change>, log': seq<Change>, me: nat, i: nat)
    requires Extended(log, log', me) && i != me
    ensures StepsBy(log', i) == StepsBy(log, i)
  {
  }

  lemma TaskLater(cfg: Config, w: World, w': World, me: nat, t: Task, i: nat)
    requires GoodTask(cfg, w, t, i) && Later(w, w') && Extends(w, w', me) && i != me
    ensures GoodTask(cfg, w', t, i)
  {
    hide StepsBy, StepLegal, InboundLegal, PolicySequence, DatasetSequence;
    if t.Driver? {
      ExtendedSteps(Log(w, t.key), Log(w', t.key), me, i);
    }
  }

  /** A driver as it starts, its row's agreement being the one it was told of. */
  ghost predicate Starting(w: World, t: Task) {
    && t.Driver? && t == NewDriver(t.key, t.agreement, t.peer, t.from)
    && StateOf(w, t.key).Some?
    && AgreementOf(w, t.key) == Some(t.agreement)
    && (t.key.role == Provider ==> t.agreement in w.agreements)
  }

  /** What a step of task me leaves. */
  ghost predicate Good(cfg: Config, w: World, me: nat, t: Task, e: Effect) {
    && GoodLogs(e.world) && GoodRows(cfg, e.world) && Later(w, e.world) && Extends(w, e.world, me)
    && GoodTask(cfg, e.world, e.me, me)
    && (forall s | s in e.started :: Starting(e.world, s))
    && (t.Driver? ==> e.me.Driver? && e.me.key == t.key)
    && (forall key: Key | !(t.Driver? && t.key == key) :: StepsBy(Log(e.world, key), me) == StepsBy(Log(w, key), me))
  }

  lemma CommitGood(cfg: Config, w: World, key: Key, c: Change)
    requires GoodLogs(w) && GoodRows(cfg, w) && StateOf(w, key).Some? && Allowed(key.role, StateOf(w, key).value, c)
    ensures var w' := Commit(w, key, c.to, c.driver);
      && GoodLogs(w') && GoodRows(cfg, w') && Later(w, w') && w'.agreements == w.agreements
      && AgreementOf(w', key) == AgreementOf(w, key) && Log(w', key) == Log(w, key) + [c]
         && StateOf(w', key) == Some(c.to)
      && (forall k: Key | k != key :: Log(w', k) == Log(w, k))
  {
    hide Allowed, Path, Entitled;
    var w' := Commit(w, key, c.to, c.driver);
    assert GoodLog(w, key);
    PathAppend(key.role, Log(w, key), c);
    forall k: Key
      ensures GoodLog(w', k)
    {
      assert GoodLog(w, k);
    }
    EntitledLater(cfg, w, w');
  }

  lemma PathAppend(role: Role, log: seq<Change>, c: Change)
    requires Path(role, log) && log != [] && Allowed(role, log[|log| - 1].to, c)
    ensures Path(role, log + [c])
  {
    hide Allowed;
  }

  lemma EntitledLater(cfg: Config, w: World, w': World)
    requires GoodRows(cfg, w) && w'.agreements == w.agreements
    requires forall pid | pid in w'.transfers ::
      pid in w.transfers && w'.transfers[pid] == w.transfers[pid].(state := w'.transfers[pid].state)
    requires forall pid | pid in w'.consumerTransfers ::
      pid in w.consumerTransfers && w'.consumerTransfers[pid].agreement == w.consumerTransfers[pid].agreement
    ensures GoodRows(cfg, w')
  {
  }

  lemma ApplyGood(cfg: Config, w: World, me: nat, t: Task)
    requires GoodLogs(w) && GoodRows(cfg, w) && t.Applying? && GoodTask(cfg, w, t, me)
    ensures Good(cfg, w, me, t, Apply(cfg, w, t.key, t.from, t.to, t.agreement, t.peer))
  {
    hide GoodLog, InboundLegal, ConsumerTrigger, StepsBy;
    if StateOf(w, t.key) == Some(t.from) {
      CommitGood(cfg, w, t.key, Change(t.to, None));
      StepsByAppend(Log(w, t.key), Change(t.to, None), me);
    }
  }

  lemma StoreGood(cfg: Config, w: World, me: nat, t: Task)
    requires GoodLogs(w) && GoodRows(cfg, w) && t.Driver? && GoodTask(cfg, w, t, me)
    requires t.phase == Storing && StateOf(w, t.key) == Some(t.from)
    ensures Good(cfg, w, me, t, Drive(cfg, w, t, me, Choice(true, None)))
  {
    hide GoodLogs, GoodRows, StepLegal, SequenceOf, StepsBy, Commit, Later, AgreementOf, Log;
    var done := Change(t.sequence[t.at], Some(me));
    CommitGood(cfg, w, t.key, done);
    StepsByAppend(Log(w, t.key), done, me);
    assert t.sequence[..t.at] + [t.sequence[t.at]] == t.sequence[..t.at + 1];
  }

  lemma DriveGood(cfg: Config, w: World, me: nat, t: Task, c: Choice)
    requires GoodLogs(w) && GoodRows(cfg, w) && t.Driver? && GoodTask(cfg, w, t, me)
    ensures Good(cfg, w, me, t, Drive(cfg, w, t, me, c))
  {
    hide GoodLog, StepLegal, SequenceOf, StepsBy, Commit, Entitled, GoodRows;
    if t.phase == Storing && StateOf(w, t.key) == Some(t.from) {
      StoreGood(cfg, w, me, t);
    } else {
      SamePlace(cfg, w, w);
      if t.phase == Resolving {
        assert t.sequence[..t.at] == [] == Drive(cfg, w, t, me, c).me.sequence[..t.at];
      }
    }
  }

  /** A row is created with its first state, which nobody's driver committed. */
  lemma NewLogGood(w: World, w': World, key: Key)
    requires GoodLogs(w) && StateOf(w, key).None? && StateOf(w', key) == Some(Requested)
    requires w'.logs == w.logs[key := [Change(Requested, None)]]
    requires forall k: Key | k != key :: StateOf(w', k) == StateOf(w, k)
    ensures GoodLogs(w')
    ensures forall me: nat :: Extends(w, w', me)
    ensures forall k: Key, me: nat :: StepsBy(Log(w', k), me) == StepsBy(Log(w, k), me)
  {
    hide Allowed, StepsBy;
    assert GoodLog(w, key);
    forall k: Key
      ensures GoodLog(w', k)
    {
      assert GoodLog(w, k);
    }
    forall me: nat
      ensures StepsBy([Change(Requested, None)], me) == StepsBy([], me)
    {
      StepsByAppend([], Change(Requested, None), me);
      assert [] + [Change(Requested, None)] == [Change(Requested, None)];
      NoSteps(me);
    }
  }

  lemma NoSteps(i: nat)
    ensures StepsBy([], i) == []
  {
  }

  lemma CreateGood(cfg: Config, w: World, me: nat, t: Task)
    requires GoodLogs(w) && GoodRows(cfg, w) && t.Creating? && GoodTask(cfg, w, t, me)
    ensures Good(cfg, w, me, t, Create(w, t.row))
  {
    hide GoodLogs, Extends, StepsBy;
    if t.row.providerPid !in w.transfers {
      NewLogGood(w, Create(w, t.row).world, Key(Provider, t.row.providerPid));
    } else {
      SamePlace(cfg, w, w);
    }
  }

  lemma CreateConsumerGood(cfg: Config, w: World, me: nat, t: Task)
    requires GoodLogs(w) && GoodRows(cfg, w) && t.Opening? && GoodTask(cfg, w, t, me)
    ensures Good(cfg, w, me, t, CreateConsumer(w, t.initiated))
  {
    hide GoodLogs, Extends, StepsBy;
    if t.initiated.consumerPid !in w.consumerTransfers {
      NewLogGood(w, CreateConsumer(w, t.initiated).world, Key(Consumer, t.initiated.consumerPid));
    } else {
      SamePlace(cfg, w, w);
    }
  }

  lemma AcknowledgeGood(cfg: Config, w: World, me: nat, t: Task, c: Choice)
    requires GoodLogs(w) && GoodRows(cfg, w) && t.Awaiting?
    ensures Good(cfg, w, me, t, Acknowledge(cfg, w, t.acknowledged, c.ack))
  {
    hide InboundLegal, StepLegal, ConsumerTrigger, Path;
    var e := Acknowledge(cfg, w, t.acknowledged, c.ack);
    forall k: Key
      ensures GoodLog(e.world, k) && Log(e.world, k) == Log(w, k)
    {
      assert GoodLog(w, k);
    }
  }

  lemma ActGood(cfg: Config, w: World, me: nat, t: Task, c: Choice)
    requires GoodLogs(w) && GoodRows(cfg, w) && GoodTask(cfg, w, t, me)
    ensures Good(cfg, w, me, t, Act(cfg, w, me, t, c))
  {
    hide GoodLogs, GoodDriver, OnItsSequence, Apply, Drive, Create, CreateConsumer, Acknowledge, StepLegal, StepsBy;
    match t {
      case Applying(_, _, _, _, _) => ApplyGood(cfg, w, me, t);
      case Driver(_, _, _, _, _, _, _, _) => DriveGood(cfg, w, me, t, c);
      case Creating(_) => CreateGood(cfg, w, me, t);
      case Opening(_) => CreateConsumerGood(cfg, w, me, t);
      case Awaiting(_) => AcknowledgeGood(cfg, w, me, t, c);
      case _ =>
    }
  }

  lemma StepKeeps(cfg: Config, w: World, a: Action)
    requires Invariant(cfg, w)
    ensures Invariant(cfg, Step(cfg, w, a)) && Later(w, Step(cfg, w, a))
  {
    hide Act, GoodLog, GoodTask, Good, StepsBy;
    if a.Run? {
      if a.i < |w.pool| {
        RunStepKeeps(cfg, w, a.i, a.choice);
      }
    } else {
      ArrivalKeeps(cfg, w, a);
    }
  }

  lemma RunStepKeeps(cfg: Config, w: World, me: nat, c: Choice)
    requires Invariant(cfg, w) && me < |w.pool|
    ensures Invariant(cfg, Step(cfg, w, Run(me, c))) && Later(w, Step(cfg, w, Run(me, c)))
  {
    hide Act, GoodLog, GoodTask, StepsBy, Extended, Entitled, Later;
    var t, e, w' := w.pool[me], Act(cfg, w, me, w.pool[me], c), Step(cfg, w, Run(me, c));
    ActGood(cfg, w, me, t, c);
    SamePlace(cfg, e.world, w');
    forall i: nat | i < |w'.pool|
      ensures GoodTask(cfg, w', w'.pool[i], i)
    {
      if i < |w.pool| {
        if i != me {
          TaskLater(cfg, w, w', me, w.pool[i], i);
        }
      } else {
        assert w'.pool[i] in e.started;
        assert Signed(w) && !IsDriverOf(w, w'.pool[i].key, i);
        ExtendedSteps(Log(w, w'.pool[i].key), Log(w', w'.pool[i].key), me, i);
        StartingGood(cfg, w', w'.pool[i], i);
      }
    }
    forall key: Key, i: nat
      ensures StepsBy(Log(w', key), i) == [] || IsDriverOf(w', key, i)
    {
      if i != me {
        ExtendedSteps(Log(w, key), Log(w', key), me, i);
      }
    }
  }

  /** What the invariant says of rows, logs and tasks does not depend on the pool. */
  lemma SamePlace(cfg: Config, w: World, w': World)
    requires w' == w.(pool := w'.pool)
    ensures GoodLogs(w) ==> GoodLogs(w')
    ensures GoodRows(cfg, w) ==> GoodRows(cfg, w')
    ensures forall v, me: nat | Extends(v, w, me) :: Extends(v, w', me)
    ensures forall v | Later(v, w) :: Later(v, w')
    ensures forall t, i: nat | GoodTask(cfg, w, t, i) :: GoodTask(cfg, w', t, i)
    ensures forall t | Starting(w, t) :: Starting(w', t)
    ensures forall key: Key :: Log(w', key) == Log(w, key)
    ensures forall me: nat :: Extends(w, w', me)
  {
    hide StepsBy, Path, SequenceOf, StepLegal, InboundLegal;
    forall key: Key
      ensures GoodLog(w, key) ==> GoodLog(w', key)
    {
    }
  }

  lemma StartingGood(cfg: Config, w: World, t: Task, i: nat)
    requires Starting(w, t) && StepsBy(Log(w, t.key), i) == []
    ensures GoodTask(cfg, w, t, i)
  {
  }

  lemma ArrivalKeeps(cfg: Config, w: World, a: Action)
    requires Invariant(cfg, w) && !a.Run?
    ensures Invariant(cfg, Step(cfg, w, a)) && Later(w, Step(cfg, w, a))
  {
    hide GoodLog, StepsBy, SequenceOf, GoodDriver, StepLegal, InboundLegal;
    var w' := Step(cfg, w, a);
    if a.AnAgreement? {
      assert GoodLogs(w') by {
        forall key: Key
          ensures GoodLog(w', key)
        {
          SameLog(w, w', key);
        }
      }
      forall i: nat | i < |w'.pool|
        ensures GoodTask(cfg, w', w'.pool[i], i)
      {
        TaskLater(cfg, w, w', |w.pool|, w.pool[i], i);
      }
      assert forall key: Key :: Log(w', key) == Log(w, key);
      assert GoodRows(cfg, w');
    } else {
      SamePlace(cfg, w, w');
      forall i: nat | i < |w'.pool|
        ensures GoodTask(cfg, w', w'.pool[i], i)
      {
        assert i < |w.pool| ==> GoodTask(cfg, w, w.pool[i], i);
      }
    }
  }

  lemma SameLog(w: World, w': World, key: Key)
    requires GoodLogs(w) && w' == w.(agreements := w'.agreements)
    ensures GoodLog(w', key)
  {
    assert GoodLog(w, key);
  }
}
