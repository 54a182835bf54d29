/** What each transfer handler and each driver does, in full: which messages are accepted,
    which requests are granted, what a transfer is driven through, and that it is. */
module TransferSteps {
  import opened Prelude
  import opened Storage
  import opened Configuration
  import opened TransferWorld
  import opened TransferSafety

  // ----- legality -----

  /** Messages may make exactly the transitions of the protocol, save that the counterparty
      of a provider may not start a transfer; this connector's own sequences exactly those,
      save that a consumer's may not start one. */
  lemma LegalExactly(role: Role, from: TransferState, to: TransferState)
    ensures InboundLegal(role, from, to) <==>
      Edge(from, to) && !(role == Provider && from == Requested && to == Started)
    ensures StepLegal(role, from, to) <==> Edge(from, to) && !(role == Consumer && to == Started)
  {
  }

  // ----- what a transfer is driven through -----

  predicate FirstPolicy(policies: seq<TransferPolicy>, agreement: string, i: nat) {
    i < |policies| && policies[i].agreement == agreement && forall j | 0 <= j < i :: policies[j].agreement != agreement
  }

  /** The i-th dataset entry is the first with this id and a sequence. */
  predicate FirstSequence(datasets: seq<Dataset>, id: string, i: nat) {
    && i < |datasets| && Sequenced(datasets[i], id)
    && forall j | 0 <= j < i :: !Sequenced(datasets[j], id)
  }

  predicate Sequenced(d: Dataset, id: string) {
    d.id == id && d.transferSequence.Some?
  }

  lemma {:induction false} PolicySequenceExactly(policies: seq<TransferPolicy>, agreement: string, i: nat)
    ensures FirstPolicy(policies, agreement, i) ==> PolicySequence(policies, agreement) == Some(policies[i].sequence)
    ensures (forall p | p in policies :: p.agreement != agreement) ==> PolicySequence(policies, agreement) == None
  {
    if policies == [] {
    } else if policies[0].agreement == agreement {
      assert policies[0] in policies;
    } else {
      PolicySequenceExactly(policies[1..], agreement, if i > 0 then i - 1 else 0);
      assert FirstPolicy(policies, agreement, i) ==> i > 0 && FirstPolicy(policies[1..], agreement, i - 1);
      assert forall p | p in policies[1..] :: p in policies;
    }
  }

  lemma {:induction false} DatasetSequenceExactly(datasets: seq<Dataset>, id: string, i: nat)
    ensures FirstSequence(datasets, id, i) ==> DatasetSequence(datasets, id) == datasets[i].transferSequence
    ensures (forall d | d in datasets :: !Sequenced(d, id)) ==> DatasetSequence(datasets, id) == None
  {
    if datasets == [] {
    } else if Sequenced(datasets[0], id) {
      assert datasets[0] in datasets;
    } else {
      DatasetSequenceExactly(datasets[1..], id, if i > 0 then i - 1 else 0);
      assert FirstSequence(datasets, id, i) ==> i > 0 && FirstSequence(datasets[1..], id, i - 1);
      assert forall d | d in datasets[1..] :: d in datasets;
    }
  }

  /** The first policy for the agreement decides what its transfers are driven through;
      without one, the first entry of its dataset that has a sequence; without either they
      are started and left to run. */
  lemma SequenceExactly(cfg: Config, agreements: map<string, Agreement>, agreement: string, i: nat, k: nat)
    requires agreement in agreements && agreements[agreement].origin != Origin.Agreed
    ensures var sequence := SequenceOf(cfg, agreements, Provider, agreement);
      var id := agreements[agreement].dataset;
      var unnamed := forall p | p in cfg.transferPolicies :: p.agreement != agreement;
      && (FirstPolicy(cfg.transferPolicies, agreement, i) ==> sequence == cfg.transferPolicies[i].sequence)
      && (unnamed && FirstSequence(cfg.datasets, id, k) ==> Some(sequence) == cfg.datasets[k].transferSequence)
      && (unnamed && (forall d | d in cfg.datasets :: !Sequenced(d, id)) ==> sequence == [Started])
  {
    hide PolicySequence, DatasetSequence;
    PolicySequenceExactly(cfg.transferPolicies, agreement, i);
    DatasetSequenceExactly(cfg.datasets, agreements[agreement].dataset, k);
  }

  predicate FirstTrigger(policies: seq<ConsumerTransferPolicy>, agreement: string, i: nat) {
    i < |policies| && policies[i].agreement == agreement && forall j | 0 <= j < i :: policies[j].agreement != agreement
  }

  /** A consumer's transfers are driven through the first policy's sequence once they reach
      its state, STARTED unless it names another; without a policy through nothing. */
  lemma {:induction false} TriggerExactly(policies: seq<ConsumerTransferPolicy>, agreement: string, i: nat)
    ensures FirstTrigger(policies, agreement, i) ==>
      var p := policies[i];
      ConsumerTrigger(policies, agreement) == Trigger(if p.after.None? then Started else p.after.value, p.sequence)
    ensures (forall p | p in policies :: p.agreement != agreement) ==>
      ConsumerTrigger(policies, agreement).sequence == []
  {
    if policies == [] {
    } else if policies[0].agreement == agreement {
      assert policies[0] in policies;
    } else {
      TriggerExactly(policies[1..], agreement, if i > 0 then i - 1 else 0);
      assert FirstTrigger(policies, agreement, i) ==> i > 0 && FirstTrigger(policies[1..], agreement, i - 1);
      assert forall p | p in policies[1..] :: p in policies;
    }
  }

  // ----- requests and messages -----

  /** A transfer request is granted exactly if it is complete and names an agreement on
      record that this connector serves, with whoever asks if authentication is on and the
      agreement names anyone; the row is then what was asked for, with who asked. */
  lemma RequestExactly(cfg: Config, w: World, r: Request, issuer: string, pid: string, me: nat, c: Choice)
    ensures var e := Act(cfg, w, me, Requesting(r, issuer, pid), c);
      e == Effect(w,
        if && r.consumerPid != "" && r.agreement != "" && r.format != "" && r.callback != ""
           && r.agreement in w.agreements
           && w.agreements[r.agreement].origin != Origin.Agreed
           && (cfg.authRequired ==> w.agreements[r.agreement].counterparty in {"", issuer})
        then Creating(TransferProcess(pid, r.consumerPid, r.agreement, Requested, r.callback, r.format, issuer))
        else Over, [])
  {
  }

  /** A row is created once, REQUESTED, and given one driver. */
  lemma CreationExactly(cfg: Config, w: World, row: TransferProcess, me: nat, c: Choice)
    ensures var e, key := Act(cfg, w, me, Creating(row), c), Key(Provider, row.providerPid);
      if row.providerPid in w.transfers then e == Effect(w, Over, [])
      else e == Effect(
        w.(transfers := w.transfers[row.providerPid := row], logs := w.logs[key := [Change(row.state, None)]]), Over,
        [Driver(key, row.agreement, row.consumerPid, [], 0, 0, row.state, Resolving)])
  {
  }

  /** A transition message is accepted exactly by a row it names, of the consumer's table
      first, from whoever the row is with if authentication is on, and from a state it is
      legal in. */
  lemma MessageExactly(cfg: Config, w: World, pid: string, issuer: string, to: TransferState, me: nat, c: Choice)
    ensures var e := Act(cfg, w, me, Receiving(pid, issuer, to), c);
      e == Effect(w,
        if pid in w.consumerTransfers then
          var t := w.consumerTransfers[pid];
          if (cfg.authRequired ==> issuer == t.counterparty) && Edge(t.state, to)
          then Applying(Key(Consumer, pid), t.state, to, t.agreement, t.providerPid)
          else Over
        else if pid in w.transfers then
          var t := w.transfers[pid];
          if && (cfg.authRequired ==> issuer == t.counterparty)
             && Edge(t.state, to) && !(t.state == Requested && to == Started)
          then Applying(Key(Provider, pid), t.state, to, t.agreement, t.consumerPid)
          else Over
        else Over, [])
  {
  }

  /** It is applied exactly if the row has not moved; a consumer's row that so reaches the
      state its policy waits for is given a driver. */
  lemma ApplicationExactly(cfg: Config, w: World, t: Task, me: nat, c: Choice)
    requires t.Applying?
    ensures var e, trigger := Act(cfg, w, me, t, c), ConsumerTrigger(cfg.consumerTransferPolicies, t.agreement);
      if StateOf(w, t.key) != Some(t.from) then e == Effect(w, Over, [])
      else
        && e.me == Over && StateOf(e.world, t.key) == Some(t.to)
        && Log(e.world, t.key) == Log(w, t.key) + [Change(t.to, None)]
        && e.started == if t.key.role == Consumer && trigger.sequence != [] && t.to == trigger.after
                        then [Driver(Key(Consumer, t.key.pid), t.agreement, t.peer, [], 0, 0, t.to, Resolving)]
                        else []
  {
    hide ConsumerTrigger;
  }

  /** An initiated transfer is created exactly under an agreement on record, REQUESTED; the
      acknowledgment stores the provider's pid and may release its sequence. */
  lemma InitiationExactly(cfg: Config, w: World, row: ConsumerTransfer, pid: string, me: nat, c: Choice)
    ensures Act(cfg, w, me, Initiating(row), c) ==
      Effect(w, if row.agreement in w.agreements && c.maySend then Opening(row) else Over, [])
    ensures row.consumerPid !in w.consumerTransfers ==>
      var e := Act(cfg, w, me, Opening(row), c);
      && e.me == Awaiting(row.consumerPid) && e.started == []
      && e.world.consumerTransfers == w.consumerTransfers[row.consumerPid := row]
    ensures var e := Act(cfg, w, me, Awaiting(pid), c);
      if c.ack == None || pid !in w.consumerTransfers then e == Effect(w, Over, [])
      else
        var t := w.consumerTransfers[pid];
        var trigger := ConsumerTrigger(cfg.consumerTransferPolicies, t.agreement);
        && e.world == w.(consumerTransfers := w.consumerTransfers[pid := t.(providerPid := c.ack.value)])
        && e.started == if trigger.sequence != [] && trigger.after == Requested
                        then [Driver(Key(Consumer, pid), t.agreement, c.ack.value, [], 0, 0, Requested, Resolving)]
                        else []
  {
    hide ConsumerTrigger;
  }

  // ----- drivers -----

  /** A driver announces its next step if it is legal from where it last left its row, its
      row has a peer to tell and the guard lets it, and ends otherwise; it stores what it
      announced if the row is still there, and ends otherwise. */
  lemma DriverExactly(cfg: Config, w: World, d: Task, me: nat, c: Choice)
    requires d.Driver? && StateOf(w, d.key).Some?
    ensures var e := Act(cfg, w, me, d, c);
      && e.started == []
      && (d.phase == Stepping ==>
            e.world == w && e.me ==
              if && d.at < |d.sequence| && Edge(d.from, d.sequence[d.at]) && c.maySend
                 && (d.key.role == Consumer ==> d.sequence[d.at] != Started && d.peer != "")
              then d.(pushed := d.pushed + 1, phase := Storing)
              else d.(phase := Finished))
      && (d.phase == Storing && d.at < |d.sequence| ==>
            if StateOf(w, d.key) == Some(d.from) then
              && e.me == d.(at := d.at + 1, from := d.sequence[d.at], phase := Stepping)
              && StateOf(e.world, d.key) == Some(d.sequence[d.at])
              && Log(e.world, d.key) == Log(w, d.key) + [Change(d.sequence[d.at], Some(me))]
            else e.world == w && e.me == d.(phase := Finished))
  {
  }

  const GO_ON := Choice(true, None)

  /** n steps of a driver that is left alone: each announced and then stored. */
  function Alone(me: nat, n: nat): seq<Action> {
    if n == 0 then [] else [Run(me, GO_ON), Run(me, GO_ON)] + Alone(me, n - 1)
  }

  /** What a driver commits of these states. */
  function Commits(states: seq<TransferState>, me: nat): seq<Change> {
    seq(|states|, i requires 0 <= i < |states| => Change(states[i], Some(me)))
  }

  /** The state before step j, of a walk that begins at step at from a given state. */
  function Prior(from: TransferState, sequence: seq<TransferState>, at: nat, j: nat): TransferState
    requires at <= j <= |sequence|
  {
    if j == at then from else sequence[j - 1]
  }

  /** The driver's next n steps are legal, each from where the one before it leads. */
  predicate LegalWalk(d: Task, n: nat)
    requires d.Driver?
  {
    && d.at + n <= |d.sequence|
    && forall j | d.at <= j < d.at + n ::
         && Edge(Prior(d.from, d.sequence, d.at, j), d.sequence[j])
         && !(d.key.role == Consumer && d.sequence[j] == Started)
  }

  /** A provider's row has changed in nothing but its state. */
  predicate SameTerms(w: World, w': World, key: Key) {
    key.role == Provider && key.pid in w.transfers ==>
      && key.pid in w'.transfers
      && w'.transfers[key.pid] == w.transfers[key.pid].(state := w'.transfers[key.pid].state)
  }

  /** A driver at work on a row that is where it left it. */
  predicate InStep(w: World, me: nat) {
    && me < |w.pool| && w.pool[me].Driver? && w.pool[me].phase == Stepping
    && (w.pool[me].key.role == Consumer ==> w.pool[me].peer != "")
    && StateOf(w, w.pool[me].key) == Some(w.pool[me].from)
  }

  /** From any world, a driver in step that is left alone commits its sequence as far as it
      is legal. */
  lemma {:induction false} AloneItGoesOn(cfg: Config, w: World, me: nat, n: nat)
    requires InStep(w, me) && LegalWalk(w.pool[me], n)
    ensures var w', d := RunAll(cfg, w, Alone(me, n)), w.pool[me];
      && InStep(w', me) && w'.pool[me].at == d.at + n && w'.pool[me].key == d.key
      && Log(w', d.key) == Log(w, d.key) + Commits(d.sequence[d.at..d.at + n], me)
      && StateOf(w', d.key) == Some(if n == 0 then d.from else d.sequence[d.at + n - 1])
      && SameTerms(w, w', d.key)
    decreases n
  {
    hide Step, LegalWalk, SameTerms, Commits, StateOf;
    var d := w.pool[me];
    SameTermsTwice(w, w, w, d.key);
    WalkFits(d, n);
    if n == 0 {
      NoCommits(me);
      assert d.sequence[d.at..d.at] == [];
    } else {
      var w' := Step(cfg, Step(cfg, w, Run(me, GO_ON)), Run(me, GO_ON));
      AloneOnce(cfg, w, me, n);
      TwoActions(cfg, w, Run(me, GO_ON), Run(me, GO_ON), Alone(me, n - 1));
      AloneItGoesOn(cfg, w', me, n - 1);
      SameTermsTwice(w, w', RunAll(cfg, w', Alone(me, n - 1)), d.key);
      OneMoreCommit(d.sequence, d.at, n, me);
    }
  }

  lemma NoCommits(me: nat)
    ensures Commits([], me) == []
  {
  }

  lemma OneMoreCommit(sequence: seq<TransferState>, at: nat, n: nat, me: nat)
    requires 0 < n && at + n <= |sequence|
    ensures Commits(sequence[at..at + n], me)
         == [Change(sequence[at], Some(me))] + Commits(sequence[at + 1..at + n], me)
  {
    assert sequence[at..at + n] == [sequence[at]] + sequence[at + 1..at + n];
  }

  lemma SameTermsTwice(a: World, b: World, c: World, key: Key)
    ensures SameTerms(a, a, key)
    ensures SameTerms(a, b, key) && SameTerms(b, c, key) ==> SameTerms(a, c, key)
  {
  }

  lemma WalkFits(d: Task, n: nat)
    requires d.Driver? && LegalWalk(d, n)
    ensures d.at + n <= |d.sequence|
  {
  }

  lemma AloneOnce(cfg: Config, w: World, me: nat, n: nat)
    requires n > 0 && InStep(w, me) && LegalWalk(w.pool[me], n)
    ensures var w', d := Step(cfg, Step(cfg, w, Run(me, GO_ON)), Run(me, GO_ON)), w.pool[me];
      && InStep(w', me)
      && w'.pool[me] == d.(at := d.at + 1, pushed := d.pushed + 1, from := d.sequence[d.at])
      && LegalWalk(w'.pool[me], n - 1)
      && Log(w', d.key) == Log(w, d.key) + [Change(d.sequence[d.at], Some(me))]
      && SameTerms(w, w', d.key)
  {
    hide Edge, StepLegal;
    var d := w.pool[me];
    LegalExactly(d.key.role, d.from, d.sequence[d.at]);
    assert Edge(Prior(d.from, d.sequence, d.at, d.at), d.sequence[d.at]);
    var w1 := Step(cfg, w, Run(me, GO_ON));
    assert w1.pool[me] == d.(pushed := d.pushed + 1, phase := Storing);
    assert w1 == w.(pool := w1.pool);
  }

  lemma TwoActions(cfg: Config, w: World, a: Action, b: Action, rest: seq<Action>)
    ensures RunAll(cfg, w, [a, b] + rest) == RunAll(cfg, Step(cfg, Step(cfg, w, a), b), rest)
  {
    hide Step;
    var actions := [a, b] + rest;
    assert actions[1..] == [b] + rest && actions[1..][1..] == rest;
    assert RunAll(cfg, w, actions) == RunAll(cfg, Step(cfg, w, a), actions[1..]);
  }

  /** A request's arrival, its handling, and its driver's look at its sequence. */
  function Served(w: World, r: Request, issuer: string, pid: string): seq<Action> {
    var n := |w.pool|;
    [ARequest(r, issuer, pid), Run(n, GO_ON), Run(n, GO_ON), Run(n + 1, GO_ON)]
  }

  /** What a request must be to be granted. */
  predicate Grantable(cfg: Config, w: World, r: Request, issuer: string) {
    && r.consumerPid != "" && r.agreement != "" && r.format != "" && r.callback != ""
    && r.agreement in w.agreements
    && w.agreements[r.agreement].origin != Origin.Agreed
    && (cfg.authRequired ==> w.agreements[r.agreement].counterparty in {"", issuer})
  }

  lemma ServedOnce(cfg: Config, w: World, r: Request, issuer: string, pid: string)
    requires Grantable(cfg, w, r, issuer) && pid !in w.transfers
    ensures var w', me, key := RunAll(cfg, w, Served(w, r, issuer, pid)), |w.pool| + 1, Key(Provider, pid);
      && InStep(w', me) && w'.pool[me].key == key && w'.pool[me].at == 0 && w'.pool[me].from == Requested
      && w'.pool[me].sequence == SequenceOf(cfg, w.agreements, Provider, r.agreement)
      && Log(w', key) == [Change(Requested, None)]
      && w'.transfers[pid] == TransferProcess(pid, r.consumerPid, r.agreement, Requested, r.callback, r.format, issuer)
  {
    hide SequenceOf;
    var n, actions := |w.pool|, Served(w, r, issuer, pid);
    var w1 := Step(cfg, w, actions[0]);
    var w2 := Step(cfg, w1, actions[1]);
    var row := TransferProcess(pid, r.consumerPid, r.agreement, Requested, r.callback, r.format, issuer);
    assert w2.pool == w.pool + [Creating(row)];
    var w3 := Step(cfg, w2, actions[2]);
    assert w3.pool == w.pool + [Over, NewDriver(Key(Provider, pid), r.agreement, r.consumerPid, Requested)];
    var w4 := Step(cfg, w3, actions[3]);
    FourSteps(cfg, w, actions);
  }

  /** From any world whatever, a grantable request under a fresh pid can be driven through
      its agreement's sequence as far as that is legal from REQUESTED. */
  lemma RequestIsDriven(cfg: Config, w: World, r: Request, issuer: string, pid: string, n: nat)
    requires Grantable(cfg, w, r, issuer) && pid !in w.transfers
    requires var sequence := SequenceOf(cfg, w.agreements, Provider, r.agreement);
      n <= |sequence| && forall j | 0 <= j < n :: Edge(Prior(Requested, sequence, 0, j), sequence[j])
    ensures var sequence := SequenceOf(cfg, w.agreements, Provider, r.agreement);
      var w' := RunAll(cfg, w, Served(w, r, issuer, pid) + Alone(|w.pool| + 1, n));
      && Log(w', Key(Provider, pid)) == [Change(Requested, None)] + Commits(sequence[..n], |w.pool| + 1)
      && pid in w'.transfers
      && w'.transfers[pid] == TransferProcess(
           pid, r.consumerPid, r.agreement, if n == 0 then Requested else sequence[n - 1], r.callback, r.format, issuer)
  {
    hide RunAll, SequenceOf, Served, Alone, Edge;
    var served := RunAll(cfg, w, Served(w, r, issuer, pid));
    ServedOnce(cfg, w, r, issuer, pid);
    var d := served.pool[|w.pool| + 1];
    assert d.key.role == Provider && LegalWalk(d, n);
    AloneItGoesOn(cfg, served, |w.pool| + 1, n);
    RunAppend(cfg, w, Served(w, r, issuer, pid), Alone(|w.pool| + 1, n));
    var sequence := SequenceOf(cfg, w.agreements, Provider, r.agreement);
    assert sequence[0..0 + n] == sequence[..n];
  }

  /** So by default, with no policy for the agreement and no sequence for its dataset, every
      grantable request can be started. */
  lemma StartedByDefault(cfg: Config, w: World, r: Request, issuer: string, pid: string)
    requires Grantable(cfg, w, r, issuer) && pid !in w.transfers
    requires forall p | p in cfg.transferPolicies :: p.agreement != r.agreement
    requires forall d | d in cfg.datasets :: !Sequenced(d, w.agreements[r.agreement].dataset)
    ensures exists actions ::
      var w' := RunAll(cfg, w, actions);
      && pid in w'.transfers && w'.transfers[pid].state == Started
      && w'.transfers[pid].counterparty == issuer && w'.transfers[pid].agreement == r.agreement
  {
    hide RunAll, SequenceOf;
    SequenceExactly(cfg, w.agreements, r.agreement, 0, 0);
    assert Edge(Requested, Started);
    RequestIsDriven(cfg, w, r, issuer, pid, 1);
  }
}
