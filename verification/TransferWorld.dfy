/** The transfer processes of one connector, in both roles, as a state machine over its
    atomic steps: request handlers, transition handlers and the drivers that walk a
    configured sequence run concurrently, and any of them may go next. */
module TransferWorld {
  import opened Prelude
  import opened Storage
  import opened Configuration

  datatype Role = Provider | Consumer

  // ----- legality -----

  predicate StartLegalFrom(s: TransferState) {
    s == Requested || s == Suspended
  }

  predicate ProviderInboundStartLegalFrom(s: TransferState) {
    s == Suspended
  }

  predicate CompletionLegalFrom(s: TransferState) {
    s == Started
  }

  predicate SuspensionLegalFrom(s: TransferState) {
    s == Started
  }

  predicate TerminationLegalFrom(s: TransferState) {
    s == Requested || s == Started || s == Suspended
  }

  /** Whether a message received in this role may move a row from one state to another. */
  predicate InboundLegal(role: Role, from: TransferState, to: TransferState) {
    match to
    case Requested => false
    case Started => if role == Consumer then StartLegalFrom(from) else ProviderInboundStartLegalFrom(from)
    case Suspended => SuspensionLegalFrom(from)
    case Completed => CompletionLegalFrom(from)
    case Terminated => TerminationLegalFrom(from)
  }

  /** The states this connector's own sequence can announce in this role. */
  predicate HasStepMessage(role: Role, to: TransferState) {
    to != Requested && (role == Consumer ==> to != Started)
  }

  /** Whether this connector's own sequence may move a row from one state to another. */
  predicate StepLegal(role: Role, from: TransferState, to: TransferState) {
    && HasStepMessage(role, to)
    && match to
       case Requested => false
       case Started => StartLegalFrom(from)
       case Suspended => SuspensionLegalFrom(from)
       case Completed => CompletionLegalFrom(from)
       case Terminated => TerminationLegalFrom(from)
  }

  // ----- what a transfer is driven through -----

  function PolicySequence(policies: seq<TransferPolicy>, agreement: string): Option<seq<TransferState>> {
    if policies == [] then None
    else if policies[0].agreement == agreement then Some(policies[0].sequence)
    else PolicySequence(policies[1..], agreement)
  }

  function DatasetSequence(datasets: seq<Dataset>, dataset: string): Option<seq<TransferState>> {
    if datasets == [] then None
    else if datasets[0].id == dataset && datasets[0].transferSequence.Some? then datasets[0].transferSequence
    else DatasetSequence(datasets[1..], dataset)
  }

  function ResolveTransferSequence(cfg: Config, agreement: string, dataset: string): seq<TransferState> {
    var policy := PolicySequence(cfg.transferPolicies, agreement);
    if policy.Some? then policy.value else
    var fallback := DatasetSequence(cfg.datasets, dataset);
    if fallback.Some? then fallback.value else [Started]
  }

  datatype Trigger = Trigger(after: TransferState, sequence: seq<TransferState>)

  function ConsumerTrigger(policies: seq<ConsumerTransferPolicy>, agreement: string): Trigger {
    if policies == [] then Trigger(Started, [])
    else if policies[0].agreement == agreement then
      Trigger(if policies[0].after.Some? then policies[0].after.value else Started, policies[0].sequence)
    else ConsumerTrigger(policies[1..], agreement)
  }

  /** The sequence a row is driven through. */
  function SequenceOf(cfg: Config, agreements: map<string, Agreement>, role: Role,
    agreement: string): seq<TransferState> {
    if role == Consumer then ConsumerTrigger(cfg.consumerTransferPolicies, agreement).sequence
    else ResolveTransferSequence(cfg, agreement,
      if agreement in agreements && ServableAsProvider(agreements[agreement]) then agreements[agreement].dataset
        else "")
  }

  // ----- the world -----

  datatype Key = Key(role: Role, pid: string)

  /** A committed state and the driver that committed it, if one of this connector's did. */
  datatype Change = Change(to: TransferState, driver: Option<nat>)

  datatype Request = Request(consumerPid: string, agreement: string, format: string, callback: string)

  datatype Phase = Resolving | Stepping | Storing | Finished

  datatype Task =
    | Over
    /** A transfer request before and after its agreement was read; the row to create. */
    | Requesting(request: Request, issuer: string, pid: string)
    | Creating(row: TransferProcess)
    /** A transfer this connector initiates: before and after its agreement was read, and
        until the request that opens it is acknowledged. */
    | Initiating(wanted: ConsumerTransfer)
    | Opening(initiated: ConsumerTransfer)
    | Awaiting(acknowledged: string)
    /** A message for one of the four transitions: before the row is read, and after. */
    | Receiving(pid: string, issuer: string, to: TransferState)
    | Applying(key: Key, from: TransferState, to: TransferState, agreement: string, peer: string)
    /** A driver: at of its steps are committed, pushed of them have been announced, from is
        the state it last wrote or was started with. */
    | Driver(key: Key, agreement: string, peer: string, sequence: seq<TransferState>, at: nat, pushed: nat,
             from: TransferState, phase: Phase)

  datatype World = World(
    agreements: map<string, Agreement>,
    transfers: map<string, TransferProcess>, consumerTransfers: map<string, ConsumerTransfer>,
    logs: map<Key, seq<Change>>, pool: seq<Task>)

  const EMPTY := World(map[], map[], map[], map[], [])

  function StateOf(w: World, key: Key): Option<TransferState> {
    if key.role == Provider then (if key.pid in w.transfers then Some(w.transfers[key.pid].state) else None)
    else (if key.pid in w.consumerTransfers then Some(w.consumerTransfers[key.pid].state) else None)
  }

  function Log(w: World, key: Key): seq<Change> {
    if key in w.logs then w.logs[key] else []
  }

  /** A row commits a state. */
  function Commit(w: World, key: Key, to: TransferState, driver: Option<nat>): World
    requires StateOf(w, key).Some?
  {
    var w' := w.(logs := w.logs[key := Log(w, key) + [Change(to, driver)]]);
    if key.role == Provider then w'.(transfers := w.transfers[key.pid := w.transfers[key.pid].(state := to)])
    else w'.(consumerTransfers := w.consumerTransfers[key.pid := w.consumerTransfers[key.pid].(state := to)])
  }

  // ----- steps -----

  /** maySend: the outgoing-address guard and the roster let a request go out; ack: the
      provider pid the opening request's acknowledgment carries, if it arrives. */
  datatype Choice = Choice(maySend: bool, ack: Option<string>)

  datatype Effect = Effect(world: World, me: Task, started: seq<Task>)

  function NewDriver(key: Key, agreement: string, peer: string, from: TransferState): Task {
    Driver(key, agreement, peer, [], 0, 0, from, Resolving)
  }

  /** The request's checks against the agreement it names. */
  function CheckRequest(cfg: Config, w: World, r: Request, issuer: string, pid: string): Task {
    if r.consumerPid == "" || r.agreement == "" || r.format == "" || r.callback == "" then Over
    else if r.agreement !in w.agreements then Over
    else
      var a := w.agreements[r.agreement];
      if !ServableAsProvider(a) then Over
      else if cfg.authRequired && a.counterparty != "" && issuer != a.counterparty then Over
      else Creating(TransferProcess(pid, r.consumerPid, r.agreement, Requested, r.callback, r.format, issuer))
  }

  function Create(w: World, row: TransferProcess): Effect {
    if row.providerPid in w.transfers then Effect(w, Over, []) else
    var key := Key(Provider, row.providerPid);
    Effect(w.(transfers := w.transfers[row.providerPid := row], logs := w.logs[key := [Change(row.state, None)]]), Over,
      [NewDriver(key, row.agreement, row.consumerPid, row.state)])
  }

  function CreateConsumer(w: World, row: ConsumerTransfer): Effect {
    if row.consumerPid in w.consumerTransfers then Effect(w, Over, []) else
    Effect(w.(consumerTransfers := w.consumerTransfers[row.consumerPid := row],
              logs := w.logs[Key(Consumer, row.consumerPid) := [Change(row.state, None)]]),
      Awaiting(row.consumerPid), [])
  }

  /** A sequence is released by the state its policy waits for. */
  function MaybeDrive(cfg: Config, pid: string, agreement: string, peer: string, reached: TransferState): seq<Task> {
    var trigger := ConsumerTrigger(cfg.consumerTransferPolicies, agreement);
    if trigger.sequence == [] || reached != trigger.after then []
    else [NewDriver(Key(Consumer, pid), agreement, peer, reached)]
  }

  function Acknowledge(cfg: Config, w: World, pid: string, ack: Option<string>): Effect {
    if ack.None? || pid !in w.consumerTransfers then Effect(w, Over, []) else
    var row := w.consumerTransfers[pid];
    Effect(w.(consumerTransfers := w.consumerTransfers[pid := row.(providerPid := ack.value)]), Over,
      MaybeDrive(cfg, pid, row.agreement, ack.value, Requested))
  }

  /** A transition message is checked against the row it is for: the consumer's table is
      looked in first. */
  function Receive(cfg: Config, w: World, pid: string, issuer: string, to: TransferState): Task {
    if pid in w.consumerTransfers then
      var t := w.consumerTransfers[pid];
      if (cfg.authRequired && issuer != t.counterparty) || !InboundLegal(Consumer, t.state, to) then Over
      else Applying(Key(Consumer, pid), t.state, to, t.agreement, t.providerPid)
    else if pid in w.transfers then
      var t := w.transfers[pid];
      if (cfg.authRequired && issuer != t.counterparty) || !InboundLegal(Provider, t.state, to) then Over
      else Applying(Key(Provider, pid), t.state, to, t.agreement, t.consumerPid)
    else Over
  }

  function Apply(cfg: Config, w: World, key: Key, from: TransferState, to: TransferState, agreement: string,
    peer: string): Effect {
    if StateOf(w, key) != Some(from) then Effect(w, Over, [])
    else Effect(Commit(w, key, to, None), Over,
      if key.role == Consumer then MaybeDrive(cfg, key.pid, agreement, peer, to) else [])
  }

  /** One move of driver me: look its sequence up, announce the next step, or store it. */
  function Drive(cfg: Config, w: World, d: Task, me: nat, c: Choice): Effect
    requires d.Driver?
  {
    match d.phase
    case Resolving =>
      var sequence := SequenceOf(cfg, w.agreements, d.key.role, d.agreement);
      Effect(w, d.(sequence := sequence, phase := Stepping), [])
    case Stepping =>
      if d.at >= |d.sequence| || !StepLegal(d.key.role, d.from, d.sequence[d.at])
         || (d.key.role == Consumer && d.peer == "") || !c.maySend then Effect(w, d.(phase := Finished), [])
      else Effect(w, d.(pushed := d.pushed + 1, phase := Storing), [])
    case Storing =>
      if d.at >= |d.sequence| || StateOf(w, d.key) != Some(d.from) then Effect(w, d.(phase := Finished), [])
      else Effect(Commit(w, d.key, d.sequence[d.at], Some(me)),
        d.(at := d.at + 1, from := d.sequence[d.at], phase := Stepping), [])
    case Finished => Effect(w, d, [])
  }

  function Act(cfg: Config, w: World, me: nat, t: Task, c: Choice): Effect {
    match t
    case Over => Effect(w, t, [])
    case Requesting(request, issuer, pid) => Effect(w, CheckRequest(cfg, w, request, issuer, pid), [])
    case Creating(row) => Create(w, row)
    case Initiating(row) => Effect(w, if row.agreement in w.agreements && c.maySend then Opening(row) else Over, [])
    case Opening(row) => CreateConsumer(w, row)
    case Awaiting(pid) => Acknowledge(cfg, w, pid, c.ack)
    case Receiving(pid, issuer, to) => Effect(w, Receive(cfg, w, pid, issuer, to), [])
    case Applying(key, from, to, agreement, peer) => Apply(cfg, w, key, from, to, agreement, peer)
    case Driver(_, _, _, _, _, _, _, _) => Drive(cfg, w, t, me, c)
  }

  /** A task takes its next step; a request or transition message from anyone arrives; the
      operator initiates a transfer; an agreement is negotiated or imported. */
  datatype Action =
    | Run(i: nat, choice: Choice)
    | ARequest(request: Request, issuer: string, freshPid: string)
    | AMessage(pid: string, issuer: string, to: TransferState)
    | AnInitiation(consumerPid: string, agreement: string, format: string, baseUrl: string, counterparty: string)
    | AnAgreement(made: Agreement)

  function Arrived(a: Action): Task
    requires !a.Run? && !a.AnAgreement?
  {
    match a
    case ARequest(request, issuer, pid) => Requesting(request, issuer, pid)
    case AMessage(pid, issuer, to) => Receiving(pid, issuer, to)
    case AnInitiation(pid, agreement, format, base, counterparty) =>
      Initiating(ConsumerTransfer(pid, "", base, agreement, format, Requested, counterparty, 0, 0, "", None, None))
  }

  function Step(cfg: Config, w: World, a: Action): World {
    if a.Run? then
      if a.i >= |w.pool| then w else
      var e := Act(cfg, w, a.i, w.pool[a.i], a.choice);
      e.world.(pool := w.pool[a.i := e.me] + e.started)
    else if a.AnAgreement? then
      if a.made.id in w.agreements then w else w.(agreements := w.agreements[a.made.id := a.made])
    else
      w.(pool := w.pool + [Arrived(a)])
  }

  function RunAll(cfg: Config, w: World, actions: seq<Action>): World
    decreases |actions|
  {
    if actions == [] then w else RunAll(cfg, Step(cfg, w, actions[0]), actions[1..])
  }
}
