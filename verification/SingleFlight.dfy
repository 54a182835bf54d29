/** The guard around the data pull: a restart that arrives while a pull for the same
    transfer is in flight is dropped, so two pulls never interleave on one transfer's
    files and row, and what any interleaving leaves is what a sequence of restarts leaves. */
module SingleFlight {
  import opened Pull
  import opened PullRuns
  import opened PullSteps

  /** Where a pull's goroutine is: before the guard, past it and at some stage of the pull,
      or over. */
  datatype Position = Arriving | Inside(stage: Stage) | Over

  datatype Puller = Puller(pid: string, restart: Restart, position: Position)

  /** One access to the files and row of transfer pid, by goroutine who. */
  datatype Access = Access(who: nat, pid: string)

  /** Every transfer's files and row, and for each the restarts that passed the guard, in
      order. */
  datatype Flight = Flight(
    pulling: set<string>, pullers: seq<Puller>, accesses: seq<Access>,
    locals: map<string, Local>, admitted: map<string, seq<Restart>>)

  datatype Move = Trigger(pid: string, restart: Restart) | Run(i: nat)

  function Idle(locals: map<string, Local>): Flight {
    Flight({}, [], [], locals, map pid | pid in locals :: [])
  }

  function Admitted(f: Flight, pid: string): seq<Restart> {
    if pid in f.admitted then f.admitted[pid] else []
  }

  function Enter(f: Flight, i: nat): Flight
    requires i < |f.pullers|
  {
    var p := f.pullers[i];
    if p.pid in f.pulling then f.(pullers := f.pullers[i := p.(position := Over)])
    else f.(
      pulling := f.pulling + {p.pid},
      pullers := f.pullers[i := p.(position := Inside(Examining))],
      admitted := f.admitted[p.pid := Admitted(f, p.pid) + [p.restart]])
  }

  function Leave(f: Flight, i: nat): Flight
    requires i < |f.pullers|
  {
    var p := f.pullers[i];
    f.(pulling := f.pulling - {p.pid}, pullers := f.pullers[i := p.(position := Over)])
  }

  function Touch(f: Flight, i: nat): Flight
    requires InsideAt(f, i) && f.pullers[i].pid in f.locals && f.pullers[i].position.stage.Valid()
  {
    var p := f.pullers[i];
    var next := Advance(f.locals[p.pid], p.position.stage, p.restart);
    f.(
      pullers := f.pullers[i := p.(position := Inside(next.stage))],
      locals := f.locals[p.pid := next.local],
      accesses := f.accesses + [Access(i, p.pid)])
  }

  function Step(f: Flight, m: Move): Flight {
    match m
    case Trigger(pid, restart) =>
      if pid in f.locals then f.(pullers := f.pullers + [Puller(pid, restart, Arriving)]) else f
    case Run(i) =>
      if i >= |f.pullers| then f
      else
        var p := f.pullers[i];
        match p.position
        case Arriving => Enter(f, i)
        case Inside(stage) =>
          if stage.Ended? then Leave(f, i)
          else if p.pid in f.locals && stage.Valid() then Touch(f, i)
          else f
        case Over => f
  }

  function RunMoves(f: Flight, moves: seq<Move>): Flight
    decreases |moves|
  {
    if moves == [] then f else RunMoves(Step(f, moves[0]), moves[1..])
  }

  predicate InsideAt(f: Flight, i: nat) {
    i < |f.pullers| && f.pullers[i].position.Inside?
  }

  // ----- no two pulls of one transfer interleave -----

  /** Between two accesses of one pull, no other pull of the same transfer makes one. */
  ghost predicate NeverInterleaved(accesses: seq<Access>) {
    forall a, b, c | 0 <= a < b < c < |accesses| ::
      accesses[a] == accesses[c] && accesses[b].pid == accesses[a].pid ==> accesses[b] == accesses[a]
  }

  /** Accesses are made by pulls past the guard. */
  ghost predicate Started(f: Flight) {
    forall k | 0 <= k < |f.accesses| ::
      f.accesses[k].who < |f.pullers| && !f.pullers[f.accesses[k].who].position.Arriving?
  }

  /** At most one pull of a transfer is past the guard, and it holds the transfer's mark. */
  ghost predicate Exclusive(f: Flight) {
    && (forall i: nat | InsideAt(f, i) :: f.pullers[i].pid in f.pulling)
    && (forall i: nat, j: nat | InsideAt(f, i) && InsideAt(f, j) :: f.pullers[i].pid == f.pullers[j].pid ==> i == j)
  }

  /** Once the pull inside has made an access, no other pull of its transfer has since. */
  ghost predicate Uninterrupted(f: Flight) {
    forall a, b | 0 <= a < b < |f.accesses| && InsideAt(f, f.accesses[a].who) ::
      f.accesses[b].pid == f.accesses[a].pid ==> f.accesses[b] == f.accesses[a]
  }

  ghost predicate OwnPid(f: Flight) {
    forall k | 0 <= k < |f.accesses| ::
      f.accesses[k].who < |f.pullers| && f.accesses[k].pid == f.pullers[f.accesses[k].who].pid
  }

  ghost predicate Guarded(f: Flight) {
    Started(f) && OwnPid(f) && Exclusive(f) && Uninterrupted(f) && NeverInterleaved(f.accesses)
  }

  lemma StepKeepsGuarded(f: Flight, m: Move)
    requires Guarded(f)
    ensures Guarded(Step(f, m))
  {
    hide Advance, Admitted;
    var f' := Step(f, m);
    if f'.accesses != f.accesses {
      AccessKeepsGuarded(f, m.i);
    } else {
      assert forall i: nat | InsideAt(f', i) && !InsideAt(f, i) :: m == Run(i) && f.pullers[i].position.Arriving?;
    }
  }

  lemma AccessKeepsGuarded(f: Flight, i: nat)
    requires Guarded(f) && InsideAt(f, i) && f.pullers[i].pid in f.locals && f.pullers[i].position.stage.Valid()
    ensures Guarded(Touch(f, i))
  {
    hide NeverInterleaved, Advance;
    var f' := Touch(f, i);
    AccessKeepsApart(f, i);
    assert forall j: nat :: InsideAt(f', j) <==> InsideAt(f, j);
    assert forall j | 0 <= j < |f.pullers| :: f'.pullers[j].pid == f.pullers[j].pid;
  }

  /** The access of a pull that is inside interrupts no other and is interrupted by none. */
  lemma AccessKeepsApart(f: Flight, i: nat)
    requires Guarded(f) && InsideAt(f, i)
    ensures NeverInterleaved(f.accesses + [Access(i, f.pullers[i].pid)])
  {
    hide Started, Exclusive;
  }

  /** In every interleaving of any number of triggers and pulls, two pulls of one transfer
      never interleave. */
  lemma {:induction false} PullsNeverInterleave(f: Flight, moves: seq<Move>)
    requires Guarded(f)
    ensures Guarded(RunMoves(f, moves))
    decreases |moves|
  {
    if moves == [] {
    } else {
      StepKeepsGuarded(f, moves[0]);
      PullsNeverInterleave(Step(f, moves[0]), moves[1..]);
    }
  }

  /** From an idle connector on, whatever restarts arrive and however they are scheduled. */
  lemma NoTwoPullsInterleave(locals: map<string, Local>, moves: seq<Move>)
    ensures NeverInterleaved(RunMoves(Idle(locals), moves).accesses)
  {
    PullsNeverInterleave(Idle(locals), moves);
  }

  // ----- what an interleaving leaves -----

  /** What the restarts admitted so far leave of a transfer, one after the other. */
  function Served(f: Flight, start: map<string, Local>, pid: string): Local
    requires pid in start
  {
    RunRestarts(start[pid], Admitted(f, pid))
  }

  /** The mark is held by a pull inside. */
  ghost predicate Marked(f: Flight) {
    forall pid | pid in f.pulling :: exists i: nat :: InsideAt(f, i) && f.pullers[i].pid == pid
  }

  /** A transfer no pull is inside of is as its admitted restarts leave it; one that a pull
      is inside of will be, once that pull is through. */
  ghost predicate InOrder(f: Flight, start: map<string, Local>) {
    && f.locals.Keys == start.Keys
    && (forall i | 0 <= i < |f.pullers| :: f.pullers[i].pid in start)
    && (forall pid | pid in start && pid !in f.pulling :: f.locals[pid] == Served(f, start, pid))
    && (forall i: nat | InsideAt(f, i) :: Finishing(f, start, i))
  }

  ghost predicate Finishing(f: Flight, start: map<string, Local>, i: nat)
    requires InsideAt(f, i)
  {
    var p := f.pullers[i];
    && p.position.stage.Valid()
    && p.pid in f.locals && p.pid in start
    && Complete(f.locals[p.pid], p.position.stage, p.restart) == Served(f, start, p.pid)
  }

  lemma {:induction false} OneMoreRestart(l: Local, run: seq<Restart>, r: Restart)
    ensures RunRestarts(l, run + [r]) == Restarted(RunRestarts(l, run), r)
    decreases |run|
  {
    hide Restarted;
    if run == [] {
      assert ([] + [r])[1..] == [];
      assert RunRestarts(l, [] + [r]) == RunRestarts(Restarted(l, r), ([] + [r])[1..]);
    } else {
      assert (run + [r])[1..] == run[1..] + [r];
      OneMoreRestart(Restarted(l, run[0]), run[1..], r);
    }
  }

  /** A pull that is let in is one restart more. */
  lemma AdmittedKeepsOrder(f: Flight, start: map<string, Local>, i: nat)
    requires Exclusive(f) && InOrder(f, start) && Marked(f)
    requires i < |f.pullers| && f.pullers[i].position.Arriving? && f.pullers[i].pid !in f.pulling
    ensures InOrder(Enter(f, i), start) && Marked(Enter(f, i))
  {
    hide Restarted, Complete, RunRestarts, Advance;
    var p, f' := f.pullers[i], Enter(f, i);
    assert forall j: nat :: InsideAt(f', j) <==> InsideAt(f, j) || j == i;
    OneMoreRestart(start[p.pid], Admitted(f, p.pid), p.restart);
    WholePull(f.locals[p.pid], p.restart);
    assert Finishing(f', start, i);
    forall j: nat | InsideAt(f', j) && j != i
      ensures Finishing(f', start, j)
    {
      assert Finishing(f, start, j);
    }
  }

  lemma EnterKeepsOrder(f: Flight, start: map<string, Local>, i: nat)
    requires Exclusive(f) && InOrder(f, start) && Marked(f)
    requires i < |f.pullers| && f.pullers[i].position.Arriving?
    ensures InOrder(Enter(f, i), start) && Marked(Enter(f, i))
  {
    hide Restarted, Complete, RunRestarts, Exclusive;
    var f' := Enter(f, i);
    if f.pullers[i].pid !in f.pulling {
      AdmittedKeepsOrder(f, start, i);
    } else {
      assert forall j: nat :: InsideAt(f', j) <==> InsideAt(f, j);
      assert forall j: nat | InsideAt(f, j) :: Finishing(f, start, j);
    }
  }

  lemma LeaveKeepsOrder(f: Flight, start: map<string, Local>, i: nat)
    requires Exclusive(f) && InOrder(f, start) && Marked(f)
    requires InsideAt(f, i) && f.pullers[i].position.stage.Ended?
    ensures InOrder(Leave(f, i), start) && Marked(Leave(f, i))
  {
    hide RunRestarts;
    var f' := Leave(f, i);
    assert Finishing(f, start, i);
    assert forall j: nat :: InsideAt(f', j) <==> InsideAt(f, j) && j != i;
    forall j: nat | InsideAt(f', j)
      ensures Finishing(f', start, j)
    {
      assert Finishing(f, start, j);
    }
  }

  lemma TouchKeepsOrder(f: Flight, start: map<string, Local>, i: nat)
    requires Exclusive(f) && InOrder(f, start) && Marked(f)
    requires InsideAt(f, i) && f.pullers[i].pid in f.locals && f.pullers[i].position.stage.Valid()
    requires !f.pullers[i].position.stage.Ended?
    ensures InOrder(Touch(f, i), start) && Marked(Touch(f, i))
  {
    hide RunRestarts, Advance;
    var p, f' := f.pullers[i], Touch(f, i);
    AdvanceGoesOn(f.locals[p.pid], p.position.stage, p.restart);
    assert Finishing(f, start, i);
    assert forall j: nat :: InsideAt(f', j) <==> InsideAt(f, j);
    forall j: nat | InsideAt(f', j)
      ensures Finishing(f', start, j)
    {
      assert Finishing(f, start, j);
    }
  }

  lemma StepKeepsOrder(f: Flight, start: map<string, Local>, m: Move)
    requires Exclusive(f) && InOrder(f, start) && Marked(f)
    ensures InOrder(Step(f, m), start) && Marked(Step(f, m))
  {
    hide Enter, Leave, Touch, RunRestarts, Complete;
    if m.Run? {
      if m.i < |f.pullers| && f.pullers[m.i].position.Arriving? {
        EnterKeepsOrder(f, start, m.i);
      } else if InsideAt(f, m.i) {
        assert Finishing(f, start, m.i);
        if f.pullers[m.i].position.stage.Ended? {
          LeaveKeepsOrder(f, start, m.i);
        } else {
          TouchKeepsOrder(f, start, m.i);
        }
      }
    } else {
      TriggerKeepsOrder(f, start, m);
    }
  }

  lemma TriggerKeepsOrder(f: Flight, start: map<string, Local>, m: Move)
    requires InOrder(f, start) && Marked(f) && m.Trigger?
    ensures InOrder(Step(f, m), start) && Marked(Step(f, m))
  {
    hide RunRestarts, Complete;
    var f' := Step(f, m);
    assert forall j: nat :: InsideAt(f', j) <==> InsideAt(f, j);
    forall j: nat | InsideAt(f', j)
      ensures Finishing(f', start, j)
    {
      assert Finishing(f, start, j);
    }
  }

  lemma {:induction false} RunKeepsOrder(f: Flight, start: map<string, Local>, moves: seq<Move>)
    requires Guarded(f) && InOrder(f, start) && Marked(f)
    ensures InOrder(RunMoves(f, moves), start) && Marked(RunMoves(f, moves))
    decreases |moves|
  {
    hide Step, InOrder, Marked;
    if moves == [] {
    } else {
      StepKeepsGuarded(f, moves[0]);
      StepKeepsOrder(f, start, moves[0]);
      RunKeepsOrder(Step(f, moves[0]), start, moves[1..]);
    }
  }

  /** Restarts that arrived for this transfer and have not been dropped. */
  ghost predicate Arrived(f: Flight, moves: seq<Move>) {
    && (forall pid, r | pid in f.admitted && r in f.admitted[pid] :: Trigger(pid, r) in moves)
    && (forall p | p in f.pullers :: Trigger(p.pid, p.restart) in moves)
  }

  lemma StepKeepsArrived(f: Flight, m: Move, moves: seq<Move>)
    requires Arrived(f, moves) && m in moves
    ensures Arrived(Step(f, m), moves)
  {
    hide Advance;
  }

  lemma {:induction false} RunKeepsArrived(f: Flight, moves: seq<Move>, all: seq<Move>)
    requires Arrived(f, all) && forall m | m in moves :: m in all
    ensures Arrived(RunMoves(f, moves), all)
    decreases |moves|
  {
    hide Step, Arrived;
    if moves == [] {
    } else {
      StepKeepsArrived(f, moves[0], all);
      RunKeepsArrived(Step(f, moves[0]), moves[1..], all);
    }
  }

  /** Whatever restarts arrive and however the accesses of their pulls interleave, at any
      moment the files and row of a transfer no pull is inside of are exactly what some
      sequence of the restarts that arrived for it leaves, run one after the other; and of a
      transfer a pull is inside of, exactly what they will be once it is left to finish. */
  lemma InterleavingsAreSequences(start: map<string, Local>, moves: seq<Move>, pid: string)
    requires pid in start
    ensures var f := RunMoves(Idle(start), moves);
      var served := RunRestarts(start[pid], Admitted(f, pid));
      && pid in f.locals
      && (forall r | r in Admitted(f, pid) :: Trigger(pid, r) in moves)
      && if pid !in f.pulling then f.locals[pid] == served
         else exists i: nat :: InsideAt(f, i) && f.pullers[i].pid == pid && f.pullers[i].position.stage.Valid()
                && Complete(f.locals[pid], f.pullers[i].position.stage, f.pullers[i].restart) == served
  {
    hide RunMoves, RunRestarts, Complete, Guarded;
    var f := RunMoves(Idle(start), moves);
    IdleInOrder(start, moves);
    RunKeepsOrder(Idle(start), start, moves);
    RunKeepsArrived(Idle(start), moves, moves);
    if pid in f.pulling {
      var i: nat :| InsideAt(f, i) && f.pullers[i].pid == pid;
      assert Finishing(f, start, i);
    }
  }

  lemma IdleInOrder(start: map<string, Local>, moves: seq<Move>)
    ensures Guarded(Idle(start)) && InOrder(Idle(start), start) && Marked(Idle(start)) && Arrived(Idle(start), moves)
  {
  }
}
