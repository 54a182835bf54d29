/** The provider's driver as the goroutine it is, over the store it shares: other requests
    move the row on while it pushes. */
module TransferDriver {
  import opened Storage
  import opened TransferWorld
  import opened TransferSafety

  /** A conditional update another request makes on the driver's row. */
  datatype Swap = Swap(from: TransferState, to: TransferState)

  /** What happens during one step: whether the outgoing-address guard lets it push, and
      what other requests do to the row until the push has returned. */
  datatype Turn = Turn(maySend: bool, meanwhile: seq<Swap>)

  function Moved(s: TransferState, swaps: seq<Swap>): TransferState
    decreases |swaps|
  {
    if swaps == [] then s
    else Moved(if s == swaps[0].from then swaps[0].to else s, swaps[1..])
  }

  /** The row's state once the driver is done with a step from s: unchanged if it refused,
      else what the others made of it, moved on to to if they left it at from. */
  function StepResult(from: TransferState, s: TransferState, to: TransferState, turn: Turn): TransferState {
    if !StepLegal(Provider, from, to) || !turn.maySend then s
    else if Moved(s, turn.meanwhile) == from then to
    else Moved(s, turn.meanwhile)
  }

  predicate StepMade(from: TransferState, s: TransferState, to: TransferState, turn: Turn) {
    StepLegal(Provider, from, to) && turn.maySend && Moved(s, turn.meanwhile) == from
  }

  /** A step is made exactly if it is a transition of the protocol, may be sent, and finds
      the row still where it began; a row that was moved on meanwhile stays where it was
      moved, and one whose step is refused where it is. */
  lemma StepExactly(from: TransferState, s: TransferState, to: TransferState, turn: Turn)
    ensures StepMade(from, s, to, turn) <==> Edge(from, to) && turn.maySend && Moved(s, turn.meanwhile) == from
    ensures StepMade(from, s, to, turn) ==> StepResult(from, s, to, turn) == to
    ensures !(Edge(from, to) && turn.maySend) ==> StepResult(from, s, to, turn) == s
    ensures Edge(from, to) && turn.maySend && Moved(s, turn.meanwhile) != from ==>
      StepResult(from, s, to, turn) == Moved(s, turn.meanwhile)
  {
  }

  method OthersMove(store: Store, pid: string, swaps: seq<Swap>)
    requires pid in store.transfers
    modifies store`transfers
    ensures store.transfers ==
      old(store.transfers)[pid := old(store.transfers)[pid].(state := Moved(old(store.transfers)[pid].state, swaps))]
  {
    ghost var row := store.transfers[pid];
    for k := 0 to |swaps|
      invariant pid in store.transfers
      invariant store.transfers == old(store.transfers)[pid := row.(state := store.transfers[pid].state)]
      invariant Moved(row.state, swaps) == Moved(store.transfers[pid].state, swaps[k..])
    {
      assert swaps[k..][1..] == swaps[k + 1..];
      var _ := store.SetTransferState(pid, swaps[k].from, swaps[k].to);
    }
  }

  /** One step: refuse it, or announce it, wait, and store it if the row is still where the
      step began. */
  method PushTransferStep(store: Store, pid: string, from: TransferState, to: TransferState, turn: Turn)
    returns (goesOn: bool, announced: bool)
    requires pid in store.transfers
    modifies store`transfers
    ensures var s := old(store.transfers)[pid].state;
      && goesOn == StepMade(from, s, to, turn)
      && announced == (StepLegal(Provider, from, to) && turn.maySend)
      && store.transfers ==
         old(store.transfers)[pid := old(store.transfers)[pid].(state := StepResult(from, s, to, turn))]
  {
    if !HasStepMessage(Provider, to) {
      return false, false;
    }
    if !StepLegal(Provider, from, to) {
      return false, false;
    }
    if !turn.maySend {
      return false, false;
    }
    OthersMove(store, pid, turn.meanwhile);
    var r := store.SetTransferState(pid, from, to);
    return r == Updated, true;
  }

  /** The k-th step's outcome when all before it were made: what the driver takes its row
      to be in, and what it is in. */
  function Before(t: TransferState, s: TransferState, sequence: seq<TransferState>, turns: seq<Turn>,
    k: nat): (r: (TransferState, TransferState))
    requires k <= |sequence| <= |turns|
  {
    if k == 0 then (t, s) else
    var (from, now) := Before(t, s, sequence, turns, k - 1);
    (sequence[k - 1], StepResult(from, now, sequence[k - 1], turns[k - 1]))
  }

  /** The first k steps are all made. */
  predicate Makes(t: TransferState, s: TransferState, sequence: seq<TransferState>, turns: seq<Turn>, k: nat)
    requires k <= |sequence| <= |turns|
  {
    k == 0 || (Makes(t, s, sequence, turns, k - 1)
               && StepMade(Before(t, s, sequence, turns, k - 1).0, Before(t, s, sequence, turns, k - 1).1,
                  sequence[k - 1], turns[k - 1]))
  }

  /** Walks the sequence and stops at the first step that is refused or lost. committed
      steps were stored, announced ones pushed. */
  method DriveTransfer(store: Store, t: TransferProcess, sequence: seq<TransferState>, turns: seq<Turn>)
    returns (committed: nat, announced: seq<TransferState>)
    requires t.providerPid in store.transfers && |sequence| <= |turns|
    modifies store`transfers
    ensures var s := old(store.transfers)[t.providerPid].state;
      && committed <= |sequence|
      && Makes(t.state, s, sequence, turns, committed)
      && (committed < |sequence| ==> !Makes(t.state, s, sequence, turns, committed + 1))
    ensures announced <= sequence && committed <= |announced| <= committed + 1
    ensures var s := old(store.transfers)[t.providerPid].state;
      store.transfers == old(store.transfers)[t.providerPid := old(store.transfers)[t.providerPid].(
        state := Before(t.state, s, sequence, turns, if committed < |sequence| then committed + 1 else committed).1)]
  {
    ghost var row := store.transfers[t.providerPid];
    var state := t.state;
    committed, announced := 0, [];
    for k := 0 to |sequence|
      invariant committed == k && announced == sequence[..k]
      invariant t.providerPid in store.transfers
      invariant Makes(t.state, row.state, sequence, turns, k)
      invariant (state, store.transfers[t.providerPid].state) == Before(t.state, row.state, sequence, turns, k)
      invariant store.transfers == old(store.transfers)[t.providerPid :=
        row.(state := store.transfers[t.providerPid].state)]
    {
      assert Before(t.state, row.state, sequence, turns, k + 1).1
        == StepResult(state, store.transfers[t.providerPid].state, sequence[k], turns[k]);
      var goesOn, pushed := PushTransferStep(store, t.providerPid, state, sequence[k], turns[k]);
      if pushed {
        announced := announced + [sequence[k]];
      }
      if !goesOn {
        return;
      }
      state, committed := sequence[k], k + 1;
    }
  }

  /** Step j of a sequence is legal from where step j - 1, or the row, left it. */
  predicate LegalStep(t: TransferState, sequence: seq<TransferState>, j: nat)
    requires j < |sequence|
  {
    StepLegal(Provider, if j == 0 then t else sequence[j - 1], sequence[j])
  }

  /** A walk no other request interferes with, from a row in the state the driver read, is
      made exactly as far as it is legal. */
  lemma {:induction false} UndisturbedWalk(t: TransferState, sequence: seq<TransferState>, turns: seq<Turn>, k: nat)
    requires k <= |sequence| <= |turns|
    requires forall turn | turn in turns :: turn == Turn(true, [])
    ensures Makes(t, t, sequence, turns, k) <==> forall j | 0 <= j < k :: LegalStep(t, sequence, j)
    ensures Makes(t, t, sequence, turns, k) ==>
      var last := if k == 0 then t else sequence[k - 1];
      Before(t, t, sequence, turns, k) == (last, last)
  {
    if k == 0 {
    } else {
      UndisturbedWalk(t, sequence, turns, k - 1);
      assert turns[k - 1] in turns;
      assert Makes(t, t, sequence, turns, k) <==> Makes(t, t, sequence, turns, k - 1) && LegalStep(t, sequence, k - 1);
    }
  }
}
