/** The consumer's data pull: one attempt, on the disk and the transfer's row. */
module Pull {
  import opened Prelude
  import opened Headers
  import opened Streams
  import opened Storage
  import opened DataPlane

  // ----- what the environment contributes to one attempt -----

  datatype Endpoint = NoEndpoint | RefusedByGuard | Usable

  /** Why a pull's context was cancelled, if it was. */
  datatype Cause = NotCancelled | IdleTimeout | ShuttingDown

  datatype Reply = NoReply(cause: Cause) | Reply(response: Response)

  /** One attempt: the expected length looked up for the transfer before the pull began,
      the answer the request gets, and everything that can go wrong on the way. */
  datatype Attempt = Attempt(
    expected: int, endpoint: Endpoint, reply: Reply,
    statFails: bool, mkdirFails: bool, requestFails: bool, rosterExpired: bool,
    removeFails: bool, saveExpectedFails: bool, openFails: bool,
    turns: seq<Turn>, copyCause: Cause,
    syncFails: bool, closeFails: bool, renameFails: bool, recordFails: bool, now: nat)

  // ----- what an attempt does -----

  /** One transfer's share of the disk and its row. */
  datatype Local = Local(partial: Option<bytes>, published: Option<bytes>, row: ConsumerTransfer)

  datatype Outcome = Outcome(received: int, path: string, completed: Option<nat>, failure: Option<Failure>)

  datatype Exit = Exit(local: Local, outcome: Outcome)

  function Failed(l: Local, received: int, why: Failure): Exit {
    Exit(l, Outcome(received, "", None, Some(why)))
  }

  /** The size of the partial file, zero when there is none or it cannot be examined. */
  function HeldBytes(l: Local, a: Attempt): nat {
    if a.statFails || l.partial.None? then 0 else |l.partial.value|
  }

  /** The Range header an attempt sends: none unless it resumes. */
  function RangeHeader(held: nat): string {
    if held > 0 then PrintRange(held) else ""
  }

  /** The exits before a request is sent. */
  function Preflight(a: Attempt): Option<Failure> {
    if a.endpoint == NoEndpoint then Some(NoDataEndpoint)
    else if a.endpoint == RefusedByGuard then Some(EndpointRefused)
    else if a.mkdirFails then Some(NoDownloadDirectory)
    else if a.requestFails then Some(RequestNotBuilt)
    else if a.rosterExpired then Some(RosterExpired)
    else None
  }

  /** The request an attempt sends, by its Range header, when it gets that far. */
  function Asked(l: Local, a: Attempt): Option<string> {
    if Preflight(a).Some? then None else Some(RangeHeader(HeldBytes(l, a)))
  }

  /** What a pull makes of an answer before it touches the file: keep what is on disk,
      discard it, or take the body, expecting this length in all (zero for unknown). */
  datatype Decision = Keep(why: Failure) | Discard(why: Failure) | Take(expected: int)

  function Classify(held: nat, expected: int, r: Response): (d: Decision)
    ensures d.Discard? ==> held > 0
  {
    if held > 0 then
      if r.status == 206 then
        var range := ParseContentRange(r.contentRange);
        if range.first != Some(held) then Keep(WrongRangeStart)
        else if range.complete.Some? && expected > 0 && range.complete.value != expected then Discard(DifferentLength)
        else Take(if range.complete.Some? then range.complete.value else expected)
      else if r.status == 416 then Discard(NotPastWhatIsHere)
      else Keep(UnexpectedAnswer)
    else if r.status >= 300 then Keep(PullRefused)
    else Take(if r.contentLength.Some? && r.contentLength.value >= 0 then r.contentLength.value else 0)
  }

  /** The body as the HTTP client hands it over: cut to a stated length, and complete only
      when all of a stated length arrives. */
  function BodyOf(r: Response, turns: seq<Turn>): (w: Wire)
    ensures w.pos == 0 && !w.fired && w.turns == turns && w.content <= r.body
  {
    if r.contentLength.Some? && r.contentLength.value >= 0 then
      var n := r.contentLength.value;
      Wire(if |r.body| > n then r.body[..n] else r.body, |r.body| >= n, 0, turns, false)
    else
      Wire(r.body, true, 0, turns, false)
  }

  function StopReason(end: ReadEnd, cause: Cause): Failure {
    if cause == IdleTimeout || end == IdleExpired then NoProgress
    else if cause == ShuttingDown then ShutDown
    else NotWritten
  }

  /** The room left under the limit, and the copy's budget, one byte more so that a body
      over the limit shows; both in 64-bit arithmetic. */
  function Remaining(limit: int, held: nat): int {
    Wrap64(limit - held)
  }

  function Budget(limit: int, held: nat): int {
    Wrap64(Remaining(limit, held) + 1)
  }

  /** From a finished copy to the published file. */
  function Published(l: Local, a: Attempt, expected: int, total: int): Exit {
    if a.syncFails then Failed(l, total, NotSynced)
    else if a.closeFails then Failed(l, total, NotClosed)
    else if expected > 0 && total != expected then Failed(l, total, LengthMismatch)
    else if a.renameFails then Failed(l, total, NotPlaced)
    else Exit(l.(partial := None, published := l.partial),
      Outcome(total, FinalPath(l.row.consumerPid), Some(a.now), None))
  }

  /** From the end of the copy on, n bytes having been added to the held ones. */
  function AfterCopy(l: Local, a: Attempt, remaining: int, expected: int, held: nat, n: nat, end: CopyEnd): Exit {
    if end.Stopped? then Failed(l, held + n, StopReason(end.end, a.copyCause))
    else if n > remaining then Failed(l, held + n, OverTheLimit)
    else Published(l, a, expected, held + n)
  }

  /** The row once the length is recorded. */
  function WithExpected(l: Local, a: Attempt, expected: int): Local {
    if expected != a.expected && !a.saveExpectedFails then l.(row := l.row.(expected := expected)) else l
  }

  /** From the open file on: the body is added to what was held, from nothing unless resuming. */
  function Fetch(l: Local, a: Attempt, limit: int, held: nat, expected: int, r: Response): Exit
    requires held > 0 ==> l.partial.Some?
  {
    var copy := Copy(BodyOf(r, a.turns), Budget(limit, held));
    var content := (if held > 0 then l.partial.value else []) + copy.written;
    AfterCopy(l.(partial := Some(content)), a, Remaining(limit, held), expected, held, |copy.written|, copy.end)
  }

  /** From the recorded length to the published file. */
  function Receive(l: Local, a: Attempt, limit: int, held: nat, expected: int, r: Response): Exit
    requires held > 0 ==> l.partial.Some?
  {
    var recorded := WithExpected(l, a, expected);
    if a.openFails then Failed(recorded, held, FileNotOpened) else Fetch(recorded, a, limit, held, expected, r)
  }

  /** One attempt up to its deferred write. */
  function Attempted(l: Local, a: Attempt, limit: int): Exit {
    var held := HeldBytes(l, a);
    if Preflight(a).Some? then Failed(l, held, Preflight(a).value)
    else
      match a.reply
      case NoReply(cause) =>
        Failed(l, held, if cause == IdleTimeout then NoResponseInTime else if cause == ShuttingDown then ShutDown
          else NoBytesArrived)
      case Reply(r) =>
        match Classify(held, a.expected, r)
        case Keep(why) => Failed(l, held, why)
        case Discard(why) => if a.removeFails then Failed(l, held, why) else Failed(l.(partial := None), 0, why)
        case Take(expected) => Receive(l, a, limit, held, expected, r)
  }

  /** The deferred write of the four outcome columns. */
  function Recorded(e: Exit, a: Attempt): Local {
    if a.recordFails then e.local
    else e.local.(row := e.local.row.(received := e.outcome.received, path := e.outcome.path,
                                       completed := e.outcome.completed, failure := e.outcome.failure))
  }

  /** One whole attempt. */
  function PullOnce(l: Local, a: Attempt, limit: int): Local {
    Recorded(Attempted(l, a, limit), a)
  }

  // ----- the pull itself -----

  const DOWNLOADS: string := "downloads/"

  function PartialPath(pid: string): string {
    DOWNLOADS + ".partial-" + pid
  }

  function FinalPath(pid: string): string {
    DOWNLOADS + pid
  }

  lemma PathsDiffer(pid: string)
    ensures PartialPath(pid) != FinalPath(pid)
  {
    assert |PartialPath(pid)| > |FinalPath(pid)|;
  }

  class Disk {
    var files: map<string, bytes>

    method Remove(path: string, fails: bool) returns (ok: bool)
      modifies this
      ensures ok == (!fails && path in old(files))
      ensures files == if ok then old(files) - {path} else old(files)
    {
      ok := !fails && path in files;
      if ok {
        files := files - {path};
      }
    }

    method Write(path: string, content: bytes)
      modifies this
      ensures files == old(files)[path := content]
    {
      files := files[path := content];
    }

    method Rename(path: string, to: string, fails: bool) returns (ok: bool)
      requires path in files
      modifies this
      ensures ok == !fails
      ensures files == if ok then (old(files) - {path})[to := old(files)[path]] else old(files)
    {
      ok := !fails;
      if ok {
        files := (files - {path})[to := files[path]];
      }
    }
  }

  /** What a pull leaves on its row, filled in by whichever exit it takes. */
  class PullOutcome {
    var received: int
    var path: string
    var completed: Option<nat>
    var failure: Option<Failure>

    constructor ()
      ensures Value() == Outcome(0, "", None, Some(NoReasonRecorded))
    {
      received, path, completed, failure := 0, "", None, Some(NoReasonRecorded);
    }

    ghost function Value(): Outcome
      reads this
    {
      Outcome(received, path, completed, failure)
    }

    method Fail(why: Failure)
      modifies this`failure
      ensures failure == Some(why)
    {
      failure := Some(why);
    }

    method Succeed(path: string, at: nat)
      modifies this`path, this`completed, this`failure
      ensures this.path == path && completed == Some(at) && failure == None
    {
      this.path, completed, failure := path, Some(at), None;
    }
  }

  class TransferHandler {
    const store: Store
    const disk: Disk
    const maxDownloadBytes: int
    var pulling: set<string>

    constructor (store: Store, disk: Disk, maxDownloadBytes: int)
      ensures this.store == store && this.disk == disk && this.maxDownloadBytes == maxDownloadBytes && pulling == {}
    {
      this.store, this.disk, this.maxDownloadBytes, pulling := store, disk, maxDownloadBytes, {};
    }

    ghost function LocalOf(pid: string): Local
      reads this, store, disk
      requires pid in store.consumerTransfers
    {
      Local(Lookup(disk.files, PartialPath(pid)), Lookup(disk.files, FinalPath(pid)), store.consumerTransfers[pid])
    }

    /** Nothing but this transfer's two files and its row has changed. */
    twostate predicate OnlyTouches(pid: string)
      reads this, store, disk
    {
      && (forall p | p != PartialPath(pid) && p != FinalPath(pid) ::
         Lookup(disk.files, p) == Lookup(old(disk.files), p))
      && (forall p | p != pid :: Lookup(store.consumerTransfers, p) == Lookup(old(store.consumerTransfers), p))
    }

    /** Deletes the partial file and keeps the outcome's count in step with it. */
    method DiscardPartial(o: PullOutcome, partial: string, removeFails: bool)
      requires partial in disk.files
      modifies disk, o`received
      ensures disk.files == if removeFails then old(disk.files) else old(disk.files) - {partial}
      ensures o.received == if removeFails then old(o.received) else 0
    {
      var ok := disk.Remove(partial, removeFails);
      if !ok {
        return;
      }
      o.received := 0;
    }

    /** The pull: dropped when one for the same transfer is in flight, otherwise one attempt
        and then, whichever exit it took, one write of its outcome. */
    method PullTransferData(pid: string, a: Attempt) returns (asked: Option<string>)
      requires pid in store.consumerTransfers && store.consumerTransfers[pid].consumerPid == pid
      modifies this`pulling, disk, store`consumerTransfers
      ensures pulling == old(pulling)
      ensures asked == if pid in old(pulling) then None else Asked(old(LocalOf(pid)), a)
      ensures pid in store.consumerTransfers && OnlyTouches(pid)
      ensures LocalOf(pid) == if pid in old(pulling) then old(LocalOf(pid))
        else PullOnce(old(LocalOf(pid)), a, maxDownloadBytes)
    {
      if pid in pulling {
        return None;
      }
      pulling := pulling + {pid};
      var outcome := new PullOutcome();
      asked := Try(pid, a, outcome);
      if !a.recordFails {
        store.RecordConsumerTransferOutcome(pid, outcome.received, outcome.path, outcome.completed, outcome.failure);
      }
      pulling := pulling - {pid};
    }

    /** The attempt: examine the disk, send the request, classify the answer. */
    method Try(pid: string, a: Attempt, outcome: PullOutcome) returns (asked: Option<string>)
      requires pid in store.consumerTransfers && store.consumerTransfers[pid].consumerPid == pid
      requires outcome.Value() == Outcome(0, "", None, Some(NoReasonRecorded))
      modifies disk, store`consumerTransfers, outcome
      ensures asked == Asked(old(LocalOf(pid)), a)
      ensures pid in store.consumerTransfers && OnlyTouches(pid)
      ensures Exit(LocalOf(pid), outcome.Value()) == Attempted(old(LocalOf(pid)), a, maxDownloadBytes)
    {
      PathsDiffer(pid);
      asked := None;
      var partial := PartialPath(pid);
      var held := 0;
      if !a.statFails && partial in disk.files {
        held := |disk.files[partial]|;
      }
      var resuming := held > 0;
      outcome.received := held;
      if a.endpoint == NoEndpoint {
        outcome.Fail(NoDataEndpoint);
        return;
      }
      if a.endpoint == RefusedByGuard {
        outcome.Fail(EndpointRefused);
        return;
      }
      if a.mkdirFails {
        outcome.Fail(NoDownloadDirectory);
        return;
      }
      if a.requestFails {
        outcome.Fail(RequestNotBuilt);
        return;
      }
      if a.rosterExpired {
        outcome.Fail(RosterExpired);
        return;
      }
      asked := Some(if resuming then PrintRange(held) else "");
      if a.reply.NoReply? {
        if a.reply.cause == IdleTimeout {
          outcome.Fail(NoResponseInTime);
        } else if a.reply.cause == ShuttingDown {
          outcome.Fail(ShutDown);
        } else {
          outcome.Fail(NoBytesArrived);
        }
        return;
      }
      var decision := Judge(held, a.expected, a.reply.response);
      match decision {
        case Keep(why) =>
          outcome.Fail(why);
        case Discard(why) =>
          DiscardPartial(outcome, partial, a.removeFails);
          outcome.Fail(why);
        case Take(expected) =>
          Download(pid, a, outcome, held, expected, a.reply.response);
      }
    }

    /** The switch on the answer's status, and the length it makes the pull expect. */
    method Judge(held: nat, recorded: int, response: Response) returns (d: Decision)
      ensures d == Classify(held, recorded, response)
    {
      var resuming := held > 0;
      var stated: Option<nat> := None;
      if resuming {
        if response.status == 206 {
          var range := ParseContentRange(response.contentRange);
          stated := range.complete;
          if range.first != Some(held) {
            return Keep(WrongRangeStart);
          }
          if stated.Some? && recorded > 0 && stated.value != recorded {
            return Discard(DifferentLength);
          }
        } else if response.status == 416 {
          return Discard(NotPastWhatIsHere);
        } else {
          return Keep(UnexpectedAnswer);
        }
      } else if response.status >= 300 {
        return Keep(PullRefused);
      }
      var expected := 0;
      if resuming {
        expected := recorded;
        if stated.Some? {
          expected := stated.value;
        }
      } else if response.contentLength.Some? && response.contentLength.value >= 0 {
        expected := response.contentLength.value;
      }
      d := Take(expected);
    }

    /** The attempt from an accepted answer on: record the length, open, copy, finish. */
    method Download(pid: string, a: Attempt, outcome: PullOutcome, held: nat, expected: int, response: Response)
      requires pid in store.consumerTransfers && store.consumerTransfers[pid].consumerPid == pid
      requires held == HeldBytes(LocalOf(pid), a)
      requires outcome.Value() == Outcome(held, "", None, Some(NoReasonRecorded))
      modifies disk, store`consumerTransfers, outcome
      ensures pid in store.consumerTransfers && OnlyTouches(pid)
      ensures Exit(LocalOf(pid), outcome.Value()) ==
              Receive(old(LocalOf(pid)), a, maxDownloadBytes, held, expected, response)
    {
      PathsDiffer(pid);
      SaveExpected(pid, a, expected);
      if a.openFails {
        outcome.Fail(FileNotOpened);
        return;
      }
      CopyAndFinish(pid, a, outcome, held, expected, response);
    }

    method CopyAndFinish(pid: string, a: Attempt, outcome: PullOutcome, held: nat, expected: int, response: Response)
      requires pid in store.consumerTransfers && store.consumerTransfers[pid].consumerPid == pid
      requires held > 0 ==> PartialPath(pid) in disk.files
      requires outcome.Value() == Outcome(held, "", None, Some(NoReasonRecorded))
      modifies disk, outcome
      ensures OnlyTouches(pid)
      ensures Exit(LocalOf(pid), outcome.Value()) ==
              Fetch(old(LocalOf(pid)), a, maxDownloadBytes, held, expected, response)
    {
      hide AfterCopy, BodyOf, Copy;
      PathsDiffer(pid);
      var remaining := Wrap64(maxDownloadBytes - held);
      var n, end := CopyBody(PartialPath(pid), held, response, a.turns, Wrap64(remaining + 1));
      Finish(pid, a, outcome, remaining, expected, held, n, end);
    }

    method SaveExpected(pid: string, a: Attempt, expected: int)
      requires pid in store.consumerTransfers
      modifies store`consumerTransfers
      ensures pid in store.consumerTransfers && OnlyTouches(pid)
      ensures LocalOf(pid) == WithExpected(old(LocalOf(pid)), a, expected)
    {
      if expected != a.expected && !a.saveExpectedFails {
        store.SetConsumerTransferExpectedBytes(pid, expected);
      }
    }

    /** The attempt from the end of the copy on: why it stopped, the limit, publication. */
    method Finish(pid: string, a: Attempt, outcome: PullOutcome, remaining: int, expected: int, held: nat, n: nat,
      end: CopyEnd)
      requires pid in store.consumerTransfers && store.consumerTransfers[pid].consumerPid == pid
      requires PartialPath(pid) in disk.files
      requires outcome.Value() == Outcome(held, "", None, Some(NoReasonRecorded))
      modifies disk, outcome
      ensures OnlyTouches(pid)
      ensures Exit(LocalOf(pid), outcome.Value()) ==
              AfterCopy(old(LocalOf(pid)), a, remaining, expected, held, n, end)
    {
      PathsDiffer(pid);
      outcome.received := held + n;
      if end.Stopped? {
        if a.copyCause == IdleTimeout || end.end == IdleExpired {
          outcome.Fail(NoProgress);
          return;
        }
        if a.copyCause == ShuttingDown {
          outcome.Fail(ShutDown);
          return;
        }
        outcome.Fail(NotWritten);
        return;
      }
      if n > remaining {
        outcome.Fail(OverTheLimit);
        return;
      }
      if a.syncFails {
        outcome.Fail(NotSynced);
        return;
      }
      if a.closeFails {
        outcome.Fail(NotClosed);
        return;
      }
      var total := outcome.received;
      if expected > 0 && total != expected {
        outcome.Fail(LengthMismatch);
        return;
      }
      var ok := disk.Rename(PartialPath(pid), FinalPath(pid), a.renameFails);
      if !ok {
        outcome.Fail(NotPlaced);
        return;
      }
      outcome.Succeed(FinalPath(pid), a.now);
    }

    /** Appends the response's body to the partial file, from nothing unless resuming. */
    method CopyBody(partial: string, held: nat, response: Response, turns: seq<Turn>, budget: int)
      returns (n: nat, end: CopyEnd)
      requires held > 0 ==> partial in disk.files
      modifies disk
      ensures var copy := Copy(BodyOf(response, turns), budget);
        && disk.files == old(disk.files)[partial := (if held > 0 then old(disk.files)[partial] else []) + copy.written]
        && n == |copy.written| && end == copy.end
    {
      var content := if held > 0 then disk.files[partial] else [];
      var wire := BodyOf(response, turns);
      var body := new Body(wire.content, wire.complete, turns);
      var reader := new IdleTimeoutReader(body);
      assert reader.State() == wire;
      content, n, end := CopyToFile(reader, content, budget);
      disk.Write(partial, content);
    }
  }

  function Lookup<K, V>(m: map<K, V>, k: K): Option<V> {
    if k in m then Some(m[k]) else None
  }
}
