/** The data pull one access at a time, as other goroutines could see it. */
module PullSteps {
  import opened Prelude
  import opened Streams
  import opened Storage
  import opened Pull
  import opened PullRuns

  /** Where a pull is: before it examines the partial, the answer to its request, the
      removal, the recording of the length, the opening of the file, a turn of the copy, the
      closing and publication, the deferred write; or past them all. */
  datatype Stage =
    | Examining
    | Judging(held: nat)
    | Discarding(held: nat, why: Failure)
    | Saving(held: nat, expected: int)
    | Opening(held: nat, expected: int)
    | Copying(held: nat, expected: int, wire: Wire, left: int, n: nat)
    | Closing(held: nat, expected: int, n: nat, end: CopyEnd)
    | Recording(outcome: Outcome)
    | Ended
  {
    predicate Valid() {
      Copying? ==> wire.Valid()
    }
  }

  /** A transfer's files and row, and where its pull goes on. */
  datatype Progress = Progress(local: Local, stage: Stage)

  function Goes(e: Exit): Progress {
    Progress(e.local, Recording(e.outcome))
  }

  /** The answer judged; nothing is touched. */
  function Judged(l: Local, r: Restart, held: nat): Progress {
    var a := r.attempt;
    if Preflight(a).Some? then Goes(Pull.Failed(l, held, Preflight(a).value))
    else
      match a.reply
      case NoReply(cause) =>
        Goes(Pull.Failed(l, held,
          if cause == IdleTimeout then NoResponseInTime else if cause == ShuttingDown then ShutDown
            else NoBytesArrived))
      case Reply(response) =>
        match Classify(held, a.expected, response)
        case Keep(why) => Goes(Pull.Failed(l, held, why))
        case Discard(why) => Progress(l, Discarding(held, why))
        case Take(expected) => Progress(l, Saving(held, expected))
  }

  /** The file opened for appending when resuming, and emptied otherwise. */
  function Opened(l: Local, r: Restart, held: nat, expected: int): Progress
    requires r.attempt.reply.Reply?
  {
    if r.attempt.openFails then Goes(Pull.Failed(l, held, FileNotOpened))
    else Progress(l.(partial := Some(if held > 0 then Held(l) else [])),
      Copying(held, expected, BodyOf(r.attempt.reply.response, r.attempt.turns), Budget(r.limit, held), 0))
  }

  /** One turn of the copy: what was read is appended. */
  function Copied(l: Local, s: Stage): Progress
    requires s.Copying? && s.Valid()
  {
    if s.left <= 0 then Progress(l, Closing(s.held, s.expected, s.n, CopyEnd.Copied)) else
    var t := TakeTurn(s.wire, s.left);
    var n := s.n + |t.written|;
    Progress(l.(partial := Some(Held(l) + t.written)),
      if t.end.Some? then Closing(s.held, s.expected, n, t.end.value)
      else Copying(s.held, s.expected, t.wire, s.left - |t.written|, n))
  }

  /** One access. */
  function Advance(l: Local, s: Stage, r: Restart): Progress
    requires s.Valid()
  {
    match s
    case Examining => Progress(l, Judging(HeldBytes(l, r.attempt)))
    case Judging(held) => Judged(l, r, held)
    case Discarding(held, why) =>
      if r.attempt.removeFails then Goes(Pull.Failed(l, held, why)) else Goes(Pull.Failed(l.(partial := None), 0, why))
    case Saving(held, expected) => Progress(WithExpected(l, r.attempt, expected), Opening(held, expected))
    case Opening(held, expected) =>
      if r.attempt.reply.Reply? then Opened(l, r, held, expected) else Progress(l, Ended)
    case Copying(_, _, _, _, _) => Copied(l, s)
    case Closing(held, expected, n, end) =>
      Goes(AfterCopy(l, r.attempt, Remaining(r.limit, held), expected, held, n, end))
    case Recording(outcome) => Progress(Recorded(Exit(l, outcome), r.attempt), Ended)
    case Ended => Progress(l, Ended)
  }

  function Rank(s: Stage): nat {
    match s
    case Examining => 8
    case Judging(_) => 7
    case Discarding(_, _) => 6
    case Saving(_, _) => 6
    case Opening(_, _) => 5
    case Copying(_, _, _, _, _) => 4
    case Closing(_, _, _, _) => 3
    case Recording(_) => 2
    case Ended => 0
  }

  function TurnsLeft(s: Stage): nat {
    if s.Copying? then |s.wire.turns| else 0
  }

  /** Every access brings the pull closer to its end. */
  lemma AdvanceGoesOn(l: Local, s: Stage, r: Restart)
    requires s.Valid() && !s.Ended?
    ensures var s' := Advance(l, s, r).stage;
      s'.Valid() && (Rank(s') < Rank(s) || (Rank(s') == Rank(s) && TurnsLeft(s') < TurnsLeft(s)))
  {
    hide TakeTurn, Classify, Preflight, BodyOf, AfterCopy;
    if s.Copying? && s.left > 0 {
      TakeTurnKeepsBytes(s.wire, s.left);
    }
  }

  /** What a pull leaves that is left alone from here to its end. */
  function Complete(l: Local, s: Stage, r: Restart): Local
    requires s.Valid()
    decreases Rank(s), TurnsLeft(s)
  {
    if s.Ended? then l
    else
      AdvanceGoesOn(l, s, r);
      var p := Advance(l, s, r);
      Complete(p.local, p.stage, r)
  }

  // ----- left alone, the accesses amount to one attempt -----

  lemma RecordingCompletes(e: Exit, r: Restart)
    ensures Complete(e.local, Recording(e.outcome), r) == Recorded(e, r.attempt)
  {
    var p := Advance(e.local, Recording(e.outcome), r);
    assert Complete(p.local, p.stage, r) == p.local;
  }

  lemma {:induction false} CopyingCompletes(l: Local, s: Stage, r: Restart)
    requires s.Copying? && s.Valid() && l.partial.Some?
    ensures var copy := Copy(s.wire, s.left);
      Complete(l, s, r) == Recorded(
        AfterCopy(l.(partial := Some(l.partial.value + copy.written)), r.attempt, Remaining(r.limit, s.held),
                  s.expected, s.held, s.n + |copy.written|, copy.end),
        r.attempt)
    decreases |s.wire.turns|
  {
    hide TakeTurn, AfterCopy, Remaining, Recorded;
    var p := Advance(l, s, r);
    if s.left <= 0 {
      assert l.partial.value + [] == l.partial.value;
      ClosingCompletes(p.local, p.stage, r);
    } else {
      var t := TakeTurn(s.wire, s.left);
      TakeTurnKeepsBytes(s.wire, s.left);
      if t.end.Some? {
        ClosingCompletes(p.local, p.stage, r);
      } else {
        CopyingCompletes(p.local, p.stage, r);
        var rest := Copy(t.wire, s.left - |t.written|);
        assert l.partial.value + t.written + rest.written == l.partial.value + (t.written + rest.written);
      }
    }
  }

  lemma ClosingCompletes(l: Local, s: Stage, r: Restart)
    requires s.Closing?
    ensures Complete(l, s, r)
         == Recorded(AfterCopy(l, r.attempt, Remaining(r.limit, s.held), s.expected, s.held, s.n, s.end), r.attempt)
  {
    hide AfterCopy, Remaining, Recorded;
    RecordingCompletes(AfterCopy(l, r.attempt, Remaining(r.limit, s.held), s.expected, s.held, s.n, s.end), r);
  }

  lemma SavingCompletes(l: Local, held: nat, expected: int, r: Restart)
    requires r.attempt.reply.Reply? && (held > 0 ==> l.partial.Some?)
    ensures Complete(l, Saving(held, expected), r)
         == Recorded(Receive(l, r.attempt, r.limit, held, expected, r.attempt.reply.response), r.attempt)
  {
    hide AfterCopy, Remaining, Budget, Recorded, BodyOf, Copied, Copy;
    var saved := WithExpected(l, r.attempt, expected);
    var p := Opened(saved, r, held, expected);
    assert Complete(l, Saving(held, expected), r) == Complete(p.local, p.stage, r);
    if r.attempt.openFails {
      RecordingCompletes(Pull.Failed(saved, held, FileNotOpened), r);
    } else {
      CopyingCompletes(p.local, p.stage, r);
    }
  }

  /** A pull left alone from its start leaves what one attempt leaves. */
  lemma WholePull(l: Local, r: Restart)
    ensures Complete(l, Examining, r) == Restarted(l, r)
  {
    hide Classify, Preflight, Receive, Recorded, Copied, AfterCopy, Opened, WithExpected;
    var a, held := r.attempt, HeldBytes(l, r.attempt);
    var p := Judged(l, r, held);
    assert Complete(l, Examining, r) == Complete(p.local, p.stage, r);
    match p.stage {
      case Saving(_, expected) => SavingCompletes(l, held, expected, r);
      case Discarding(_, why) => DiscardingCompletes(l, held, why, r);
      case _ => RecordingCompletes(Attempted(l, a, r.limit), r);
    }
  }

  lemma DiscardingCompletes(l: Local, held: nat, why: Failure, r: Restart)
    ensures Complete(l, Discarding(held, why), r) == Recorded(
      if r.attempt.removeFails then Pull.Failed(l, held, why) else Pull.Failed(l.(partial := None), 0, why), r.attempt)
  {
    hide Recorded;
    RecordingCompletes(if r.attempt.removeFails then Pull.Failed(l, held, why)
      else Pull.Failed(l.(partial := None), 0, why), r);
  }
}
