/** What an attempt makes of each answer and each failure, read off the disk and the row:
    when a request goes out, when a held partial survives, when a file is published. */
module PullAnswers {
  import opened Prelude
  import opened Headers
  import opened Streams
  import opened Storage
  import opened DataPlane
  import opened Pull
  import opened PullRuns

  // ----- the request -----

  /** Nothing stands between the attempt and its request. */
  predicate Unhindered(a: Attempt) {
    a.endpoint == Usable && !a.mkdirFails && !a.requestFails && !a.rosterExpired
  }

  /** An attempt with a partial it can examine. */
  predicate Resuming(l: Local, a: Attempt) {
    !a.statFails && Held(l) != []
  }

  /** A request is sent exactly when the start message named an endpoint the guard lets
      through, the directory and the request can be made and the roster is current. It asks
      for the rest of what a partial that can be examined holds, and for the whole file
      otherwise. */
  lemma RequestGoesOut(l: Local, a: Attempt)
    ensures Asked(l, a) ==
      if !Unhindered(a) then None
      else Some(if Resuming(l, a) then "bytes=" + Decimal(|Held(l)|) + "-" else "")
  {
  }

  /** What an attempt leaves that touches no file: the row's outcome, if it can be written. */
  function Noted(l: Local, a: Attempt, received: nat, why: Failure): Local {
    if a.recordFails then l
    else l.(row := l.row.(received := received, path := "", completed := None, failure := Some(why)))
  }

  /** Without an answer everything on disk stays, and the row says which exit was taken. */
  lemma NoAnswerKeeps(l: Local, a: Attempt, limit: int)
    requires !(Unhindered(a) && a.reply.Reply?)
    ensures PullOnce(l, a, limit) == Noted(l, a, if a.statFails then 0 else |Held(l)|,
      if a.endpoint == NoEndpoint then NoDataEndpoint
      else if a.endpoint == RefusedByGuard then EndpointRefused
      else if a.mkdirFails then NoDownloadDirectory
      else if a.requestFails then RequestNotBuilt
      else if a.rosterExpired then RosterExpired
      else if a.reply.cause == IdleTimeout then NoResponseInTime
      else if a.reply.cause == ShuttingDown then ShutDown
      else NoBytesArrived)
  {
  }

  // ----- the answer -----

  /** The answer says that the held bytes are no longer a part of the provider's file. */
  predicate Disowns(r: Response, held: nat, known: int) {
    || r.status == 416
    || (r.status == 206 && OtherLength(ParseContentRange(r.contentRange), held, known))
  }

  /** A range that starts where the held bytes end, of a file of another length than the one
      recorded. */
  predicate OtherLength(range: ContentRange, held: nat, known: int) {
    range.first == Some(held) && known > 0 && range.complete.Some? && range.complete.value != known
  }

  /** The answer continues the held bytes. */
  predicate Resumes(r: Response, held: nat, known: int) {
    && r.status == 206
    && ParseContentRange(r.contentRange).first == Some(held)
    && !OtherLength(ParseContentRange(r.contentRange), held, known)
  }

  /** The answer's body is taken. */
  predicate Accepts(l: Local, a: Attempt, r: Response) {
    if Resuming(l, a) then Resumes(r, |Held(l)|, a.expected) else r.status < 300
  }

  /** The length the whole file is then expected to have, zero when nothing states it. */
  function StatedLength(l: Local, a: Attempt, r: Response): int {
    if Resuming(l, a) then
      var complete := ParseContentRange(r.contentRange).complete;
      if complete.Some? then complete.value else a.expected
    else if r.contentLength.Some? && r.contentLength.value >= 0 then r.contentLength.value
    else 0
  }

  /** Every answer that is not taken leaves the partial, the published file and the expected
      length as they were and counts what is held, save one that disowns the held bytes:
      that removes them if it can. The row says which it was. */
  lemma RefusedAnswer(l: Local, a: Attempt, limit: int)
    requires Unhindered(a) && a.reply.Reply? && !Accepts(l, a, a.reply.response)
    ensures var r, held, l' := a.reply.response, if a.statFails then 0 else |Held(l)|, PullOnce(l, a, limit);
      if !Resuming(l, a) then l' == Noted(l, a, 0, PullRefused)
      else if Disowns(r, held, a.expected) then
        var why := if r.status == 416 then NotPastWhatIsHere else DifferentLength;
        l' == if a.removeFails then Noted(l, a, held, why) else Noted(l.(partial := None), a, 0, why)
      else l' == Noted(l, a, held, if r.status == 206 then WrongRangeStart else UnexpectedAnswer)
  {
    hide ParseContentRange;
  }

  /** An answer's body is taken exactly when it continues what is held, or nothing is held
      and it is no refusal; and for exactly the length it states. */
  lemma AcceptedAnswer(l: Local, r: Restart)
    ensures Takes(l, r) <==>
      Unhindered(r.attempt) && r.attempt.reply.Reply? && Accepts(l, r.attempt, r.attempt.reply.response)
    ensures Takes(l, r) ==>
      Classify(HeldBytes(l, r.attempt), r.attempt.expected, r.attempt.reply.response)
        == Take(StatedLength(l, r.attempt, r.attempt.reply.response))
  {
    hide ParseContentRange;
  }

  // ----- the body -----

  /** The body is copied into the partial after what is held, within the room left and a
      byte more. */
  function Copying(l: Local, a: Attempt, limit: int): CopyResult
    requires a.reply.Reply?
  {
    Copy(BodyOf(a.reply.response, a.turns), Wrap64(Wrap64(limit - Base(l, a)) + 1))
  }

  function Base(l: Local, a: Attempt): nat {
    if Resuming(l, a) then |Held(l)| else 0
  }

  /** What the partial holds after the copy. */
  function Filled(l: Local, a: Attempt, limit: int): bytes
    requires a.reply.Reply?
  {
    (if Resuming(l, a) then Held(l) else []) + Copying(l, a, limit).written
  }

  /** Why an accepted body is not published, in the order it is noticed. */
  function Impediment(l: Local, a: Attempt, limit: int): Option<Failure>
    requires a.reply.Reply?
  {
    var copy, total := Copying(l, a, limit), |Filled(l, a, limit)|;
    var stated := StatedLength(l, a, a.reply.response);
    if copy.end.Stopped? then
      Some(if a.copyCause == IdleTimeout || copy.end == Stopped(IdleExpired) then NoProgress
           else if a.copyCause == ShuttingDown then ShutDown
           else NotWritten)
    else if |copy.written| > Wrap64(limit - Base(l, a)) then Some(OverTheLimit)
    else if a.syncFails then Some(NotSynced)
    else if a.closeFails then Some(NotClosed)
    else if stated > 0 && total != stated then Some(LengthMismatch)
    else if a.renameFails then Some(NotPlaced)
    else None
  }

  /** An accepted answer's length is recorded if it can be. Then the body is published under
      the transfer's name, complete and counted, exactly when the file opens, the copy ends
      by itself within the limit, the file is synced, closed, of the stated length and
      renamed; otherwise everything that was copied stays in the partial, counted. */
  lemma AcceptedBody(l: Local, a: Attempt, limit: int)
    requires Unhindered(a) && a.reply.Reply? && Accepts(l, a, a.reply.response)
    ensures var stated, l' := StatedLength(l, a, a.reply.response), PullOnce(l, a, limit);
      var saved := if stated == a.expected || a.saveExpectedFails then l else l.(row := l.row.(expected := stated));
      var content := Filled(l, a, limit);
      if a.openFails then l' == Noted(saved, a, Base(l, a), FileNotOpened)
      else if Impediment(l, a, limit).Some? then
        l' == Noted(saved.(partial := Some(content)), a, |content|, Impediment(l, a, limit).value)
      else
        && l'.partial == None && l'.published == Some(content)
        && l'.row == if a.recordFails then saved.row
           else saved.row.(received := |content|, path := "downloads/" + l.row.consumerPid,
                           completed := Some(a.now), failure := None)
  {
    hide ParseContentRange, Copy, BodyOf, Wrap64;
  }

  /** So a partial that can be examined is removed, unless it is published, exactly when an
      answer disowns it and the removal does not fail. */
  lemma PartialSurvives(l: Local, a: Attempt, limit: int)
    requires Resuming(l, a)
    ensures var l' := PullOnce(l, a, limit);
      l'.partial == None && Attempted(l, a, limit).outcome.failure.Some? <==>
        && Unhindered(a) && a.reply.Reply?
        && Disowns(a.reply.response, |Held(l)|, a.expected)
        && !a.removeFails
    ensures var l' := PullOnce(l, a, limit);
      l'.partial != None ==> Held(l) <= Held(l')
  {
    hide ParseContentRange, PullOnce, Attempted, Impediment, Filled;
    if !(Unhindered(a) && a.reply.Reply?) {
      NoAnswerKeeps(l, a, limit);
      NoAnswerFails(l, a, limit);
    } else if Accepts(l, a, a.reply.response) {
      AcceptedBody(l, a, limit);
      AcceptedFails(l, a, limit);
    } else {
      RefusedAnswer(l, a, limit);
      RefusedFails(l, a, limit);
    }
  }

  lemma NoAnswerFails(l: Local, a: Attempt, limit: int)
    requires !(Unhindered(a) && a.reply.Reply?)
    ensures Attempted(l, a, limit).outcome.failure.Some?
  {
  }

  lemma RefusedFails(l: Local, a: Attempt, limit: int)
    requires Unhindered(a) && a.reply.Reply? && !Accepts(l, a, a.reply.response)
    ensures Attempted(l, a, limit).outcome.failure.Some?
  {
    hide ParseContentRange;
  }

  lemma AcceptedFails(l: Local, a: Attempt, limit: int)
    requires Unhindered(a) && a.reply.Reply? && Accepts(l, a, a.reply.response) && Resuming(l, a)
    ensures var e := Attempted(l, a, limit);
      && (e.outcome.failure.None? <==> e.local.partial.None?)
      && PullOnce(l, a, limit).partial == e.local.partial
      && (e.local.partial.Some? ==> Held(l) <= Held(e.local))
  {
    hide ParseContentRange, Copy, BodyOf, Wrap64;
  }
}
