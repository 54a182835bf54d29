/** What the pull keeps over every run of restarts. */
module PullRuns {
  import opened Prelude
  import opened Headers
  import opened Streams
  import opened DataPlane
  import opened Pull

  // ----- the invariant of a resumable download -----

  /** Different representations of the dataset have different lengths. */
  ghost predicate DistinctLengths(reps: set<bytes>) {
    forall f, g | f in reps && g in reps :: |f| == |g| ==> f == g
  }

  ghost predicate FitInt64(reps: set<bytes>) {
    forall f | f in reps :: |f| <= MAX_INT64
  }

  function Held(l: Local): bytes {
    if l.partial.Some? then l.partial.value else []
  }

  /** A non-empty partial is a prefix of the one representation whose length the row
      expects, and a published file is a representation in full. */
  ghost predicate Consistent(l: Local, reps: set<bytes>) {
    && (Held(l) != [] ==> exists f | f in reps :: |f| == l.row.expected && Held(l) <= f)
    && (l.published.Some? ==> l.published.value in reps)
  }

  // ----- attempts against the provider's data endpoint -----

  /** One restart: the attempt, the provider's file and its simulated interruption at the
      time, and the consumer's limit at the time. */
  datatype Restart = Restart(attempt: Attempt, file: bytes, interruptAfter: nat, limit: int)

  /** The partial file can be examined, or there is nothing in it to miss. */
  predicate CanExamine(l: Local, a: Attempt) {
    !a.statFails || Held(l) == []
  }

  /** The answer is this provider's, the expected length looked up is the row's, and a
      changed one is saved. Everything else is the environment's. */
  predicate FromProvider(l: Local, r: Restart) {
    && (r.attempt.reply.Reply? ==>
         Honest(r.attempt.reply.response, r.file, r.interruptAfter, RangeHeader(HeldBytes(l, r.attempt))))
    && r.attempt.expected == l.row.expected
    && !r.attempt.saveExpectedFails
  }

  /** The answer is taken: the length it states is recorded, and the file opened next. */
  predicate Takes(l: Local, r: Restart) {
    && Preflight(r.attempt).None?
    && r.attempt.reply.Reply?
    && Classify(HeldBytes(l, r.attempt), r.attempt.expected, r.attempt.reply.response).Take?
  }

  /** The one failure that breaks a download: a partial that cannot be examined makes the
      pull a fresh one, the fresh file's length is recorded, and then the partial cannot be
      opened either, so that bytes of another file stay beside the new length. */
  predicate Strands(l: Local, r: Restart) {
    !CanExamine(l, r.attempt) && Takes(l, r) && r.attempt.openFails && !(Held(l) <= r.file)
  }

  function Restarted(l: Local, r: Restart): Local {
    PullOnce(l, r.attempt, r.limit)
  }

  /** A resumed request is answered with the rest of the file, or that there is none. */
  lemma IntendedResumed(file: bytes, interruptAfter: nat, held: nat)
    requires 0 < held <= MAX_INT64
    ensures Intended(file, interruptAfter, RangeHeader(held)) ==
      if held >= |file| then Response(416, PrintUnsatisfiedRange(|file|), None, [])
      else Response(206, PrintContentRange(held, |file| - 1, |file|), Some(|file| - held), file[held..])
  {
    RangeRoundTrip(held);
  }

  /** An accepted answer from the provider states the file's length, and its body is the
      file's from the held offset on. */
  lemma TakenIsHonest(a: Attempt, response: Response, held: nat, file: bytes, interruptAfter: nat)
    requires held <= MAX_INT64 && |file| <= MAX_INT64
    requires Honest(response, file, interruptAfter, RangeHeader(held))
    requires Classify(held, a.expected, response).Take?
    ensures held == 0 || held < |file|
    ensures Classify(held, a.expected, response) == Take(|file|)
    ensures held > 0 ==> a.expected <= 0 || a.expected == |file|
    ensures BodyOf(response, a.turns).content <= file[held..]
  {
    hide ParseContentRange, PrintContentRange, PrintUnsatisfiedRange;
    if held > 0 {
      IntendedResumed(file, interruptAfter, held);
      if held < |file| {
        ContentRangeRoundTrip(held, |file| - 1, |file|);
      }
    }
  }

  /** Copying onto a prefix of the file from the rest of the file leaves a prefix of the
      file, and publishes the file or nothing. */
  lemma FetchKeepsPrefix(l: Local, a: Attempt, limit: int, held: nat, file: bytes, r: Response)
    requires held > 0 ==> l.partial.Some? && |l.partial.value| == held && l.partial.value <= file
    requires held <= |file| && BodyOf(r, a.turns).content <= file[held..]
    ensures var e := Fetch(l, a, limit, held, |file|, r);
      && Held(e.local) <= file && e.local.row == l.row
      && e.local.published == (if e.outcome.failure.None? then Some(file) else l.published)
  {
    hide Copy, BodyOf;
    var base := if held > 0 then l.partial.value else [];
    var copy := Copy(BodyOf(r, a.turns), Budget(limit, held));
    CopyWritesAPrefix(BodyOf(r, a.turns), Budget(limit, held));
    PrefixOfPrefix(copy.written, BodyOf(r, a.turns).content, file[held..]);
    var content := base + copy.written;
    assert content <= file;
    assert |content| == |file| ==> content == file;
  }

  /** The same from the recorded length on; the row then expects the file's length. */
  lemma ReceiveKeepsPrefix(l: Local, a: Attempt, limit: int, held: nat, file: bytes, r: Response)
    requires (held == |Held(l)| && Held(l) <= file) || (held == 0 && !a.openFails)
    requires held <= |file| && BodyOf(r, a.turns).content <= file[held..]
    requires a.expected == l.row.expected && !a.saveExpectedFails
    ensures var e := Receive(l, a, limit, held, |file|, r);
      && Held(e.local) <= file && e.local.row == l.row.(expected := |file|)
      && e.local.published == (if e.outcome.failure.None? then Some(file) else l.published)
  {
    FetchKeepsPrefix(WithExpected(l, a, |file|), a, limit, held, file, r);
  }

  /** One restart publishes nothing but the provider's file, and keeps the invariant unless
      it strands the partial. */
  lemma RestartKeepsConsistent(l: Local, r: Restart, reps: set<bytes>)
    requires DistinctLengths(reps) && FitInt64(reps) && r.file in reps
    requires Consistent(l, reps) && FromProvider(l, r)
    ensures Consistent(Restarted(l, r), reps) <==> !Strands(l, r)
    ensures Restarted(l, r).published in {l.published, Some(r.file)}
  {
    hide ParseContentRange, Intended, BodyOf, Receive;
    if !Takes(l, r) {
      var e := Attempted(l, r.attempt, r.limit);
      assert e.local.row == l.row && e.local.published == l.published;
      assert Held(e.local) == Held(l) || Held(e.local) == [];
    } else if CanExamine(l, r.attempt) || !r.attempt.openFails {
      TakenKeepsConsistent(l, r, reps);
    } else {
      UnopenedKeepsConsistent(l, r, reps);
    }
  }

  lemma TakenKeepsConsistent(l: Local, r: Restart, reps: set<bytes>)
    requires DistinctLengths(reps) && FitInt64(reps) && r.file in reps
    requires Consistent(l, reps) && FromProvider(l, r) && Takes(l, r)
    requires CanExamine(l, r.attempt) || !r.attempt.openFails
    ensures Consistent(Restarted(l, r), reps)
    ensures Restarted(l, r).published in {l.published, Some(r.file)}
  {
    hide Restarted, Takes, FromProvider, DistinctLengths, FitInt64;
    TakenIsOwn(l, r, reps);
    TakenLeaves(l, r);
  }

  /** What is held when an answer is taken belongs to the file it is about. */
  lemma TakenIsOwn(l: Local, r: Restart, reps: set<bytes>)
    requires DistinctLengths(reps) && FitInt64(reps) && r.file in reps
    requires Consistent(l, reps) && FromProvider(l, r) && Takes(l, r)
    ensures |r.file| <= MAX_INT64
    ensures HeldBytes(l, r.attempt) > 0 ==> Held(l) <= r.file
  {
    hide Classify, Honest, Preflight;
    var held := HeldBytes(l, r.attempt);
    if held > 0 {
      var f :| f in reps && |f| == l.row.expected && Held(l) <= f;
      TakenIsHonest(r.attempt, r.attempt.reply.response, held, r.file, r.interruptAfter);
      assert f == r.file;
    }
  }

  lemma TakenLeaves(l: Local, r: Restart)
    requires |r.file| <= MAX_INT64 && FromProvider(l, r) && Takes(l, r)
    requires HeldBytes(l, r.attempt) > 0 ==> Held(l) <= r.file
    requires CanExamine(l, r.attempt) || !r.attempt.openFails
    ensures var l' := Restarted(l, r);
      Held(l') <= r.file && l'.row.expected == |r.file| && l'.published in {l.published, Some(r.file)}
  {
    hide Classify, Honest, BodyOf, Receive, Preflight;
    var a, held := r.attempt, HeldBytes(l, r.attempt);
    TakenIsHonest(a, a.reply.response, held, r.file, r.interruptAfter);
    ReceiveKeepsPrefix(l, a, r.limit, held, r.file, a.reply.response);
  }

  /** A partial that can be neither examined nor opened stays, beside the file's length. */
  lemma UnopenedLeaves(l: Local, r: Restart)
    requires |r.file| <= MAX_INT64 && FromProvider(l, r) && Takes(l, r)
    requires !CanExamine(l, r.attempt) && r.attempt.openFails
    ensures var l' := Restarted(l, r);
      l'.partial == l.partial && l'.published == l.published && l'.row.expected == |r.file|
  {
    hide Classify, Honest, BodyOf, Preflight;
    TakenIsHonest(r.attempt, r.attempt.reply.response, 0, r.file, r.interruptAfter);
  }

  lemma UnopenedKeepsConsistent(l: Local, r: Restart, reps: set<bytes>)
    requires DistinctLengths(reps) && FitInt64(reps) && r.file in reps
    requires Consistent(l, reps) && FromProvider(l, r) && Takes(l, r)
    requires !CanExamine(l, r.attempt) && r.attempt.openFails
    ensures Consistent(Restarted(l, r), reps) <==> Held(l) <= r.file
    ensures Restarted(l, r).published == l.published
  {
    hide Restarted, Takes, FromProvider;
    UnopenedLeaves(l, r);
  }

  function RunRestarts(l: Local, run: seq<Restart>): Local
    decreases |run|
  {
    if run == [] then l else RunRestarts(Restarted(l, run[0]), run[1..])
  }

  ghost predicate RunFromProvider(l: Local, run: seq<Restart>, reps: set<bytes>)
    decreases |run|
  {
    run != [] ==>
      && run[0].file in reps
      && FromProvider(l, run[0])
      && RunFromProvider(Restarted(l, run[0]), run[1..], reps)
  }

  predicate NeverStrands(l: Local, run: seq<Restart>)
    decreases |run|
  {
    run != [] ==> !Strands(l, run[0]) && NeverStrands(Restarted(l, run[0]), run[1..])
  }

  /** The invariant holds at the start and after every restart of the run. */
  ghost predicate AlwaysConsistent(l: Local, run: seq<Restart>, reps: set<bytes>)
    decreases |run|
  {
    Consistent(l, reps) && (run != [] ==> AlwaysConsistent(Restarted(l, run[0]), run[1..], reps))
  }

  /** Over every run of restarts, with the provider's file replaced between any two of
      them and every attempt breaking wherever the environment likes, the invariant holds
      throughout, so that no published file is ever a mix of representations, exactly when
      no restart strands the partial. */
  lemma {:induction false} EveryRunKeepsConsistent(l: Local, run: seq<Restart>, reps: set<bytes>)
    requires DistinctLengths(reps) && FitInt64(reps)
    requires Consistent(l, reps) && RunFromProvider(l, run, reps)
    ensures AlwaysConsistent(l, run, reps) <==> NeverStrands(l, run)
    ensures NeverStrands(l, run) ==> Consistent(RunRestarts(l, run), reps)
    decreases |run|
  {
    hide Consistent, Restarted, Strands, FromProvider;
    if run == [] {
    } else {
      var l' := Restarted(l, run[0]);
      RestartKeepsConsistent(l, run[0], reps);
      if Consistent(l', reps) {
        EveryRunKeepsConsistent(l', run[1..], reps);
      } else {
        InconsistentAtStart(l', run[1..], reps);
      }
    }
  }

  lemma InconsistentAtStart(l: Local, run: seq<Restart>, reps: set<bytes>)
    requires !Consistent(l, reps)
    ensures !AlwaysConsistent(l, run, reps)
  {
  }

  // ----- the byte ceiling -----

  /** Below the largest 64-bit limit the room left and the copy's budget do not wrap. */
  lemma NoWrap(limit: int, held: nat)
    requires 0 <= limit < MAX_INT64 && held <= MAX_INT64
    ensures Remaining(limit, held) == limit - held && Budget(limit, held) == limit - held + 1
  {
  }

  lemma FetchUnderCeiling(l: Local, a: Attempt, limit: int, held: nat, expected: int, r: Response)
    requires 0 <= limit < MAX_INT64 && held <= MAX_INT64
    requires held > 0 ==> l.partial.Some? && |l.partial.value| == held
    ensures var e := Fetch(l, a, limit, held, expected, r);
      && |Held(e.local)| <= Max(held, limit + 1)
      && (e.outcome.failure.None? ==> e.local.published.Some? && |e.local.published.value| <= limit)
      && (e.outcome.failure.Some? ==> e.local.published == l.published)
  {
    hide Copy, BodyOf, Remaining, Budget;
    NoWrap(limit, held);
    CopyWritesAPrefix(BodyOf(r, a.turns), Budget(limit, held));
  }

  /** Whatever the peer answers, an attempt publishes no file longer than the limit and
      grows no partial past the limit and one byte, even one left over from a higher limit. */
  lemma AttemptUnderCeiling(l: Local, a: Attempt, limit: int)
    requires 0 <= limit < MAX_INT64 && |Held(l)| <= MAX_INT64
    ensures var l' := PullOnce(l, a, limit);
      && |Held(l')| <= Max(|Held(l)|, limit + 1)
      && (l'.published == l.published || (l'.published.Some? && |l'.published.value| <= limit))
  {
    hide Classify, Fetch, Preflight;
    var held := HeldBytes(l, a);
    if a.reply.Reply? {
      var d := Classify(held, a.expected, a.reply.response);
      if d.Take? {
        FetchUnderCeiling(WithExpected(l, a, d.expected), a, limit, held, d.expected, a.reply.response);
      }
    }
  }

  /** Over a whole run whose limits stay within cap, against any peer at all. */
  lemma {:induction false} RunUnderCeiling(l: Local, run: seq<Restart>, cap: int)
    requires 0 <= cap < MAX_INT64 && |Held(l)| <= cap + 1 && (l.published.Some? ==> |l.published.value| <= cap)
    requires forall r | r in run :: 0 <= r.limit <= cap
    ensures var l' := RunRestarts(l, run);
      |Held(l')| <= cap + 1 && (l'.published.Some? ==> |l'.published.value| <= cap)
    decreases |run|
  {
    if run == [] {
    } else {
      AttemptUnderCeiling(l, run[0].attempt, run[0].limit);
      RunUnderCeiling(Restarted(l, run[0]), run[1..], cap);
    }
  }

  // ----- the recorded outcome and the disk -----

  /** The four outcome columns describe the disk: a failure has no path and no completion
      and counts the partial left behind; a success counts the published file and has left
      no partial. */
  predicate OutcomeMatchesDisk(l: Local) {
    if l.row.failure.Some? then
      l.row.path == "" && l.row.completed.None? && l.row.received == |Held(l)|
    else
      && l.row.path == FinalPath(l.row.consumerPid) && l.row.completed.Some?
      && l.partial.None? && l.published.Some? && l.row.received == |l.published.value|
  }

  /** The attempt gets as far as opening the partial file, which empties one it could not
      examine. */
  predicate Opens(l: Local, a: Attempt) {
    && Preflight(a).None?
    && a.reply.Reply?
    && Classify(HeldBytes(l, a), a.expected, a.reply.response).Take?
    && !a.openFails
  }

  /** A recorded outcome agrees with the disk on every exit, whatever the peer answers and
      wherever the attempt breaks, exactly when the partial could be examined or the
      attempt opened it anyway. */
  lemma RecordedOutcomeMatchesDisk(l: Local, a: Attempt, limit: int)
    requires !a.recordFails
    ensures OutcomeMatchesDisk(PullOnce(l, a, limit)) <==> CanExamine(l, a) || Opens(l, a)
  {
    hide Classify, Preflight, Receive;
    if Preflight(a).None? && a.reply.Reply? {
      var d := Classify(HeldBytes(l, a), a.expected, a.reply.response);
      if d.Take? {
        ReceivedMatchesDisk(l, a, limit, d.expected);
      }
    }
  }

  /** The same of an attempt that takes a body. */
  lemma ReceivedMatchesDisk(l: Local, a: Attempt, limit: int, expected: int)
    requires !a.recordFails && a.reply.Reply?
    ensures OutcomeMatchesDisk(Recorded(Receive(l, a, limit, HeldBytes(l, a), expected, a.reply.response), a))
       <==> CanExamine(l, a) || !a.openFails
  {
    hide Copy, BodyOf, Remaining, Budget, FinalPath;
  }
}
