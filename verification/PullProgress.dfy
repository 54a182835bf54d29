/** When a pull completes: how many restarts it takes once nothing goes wrong any more, what
    an over-limit partial is worth, and which looked-up lengths are safe to resume under. */
module PullProgress {
  import opened Prelude
  import opened Headers
  import opened Streams
  import opened Storage
  import opened DataPlane
  import opened Pull
  import opened PullRuns

  // ----- copies nothing goes wrong in -----

  predicate Quiet(turn: Turn) {
    turn.ready > 0 && turn.end == Eof && !turn.timerFired && turn.diskRefusesAfter.None?
  }

  predicate AllQuiet(turns: seq<Turn>) {
    forall turn | turn in turns :: Quiet(turn)
  }

  lemma QuietTurn(w: Wire, budget: int)
    requires w.Valid() && !w.fired && w.turns != [] && Quiet(w.turns[0]) && budget > 0
    ensures var t := TakeTurn(w, budget);
      && t.wire == w.(pos := w.pos + |t.written|, turns := w.turns[1..])
      && t.wire.Valid()
      && t.written == w.content[w.pos..w.pos + |t.written|]
      && |t.written| <= budget
      && (w.pos < |w.content| ==> |t.written| > 0)
      && t.end == (if t.wire.pos < |w.content| then None else if w.complete then Some(Copied)
         else Some(Stopped(Failed)))
  {
  }

  /** Left alone, a copy takes everything its budget allows, and ends in an error only when
      the body breaks off within the budget. */
  lemma {:induction false} QuietCopy(w: Wire, budget: int)
    requires w.Valid() && !w.fired && AllQuiet(w.turns) && |w.turns| > |w.content| - w.pos && budget >= 0
    ensures var rest := w.content[w.pos..];
      && Copy(w, budget).written == rest[..Min(budget, |rest|)]
      && (w.complete || budget < |rest| ==> Copy(w, budget).end == Copied)
      && (!w.complete && budget > |rest| ==> Copy(w, budget).end == Stopped(Failed))
    decreases |w.turns|
  {
    hide TakeTurn;
    if budget == 0 {
    } else {
      QuietTurn(w, budget);
      var t := TakeTurn(w, budget);
      if t.end.None? {
        QuietCopy(t.wire, budget - |t.written|);
        var rest := w.content[w.pos..];
        assert rest == t.written + t.wire.content[t.wire.pos..];
      }
    }
  }

  // ----- restarts nothing goes wrong in -----

  /** The provider answers in full, the network and the disk do as they are asked, and the
      length looked up is the row's. */
  predicate Calm(l: Local, r: Restart) {
    var a := r.attempt;
    && a.endpoint == Usable && !a.mkdirFails && !a.requestFails && !a.rosterExpired && !a.statFails
    && a.reply == Reply(Intended(r.file, r.interruptAfter, RangeHeader(|Held(l)|)))
    && AllQuiet(a.turns) && |a.turns| > |r.file|
    && !a.removeFails && !a.saveExpectedFails && !a.openFails
    && !a.syncFails && !a.closeFails && !a.renameFails && !a.recordFails
    && a.expected == l.row.expected
  }

  /** The file is published in full and the row says so. */
  predicate Done(l: Local, file: bytes) {
    && l.published == Some(file) && l.partial.None?
    && l.row.failure.None? && l.row.completed.Some? && l.row.received == |file|
  }

  /** The partial can be continued into this file. */
  predicate Resumable(l: Local, file: bytes) {
    0 < |Held(l)| < |file| && l.row.expected == |file|
  }

  /** How many calm restarts it takes: one to resume; otherwise one to discard what is
      held, if anything is, and then one for the whole file or two for an interrupted one. */
  function Needed(l: Local, file: bytes, interruptAfter: nat): (n: nat)
    ensures 1 <= n <= 3
  {
    if Resumable(l, file) then 1
    else (if Held(l) == [] then 0 else 1) + (if 0 < interruptAfter < |file| then 2 else 1)
  }

  /** A calm attempt that takes a body: what Fetch leaves when nothing is cut short by the
      limit. */
  lemma QuietFetch(l: Local, a: Attempt, limit: int, held: nat, file: bytes, r: Response)
    requires held == |Held(l)| && Held(l) <= file && |file| <= limit < MAX_INT64
    requires AllQuiet(a.turns) && |a.turns| > |file|
    requires !a.syncFails && !a.closeFails && !a.renameFails
    requires BodyOf(r, a.turns).content <= file[held..]
    requires BodyOf(r, a.turns).complete <==> BodyOf(r, a.turns).content == file[held..]
    ensures var e := Fetch(l, a, limit, held, |file|, r);
      if BodyOf(r, a.turns).complete then
        e == Exit(l.(partial := None, published := Some(file)),
          Outcome(|file|, FinalPath(l.row.consumerPid), Some(a.now), None))
      else
        && e.local == l.(partial := Some(Held(l) + BodyOf(r, a.turns).content))
        && e.outcome.failure.Some?
  {
    hide Copy, BodyOf, Budget, Remaining, Wrap64;
    NoWrap(limit, held);
    var w := BodyOf(r, a.turns);
    QuietCopy(w, Budget(limit, held));
    assert w.content[w.pos..] == w.content;
    assert w.content[..Min(Budget(limit, held), |w.content|)] == w.content;
    if w.complete {
      assert Held(l) + file[held..] == file;
    }
  }

  /** One calm restart either publishes the file or brings it one restart closer. */
  lemma CalmRestart(l: Local, r: Restart, reps: set<bytes>)
    requires DistinctLengths(reps) && FitInt64(reps) && r.file in reps && Consistent(l, reps)
    requires Calm(l, r) && |r.file| <= r.limit < MAX_INT64
    ensures var l', n := Restarted(l, r), Needed(l, r.file, r.interruptAfter);
      if n == 1 then Done(l', r.file)
      else l'.row.failure.Some? && l'.published == l.published && Needed(l', r.file, r.interruptAfter) == n - 1
  {
    hide PullOnce, Calm;
    if Held(l) == [] {
      FreshCalm(l, r);
      assert 0 < r.interruptAfter < |r.file| ==> |r.file[..r.interruptAfter]| == r.interruptAfter;
    } else {
      var f :| f in reps && |f| == l.row.expected && Held(l) <= f;
      if Resumable(l, r.file) {
        assert f == r.file;
        ResumedCalm(l, r);
      } else {
        DiscardCalm(l, r);
      }
    }
  }

  /** A partial this file does not continue is discarded. */
  lemma DiscardCalm(l: Local, r: Restart)
    requires Calm(l, r) && Held(l) != [] && !Resumable(l, r.file)
    requires l.row.expected >= |Held(l)| && |Held(l)| <= MAX_INT64 && |r.file| <= MAX_INT64
    ensures var l' := Restarted(l, r);
      l'.row.failure.Some? && l'.published == l.published && Held(l') == []
  {
    hide Receive, ParseContentRange, PrintContentRange, PrintUnsatisfiedRange;
    var held := |Held(l)|;
    IntendedResumed(r.file, r.interruptAfter, held);
    if held < |r.file| {
      ContentRangeRoundTrip(held, |r.file| - 1, |r.file|);
    }
  }

  lemma CalmIsFromProvider(l: Local, r: Restart)
    requires Calm(l, r)
    ensures FromProvider(l, r) && !Strands(l, r)
  {
    hide Intended;
  }

  lemma FreshCalm(l: Local, r: Restart)
    requires Calm(l, r) && Held(l) == [] && |r.file| <= r.limit < MAX_INT64
    ensures var l' := Restarted(l, r);
      if 0 < r.interruptAfter < |r.file| then
        && l'.row.failure.Some? && l'.published == l.published
        && Held(l') == r.file[..r.interruptAfter] && l'.row.expected == |r.file|
      else Done(l', r.file)
  {
    hide Fetch;
    var a := r.attempt;
    var response := a.reply.response;
    var w := BodyOf(response, a.turns);
    assert ParseRangeStart("") == None;
    assert r.file[0..] == r.file;
    assert w.complete <==> w.content == r.file;
    var recorded := WithExpected(l, a, |r.file|);
    QuietFetch(recorded, a, r.limit, 0, r.file, response);
    assert Held(recorded) + w.content == w.content;
  }

  lemma ResumedCalm(l: Local, r: Restart)
    requires Calm(l, r) && Resumable(l, r.file) && Held(l) <= r.file && |r.file| <= r.limit < MAX_INT64
    ensures Done(Restarted(l, r), r.file)
  {
    hide Fetch, ParseContentRange, PrintContentRange, PrintUnsatisfiedRange;
    var a, held := r.attempt, |Held(l)|;
    var response := a.reply.response;
    IntendedResumed(r.file, r.interruptAfter, held);
    ContentRangeRoundTrip(held, |r.file| - 1, |r.file|);
    QuietFetch(l, a, r.limit, held, r.file, response);
  }

  /** Every restart of the run finds the same file and interruption, and goes calmly. */
  ghost predicate CalmRun(l: Local, run: seq<Restart>, file: bytes, interruptAfter: nat)
    decreases |run|
  {
    run != [] ==>
      && run[0].file == file && run[0].interruptAfter == interruptAfter && |file| <= run[0].limit < MAX_INT64
      && Calm(l, run[0])
      && CalmRun(Restarted(l, run[0]), run[1..], file, interruptAfter)
  }

  /** From any reachable disk and row, Needed calm restarts, so at most three, publish
      exactly the provider's file. */
  lemma {:induction false} ThreeRestartsPublish(l: Local, run: seq<Restart>, file: bytes, interruptAfter: nat,
    reps: set<bytes>)
    requires DistinctLengths(reps) && FitInt64(reps) && file in reps && Consistent(l, reps)
    requires CalmRun(l, run, file, interruptAfter) && |run| == Needed(l, file, interruptAfter)
    ensures |run| <= 3 && Done(RunRestarts(l, run), file)
    decreases |run|
  {
    hide PullOnce, Calm, Needed, Consistent, FromProvider, Strands, Done;
    var l' := Restarted(l, run[0]);
    CalmRestart(l, run[0], reps);
    assert RunRestarts(l, run) == RunRestarts(l', run[1..]);
    if |run| == 1 {
      assert run[1..] == [];
    } else {
      CalmIsFromProvider(l, run[0]);
      RestartKeepsConsistent(l, run[0], reps);
      ThreeRestartsPublish(l', run[1..], file, interruptAfter, reps);
    }
  }

  /** The calm restart from l. */
  function CalmFrom(l: Local, file: bytes, interruptAfter: nat, limit: int): Restart {
    Restart(
      Attempt(l.row.expected, Usable, Reply(Intended(file, interruptAfter, RangeHeader(|Held(l)|))),
              false, false, false, false, false, false, false,
              seq(|file| + 1, i => Turn(1, Eof, false, None)), NotCancelled, false, false, false, false, 0),
      file, interruptAfter, limit)
  }

  function CalmRestarts(l: Local, file: bytes, interruptAfter: nat, limit: int, n: nat): seq<Restart>
    decreases n
  {
    if n == 0 then []
    else
      var r := CalmFrom(l, file, interruptAfter, limit);
      [r] + CalmRestarts(Restarted(l, r), file, interruptAfter, limit, n - 1)
  }

  /** Such runs exist from everywhere, of every length. */
  lemma {:induction false} CalmRunExists(l: Local, file: bytes, interruptAfter: nat, limit: int, n: nat)
    requires |file| <= limit < MAX_INT64
    ensures var run := CalmRestarts(l, file, interruptAfter, limit, n);
      |run| == n && CalmRun(l, run, file, interruptAfter)
    decreases n
  {
    hide Restarted, Intended, RangeHeader;
    if n == 0 {
    } else {
      var r := CalmFrom(l, file, interruptAfter, limit);
      CalmRunExists(Restarted(l, r), file, interruptAfter, limit, n - 1);
      var run := CalmRestarts(l, file, interruptAfter, limit, n);
      assert run[1..] == CalmRestarts(Restarted(l, r), file, interruptAfter, limit, n - 1);
    }
  }

  // ----- a stranded partial -----

  /** After any restart that strands the partial of a file shorter than the provider's, a
      restart in which nothing goes wrong publishes the stranded bytes with the rest of the
      provider's file after them, and reports success. */
  lemma StrandedPublishesAMix(l: Local, r: Restart, next: Restart)
    requires FromProvider(l, r) && Strands(l, r) && |Held(l)| < |r.file| <= next.limit < MAX_INT64
    requires next.file == r.file && Calm(Restarted(l, r), next)
    ensures var l' := Restarted(Restarted(l, r), next);
      && l'.published == Some(Held(l) + r.file[|Held(l)|..]) && l'.published != Some(r.file)
      && l'.row.failure.None?
  {
    hide Classify, Copy, Strands, FromProvider, Takes, Calm, PullOnce;
    StrandedIsUnopened(l, r);
    UnopenedLeaves(l, r);
    ResumedAnyhow(Restarted(l, r), next);
    var mix := Held(l) + r.file[|Held(l)|..];
    assert mix[..|Held(l)|] == Held(l);
  }

  lemma StrandedIsUnopened(l: Local, r: Restart)
    requires Strands(l, r)
    ensures Takes(l, r) && !CanExamine(l, r.attempt) && r.attempt.openFails && Held(l) != [] && !(Held(l) <= r.file)
  {
  }

  /** A calm restart appends to whatever is held beside the file's length. */
  lemma ResumedAnyhow(l: Local, r: Restart)
    requires Calm(l, r) && Resumable(l, r.file) && |r.file| <= r.limit < MAX_INT64
    ensures var l' := Restarted(l, r);
      l'.published == Some(Held(l) + r.file[|Held(l)|..]) && l'.row.failure.None?
  {
    hide Copy, ParseContentRange, PrintContentRange, PrintUnsatisfiedRange, Budget, Remaining, Wrap64;
    var a, held := r.attempt, |Held(l)|;
    IntendedResumed(r.file, r.interruptAfter, held);
    ContentRangeRoundTrip(held, |r.file| - 1, |r.file|);
    NoWrap(r.limit, held);
    var w := BodyOf(a.reply.response, a.turns);
    assert w.content == r.file[held..];
    QuietCopy(w, Budget(r.limit, held));
    assert w.content[0..] == w.content && w.content[..|w.content|] == w.content;
  }

  /** It happens: one byte of one file is held, the provider has another, and the downloads
      directory can for one restart be neither searched nor written. */
  lemma StrandingHappens(row: ConsumerTransfer)
    requires row.expected == 2
    ensures var reps := {[0, 0], [1, 1, 1]};
      exists l: Local, r: Restart, next: Restart ::
        && DistinctLengths(reps) && Consistent(l, reps) && l.row == row
        && RunFromProvider(l, [r, next], reps)
        && RunRestarts(l, [r, next]).published == Some([0, 1, 1])
  {
    hide Restarted, CalmFrom, Stranding, FromProvider, Strands, Consistent, DistinctLengths, RunFromProvider,
      RunRestarts;
    var l := Local(Some([0]), None, row);
    var r := Stranding(l);
    var next := CalmFrom(Restarted(l, r), [1, 1, 1], 0, 3);
    StrandingStrands(l);
    CalmFromIsCalm(Restarted(l, r), [1, 1, 1], 3);
    CalmIsFromProvider(Restarted(l, r), next);
    StrandedPublishesAMix(l, r, next);
    assert [0] + [1, 1, 1][1..] == [0, 1, 1];
    OneByteHeld(l);
    TwoRestarts(l, r, next, {[0, 0], [1, 1, 1]});
  }

  lemma OneByteHeld(l: Local)
    requires l.partial == Some([0]) && l.published == None && l.row.expected == 2
    ensures DistinctLengths({[0, 0], [1, 1, 1]}) && Consistent(l, {[0, 0], [1, 1, 1]})
  {
    assert [0] <= [0, 0] && [0, 0] in {[0, 0], [1, 1, 1]};
  }

  lemma TwoRestarts(l: Local, r: Restart, next: Restart, reps: set<bytes>)
    ensures RunRestarts(l, [r, next]) == Restarted(Restarted(l, r), next)
    ensures r.file in reps && next.file in reps && FromProvider(l, r) && FromProvider(Restarted(l, r), next) ==>
      RunFromProvider(l, [r, next], reps)
  {
    hide Restarted, FromProvider;
    var run := [r, next];
    var l' := Restarted(l, r);
    assert run[1..] == [next] && [next][1..] == [];
    assert RunRestarts(l', [next]) == RunRestarts(Restarted(l', next), []);
    assert RunRestarts(l, run) == RunRestarts(l', [next]);
    assert RunFromProvider(Restarted(l', next), [], reps);
    assert next.file in reps && FromProvider(l', next) ==> RunFromProvider(l', [next], reps);
  }

  /** A restart against a provider that has [1, 1, 1]. */
  function Stranding(l: Local): Restart {
    var calm := CalmFrom(l, [1, 1, 1], 0, 3);
    calm.(attempt := calm.attempt.(statFails := true, openFails := true, reply := Reply(Intended([1, 1, 1], 0, ""))))
  }

  lemma StrandingStrands(l: Local)
    requires l.partial == Some([0])
    ensures Stranding(l).file == [1, 1, 1] && FromProvider(l, Stranding(l)) && Strands(l, Stranding(l))
  {
    assert ParseRangeStart("") == None;
    var held: bytes, file: bytes := [0], [1, 1, 1];
    assert held[0] != file[0];
  }

  lemma CalmFromIsCalm(l: Local, file: bytes, limit: int)
    ensures var r := CalmFrom(l, file, 0, limit);
      r.file == file && r.limit == limit && Calm(l, r)
  {
    hide Intended, RangeHeader;
  }

  // ----- the limit: what an over-limit partial is worth, and the largest limit of all -----

  /** A calm attempt at a file longer than the limit leaves its first limit + 1 bytes. */
  lemma OverLimitLeaves(l: Local, r: Restart)
    requires Calm(l, r) && Held(l) <= r.file && (Held(l) == [] || l.row.expected == |r.file|)
    requires r.interruptAfter == 0 && |Held(l)| <= r.limit < |r.file| <= MAX_INT64
    ensures var l' := Restarted(l, r);
      && l'.row.failure == Some(OverTheLimit) && l'.published == l.published
      && l'.partial == Some(r.file[..r.limit + 1]) && l'.row.expected == |r.file|
  {
    hide Copy, ParseContentRange, PrintContentRange, PrintUnsatisfiedRange, Budget, Remaining, Wrap64;
    var a, held := r.attempt, |Held(l)|;
    var response := a.reply.response;
    NoWrap(r.limit, held);
    if held > 0 {
      IntendedResumed(r.file, 0, held);
      ContentRangeRoundTrip(held, |r.file| - 1, |r.file|);
    } else {
      assert ParseRangeStart("") == None;
      assert r.file[0..] == r.file;
    }
    assert BodyOf(response, a.turns).content == r.file[held..];
    QuietCopy(BodyOf(response, a.turns), Budget(r.limit, held));
    assert r.file[held..][0..] == r.file[held..];
    assert Held(l) + r.file[held..][..r.limit + 1 - held] == r.file[..r.limit + 1];
  }

  /** Raising the limit resumes an over-limit partial, but only when it is not already the
      whole file: a file one byte over the old limit is discarded and fetched again. */
  lemma RaisedLimitResumes(l: Local, r: Restart, raised: Restart)
    requires Calm(l, r) && Held(l) <= r.file && (Held(l) == [] || l.row.expected == |r.file|)
    requires r.interruptAfter == 0 && |Held(l)| <= r.limit < |r.file| <= raised.limit < MAX_INT64
    requires raised.file == r.file && Calm(Restarted(l, r), raised)
    ensures Done(Restarted(Restarted(l, r), raised), r.file) <==> r.limit + 1 < |r.file|
    ensures r.limit + 1 == |r.file| ==> Held(Restarted(Restarted(l, r), raised)) == []
  {
    hide PullOnce, Calm;
    OverLimitLeaves(l, r);
    if r.limit + 1 < |r.file| {
      ResumedCalm(Restarted(l, r), raised);
    } else {
      DiscardCalm(Restarted(l, r), raised);
    }
  }

  /** A calm first attempt at a file within the limit publishes it, unless the limit is the
      largest 64-bit integer: there the budget wraps and nothing is copied. */
  lemma LargestLimitWraps(l: Local, r: Restart)
    requires Calm(l, r) && Held(l) == [] && r.interruptAfter == 0
    requires 0 < |r.file| <= r.limit <= MAX_INT64
    ensures Done(Restarted(l, r), r.file) <==> r.limit < MAX_INT64
  {
    hide Fetch;
    if r.limit < MAX_INT64 {
      FreshCalm(l, r);
    } else {
      NothingCopied(WithExpected(l, r.attempt, |r.file|), r.attempt, |r.file|, r.attempt.reply.response);
      assert ParseRangeStart("") == None;
    }
  }

  lemma NothingCopied(l: Local, a: Attempt, expected: nat, r: Response)
    requires expected > 0
    ensures Fetch(l, a, MAX_INT64, 0, expected, r).outcome.failure.Some?
  {
    assert Budget(MAX_INT64, 0) < 0;
  }

  // ----- the looked-up length -----

  /** The answer of the provider to a resumed attempt made with this looked-up length. Its
      file may have been replaced, but a replacement of the same length is the same file. */
  predicate AnswersResume(l: Local, file: bytes, looked: int, r: Restart) {
    && (|r.file| == |file| ==> r.file == file)
    && |r.file| <= MAX_INT64
    && !r.attempt.statFails && r.attempt.expected == looked
    && (r.attempt.reply.Reply? ==>
         Honest(r.attempt.reply.response, r.file, r.interruptAfter, RangeHeader(|Held(l)|)))
  }

  /** An attempt that reports success has published the provider's file. */
  predicate PublishesOnlyItsFile(l: Local, r: Restart) {
    var e := Attempted(l, r.attempt, r.limit);
    e.outcome.failure.None? ==> e.local.published == Some(r.file)
  }

  /** No attempt made with this looked-up length reports success over anything but the file
      the provider has at the time. */
  ghost predicate SafeUnder(l: Local, file: bytes, looked: int) {
    forall r: Restart | AnswersResume(l, file, looked, r) :: PublishesOnlyItsFile(l, r)
  }

  /** The looked-up length is a snapshot, and may be stale by the time the pull runs.
      Resuming under it is safe exactly when it is current, or is a known length no longer
      than what is held, which no answer can agree with. */
  lemma SafeExactlyWhenCurrentOrShort(l: Local, file: bytes, looked: int)
    requires Held(l) != [] && Held(l) <= file && |file| < MAX_INT64 - 1
    requires looked < MAX_INT64
    ensures SafeUnder(l, file, looked) <==> looked == |file| || 0 < looked <= |Held(l)|
  {
    hide Attempted, Honest, AnswersResume, PublishesOnlyItsFile;
    if looked == |file| || 0 < looked <= |Held(l)| {
      forall r: Restart | AnswersResume(l, file, looked, r)
        ensures PublishesOnlyItsFile(l, r)
      {
        AgreedAnswerIsSafe(l, file, looked, r);
      }
    } else {
      var r := Mixing(l, file, looked);
      MixingPublishesAMix(l, file, looked);
      assert AnswersResume(l, file, looked, r) && !PublishesOnlyItsFile(l, r);
    }
  }

  lemma AgreedAnswerIsSafe(l: Local, file: bytes, looked: int, r: Restart)
    requires Held(l) != [] && Held(l) <= file && |file| < MAX_INT64 - 1
    requires looked == |file| || 0 < looked <= |Held(l)|
    requires AnswersResume(l, file, looked, r)
    ensures PublishesOnlyItsFile(l, r)
  {
    hide Classify, Fetch, BodyOf, Honest, Intended;
    var a, held := r.attempt, |Held(l)|;
    if a.reply.Reply? && Classify(held, a.expected, a.reply.response).Take? {
      TakenIsHonest(a, a.reply.response, held, r.file, r.interruptAfter);
      if r.file == file {
        FetchKeepsPrefix(WithExpected(l, a, |r.file|), a, r.limit, held, r.file, a.reply.response);
      }
    }
  }

  /** A replacement of a length the looked-up one does not rule out, differing from what is
      held in its first byte, answered in full. */
  function Mixing(l: Local, file: bytes, looked: int): Restart
    requires Held(l) != []
  {
    var n := if looked > |Held(l)| then looked else |file| + 1;
    var other: byte := if Held(l)[0] == 0 then 1 else 0;
    var replacement := seq(n, i => other);
    var turns := seq(n + 1, i => Turn(1, Eof, false, None));
    Restart(
      Attempt(looked, Usable, Reply(Intended(replacement, 0, RangeHeader(|Held(l)|))),
              false, false, false, false, false, false, false, turns, NotCancelled, false, false, false, false, 0),
      replacement, 0, n)
  }

  lemma MixingPublishesAMix(l: Local, file: bytes, looked: int)
    requires Held(l) != [] && Held(l) <= file && |file| < MAX_INT64 - 1 && looked < MAX_INT64
    requires looked != |file| && !(0 < looked <= |Held(l)|)
    ensures AnswersResume(l, file, looked, Mixing(l, file, looked))
    ensures !PublishesOnlyItsFile(l, Mixing(l, file, looked))
  {
    hide Copy, ParseContentRange, PrintContentRange, PrintUnsatisfiedRange, Budget, Remaining, Wrap64;
    var r := Mixing(l, file, looked);
    var a, held, n := r.attempt, |Held(l)|, |r.file|;
    var response := a.reply.response;
    IntendedResumed(r.file, 0, held);
    ContentRangeRoundTrip(held, n - 1, n);
    NoWrap(r.limit, held);
    QuietCopy(BodyOf(response, a.turns), Budget(r.limit, held));
    var e := Attempted(l, a, r.limit);
    assert BodyOf(response, a.turns).content == r.file[held..];
    assert r.file[held..][0..][..n - held] == r.file[held..];
    assert e.local.published == Some(Held(l) + r.file[held..]);
    assert e.local.published.value[0] == Held(l)[0] != r.file[0];
  }
}
