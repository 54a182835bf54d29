/** The provider's data endpoint: which requests it serves, which bytes it answers with,
    and the copy loop that sends them. */
module DataPlane {
  import opened Prelude
  import opened Headers
  import opened Storage
  import opened Configuration

  // ----- the response -----

  datatype WireEvent = Deadline | Chunk(data: bytes) | Document

  function Chunks(log: seq<WireEvent>): bytes {
    if log == [] then [] else
    var last := log[|log| - 1];
    Chunks(log[..|log| - 1]) + if last.Chunk? then last.data else []
  }

  /** A response as its reader sees it; contentRange is empty and contentLength absent when
      the header is. body holds dataset bytes only, not the text of an error document. */
  datatype Response = Response(status: int, contentRange: string, contentLength: Option<int>, body: bytes)

  /** The header fields a handler sets, empty or absent until then. */
  datatype Header = Header(contentLength: Option<string>, contentRange: string, contentType: string)

  const NO_HEADER := Header(None, "", "")

  /** What a reader makes of a status, a header and the bytes that followed. */
  function Received(status: int, header: Header, body: bytes): Response {
    Response(status, header.contentRange,
      if header.contentLength.Some? then ParseInt64(header.contentLength.value) else None, body)
  }

  /** The server's end of a response: the first write, flush or explicit status sends the
      header as it stands, and a handler that returns without any of the three sends 200. */
  class ResponseWriter {
    var header: Header
    var sent: Option<(int, Header)>
    var log: seq<WireEvent>
    var severed: bool

    constructor ()
      ensures header == NO_HEADER && sent == None && log == [] && !severed
    {
      header, sent, log, severed := NO_HEADER, None, [], false;
    }

    ghost function View(): Response
      reads this
    {
      if sent.Some? then Received(sent.value.0, sent.value.1, Chunks(log)) else Received(200, header, Chunks(log))
    }

    method WriteHeader(status: int)
      modifies this`sent
      ensures sent == if old(sent).Some? then old(sent) else Some((status, header))
    {
      if sent.None? {
        sent := Some((status, header));
      }
    }

    method SetWriteDeadline()
      modifies this`log
      ensures log == old(log) + [Deadline] && Chunks(log) == Chunks(old(log))
    {
      log := log + [Deadline];
    }

    /** A write the network accepts the first part of. */
    method Write(data: bytes, accepted: nat)
      requires accepted <= |data|
      modifies this`sent, this`log
      ensures sent == if old(sent).Some? then old(sent) else Some((200, header))
      ensures log == old(log) + [Chunk(data[..accepted])] && Chunks(log) == Chunks(old(log)) + data[..accepted]
    {
      WriteHeader(200);
      log := log + [Chunk(data[..accepted])];
    }

    method WriteError(status: int)
      modifies this`header, this`sent, this`log
      ensures header == old(header).(contentType := "application/json")
      ensures sent == if old(sent).Some? then old(sent) else Some((status, header))
      ensures log == old(log) + [Document] && Chunks(log) == Chunks(old(log))
    {
      header := header.(contentType := "application/json");
      WriteHeader(status);
      log := log + [Document];
    }
  }

  // ----- the copy loop -----

  const SEND_BUFFER: nat := 256 * 1024

  datatype SourceEnd = NoError | EndOfFile | ReadError

  /** What the environment does at one turn: whether the deadline can be set, how many
      bytes the source has ready and how its read ends, and how the write goes. */
  datatype SendTurn = SendTurn(deadlineFails: bool, ready: nat, end: SourceEnd, accepted: nat, writeFails: bool)

  /** A turn nothing goes wrong in: some byte is ready, the write takes all it is given,
      and the source reports its end when it is reached. */
  predicate Healthy(turn: SendTurn) {
    !turn.deadlineFails && turn.ready > 0 && turn.end == EndOfFile && turn.accepted >= SEND_BUFFER && !turn.writeFails
  }

  datatype SendEnd = Sent | DeadlineFailed | SourceFailed | WriteFailed | ShortWrite | Unfinished

  ghost predicate DeadlineBeforeEveryChunk(log: seq<WireEvent>, start: nat) {
    forall i | start <= i < |log| && log[i].Chunk? :: start < i && log[i - 1].Deadline?
  }

  lemma ArmedWrite(log: seq<WireEvent>, start: nat, chunk: WireEvent)
    requires start <= |log| && DeadlineBeforeEveryChunk(log, start)
    ensures DeadlineBeforeEveryChunk(log + [Deadline], start)
    ensures DeadlineBeforeEveryChunk(log + [Deadline] + [chunk], start)
  {
    var armed := log + [Deadline];
    assert forall i | start <= i < |armed| && armed[i].Chunk? :: i < |log| && log[i - 1] == armed[i - 1];
    var sent := armed + [chunk];
    assert forall i | start <= i < |sent| && sent[i].Chunk? && i < |armed| :: sent[i - 1] == armed[i - 1];
  }

  /** How one turn of the copy loop ends: the write's outcome, then the read's. */
  function TurnEnd(turn: SendTurn, n: nat, atEnd: bool): Option<SendEnd> {
    if n > 0 && turn.writeFails then Some(WriteFailed)
    else if n > 0 && turn.accepted < n then Some(ShortWrite)
    else if turn.end == EndOfFile && atEnd then Some(Sent)
    else if turn.end == ReadError then Some(SourceFailed)
    else None
  }

  /** What the copy loop sends of rest over these turns, and how it ends. */
  datatype Sending = Sending(total: nat, end: SendEnd)

  function Sends(rest: bytes, turns: seq<SendTurn>): (r: Sending)
    ensures r.total <= |rest|
    decreases |turns|
  {
    if turns == [] then Sending(0, Unfinished)
    else if turns[0].deadlineFails then Sending(0, DeadlineFailed)
    else
      var n := Min(Min(turns[0].ready, SEND_BUFFER), |rest|);
      var written := if n > 0 then Min(turns[0].accepted, n) else 0;
      var end := TurnEnd(turns[0], n, n == |rest|);
      if end.Some? then Sending(written, end.value)
      else
        var later := Sends(rest[written..], turns[1..]);
        Sending(written + later.total, later.end)
  }

  /** A turn whose deadline cannot be set or whose read fails is the last, whatever would
      come after it. */
  lemma {:induction false} NothingAfterAFailure(rest: bytes, turns: seq<SendTurn>, j: nat)
    requires j < |turns| && (turns[j].deadlineFails || turns[j].end == ReadError)
    ensures Sends(rest, turns) == Sends(rest, turns[..j + 1]) && Sends(rest, turns).end != Unfinished
    decreases j
  {
    var first := turns[..j + 1];
    assert first[0] == turns[0];
    if j == 0 {
    } else {
      var n := Min(Min(turns[0].ready, SEND_BUFFER), |rest|);
      var written := if n > 0 then Min(turns[0].accepted, n) else 0;
      assert first[1..] == turns[1..][..j];
      NothingAfterAFailure(rest[written..], turns[1..], j - 1);
    }
  }

  /** So is a write that fails or falls short, and no other write ends the copy: a whole one
      that sends the last byte ends it well if the source says it was the last. */
  lemma AWriteEnds(rest: bytes, turns: seq<SendTurn>)
    requires rest != [] && turns != [] && !turns[0].deadlineFails && turns[0].ready > 0
    ensures var turn, n := turns[0], Min(Min(turns[0].ready, 256 * 1024), |rest|);
      if turn.writeFails then Sends(rest, turns) == Sending(Min(turn.accepted, n), WriteFailed)
      else if turn.accepted < n then Sends(rest, turns) == Sending(turn.accepted, ShortWrite)
      else if turn.end == EndOfFile && n == |rest| then Sends(rest, turns) == Sending(n, Sent)
      else if turn.end == ReadError then Sends(rest, turns) == Sending(n, SourceFailed)
      else Sends(rest, turns) == Sending(n + Sends(rest[n..], turns[1..]).total, Sends(rest[n..], turns[1..]).end)
  {
  }

  /** This is how the turn goes, whatever turns come after it. */
  ghost predicate OneTurn(rest: bytes, turn: SendTurn, written: nat, end: Option<SendEnd>) {
    && written <= |rest|
    && forall more: seq<SendTurn> ::
         var later := Sends(rest[written..], more);
         Sends(rest, [turn] + more) ==
           if end.Some? then Sending(written, end.value) else Sending(written + later.total, later.end)
  }

  lemma TurnGoes(rest: bytes, turn: SendTurn)
    ensures
      if turn.deadlineFails then OneTurn(rest, turn, 0, Some(DeadlineFailed))
      else
        var n := Min(Min(turn.ready, SEND_BUFFER), |rest|);
        OneTurn(rest, turn, if n > 0 then Min(turn.accepted, n) else 0, TurnEnd(turn, n, n == |rest|))
  {
    hide TurnEnd;
    assert forall more: seq<SendTurn> :: ([turn] + more)[0] == turn && ([turn] + more)[1..] == more;
  }

  /** total has been sent in the first i turns, and the rest is still to come. */
  ghost predicate SentSoFar(src: bytes, turns: seq<SendTurn>, i: nat, total: nat) {
    && i <= |turns| && total <= |src|
    && var later := Sends(src[total..], turns[i..]);
       Sends(src, turns) == Sending(total + later.total, later.end)
  }

  lemma SentStep(src: bytes, turns: seq<SendTurn>, i: nat, total: nat, written: nat, end: Option<SendEnd>)
    requires i < |turns| && SentSoFar(src, turns, i, total)
    requires total <= |src| && OneTurn(src[total..], turns[i], written, end)
    ensures end.Some? ==> Sends(src, turns) == Sending(total + written, end.value)
    ensures end.None? ==> SentSoFar(src, turns, i + 1, total + written)
  {
    hide Sends;
    assert turns[i..] == [turns[i]] + turns[i + 1..];
    assert src[total..][written..] == src[total + written..];
  }

  lemma SentAtFirst(src: bytes, turns: seq<SendTurn>)
    ensures SentSoFar(src, turns, 0, 0)
  {
    hide Sends;
    assert src[0..] == src && turns[0..] == turns;
  }

  lemma SentAtLast(src: bytes, turns: seq<SendTurn>, total: nat)
    requires SentSoFar(src, turns, |turns|, total)
    ensures Sends(src, turns) == Sending(total, Unfinished)
  {
    assert turns[|turns|..] == [];
  }

  /** One turn of the copy loop: arm the deadline, read, write. */
  method SendOnce(w: ResponseWriter, rest: bytes, turn: SendTurn) returns (written: nat, end: Option<SendEnd>)
    modifies w`log, w`sent
    ensures written <= |rest| && Chunks(w.log) == Chunks(old(w.log)) + rest[..written]
    ensures end == Some(Sent) ==> written == |rest|
    ensures OneTurn(rest, turn, written, end)
    ensures Healthy(turn) ==> end == Some(Sent) || (end == None && written > 0)
    ensures exists added :: w.log == old(w.log) + added && Armed(added)
    ensures w.sent == if old(w.sent).Some? then old(w.sent) else if w.sent.Some? then Some((200, w.header)) else None
  {
    hide Sends;
    TurnGoes(rest, turn);
    written := 0;
    if turn.deadlineFails {
      assert w.log == old(w.log) + [] && Armed([]);
      return 0, Some(DeadlineFailed);
    }
    w.SetWriteDeadline();
    assert w.log == old(w.log) + [Deadline] && Armed([Deadline]);
    var n := Min(Min(turn.ready, SEND_BUFFER), |rest|);
    if n > 0 {
      var data := rest[..n];
      written := Min(turn.accepted, n);
      w.Write(data, written);
      assert data[..written] == rest[..written];
      assert w.log == old(w.log) + [Deadline, Chunk(data[..written])] && Armed([Deadline, Chunk(data[..written])]);
    }
    end := TurnEnd(turn, n, n == |rest|);
  }

  ghost predicate Armed(added: seq<WireEvent>) {
    added == [] || added == [Deadline] || (|added| == 2 && added[0] == Deadline && added[1].Chunk?)
  }

  lemma ArmedKeeps(log: seq<WireEvent>, start: nat, added: seq<WireEvent>)
    requires start <= |log| && DeadlineBeforeEveryChunk(log, start) && Armed(added)
    ensures DeadlineBeforeEveryChunk(log + added, start)
  {
    if |added| == 2 {
      ArmedWrite(log, start, added[1]);
      assert log + added == log + [Deadline] + [added[1]];
    } else if |added| == 1 {
      ArmedWrite(log, start, Deadline);
    } else {
      assert log + added == log;
    }
  }

  /** The copy loop. Whatever the source, the network and the deadline do, the response
      gains a prefix of the source, every write is preceded by a fresh deadline, and the
      loop reports success only when the whole source is written. */
  method CopyUnderRollingDeadline(w: ResponseWriter, src: bytes, turns: seq<SendTurn>)
    returns (total: nat, end: SendEnd)
    modifies w`log, w`sent
    ensures total <= |src| && Chunks(w.log) == Chunks(old(w.log)) + src[..total]
    ensures Sending(total, end) == Sends(src, turns)
    ensures end == Sent ==> total == |src|
    ensures |turns| > |src| && (forall turn | turn in turns :: Healthy(turn)) ==> end == Sent
    ensures old(w.log) <= w.log && DeadlineBeforeEveryChunk(w.log, |old(w.log)|)
    ensures w.sent == if old(w.sent).Some? then old(w.sent) else if w.sent.Some? then Some((200, w.header)) else None
  {
    hide Sends, SentSoFar, OneTurn;
    SentAtFirst(src, turns);
    total := 0;
    for i := 0 to |turns|
      invariant total <= |src| && Chunks(w.log) == Chunks(old(w.log)) + src[..total]
      invariant (forall turn | turn in turns :: Healthy(turn)) ==> i <= total
      invariant SentSoFar(src, turns, i, total)
      invariant old(w.log) <= w.log && DeadlineBeforeEveryChunk(w.log, |old(w.log)|)
      invariant w.sent == if old(w.sent).Some? then old(w.sent) else if w.sent.Some? then Some((200, w.header))
        else None
    {
      ghost var log := w.log;
      var written, ended := SendOnce(w, src[total..], turns[i]);
      ghost var added :| w.log == log + added && Armed(added);
      ArmedKeeps(log, |old(w.log)|, added);
      assert src[..total] + src[total..][..written] == src[..total + written];
      SentStep(src, turns, i, total, written, ended);
      total := total + written;
      if ended.Some? {
        return total, ended.value;
      }
    }
    SentAtLast(src, turns, total);
    end := Unfinished;
  }

  // ----- which requests are served -----

  /** A data request: the transfer it names, the authenticated issuer, the Range header. */
  datatype DataRequest = DataRequest(pid: string, issuer: string, range: string)

  /** What the environment contributes: failures of storage and of the file system, the
      time, the dataset's file, and the turns of the copy. */
  datatype ServeEnv = ServeEnv(
    getTransferFails: bool, getAgreementFails: bool, now: int,
    openFails: bool, statFails: bool, seekFails: bool, file: bytes, turns: seq<SendTurn>)

  /** Nothing goes wrong while the response is sent, and there are turns enough to send it. */
  predicate Flows(env: ServeEnv) {
    |env.turns| > |env.file| && forall turn | turn in env.turns :: Healthy(turn)
  }

  /** The dataset behind an agreement this connector may serve as provider. */
  function DatasetFor(agreements: map<string, Agreement>, cfg: Config, id: string, fails: bool): Option<Dataset> {
    if fails || id !in agreements || !ServableAsProvider(agreements[id]) then None
    else FindDataset(cfg.datasets, agreements[id].dataset)
  }

  datatype Verdict = Refused(status: int) | Granted(dataset: Dataset)

  /** The checks, in the order they are made. */
  function Authorize(transfers: map<string, TransferProcess>, agreements: map<string, Agreement>,
      cfg: Config, req: DataRequest, env: ServeEnv): Verdict {
    if env.getTransferFails then Refused(500)
    else if req.pid !in transfers then Refused(404)
    else
      var t := transfers[req.pid];
      if cfg.authRequired && req.issuer != t.counterparty then Refused(403)
      else if t.state != Started then Refused(409)
      else
        match DatasetFor(agreements, cfg, t.agreement, env.getAgreementFails)
        case None => Refused(409)
        case Some(ds) =>
          if !IsValid(ds, env.now) then Refused(409)
          else if ds.sourceFile == "" then Refused(409)
          else if env.openFails || env.statFails then Refused(500)
          else Granted(ds)
  }

  /** What the tables and the configuration must say for a request to be served: its
      transfer exists and, with authentication on, is with the participant who asks; it is
      STARTED; its agreement is on record and not one accepted as consumer; and the dataset
      is configured, valid now and has a file. */
  ghost predicate MayServe(transfers: map<string, TransferProcess>, agreements: map<string, Agreement>,
      cfg: Config, req: DataRequest, now: int) {
    && req.pid in transfers
    && var t := transfers[req.pid];
       && (cfg.authRequired ==> req.issuer == t.counterparty)
       && t.state == Started
       && t.agreement in agreements
       && agreements[t.agreement].origin != Origin.Agreed
       && exists i: nat ::
            && FirstDataset(cfg.datasets, agreements[t.agreement].dataset, i)
            && (cfg.datasets[i].validityUntil.None? || now < cfg.datasets[i].validityUntil.value)
            && cfg.datasets[i].sourceFile != ""
  }

  /** A request is granted exactly if it may be served and nothing fails; 403 is another
      participant's transfer, 404 no transfer, 500 a failure, and 409 anything else. */
  lemma AuthorizeExactly(transfers: map<string, TransferProcess>, agreements: map<string, Agreement>,
      cfg: Config, req: DataRequest, env: ServeEnv)
    ensures var v := Authorize(transfers, agreements, cfg, req, env);
      var others := req.pid in transfers && cfg.authRequired && req.issuer != transfers[req.pid].counterparty;
      var may := MayServe(transfers, agreements, cfg, req, env.now);
      && (v == Refused(404) <==> !env.getTransferFails && req.pid !in transfers)
      && (v == Refused(403) <==> !env.getTransferFails && others)
      && (v == Refused(500) <==>
            env.getTransferFails || (may && !env.getAgreementFails && (env.openFails || env.statFails)))
      && (v.Granted? <==>
            may && !env.getTransferFails && !env.getAgreementFails && !env.openFails && !env.statFails)
      && (v.Refused? ==> v.status in {403, 404, 409, 500})
  {
    if req.pid in transfers && transfers[req.pid].agreement in agreements {
      var id := agreements[transfers[req.pid].agreement].dataset;
      if FindDataset(cfg.datasets, id).Some? {
        FoundIsTheFirst(cfg.datasets, id);
      }
      forall i: nat | FirstDataset(cfg.datasets, id, i)
        ensures FindDataset(cfg.datasets, id) == Some(cfg.datasets[i])
      {
        FindsTheFirst(cfg.datasets, id, i);
      }
    }
  }

  /** The answer a granted request is meant to get: the rest of the file from the offset
      asked for, no such range, the first bytes of a simulated interruption, or the file. */
  function Intended(file: bytes, interruptAfter: nat, range: string): Response {
    match ParseRangeStart(range)
    case Some(start) =>
      if start >= |file| then Response(416, PrintUnsatisfiedRange(|file|), None, [])
      else Response(206, PrintContentRange(start, |file| - 1, |file|), Some(|file| - start), file[start..])
    case None =>
      Response(200, "", Some(|file|), if interruptAfter > 0 then file[..Min(interruptAfter, |file|)] else file)
  }

  /** For every file: an offset within it is answered by the rest of it and headers that say
      so, one at or past its end by its length alone, and a header that is no such range by
      the file, cut off after interruptAfter bytes if that many are configured. */
  lemma IntendedExactly(file: bytes, interruptAfter: nat, start: nat, other: string)
    requires start <= MAX_INT64
    ensures Intended(file, interruptAfter, "bytes=" + Decimal(start) + "-") ==
      if start < |file| then
        Response(206, "bytes " + Decimal(start) + "-" + Decimal(|file| - 1) + "/" + Decimal(|file|),
                 Some(|file| - start), file[start..])
      else Response(416, "bytes */" + Decimal(|file|), None, [])
    ensures (forall n: string :: other == "bytes=" + n + "-" ==> NonNegative(ParseInt64(n)) == None) ==>
      Intended(file, interruptAfter, other) == Response(200, "", Some(|file|),
        if interruptAfter == 0 || interruptAfter >= |file| then file else file[..interruptAfter])
  {
    hide ParseInt64, Decimal;
    RangeRoundTrip(start);
    assert PrintRange(start) == "bytes=" + Decimal(start) + "-";
    if number: string :| other == "bytes=" + number + "-" {
      RangeStartExactly(other, number);
    } else {
      RangeStartExactly(other, "");
    }
    assert file[..|file|] == file;
  }

  /** An answer this data endpoint can give about this file: one of its refusals, or the
      intended answer with a prefix of its bytes. */
  predicate Honest(r: Response, file: bytes, interruptAfter: nat, range: string) {
    || r.status in {403, 404, 409, 500}
    || (var intended := Intended(file, interruptAfter, range);
        r == intended.(body := r.body) && r.body <= intended.body)
  }

  /** The view of a response whose intended form is known: its status and header are the
      intended ones, its bytes a prefix of the intended ones, and all of them when nothing
      goes wrong or the audit line says so. */
  ghost predicate Answers(view: Response, audited: Option<nat>, intended: Response, env: ServeEnv) {
    && view == intended.(body := view.body)
    && view.body <= intended.body
    && (Flows(env) ==> view.body == intended.body)
    && (audited.Some? ==> view.body == intended.body && audited.value == |intended.body|)
  }

  /** Serves one data request. A refusal sends no byte of any file and no length. A granted
      request is answered with the intended status and header and a prefix of the intended
      bytes, and the audit line appears only when every one of them was written. */
  method HandleData(store: Store, cfg: Config, req: DataRequest, env: ServeEnv, w: ResponseWriter)
    returns (audited: Option<nat>)
    requires w.header == NO_HEADER && w.sent == None && w.log == []
    requires |env.file| <= MAX_INT64
    modifies w
    ensures var verdict := Authorize(store.transfers, store.agreements, cfg, req, env);
      match verdict
      case Refused(status) => w.View() == Response(status, "", None, []) && audited == None
      case Granted(ds) =>
        var intended := Intended(env.file, ds.interruptAfter, req.range);
        if intended.status == 206 && env.seekFails then w.View() == Response(500, "", None, []) && audited == None
        else Answers(w.View(), audited, intended, env)
    ensures var verdict := Authorize(store.transfers, store.agreements, cfg, req, env);
      Honest(w.View(), env.file, if verdict.Granted? then verdict.dataset.interruptAfter else 0, req.range)
    ensures DeadlineBeforeEveryChunk(w.log, 0)
    ensures w.View().body != [] || w.View().status in {200, 206, 416} ==>
      MayServe(store.transfers, store.agreements, cfg, req, env.now)
    ensures
      && MayServe(store.transfers, store.agreements, cfg, req, env.now)
      && !env.getTransferFails && !env.getAgreementFails && !env.openFails && !env.statFails && !env.seekFails
      ==> w.View().status in {200, 206, 416}
    ensures w.View().status == 403 <==>
      !env.getTransferFails && req.pid in store.transfers && cfg.authRequired
      && req.issuer != store.transfers[req.pid].counterparty
    ensures w.View().status == 404 <==> !env.getTransferFails && req.pid !in store.transfers
  {
    hide MayServe;
    AuthorizeExactly(store.transfers, store.agreements, cfg, req, env);
    var granted := CheckRequest(store, cfg, req, env, w);
    if granted.None? {
      return None;
    }
    var ds := granted.value;
    ParseInt64OfDecimal(|env.file|);
    w.header := w.header.(contentLength := Some(Decimal(|env.file|)));
    var start := ParseRangeStart(req.range);
    if start.Some? {
      audited := SendRange(start.value, env, w);
    } else if ds.interruptAfter > 0 {
      SendInterrupted(ds.interruptAfter, env, w);
      audited := None;
    } else {
      audited := SendWhole(env, w);
    }
  }

  /** The handler up to the open file: every refusal writes its own status. */
  method CheckRequest(store: Store, cfg: Config, req: DataRequest, env: ServeEnv, w: ResponseWriter)
    returns (granted: Option<Dataset>)
    requires w.header == NO_HEADER && w.sent == None && w.log == []
    modifies w
    ensures match Authorize(store.transfers, store.agreements, cfg, req, env)
      case Refused(status) => granted == None && w.View() == Response(status, "", None, [])
      case Granted(ds) => granted == Some(ds) && w.header == NO_HEADER && w.sent == None && w.log == []
    ensures DeadlineBeforeEveryChunk(w.log, 0)
  {
    granted := None;
    if env.getTransferFails {
      w.WriteHeader(500);
      return;
    }
    if req.pid !in store.transfers {
      w.WriteError(404);
      return;
    }
    var t := store.transfers[req.pid];
    if cfg.authRequired && req.issuer != t.counterparty {
      w.WriteError(403);
      return;
    }
    if t.state != Started {
      w.WriteError(409);
      return;
    }
    var found := DatasetFor(store.agreements, cfg, t.agreement, env.getAgreementFails);
    if found.None? {
      w.WriteError(409);
      return;
    }
    if !IsValid(found.value, env.now) {
      w.WriteError(409);
      return;
    }
    if found.value.sourceFile == "" {
      w.WriteError(409);
      return;
    }
    if env.openFails {
      w.WriteHeader(500);
      return;
    }
    if env.statFails {
      w.WriteHeader(500);
      return;
    }
    granted := found;
  }

  /** The range branch: 416, a failed seek, or the rest of the file. */
  method SendRange(start: nat, env: ServeEnv, w: ResponseWriter) returns (audited: Option<nat>)
    requires w.header == Header(Some(Decimal(|env.file|)), "", "") && w.sent == None && w.log == []
    requires |env.file| <= MAX_INT64
    modifies w
    ensures if start >= |env.file| then
        w.View() == Response(416, PrintUnsatisfiedRange(|env.file|), None, []) && audited == None
      else if env.seekFails then w.View() == Response(500, "", None, []) && audited == None
      else Answers(w.View(), audited, Response(206, PrintContentRange(start, |env.file| - 1, |env.file|),
             Some(|env.file| - start), env.file[start..]), env)
    ensures DeadlineBeforeEveryChunk(w.log, 0)
  {
    hide ParseInt64, Decimal, PrintContentRange, PrintUnsatisfiedRange;
    audited := None;
    var size := |env.file|;
    if start >= size {
      w.header := w.header.(contentLength := None);
      w.header := w.header.(contentRange := PrintUnsatisfiedRange(size));
      w.WriteError(416);
      return;
    }
    if env.seekFails {
      w.header := w.header.(contentLength := None);
      w.WriteHeader(500);
      return;
    }
    ParseInt64OfDecimal(size - start);
    w.header := w.header.(contentRange := PrintContentRange(start, size - 1, size));
    w.header := w.header.(contentLength := Some(Decimal(size - start)));
    w.header := w.header.(contentType := "application/octet-stream");
    w.WriteHeader(206);
    var n, end := CopyUnderRollingDeadline(w, env.file[start..], env.turns);
    if end == Sent {
      audited := Some(n);
    }
  }

  /** The simulated interruption: the first bytes, flushed, then a severed connection. */
  method SendInterrupted(after: nat, env: ServeEnv, w: ResponseWriter)
    requires w.header == Header(Some(Decimal(|env.file|)), "", "") && w.sent == None && w.log == []
    requires |env.file| <= MAX_INT64 && after > 0
    modifies w
    ensures Answers(w.View(), None, Response(200, "", Some(|env.file|), env.file[..Min(after, |env.file|)]), env)
    ensures DeadlineBeforeEveryChunk(w.log, 0) && w.severed
  {
    hide ParseInt64, Decimal;
    ParseInt64OfDecimal(|env.file|);
    var _, _ := CopyUnderRollingDeadline(w, env.file[..Min(after, |env.file|)], env.turns);
    w.WriteHeader(200);
    w.severed := true;
  }

  /** The whole file. */
  method SendWhole(env: ServeEnv, w: ResponseWriter) returns (audited: Option<nat>)
    requires w.header == Header(Some(Decimal(|env.file|)), "", "") && w.sent == None && w.log == []
    requires |env.file| <= MAX_INT64
    modifies w
    ensures Answers(w.View(), audited, Response(200, "", Some(|env.file|), env.file), env)
    ensures DeadlineBeforeEveryChunk(w.log, 0)
  {
    hide ParseInt64, Decimal;
    audited := None;
    ParseInt64OfDecimal(|env.file|);
    w.header := w.header.(contentType := "application/octet-stream");
    var n, end := CopyUnderRollingDeadline(w, env.file, env.turns);
    if end == Sent {
      audited := Some(n);
    }
  }
}
