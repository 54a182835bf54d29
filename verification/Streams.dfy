/** A response body as a pull reads it: the idle-timeout reader around the network's
    reads, and the bounded copy into the partial file. */
module Streams {
  import opened Prelude

  /** What a read reports beside its bytes. */
  datatype ReadEnd = More | Eof | IdleExpired | Failed

  /** What the environment does at one turn of a copy: how many bytes the network has
      ready, how the read ends, whether the idle timer had already fired by the time the
      reader tries to reset it, and after how many bytes the disk refuses the write. */
  datatype Turn = Turn(ready: nat, end: ReadEnd, timerFired: bool, diskRefusesAfter: Option<nat>)

  /** The state of a body under an idle-timeout reader. content is what arrives;
      complete says it is all the response's framing announced; fired is the reader's
      own sticky flag. */
  datatype Wire = Wire(content: bytes, complete: bool, pos: nat, turns: seq<Turn>, fired: bool)
  {
    predicate Valid() { pos <= |content| }
  }

  datatype ReadResult = ReadResult(wire: Wire, data: bytes, end: ReadEnd)

  /** One read of the underlying body. The end of the body is a clean end only when the
      framing is satisfied; a connection with nothing more to say has failed. */
  function RawRead(w: Wire, max: nat): ReadResult
    requires w.Valid()
  {
    if w.turns == [] then ReadResult(w, [], Failed) else
    var turn := w.turns[0];
    var n := Min(Min(turn.ready, max), |w.content| - w.pos);
    var after := w.(pos := w.pos + n, turns := w.turns[1..]);
    ReadResult(after, w.content[w.pos..w.pos + n],
      if turn.end != Eof then turn.end
      else if after.pos < |w.content| then More
      else if w.complete then Eof
      else Failed)
  }

  /** One read through the idle-timeout reader. */
  function IdleRead(w: Wire, max: nat): ReadResult
    requires w.Valid()
  {
    if w.fired then ReadResult(w, [], IdleExpired) else
    var r := RawRead(w, max);
    if r.data != [] && w.turns[0].timerFired then
      ReadResult(r.wire.(fired := true), r.data, IdleExpired)
    else
      r
  }

  /** No read loses, repeats or reorders a byte, even the one that finds the timer fired;
      and once the reader has fired it never yields another byte nor any other ending. */
  lemma IdleReadKeepsBytes(w: Wire, max: nat)
    requires w.Valid()
    ensures var r := IdleRead(w, max);
      && r.wire.Valid()
      && w.pos <= r.wire.pos <= w.pos + max
      && r.wire.content == w.content
      && r.wire.complete == w.complete
      && r.data == w.content[w.pos..r.wire.pos]
      && (r.end == Eof ==> w.complete && r.wire.pos == |w.content|)
      && (w.fired ==> r.wire.fired && r.data == [] && r.end == IdleExpired)
      && (r.wire.fired ==> r.end == IdleExpired)
  {
  }

  /** How many bytes a read has to give. */
  function Ready(w: Wire, max: nat): nat
    requires w.Valid()
  {
    if w.turns == [] then 0 else Min(w.turns[0].ready, Min(max, |w.content| - w.pos))
  }

  /** A read that gives bytes after the timer has fired is the last: it gives them, and the
      timer's error. One that gives none, or finds the timer running, ends as the network's
      read did: cleanly only at the end of a completely framed body. */
  lemma IdleReadEnds(w: Wire, max: nat)
    requires w.Valid() && !w.fired && w.turns != []
    ensures var r, n, turn := IdleRead(w, max), Ready(w, max), w.turns[0];
      && |r.data| == n && r.wire.turns == w.turns[1..]
      && (r.wire.fired <==> n > 0 && turn.timerFired)
      && r.end ==
           if n > 0 && turn.timerFired then IdleExpired
           else if turn.end != Eof then turn.end
           else if w.pos + n < |w.content| then More
           else if w.complete then Eof
           else Failed
  {
  }

  /** The body of a response and the reads the network makes of it. */
  class Body {
    const content: bytes
    const complete: bool
    var pos: nat
    var turns: seq<Turn>

    constructor (content: bytes, complete: bool, turns: seq<Turn>)
      ensures this.content == content && this.complete == complete
      ensures this.turns == turns && pos == 0
    {
      this.content, this.complete, this.turns := content, complete, turns;
      pos := 0;
    }

    ghost function State(fired: bool): Wire
      reads this
    {
      Wire(content, complete, pos, turns, fired)
    }

    method Read(max: nat) returns (data: bytes, end: ReadEnd)
      requires pos <= |content|
      modifies this
      ensures RawRead(old(State(false)), max) == ReadResult(State(false), data, end)
    {
      if turns == [] {
        return [], Failed;
      }
      var turn := turns[0];
      var n := Min(Min(turn.ready, max), |content| - pos);
      data := content[pos..pos + n];
      pos, turns := pos + n, turns[1..];
      end := turn.end;
      if end == Eof {
        end := if pos < |content| then More else if complete then Eof else Failed;
      }
    }
  }

  /** The reader a pull wraps its response body in. */
  class IdleTimeoutReader {
    const r: Body
    var fired: bool

    constructor (r: Body)
      ensures this.r == r && !fired
    {
      this.r := r;
      fired := false;
    }

    ghost function State(): Wire
      reads this, r
    {
      r.State(fired)
    }

    method Read(max: nat) returns (data: bytes, end: ReadEnd)
      requires State().Valid()
      modifies this, r
      ensures IdleRead(old(State()), max) == ReadResult(State(), data, end)
      ensures State().Valid()
    {
      if fired {
        return [], IdleExpired;
      }
      var timerFired := r.turns != [] && r.turns[0].timerFired;
      data, end := r.Read(max);
      if data != [] {
        if timerFired {
          fired := true;
          end := IdleExpired;
        }
      }
    }
  }

  // ----- the bounded copy into the partial file -----

  /** The standard copy's buffer. */
  const COPY_BUFFER: nat := 32 * 1024

  /** How a copy ended: without an error, or on one. */
  datatype CopyEnd = Copied | Stopped(end: ReadEnd)

  datatype CopyResult = CopyResult(written: bytes, end: CopyEnd)

  /** What one turn of the copy loop leaves: the bytes that reached the file, the state of
      the body, and whether the loop goes on. */
  datatype CopyTurn = CopyTurn(written: bytes, wire: Wire, end: Option<CopyEnd>)

  /** One turn of the copy loop: a read within the budget, then the write of what was read. */
  function TakeTurn(w: Wire, budget: int): CopyTurn
    requires w.Valid() && budget > 0
  {
    var r := IdleRead(w, Min(COPY_BUFFER, budget));
    if r.data != [] && w.turns[0].diskRefusesAfter.Some? then
      CopyTurn(r.data[..Min(w.turns[0].diskRefusesAfter.value, |r.data|)], r.wire, Some(Stopped(Failed)))
    else
      CopyTurn(r.data, r.wire,
        if r.end == More then None else if r.end == Eof then Some(Copied) else Some(Stopped(r.end)))
  }

  lemma TakeTurnKeepsBytes(w: Wire, budget: int)
    requires w.Valid() && budget > 0
    ensures var t := TakeTurn(w, budget);
      && t.wire.Valid()
      && t.wire.content == w.content && t.wire.complete == w.complete
      && |t.written| <= budget
      && t.written <= w.content[w.pos..]
      && (t.end.None? ==> t.wire.pos == w.pos + |t.written| && |t.wire.turns| < |w.turns|)
      && (t.end == Some(Copied) ==> w.complete && w.pos + |t.written| == |w.content|)
  {
    var max := Min(COPY_BUFFER, budget);
    var r := IdleRead(w, max);
    IdleReadKeepsBytes(w, max);
    assert r.data <= w.content[w.pos..];
    assert TakeTurn(w, budget).written <= r.data;
  }

  /** A turn writes every byte it read unless the disk refuses some, and that ends the copy
      with an error; a read that ended with an error does too, one at the end of the body
      without, and after any other the copy goes on. */
  lemma TurnEnds(w: Wire, budget: int)
    requires w.Valid() && budget > 0 && !w.fired && w.turns != []
    ensures var t, turn := TakeTurn(w, budget), w.turns[0];
      var n := Ready(w, Min(32 * 1024, budget));
      var refused := n > 0 && turn.diskRefusesAfter.Some?;
      && t.written == w.content[w.pos..w.pos + if refused then Min(turn.diskRefusesAfter.value, n) else n]
      && t.end ==
           if refused then Some(Stopped(Failed))
           else if n > 0 && turn.timerFired then Some(Stopped(IdleExpired))
           else if turn.end == Eof && w.pos + n < |w.content| then None
           else if turn.end == Eof then Some(if w.complete then Copied else Stopped(Failed))
           else if turn.end == More then None
           else Some(Stopped(turn.end))
  {
    var r := IdleRead(w, Min(32 * 1024, budget));
    IdleReadEnds(w, Min(32 * 1024, budget));
    IdleReadKeepsBytes(w, Min(32 * 1024, budget));
    assert r.data == w.content[w.pos..w.pos + |r.data|];
  }

  /** A copy ends at its first turn that ends it: what comes after does not matter. */
  lemma {:induction false} CopyEndsThere(w: Wire, budget: int, more: seq<Turn>)
    requires w.Valid() && Copy(w, budget).end != Stopped(Failed)
    ensures Copy(w.(turns := w.turns + more), budget) == Copy(w, budget)
    decreases |w.turns|
  {
    hide TakeTurn;
    if budget <= 0 {
    } else {
      var longer := w.(turns := w.turns + more);
      TurnsBeyond(w, budget, more);
      var t := TakeTurn(w, budget);
      TakeTurnKeepsBytes(w, budget);
      if t.end.None? {
        CopyEndsThere(t.wire, budget - |t.written|, more);
      }
    }
  }

  /** A turn looks at no turn after it. */
  lemma TurnsBeyond(w: Wire, budget: int, more: seq<Turn>)
    requires w.Valid() && budget > 0 && TakeTurn(w, budget).end != Some(Stopped(Failed))
    ensures var longer := w.(turns := w.turns + more);
      var t := TakeTurn(w, budget);
      TakeTurn(longer, budget) == CopyTurn(t.written, t.wire.(turns := t.wire.turns + more), t.end)
  {
    if !w.fired && w.turns != [] {
      assert (w.turns + more)[1..] == w.turns[1..] + more;
    }
  }

  /** Copying at most budget bytes of w: what reaches the file, and how it ends. */
  function Copy(w: Wire, budget: int): CopyResult
    requires w.Valid()
    decreases |w.turns|
  {
    if budget <= 0 then CopyResult([], Copied) else
    var t := TakeTurn(w, budget);
    TakeTurnKeepsBytes(w, budget);
    match t.end
    case Some(end) => CopyResult(t.written, end)
    case None =>
      var rest := Copy(t.wire, budget - |t.written|);
      CopyResult(t.written + rest.written, rest.end)
  }

  /** What any copy writes is the next stretch of the body, within the budget; and a copy
      that ends without an error either filled its budget or reached the true end of a
      completely framed body. */
  lemma {:induction false} CopyWritesAPrefix(w: Wire, budget: int)
    requires w.Valid()
    ensures var c := Copy(w, budget);
      && |c.written| <= Max(budget, 0)
      && c.written <= w.content[w.pos..]
      && (c.end == Copied ==> |c.written| == Max(budget, 0) || (w.complete && w.pos + |c.written| == |w.content|))
    decreases |w.turns|
  {
    hide TakeTurn;
    if budget <= 0 {
    } else {
      var t := TakeTurn(w, budget);
      TakeTurnKeepsBytes(w, budget);
      if t.end.None? {
        CopyWritesAPrefix(t.wire, budget - |t.written|);
        assert w.content[w.pos..] == t.written + t.wire.content[t.wire.pos..];
      }
    }
  }

  /** The body of the copy loop: one read, one write. */
  method CopyOnce(body: IdleTimeoutReader, left: int) returns (written: bytes, end: Option<CopyEnd>)
    requires body.State().Valid() && left > 0
    modifies body, body.r
    ensures body.State().Valid()
    ensures TakeTurn(old(body.State()), left) == CopyTurn(written, body.State(), end)
  {
    var refusesAfter := if body.r.turns == [] then None else body.r.turns[0].diskRefusesAfter;
    var data, readEnd := body.Read(Min(COPY_BUFFER, left));
    if data != [] && refusesAfter.Some? {
      return data[..Min(refusesAfter.value, |data|)], Some(Stopped(Failed));
    }
    written := data;
    end := if readEnd == More then None else if readEnd == Eof then Some(Copied) else Some(Stopped(readEnd));
  }

  /** written has been copied so far, and the whole copy is that and then the copy from w. */
  ghost predicate SoFar(whole: CopyResult, written: bytes, w: Wire, left: int)
    requires w.Valid()
  {
    whole == CopyResult(written + Copy(w, left).written, Copy(w, left).end)
  }

  lemma SoFarStep(whole: CopyResult, written: bytes, w: Wire, left: int)
    requires w.Valid() && left > 0 && SoFar(whole, written, w, left)
    ensures var t := TakeTurn(w, left);
      && t.wire.Valid()
      && (t.end.Some? ==> whole == CopyResult(written + t.written, t.end.value))
      && (t.end.None? ==> |t.wire.turns| < |w.turns| && SoFar(whole, written + t.written, t.wire, left - |t.written|))
  {
    hide TakeTurn;
    var t := TakeTurn(w, left);
    TakeTurnKeepsBytes(w, left);
    Concatenated(written, t.written, if t.end.None? then Copy(t.wire, left - |t.written|).written else []);
  }

  lemma Concatenated<T>(a: seq<T>, b: seq<T>, c: seq<T>)
    ensures (a + b) + c == a + (b + c)
  {
  }

  /** The copy loop: read through the idle-timeout reader into a bounded buffer, append
      what was read to the file, stop at the budget, the end of the body or an error. */
  method CopyToFile(body: IdleTimeoutReader, file: bytes, budget: int) returns (file': bytes, n: nat, end: CopyEnd)
    requires body.State().Valid()
    modifies body, body.r
    ensures file' == file + Copy(old(body.State()), budget).written
    ensures n == |file'| - |file|
    ensures end == Copy(old(body.State()), budget).end
  {
    hide TakeTurn, IdleRead;
    ghost var whole := Copy(body.State(), budget);
    ghost var written: bytes := [];
    file', n := file, 0;
    var left := budget;
    assert SoFar(whole, written, body.State(), left);
    while left > 0
      invariant body.State().Valid()
      invariant file' == file + written && n == |written|
      invariant SoFar(whole, written, body.State(), left)
      decreases |body.r.turns|
    {
      SoFarStep(whole, written, body.State(), left);
      var data, ended := CopyOnce(body, left);
      file', n, left := file' + data, n + |data|, left - |data|;
      written := written + data;
      if ended.Some? {
        return file', n, ended.value;
      }
    }
    end := Copied;
  }
}
