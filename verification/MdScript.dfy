/** mdscript: the shell script a Markdown document's fenced blocks amount to. */
module MdScript {
  import opened Prelude
  import opened Text

  // ----- fences -----

  const DELIMITER: string := "EOF"

  predicate IsSpaceCharacter(c: char) {
    c == ' '
  }

  predicate IsTick(c: char) {
    c == '`'
  }

  datatype Fence = Fence(run: string, info: string)

  /** A fence is a run of at least three backticks after any spaces, with what follows it. */
  function FenceOf(text: string): Option<Fence> {
    var t := TrimLeft(text, IsSpaceCharacter);
    var n := Leading(t, IsTick);
    if n < 3 then None else Some(Fence(t[..n], TrimSpace(t[n..])))
  }

  /** Of spaces, a run of backticks and a rest that extends neither, exactly a run of three
      or more opens a fence, whatever surrounds it. */
  lemma FenceIsItsRun(spaces: string, run: string, rest: string)
    requires (forall c | c in spaces :: c == ' ') && (forall c | c in run :: c == '`')
    requires rest != "" ==> rest[0] != '`' && (run == "" ==> rest[0] != ' ')
    ensures FenceOf(spaces + run + rest) == if |run| >= 3 then Some(Fence(run, TrimSpace(rest))) else None
  {
    hide TrimSpace;
    var t := run + rest;
    assert spaces + run + rest == spaces + t;
    assert t != "" ==> t[0] == if run != "" then run[0] else rest[0];
    assert run != "" ==> run[0] in run;
    TrimsAll(spaces, t);
    RunIsLeading(run, rest);
    assert t[..|run|] == run && t[|run|..] == rest;
  }

  lemma {:induction false} TrimsAll(spaces: string, t: string)
    requires (forall c | c in spaces :: c == ' ') && (t != "" ==> t[0] != ' ')
    ensures TrimLeft(spaces + t, IsSpaceCharacter) == t
  {
    if spaces == "" {
      assert spaces + t == t;
    } else {
      assert (spaces + t)[0] == spaces[0] && spaces[0] in spaces && (spaces + t)[1..] == spaces[1..] + t;
      assert forall c | c in spaces[1..] :: c in spaces;
      TrimsAll(spaces[1..], t);
    }
  }

  lemma {:induction false} RunIsLeading(run: string, rest: string)
    requires (forall c | c in run :: c == '`') && (rest != "" ==> rest[0] != '`')
    ensures Leading(run + rest, IsTick) == |run|
  {
    if run == "" {
      assert run + rest == rest;
    } else {
      assert (run + rest)[0] == run[0] && run[0] in run && (run + rest)[1..] == run[1..] + rest;
      assert forall c | c in run[1..] :: c in run;
      RunIsLeading(run[1..], rest);
    }
  }

  method OpenFence(text: string) returns (fence: Option<Fence>)
    ensures fence == FenceOf(text)
  {
    var t := TrimLeft(text, IsSpaceCharacter);
    var n := 0;
    while n < |t| && t[n] == '`'
      invariant n <= |t| && Leading(t, IsTick) == n + Leading(t[n..], IsTick)
    {
      assert t[n..][1..] == t[n + 1..];
      n := n + 1;
    }
    if n < 3 {
      return None;
    }
    fence := Some(Fence(t[..n], TrimSpace(t[n..])));
  }

  /** A bare run of backticks at least as long as the run that opened the block. */
  predicate ClosesFence(text: string, run: string) {
    var t := TrimSpace(text);
    t != "" && |t| >= |run| && forall c | c in t :: c == '`'
  }

  // ----- info strings -----

  const EXPAND: string := "expand"
  const TITLE: string := "title="

  datatype Info = Info(lang: string, title: string, expand: bool)

  predicate IsTitle(field: string) {
    TITLE <= field && field != EXPAND
  }

  /** The last title= of an info string's fields. */
  function LastTitle(fields: seq<string>): string {
    if fields == [] then ""
    else
      var last := fields[|fields| - 1];
      if IsTitle(last) then last[|TITLE|..] else LastTitle(fields[..|fields| - 1])
  }

  /** The language is the first field, unless that says something else. */
  function InfoOf(fields: seq<string>): Info {
    Info(if fields == [] || fields[0] == EXPAND || IsTitle(fields[0]) then "" else fields[0], LastTitle(fields),
      EXPAND in fields)
  }

  method ParseInfo(info: string) returns (r: Info)
    ensures r == InfoOf(Fields(info))
  {
    hide Fields;
    var fields := Fields(info);
    var lang, title, expand := "", "", false;
    for i := 0 to |fields|
      invariant Info(lang, title, expand) == InfoOf(fields[..i])
    {
      var f := fields[i];
      assert fields[..i + 1][..i] == fields[..i] && fields[..i + 1][i] == f;
      assert LastTitle(fields[..i + 1]) == if IsTitle(f) then f[|TITLE|..] else LastTitle(fields[..i]);
      if f == EXPAND {
        expand := true;
      } else if TITLE <= f {
        title := f[|TITLE|..];
      } else if i == 0 {
        lang := f;
      }
    }
    assert fields[..|fields|] == fields;
    r := Info(lang, title, expand);
  }

  // ----- blocks -----

  datatype Mode = Skip | Verbatim | LiteralFile | ExpandedFile

  datatype Block = Block(mode: Mode, title: string, body: seq<string>)

  function ModeOf(info: Info): Mode {
    if info.title != "" && info.expand then ExpandedFile
    else if info.title != "" then LiteralFile
    else if info.lang == "sh" then Verbatim
    else Skip
  }

  /** The empty block a fence opens. */
  function Opened(info: string): Block {
    var i := InfoOf(Fields(info));
    Block(ModeOf(i), i.title, [])
  }

  datatype Fault = HoldsDelimiter | EndsInBackslash

  /** Why a line cannot stand in a block, if it cannot. */
  function FaultOf(mode: Mode, line: string): Option<Fault> {
    if mode != LiteralFile && mode != ExpandedFile then None
    else if TrimRight(line, IsBlank) == DELIMITER then Some(HoldsDelimiter)
    else if mode == ExpandedFile && line != "" && line[|line| - 1] == '\\' then Some(EndsInBackslash)
    else None
  }

  /** A document's blocks, or the first line that cannot stand in its block, or that its
      last block is never closed. */
  datatype Parsed = Blocks(blocks: seq<Block>) | Faulty(fault: Fault, line: nat) | Unclosed

  function Before(blocks: seq<Block>, p: Parsed): Parsed {
    if p.Blocks? then Blocks(blocks + p.blocks) else p
  }

  /** The document from line n on, between blocks. */
  function Outside(lines: seq<string>, n: nat): Parsed
    decreases |lines|
  {
    if lines == [] then Blocks([])
    else
      var f := FenceOf(lines[0]);
      if f.None? then Outside(lines[1..], n + 1)
      else Inside(lines[1..], n + 1, f.value.run, Opened(f.value.info))
  }

  /** The document from line n on, in a block opened by run. */
  function Inside(lines: seq<string>, n: nat, run: string, block: Block): Parsed
    decreases |lines|
  {
    if lines == [] then Unclosed
    else if ClosesFence(lines[0], run) then Before([block], Outside(lines[1..], n + 1))
    else
      var fault := FaultOf(block.mode, lines[0]);
      if fault.Some? then Faulty(fault.value, n)
      else Inside(lines[1..], n + 1, run, block.(body := block.body + [lines[0]]))
  }

  /** A block is the lines up to the first that closes its fence, all of them: whatever
      fences of its own it contains, and whatever follows. */
  lemma {:induction false} BlockEndsAtItsFence(lines: seq<string>, n: nat, run: string, block: Block, end: nat)
    requires end < |lines| && ClosesFence(lines[end], run)
    requires forall j | 0 <= j < end :: !ClosesFence(lines[j], run) && FaultOf(block.mode, lines[j]).None?
    ensures Inside(lines, n, run, block)
         == Before([block.(body := block.body + lines[..end])], Outside(lines[end + 1..], n + end + 1))
    decreases end
  {
    hide ClosesFence, FaultOf, Outside;
    if end == 0 {
      assert block.body + lines[..0] == block.body;
    } else {
      var next := block.(body := block.body + [lines[0]]);
      assert lines[1..][end - 1] == lines[end];
      BlockEndsAtItsFence(lines[1..], n + 1, run, next, end - 1);
      assert next.body + lines[1..][..end - 1] == block.body + lines[..end];
      assert lines[1..][end..] == lines[end + 1..];
    }
  }

  /** A document is refused at a line exactly if that is the first line of its block that
      cannot stand there; the block is not closed before it. */
  lemma {:induction false} BlockFailsAtItsFirstFault(lines: seq<string>, n: nat, run: string, block: Block, at: nat)
    requires at < |lines| && !ClosesFence(lines[at], run) && FaultOf(block.mode, lines[at]).Some?
    requires forall j | 0 <= j < at :: !ClosesFence(lines[j], run) && FaultOf(block.mode, lines[j]).None?
    ensures Inside(lines, n, run, block) == Faulty(FaultOf(block.mode, lines[at]).value, n + at)
    decreases at
  {
    hide ClosesFence, FaultOf;
    if at == 0 {
    } else {
      assert lines[1..][at - 1] == lines[at];
      BlockFailsAtItsFirstFault(lines[1..], n + 1, run, block.(body := block.body + [lines[0]]), at - 1);
    }
  }

  // ----- the script -----

  function HeaderLine(name: string): string {
    "# Generated by cmd/mdscript from " + name + ". Do not edit."
  }

  function OpeningLine(b: Block): string {
    "cat > " + b.title + (if b.mode == ExpandedFile then " <<" + DELIMITER else " <<'" + DELIMITER + "'")
  }

  predicate IsFile(b: Block) {
    b.mode == LiteralFile || b.mode == ExpandedFile
  }

  /** What a block has put into the script while it is still open, and once it is closed. */
  function OpenLines(b: Block): seq<string> {
    if b.mode == Skip then []
    else if b.mode == Verbatim then b.body
    else [OpeningLine(b)] + b.body
  }

  function BlockLines(b: Block): seq<string> {
    if IsFile(b) then OpenLines(b) + [DELIMITER] else OpenLines(b)
  }

  function ScriptLines(blocks: seq<Block>): seq<string> {
    if blocks == [] then [] else ScriptLines(blocks[..|blocks| - 1]) + BlockLines(blocks[|blocks| - 1])
  }

  datatype Shape = Shape(commands: nat, files: nat, expansions: nat)

  function Counted(s: Shape, mode: Mode): Shape {
    match mode
    case Skip => s
    case Verbatim => s.(commands := s.commands + 1)
    case LiteralFile => s.(files := s.files + 1)
    case ExpandedFile => s.(files := s.files + 1, expansions := s.expansions + 1)
  }

  function ShapeOf(blocks: seq<Block>): Shape {
    if blocks == [] then Shape(0, 0, 0) else Counted(ShapeOf(blocks[..|blocks| - 1]), blocks[|blocks| - 1].mode)
  }

  lemma OneMoreBlock(blocks: seq<Block>, b: Block, p: Parsed)
    ensures ScriptLines(blocks + [b]) == ScriptLines(blocks) + BlockLines(b)
    ensures ShapeOf(blocks + [b]) == Counted(ShapeOf(blocks), b.mode)
    ensures Before(blocks, Before([b], p)) == Before(blocks + [b], p)
  {
    assert (blocks + [b])[..|blocks|] == blocks;
    if p.Blocks? {
      assert blocks + ([b] + p.blocks) == (blocks + [b]) + p.blocks;
    }
  }

  lemma OneMoreLine(lines: seq<string>, line: string)
    ensures Join(lines + [line]) == Join(lines) + line + "\n"
  {
    JoinAppend(lines, [line]);
    assert [line][1..] == [];
  }

  // ----- extract -----

  datatype Extracted = Script(text: string) | Refused(fault: Fault, line: nat) | ScanFailed | Unterminated

  /** What extraction is to come to. Lines are the document's, up to where reading it
      failed if it did; a faulty line is reported even if reading fails after it. */
  function Expected(name: string, lines: seq<string>, scanFails: bool): Extracted {
    match Outside(lines, 1)
    case Faulty(fault, line) => Refused(fault, line)
    case Unclosed => if scanFails then ScanFailed else Unterminated
    case Blocks(blocks) => if scanFails then ScanFailed else Script(Join([HeaderLine(name)] + ScriptLines(blocks)))
  }

  lemma OutsideAt(lines: seq<string>, k: nat)
    requires k < |lines|
    ensures var f := FenceOf(lines[k]);
      Outside(lines[k..], k + 1) ==
        if f.None? then Outside(lines[k + 1..], k + 2)
        else Inside(lines[k + 1..], k + 2, f.value.run, Opened(f.value.info))
  {
    hide FenceOf, Opened;
    assert lines[k..][1..] == lines[k + 1..];
  }

  lemma InsideAt(lines: seq<string>, k: nat, run: string, block: Block)
    requires k < |lines|
    ensures Inside(lines[k..], k + 1, run, block) ==
      if ClosesFence(lines[k], run) then Before([block], Outside(lines[k + 1..], k + 2))
      else if FaultOf(block.mode, lines[k]).Some? then Faulty(FaultOf(block.mode, lines[k]).value, k + 1)
      else Inside(lines[k + 1..], k + 2, run, block.(body := block.body + [lines[k]]))
  {
    hide ClosesFence, FaultOf;
    assert lines[k..][1..] == lines[k + 1..];
  }

  /** How a line changes what an open block has put into the script, and what closing it
      adds. */
  lemma BlockGrows(before: seq<string>, b: Block, text: string)
    ensures var grown := b.(body := b.body + [text]);
      Join(before + OpenLines(grown)) == if b.mode == Skip then Join(before + OpenLines(b))
        else Join(before + OpenLines(b)) + text + "\n"
    ensures Join(before + BlockLines(b)) == if IsFile(b) then Join(before + OpenLines(b)) + DELIMITER + "\n"
      else Join(before + OpenLines(b))
  {
    OneMoreLine(before + OpenLines(b), text);
    OneMoreLine(before + OpenLines(b), DELIMITER);
    assert before + (OpenLines(b) + [DELIMITER]) == before + OpenLines(b) + [DELIMITER];
    assert b.mode != Skip ==> before + OpenLines(b.(body := b.body + [text])) == before + OpenLines(b) + [text];
  }

  /** Whether a line can stand in a block of this mode. */
  method CheckLine(mode: Mode, text: string) returns (fault: Option<Fault>)
    ensures fault == FaultOf(mode, text)
  {
    hide TrimRight;
    fault := None;
    if mode == LiteralFile || mode == ExpandedFile {
      if TrimRight(text, IsBlank) == DELIMITER {
        return Some(HoldsDelimiter);
      }
      if mode == ExpandedFile && text != "" && text[|text| - 1] == '\\' {
        return Some(EndsInBackslash);
      }
    }
  }

  /** The command that opens a file's here-document. */
  method OpenFile(mode: Mode, title: string) returns (line: string)
    requires mode == LiteralFile || mode == ExpandedFile
    ensures line == OpeningLine(Block(mode, title, []))
  {
    if mode == ExpandedFile {
      line := "cat > " + title + " <<" + DELIMITER;
    } else {
      line := "cat > " + title + " <<'" + DELIMITER + "'";
    }
    assert line == OpeningLine(Block(mode, title, []));
  }

  method Extract(name: string, lines: seq<string>, scanFails: bool) returns (r: Extracted, shape: Shape)
    ensures r == Expected(name, lines, scanFails)
    ensures r.Script? ==> Outside(lines, 1).Blocks? && shape == ShapeOf(Outside(lines, 1).blocks)
  {
    hide FenceOf, ClosesFence, FaultOf, Fields, InfoOf, Outside, Inside, ScriptLines, ShapeOf, Join, OpenLines,
      OpeningLine, BlockLines, Before;
    var out := HeaderLine(name) + "\n";
    shape := Shape(0, 0, 0);
    var mode, run, inBlock := Skip, "", false;
    ghost var header := [HeaderLine(name)];
    ghost var done: seq<Block>, block: Block := [], Block(Skip, "", []);
    Begins(HeaderLine(name), Outside(lines, 1));
    assert lines[0..] == lines;
    var k := 0;
    while k < |lines|
      invariant k <= |lines|
      invariant !inBlock ==> Outside(lines, 1) == Before(done, Outside(lines[k..], k + 1))
      invariant !inBlock ==> out == Join(header + ScriptLines(done)) && shape == ShapeOf(done)
      invariant inBlock ==> Outside(lines, 1) == Before(done, Inside(lines[k..], k + 1, run, block))
      invariant inBlock ==> mode == block.mode
      invariant inBlock ==> out == Join(header + ScriptLines(done) + OpenLines(block))
      invariant inBlock ==> shape == Counted(ShapeOf(done), block.mode)
    {
      var text := lines[k];
      OutsideAt(lines, k);
      InsideAt(lines, k, run, block);
      BlockGrows(header + ScriptLines(done), block, text);
      k := k + 1;
      if !inBlock {
        var f := OpenFence(text);
        if f.Some? {
          var info := ParseInfo(f.value.info);
          inBlock, run := true, f.value.run;
          block := Opened(f.value.info);
          mode := ModeOf(info);
          shape := Counted(shape, mode);
          BlockOpens(header + ScriptLines(done), block);
          if mode == ExpandedFile || mode == LiteralFile {
            var opening := OpenFile(mode, info.title);
            out := out + opening + "\n";
          }
        }
      } else if ClosesFence(text, run) {
        OneMoreBlock(done, block, Outside(lines[k..], k + 1));
        assert header + ScriptLines(done) + BlockLines(block) == header + ScriptLines(done + [block]);
        if mode == LiteralFile || mode == ExpandedFile {
          out := out + DELIMITER + "\n";
        }
        done := done + [block];
        inBlock, mode := false, Skip;
      } else {
        var fault := CheckLine(mode, text);
        if fault.Some? {
          Stops(done, Faulty(fault.value, k));
          return Refused(fault.value, k), shape;
        }
        block := block.(body := block.body + [text]);
        if mode != Skip {
          out := out + text + "\n";
        }
      }
    }
    assert lines[k..] == [];
    AtTheEnd(done, run, block, k + 1);
    if scanFails {
      return ScanFailed, shape;
    }
    if inBlock {
      return Unterminated, shape;
    }
    r := Script(out);
  }

  lemma Begins(header: string, p: Parsed)
    ensures Join([header] + ScriptLines([])) == header + "\n"
    ensures ShapeOf([]) == Shape(0, 0, 0)
    ensures Before([], p) == p
  {
    OneMoreLine([], header);
    assert [] + [header] == [header] + ScriptLines([]);
    if p.Blocks? {
      assert [] + p.blocks == p.blocks;
    }
  }

  lemma BlockOpens(before: seq<string>, b: Block)
    requires b.body == []
    ensures Join(before + OpenLines(b)) == if IsFile(b) then Join(before) + OpeningLine(b) + "\n" else Join(before)
  {
    OneMoreLine(before, OpeningLine(b));
    assert [OpeningLine(b)] + [] == [OpeningLine(b)] && before + [] == before;
  }

  lemma Stops(done: seq<Block>, p: Parsed)
    requires !p.Blocks?
    ensures Before(done, p) == p
  {
  }

  lemma AtTheEnd(done: seq<Block>, run: string, block: Block, n: nat)
    ensures Before(done, Outside([], n)) == Blocks(done)
    ensures Before(done, Inside([], n, run, block)) == Unclosed
  {
    assert done + [] == done;
  }
}
