/** Reading a script's here-documents back, as section 2.7.4 of POSIX.1 XCU, Shell Command
    Language, says a shell does, one line at a time. */
module HereDocuments {
  import opened Prelude
  import opened Text
  import opened MdScript

  // ----- the reader -----

  /** A line of the script that is a command; a file that a here-document is written to, and
      whether its delimiter was quoted; or any other here-document. */
  datatype Item =
    | Command(line: string)
    | File(target: string, quoted: bool, body: seq<string>)
    | Document(redirecting: string, quoted: bool, body: seq<string>)

  datatype Reading = Items(items: seq<Item>) | Unfinished

  function OperatorFrom(line: string, p: nat): (q: Option<nat>)
    ensures q.Some? ==> p <= q.value && q.value + 1 < |line|
    decreases |line| - p
  {
    if p + 1 >= |line| then None
    else if line[p] == '<' && line[p + 1] == '<' then Some(p)
    else OperatorFrom(line, p + 1)
  }

  /** Where a line that is not a comment opens a here-document. */
  function Operator(line: string): (q: Option<nat>)
    ensures q.Some? ==> q.value + 1 < |line|
  {
    if line != "" && line[0] == '#' then None else OperatorFrom(line, 0)
  }

  predicate InToken(c: char) {
    !IsBlank(c) && c != ';' && c != '&' && c != '|' && c != '<' && c != '>' && c != '(' && c != ')'
  }

  /** The word a string begins with, after any blanks. */
  function Word(s: string): string {
    var t := TrimLeft(s, IsBlank);
    t[..Leading(t, InToken)]
  }

  predicate IsQuote(c: char) {
    c == '\'' || c == '\"' || c == '\\'
  }

  predicate HasQuote(word: string) {
    exists c | c in word :: IsQuote(c)
  }

  function Unquote(word: string): string {
    if word == "" then ""
    else if IsQuote(word[0]) then Unquote(word[1..])
    else [word[0]] + Unquote(word[1..])
  }

  /** A line that ends in a backslash which nothing escapes is continued by the next. */
  predicate Continues(line: string) {
    line != "" && line[|line| - 1] == '\\' && !Continues(line[..|line| - 1])
  }

  /** The first line of an unquoted here-document, with those that continue it. */
  function Logical(lines: seq<string>): (r: (string, nat))
    requires lines != []
    ensures 1 <= r.1 <= |lines|
  {
    if |lines| > 1 && Continues(lines[0]) then
      var (rest, n) := Logical(lines[1..]);
      (lines[0][..|lines[0]| - 1] + rest, n + 1)
    else (lines[0], 1)
  }

  predicate IsTab(c: char) {
    c == '\t'
  }

  /** The lines up to the delimiter, and what follows it. */
  function TakeBody(lines: seq<string>, delimiter: string, quoted: bool,
    stripTabs: bool): (r: Option<(seq<string>, seq<string>)>)
    ensures r.Some? ==> |r.value.1| < |lines|
    decreases |lines|
  {
    if lines == [] then None
    else
      var (logical, n) := if quoted then (lines[0], 1) else Logical(lines);
      var line := if stripTabs then TrimLeft(logical, IsTab) else logical;
      if line == delimiter then Some(([], lines[n..]))
      else
        var r := TakeBody(lines[n..], delimiter, quoted, stripTabs);
        if r.None? then None else Some(([line] + r.value.0, r.value.1))
  }

  const CAT: string := "cat > "

  /** What the line that opens a here-document says of it. */
  datatype Redirection = Redirection(command: string, delimiter: string, quoted: bool, stripTabs: bool)

  function RedirectionOf(line: string, p: nat): Redirection
    requires p + 1 < |line|
  {
    var stripTabs := p + 2 < |line| && line[p + 2] == '-';
    var word := Word(line[if stripTabs then p + 3 else p + 2..]);
    Redirection(line[..p], Unquote(word), HasQuote(word), stripTabs)
  }

  function ItemOf(r: Redirection, body: seq<string>): Item {
    if CAT <= r.command then File(Word(r.command[|CAT|..]), r.quoted, body) else Document(r.command, r.quoted, body)
  }

  function Following(items: seq<Item>, r: Reading): Reading {
    if r.Items? then Items(items + r.items) else r
  }

  function ReadScript(lines: seq<string>): Reading
    decreases |lines|
  {
    if lines == [] then Items([])
    else
      var p := Operator(lines[0]);
      if p.None? then Following([Command(lines[0])], ReadScript(lines[1..]))
      else
        var r := RedirectionOf(lines[0], p.value);
        var taken := TakeBody(lines[1..], r.delimiter, r.quoted, r.stripTabs);
        if taken.None? then Unfinished
        else Following([ItemOf(r, taken.value.0)], ReadScript(taken.value.1))
  }

  // ----- what it should read -----

  predicate IsPlain(c: char) {
    'a' <= c <= 'z' || 'A' <= c <= 'Z' || '0' <= c <= '9' || c == '.' || c == '_' || c == '/' || c == '-'
  }

  predicate PlainPath(title: string) {
    title != "" && forall c | c in title :: IsPlain(c)
  }

  /** The condition on a document's blocks: its commands open no here-documents and its
      files have plain names. */
  predicate Readable(b: Block) {
    && (b.mode == Verbatim ==> forall line | line in b.body :: Operator(line).None?)
    && (IsFile(b) ==> PlainPath(b.title))
  }

  function Commands(lines: seq<string>): seq<Item> {
    if lines == [] then [] else [Command(lines[0])] + Commands(lines[1..])
  }

  function BlockItems(b: Block): seq<Item> {
    match b.mode
    case Skip => []
    case Verbatim => Commands(b.body)
    case LiteralFile => [File(b.title, true, b.body)]
    case ExpandedFile => [File(b.title, false, b.body)]
  }

  function DocumentItems(blocks: seq<Block>): seq<Item> {
    if blocks == [] then [] else BlockItems(blocks[0]) + DocumentItems(blocks[1..])
  }

  // ----- what a parsed document's blocks are like -----

  /** No line of a file block could end its here-document early or run into its delimiter. */
  predicate Sound(b: Block) {
    forall line | line in b.body :: FaultOf(b.mode, line).None?
  }

  /** A block's lines are lines of the document. */
  predicate From(b: Block, lines: seq<string>) {
    forall line | line in b.body :: line in lines
  }

  lemma {:induction false} OutsideSound(lines: seq<string>, n: nat)
    requires Outside(lines, n).Blocks?
    ensures forall b | b in Outside(lines, n).blocks :: Sound(b) && From(b, lines)
    decreases |lines|
  {
    hide FenceOf, FaultOf, Opened;
    if lines == [] {
    } else {
      var f := FenceOf(lines[0]);
      if f.None? {
        OutsideSound(lines[1..], n + 1);
      } else {
        OpenedEmpty(f.value.info);
        InsideSound(lines[1..], n + 1, f.value.run, Opened(f.value.info), lines);
        assert forall line | line in lines[1..] :: line in lines;
      }
    }
  }

  lemma OpenedEmpty(info: string)
    ensures Opened(info).body == []
  {
  }

  lemma {:induction false} InsideSound(lines: seq<string>, n: nat, run: string, block: Block, all: seq<string>)
    requires Inside(lines, n, run, block).Blocks? && Sound(block) && From(block, all)
    requires forall line | line in lines :: line in all
    ensures forall b | b in Inside(lines, n, run, block).blocks :: Sound(b) && From(b, all)
    decreases |lines|
  {
    hide FaultOf, ClosesFence;
    if ClosesFence(lines[0], run) {
      OutsideSound(lines[1..], n + 1);
      assert forall line | line in lines[1..] :: line in all;
    } else {
      assert lines[0] in all;
      InsideSound(lines[1..], n + 1, run, block.(body := block.body + [lines[0]]), all);
    }
  }

  // ----- the reader on what mdscript writes -----

  lemma {:induction false} NoOperatorIn(prefix: string, rest: string, p: nat)
    requires p <= |prefix| && '<' !in prefix && |rest| > 1 && rest[0] == '<' && rest[1] == '<'
    ensures OperatorFrom(prefix + rest, p) == Some(|prefix|)
    decreases |prefix| - p
  {
    if p < |prefix| {
      assert (prefix + rest)[p] == prefix[p] && prefix[p] in prefix;
      NoOperatorIn(prefix, rest, p + 1);
    } else {
      assert (prefix + rest)[p] == '<' && (prefix + rest)[p + 1] == '<';
    }
  }

  lemma PlainWord(title: string, after: string)
    requires PlainPath(title) && (after == "" || !InToken(after[0]))
    ensures Word(title + after) == title
  {
    var t := title + after;
    forall i | 0 <= i < |title|
      ensures InToken(t[i]) && !IsBlank(t[i])
    {
      assert t[i] == title[i] && title[i] in title && IsPlain(title[i]);
    }
    assert TrimLeft(t, IsBlank) == t;
    assert after != "" ==> t[|title|] == after[0];
    assert Leading(t, InToken) == |title|;
    assert t[..|title|] == title;
  }

  function DelimiterWord(b: Block): string {
    if b.mode == ExpandedFile then "EOF" else "'EOF'"
  }

  /** The line a file block opens with is read as what it says. */
  lemma OpeningReadsBack(b: Block)
    requires IsFile(b) && PlainPath(b.title)
    ensures var line := OpeningLine(b);
      var p := Operator(line);
      && p == Some(|CAT| + |b.title| + 1)
      && RedirectionOf(line, p.value) == Redirection(CAT + b.title + " ", DELIMITER, b.mode == LiteralFile, false)
  {
    hide OperatorFrom, Word, Unquote, HasQuote, PlainPath;
    var line, prefix, word := OpeningLine(b), CAT + b.title + " ", DelimiterWord(b);
    assert line == prefix + ("<<" + word);
    PlainPrefix(b.title);
    NoOperatorIn(prefix, "<<" + word, 0);
    assert line[0] == 'c';
    var p := |prefix|;
    assert line[p + 2..] == word && line[..p] == prefix && line[p + 2] == word[0];
    QuotedWord();
    UnquotedWord();
  }

  lemma PlainPrefix(title: string)
    requires PlainPath(title)
    ensures '<' !in CAT + title + " "
  {
    assert forall c | c in title :: IsPlain(c);
  }

  lemma WordOfToken(w: string)
    requires forall i | 0 <= i < |w| :: InToken(w[i])
    ensures Word(w) == w
  {
    assert TrimLeft(w, IsBlank) == w;
    assert w[..|w|] == w;
  }

  lemma {:induction false} UnquotePlain(w: string)
    requires forall i | 0 <= i < |w| :: !IsQuote(w[i])
    ensures Unquote(w) == w
  {
    if w == "" {
    } else {
      UnquotePlain(w[1..]);
      assert [w[0]] + w[1..] == w;
    }
  }

  lemma {:induction false} UnquoteAppend(a: string, b: string)
    ensures Unquote(a + b) == Unquote(a) + Unquote(b)
  {
    if a == "" {
      assert a + b == b;
    } else {
      assert (a + b)[1..] == a[1..] + b;
      UnquoteAppend(a[1..], b);
    }
  }

  lemma UnquoteQuote()
    ensures Unquote("'") == ""
  {
    assert "'"[1..] == "";
  }

  lemma UnquotedWord()
    ensures Word("EOF") == "EOF" && Unquote("EOF") == "EOF" && !HasQuote("EOF")
  {
    hide Word, Unquote;
    WordOfToken("EOF");
    UnquotePlain("EOF");
  }

  lemma QuotedWord()
    ensures Word("'EOF'") == "'EOF'" && Unquote("'EOF'") == "EOF" && HasQuote("'EOF'")
  {
    hide Word, Unquote;
    WordOfToken("'EOF'");
    UnquotePlain("EOF");
    UnquoteQuote();
    UnquoteAppend("'", "EOF");
    UnquoteAppend("'" + "EOF", "'");
    assert "'" + "EOF" + "'" == "'EOF'";
    assert "'EOF'"[0] == '\'' && IsQuote('\'');
  }

  /** A sound body is read line for line, to its delimiter and no further. */
  lemma {:induction false} BodyReadsBack(mode: Mode, body: seq<string>, rest: seq<string>)
    requires mode == LiteralFile || mode == ExpandedFile
    requires forall line | line in body :: FaultOf(mode, line).None?
    ensures TakeBody(body + [DELIMITER] + rest, DELIMITER, mode == LiteralFile, false) == Some((body, rest))
  {
    var lines := body + [DELIMITER] + rest;
    if body == [] {
      assert lines[0] == DELIMITER && lines[1..] == rest;
    } else {
      assert lines[0] == body[0] && body[0] in body && lines[1..] == body[1..] + [DELIMITER] + rest;
      SoundLine(mode, body[0]);
      BodyReadsBack(mode, body[1..], rest);
      assert [body[0]] + body[1..] == body;
    }
  }

  lemma SoundLine(mode: Mode, line: string)
    requires (mode == LiteralFile || mode == ExpandedFile) && FaultOf(mode, line).None?
    ensures line != DELIMITER
    ensures mode == ExpandedFile ==> !Continues(line)
  {
    assert TrimRight(DELIMITER, IsBlank) == DELIMITER;
  }

  lemma {:induction false} CommandsReadBack(lines: seq<string>, rest: seq<string>)
    requires forall line | line in lines :: Operator(line).None?
    ensures ReadScript(lines + rest) == Following(Commands(lines), ReadScript(rest))
  {
    hide Operator;
    if lines == [] {
      assert lines + rest == rest;
      NothingBefore(ReadScript(rest));
    } else {
      assert (lines + rest)[1..] == lines[1..] + rest && lines[0] in lines;
      CommandsReadBack(lines[1..], rest);
      FollowingTwice([Command(lines[0])], Commands(lines[1..]), ReadScript(rest));
    }
  }

  lemma NothingBefore(r: Reading)
    ensures Following([], r) == r
  {
    if r.Items? {
      assert [] + r.items == r.items;
    }
  }

  lemma FollowingTwice(a: seq<Item>, b: seq<Item>, r: Reading)
    ensures Following(a, Following(b, r)) == Following(a + b, r)
  {
    if r.Items? {
      assert a + (b + r.items) == (a + b) + r.items;
    }
  }

  lemma BlockReadsBack(b: Block, rest: seq<string>)
    requires Readable(b) && Sound(b)
    ensures ReadScript(BlockLines(b) + rest) == Following(BlockItems(b), ReadScript(rest))
  {
    hide Operator, RedirectionOf, TakeBody, Word, FaultOf, OpeningLine;
    if b.mode == Skip {
      assert BlockLines(b) + rest == rest;
      NothingBefore(ReadScript(rest));
    } else if b.mode == Verbatim {
      CommandsReadBack(b.body, rest);
    } else {
      var lines := BlockLines(b) + rest;
      assert lines[0] == OpeningLine(b) && lines[1..] == b.body + [DELIMITER] + rest;
      OpeningReadsBack(b);
      BodyReadsBack(b.mode, b.body, rest);
      var command := CAT + b.title + " ";
      assert command[|CAT|..] == b.title + " ";
      BlankEndsAToken();
      PlainWord(b.title, " ");
    }
  }

  lemma BlankEndsAToken()
    ensures !InToken(' ')
  {
  }

  lemma {:induction false} ScriptLinesFront(b: Block, blocks: seq<Block>)
    ensures ScriptLines([b] + blocks) == BlockLines(b) + ScriptLines(blocks)
  {
    hide BlockLines;
    if blocks == [] {
      assert ([b] + blocks)[..0] == [] && [b] + blocks == [b];
      assert ScriptLines([b]) == ScriptLines([]) + BlockLines(b);
    } else {
      var last := |blocks| - 1;
      assert ([b] + blocks)[..last + 1] == [b] + blocks[..last];
      ScriptLinesFront(b, blocks[..last]);
    }
  }

  lemma {:induction false} BlocksReadBack(blocks: seq<Block>)
    requires forall b | b in blocks :: Readable(b) && Sound(b)
    ensures ReadScript(ScriptLines(blocks)) == Items(DocumentItems(blocks))
  {
    hide Readable, Sound, BlockLines, BlockItems;
    if blocks == [] {
    } else {
      var b, rest := blocks[0], blocks[1..];
      assert blocks == [b] + rest && b in blocks;
      ScriptLinesFront(b, rest);
      BlockReadsBack(b, ScriptLines(rest));
      BlocksReadBack(rest);
    }
  }

  // ----- the main result -----

  lemma {:induction false} ScriptLinesAreLines(blocks: seq<Block>, lines: seq<string>)
    requires forall line | line in lines :: '\n' !in line
    requires forall b | b in blocks :: Readable(b) && From(b, lines)
    ensures forall line | line in ScriptLines(blocks) :: '\n' !in line
  {
    hide Operator;
    if blocks == [] {
    } else {
      var b := blocks[|blocks| - 1];
      ScriptLinesAreLines(blocks[..|blocks| - 1], lines);
      assert b in blocks;
      assert IsFile(b) ==> '\n' !in OpeningLine(b) by {
        assert IsFile(b) ==> forall c | c in b.title :: IsPlain(c);
      }
    }
  }

  /** If extraction succeeds on a document whose commands open no here-documents and whose
      files have plain names, reading the script back recovers the document's blocks in
      order, every file's body line for line. */
  lemma ScriptReadsBack(name: string, lines: seq<string>)
    requires '\n' !in name && forall line | line in lines :: '\n' !in line
    requires Expected(name, lines, false).Script?
    requires Outside(lines, 1).Blocks? ==> forall b | b in Outside(lines, 1).blocks :: Readable(b)
    ensures Outside(lines, 1).Blocks?
    ensures ReadScript(SplitLines(Expected(name, lines, false).text))
         == Items([Command("# Generated by cmd/mdscript from " + name + ". Do not edit.")]
                  + DocumentItems(Outside(lines, 1).blocks))
  {
    hide Readable, Sound, From, Outside, Join, SplitLines, DocumentItems, ScriptLines;
    var blocks := Outside(lines, 1).blocks;
    var script := [HeaderLine(name)] + ScriptLines(blocks);
    OutsideSound(lines, 1);
    ScriptLinesAreLines(blocks, lines);
    SplitOfJoin(script);
    assert script[1..] == ScriptLines(blocks);
    assert HeaderLine(name)[0] == '#';
    BlocksReadBack(blocks);
  }
}
