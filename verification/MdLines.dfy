/** What each line of a document says: fences, info strings and lines that cannot stand in a
    here-document, character by character. */
module MdLines {
  import opened Prelude
  import opened Text
  import opened MdScript

  predicate AllSpace(s: string) {
    forall i | 0 <= i < |s| :: IsSpace(s[i])
  }

  /** No character is white space. */
  predicate IsWord(s: string) {
    s != "" && forall i | 0 <= i < |s| :: !IsSpace(s[i])
  }

  // ----- words and trimming -----

  lemma {:induction false} TrimLeftExactly(left: string, rest: string, drop: char -> bool)
    requires (forall i | 0 <= i < |left| :: drop(left[i])) && (rest != "" ==> !drop(rest[0]))
    ensures TrimLeft(left + rest, drop) == rest
  {
    if left == "" {
      assert left + rest == rest;
    } else {
      assert (left + rest)[1..] == left[1..] + rest;
      TrimLeftExactly(left[1..], rest, drop);
    }
  }

  lemma {:induction false} TrimRightExactly(rest: string, right: string, drop: char -> bool)
    requires (forall i | 0 <= i < |right| :: drop(right[i])) && (rest != "" ==> !drop(rest[|rest| - 1]))
    ensures TrimRight(rest + right, drop) == rest
  {
    if right == "" {
      assert rest + right == rest;
    } else {
      assert (rest + right)[..|rest + right| - 1] == rest + right[..|right| - 1];
      TrimRightExactly(rest, right[..|right| - 1], drop);
    }
  }

  /** White space is trimmed at both ends and nowhere else. */
  lemma TrimExactly(left: string, core: string, right: string)
    requires AllSpace(left) && AllSpace(right)
    requires core != "" ==> !IsSpace(core[0]) && !IsSpace(core[|core| - 1])
    ensures TrimSpace(left + core + right) == core
  {
    hide IsSpace;
    if core == "" {
      assert left + core + right == (left + right) + "";
      TrimLeftExactly(left + right, "", IsSpace);
    } else {
      assert left + core + right == left + (core + right);
      TrimLeftExactly(left, core + right, IsSpace);
      TrimRightExactly(core, right, IsSpace);
    }
  }

  /** A string's fields are its words in order: the first, and then those of what follows. */
  lemma FieldsExactly(space: string, word: string, rest: string)
    requires AllSpace(space) && IsWord(word) && (rest != "" ==> IsSpace(rest[0]))
    ensures Fields(space + word + rest) == [word] + Fields(rest)
    ensures Fields(space) == []
  {
    hide IsSpace;
    var t := word + rest;
    assert space + word + rest == space + t;
    TrimLeftExactly(space, t, IsSpace);
    LeadingExactly(word, rest);
    assert t[..|word|] == word && t[|word|..] == rest;
    TrimLeftExactly(space, "", IsSpace);
    assert space + "" == space;
  }

  lemma {:induction false} LeadingExactly(word: string, rest: string)
    requires (forall i | 0 <= i < |word| :: !IsSpace(word[i])) && (rest != "" ==> IsSpace(rest[0]))
    ensures Leading(word + rest, InWord) == |word|
  {
    hide IsSpace;
    if word == "" {
      assert word + rest == rest;
    } else {
      assert (word + rest)[1..] == word[1..] + rest;
      LeadingExactly(word[1..], rest);
    }
  }

  // ----- info strings -----

  /** The i-th field is the last that names a title. */
  predicate LastNamesTitle(fields: seq<string>, i: nat) {
    i < |fields| && "title=" <= fields[i] && forall j | i < j < |fields| :: !("title=" <= fields[j])
  }

  /** A block is a file exactly if its last title= names one, expanded if any field says so;
      otherwise a command exactly if its first field, being neither of the two, is sh. */
  lemma OpenedExactly(info: string, i: nat)
    ensures var fields, b := Fields(info), Opened(info);
      && b.body == []
      && (LastNamesTitle(fields, i) && fields[i] != "title=" ==>
            b.title == fields[i][6..] && b.mode == if "expand" in fields then ExpandedFile else LiteralFile)
      && ((forall f | f in fields :: !("title=" <= f)) || (LastNamesTitle(fields, i) && fields[i] == "title=") ==>
            b.title == "" && b.mode == if fields != [] && fields[0] == "sh" then Verbatim else Skip)
  {
    hide Fields;
    LastTitleExactly(Fields(info), i);
    NoTitles();
  }

  lemma NoTitles()
    ensures !("title=" <= "sh") && !("title=" <= "expand")
  {
    assert "title="[0] != "sh"[0] && "title="[0] != "expand"[0];
  }

  lemma {:induction false} LastTitleExactly(fields: seq<string>, i: nat)
    ensures LastNamesTitle(fields, i) ==> LastTitle(fields) == fields[i][6..]
    ensures (forall f | f in fields :: !("title=" <= f)) ==> LastTitle(fields) == ""
  {
    if fields == [] {
    } else {
      var last := |fields| - 1;
      NoTitles();
      assert fields[last] in fields;
      if !("title=" <= fields[last]) {
        LastTitleExactly(fields[..last], i);
        assert LastNamesTitle(fields, i) ==> LastNamesTitle(fields[..last], i);
        assert forall f | f in fields[..last] :: f in fields;
      } else {
        assert LastNamesTitle(fields, i) ==> i == last;
      }
    }
  }

  // ----- fences -----

  /** A line of backticks, whatever white space surrounds it, closes exactly a fence no
      longer than it; a line with anything else, or nothing, closes none. */
  lemma ClosesExactly(left: string, core: string, right: string, run: string)
    requires AllSpace(left) && AllSpace(right)
    requires core != "" ==> !IsSpace(core[0]) && !IsSpace(core[|core| - 1])
    ensures ClosesFence(left + core + right, run) <==>
      core != "" && |core| >= |run| && forall i | 0 <= i < |core| :: core[i] == '`'
  {
    hide IsSpace, TrimSpace;
    TrimExactly(left, core, right);
    AllTicks(core);
  }

  lemma AllTicks(s: string)
    ensures (forall c | c in s :: c == '`') <==> forall i | 0 <= i < |s| :: s[i] == '`'
  {
    assert forall i | 0 <= i < |s| :: s[i] in s;
  }

  // ----- lines that cannot stand -----

  predicate AllBlank(s: string) {
    forall i | 0 <= i < |s| :: s[i] == ' ' || s[i] == '\t'
  }

  /** In a file's block exactly the delimiter cannot stand, with or without blanks after it,
      and, where the shell expands, a line that ends in a backslash. */
  lemma FaultExactly(mode: Mode, line: string)
    ensures FaultOf(mode, line) == Some(HoldsDelimiter) <==>
      mode in {LiteralFile, ExpandedFile} && |line| >= 3 && line[..3] == "EOF" && AllBlank(line[3..])
    ensures FaultOf(mode, line) == Some(EndsInBackslash) <==>
      mode == ExpandedFile && line != "" && line[|line| - 1] == '\\'
    ensures mode in {Skip, Verbatim} ==> FaultOf(mode, line) == None
  {
    TrimmedIsDelimiter(line);
    if |line| >= 3 && line[..3] == "EOF" && AllBlank(line[3..]) {
      assert line == "EOF" + line[3..];
      TrimRightExactly("EOF", line[3..], IsBlank);
      assert |line| > 3 ==> line[|line| - 1] == line[3..][|line| - 4];
      assert line[2] == line[..3][2] == 'F';
    }
  }

  lemma TrimmedIsDelimiter(line: string)
    ensures TrimRight(line, IsBlank) == "EOF" ==> |line| >= 3 && line[..3] == "EOF" && AllBlank(line[3..])
  {
    TrimmedTail(line);
  }

  lemma {:induction false} TrimmedTail(line: string)
    ensures TrimRight(line, IsBlank) <= line && AllBlank(line[|TrimRight(line, IsBlank)|..])
  {
    if line != "" && IsBlank(line[|line| - 1]) {
      var front := line[..|line| - 1];
      TrimmedTail(front);
      var n := |TrimRight(line, IsBlank)|;
      assert line[n..] == front[n..] + [line[|line| - 1]];
    }
  }

  // ----- documents -----

  /** Lines that open no fence contribute nothing, and the first that does opens a block. */
  lemma {:induction false} ProseIsSkipped(lines: seq<string>, n: nat, k: nat)
    requires k <= |lines| && forall j | 0 <= j < k :: FenceOf(lines[j]) == None
    ensures Outside(lines, n) == Outside(lines[k..], n + k)
    ensures k < |lines| && FenceOf(lines[k]).Some? ==>
      var f := FenceOf(lines[k]).value;
      Outside(lines, n) == Inside(lines[k + 1..], n + k + 1, f.run, Opened(f.info))
    decreases k
  {
    hide FenceOf, Opened;
    if k == 0 {
      assert lines[0..] == lines;
    } else {
      assert lines[1..][k - 1..] == lines[k..];
      assert k < |lines| ==> lines[1..][k..] == lines[k + 1..];
      ProseIsSkipped(lines[1..], n + 1, k - 1);
    }
  }

  /** A block that no line closes leaves the document unterminated, unless a line cannot
      stand in it. */
  lemma {:induction false} NeverClosed(lines: seq<string>, n: nat, run: string, block: Block)
    requires forall line | line in lines :: !ClosesFence(line, run) && FaultOf(block.mode, line) == None
    ensures Inside(lines, n, run, block) == Unclosed
    decreases |lines|
  {
    hide ClosesFence, FaultOf;
    if lines == [] {
    } else {
      assert lines[0] in lines && forall line | line in lines[1..] :: line in lines;
      NeverClosed(lines[1..], n + 1, run, block.(body := block.body + [lines[0]]));
    }
  }

  /** A document is refused for its first fault before anything else, then for being cut
      short by a failing read, then for an open block; and otherwise becomes a script. */
  lemma ExtractionExactly(name: string, lines: seq<string>, scanFails: bool)
    ensures var r, p := Expected(name, lines, scanFails), Outside(lines, 1);
      && (r.Refused? <==> p.Faulty?) && (p.Faulty? ==> r == Refused(p.fault, p.line))
      && (r == ScanFailed <==> scanFails && !p.Faulty?)
      && (r == Unterminated <==> p.Unclosed? && !scanFails)
      && (r.Script? <==> p.Blocks? && !scanFails)
  {
    hide Outside;
  }

  // ----- counts -----

  function Modes(blocks: seq<Block>): seq<Mode> {
    seq(|blocks|, i requires 0 <= i < |blocks| => blocks[i].mode)
  }

  /** The shape counts the blocks of each mode. */
  lemma {:induction false} ShapeExactly(blocks: seq<Block>)
    ensures var shape, modes := ShapeOf(blocks), multiset(Modes(blocks));
      && shape.commands == modes[Verbatim]
      && shape.files == modes[LiteralFile] + modes[ExpandedFile]
      && shape.expansions == modes[ExpandedFile]
  {
    if blocks == [] {
      assert Modes(blocks) == [];
    } else {
      var front, last := blocks[..|blocks| - 1], blocks[|blocks| - 1];
      ShapeExactly(front);
      assert Modes(blocks) == Modes(front) + [last.mode];
    }
  }
}
