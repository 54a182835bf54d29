/** Strings as lines and words. */
module Text {
  /** The characters with the White_Space property. */
  predicate IsSpace(c: char) {
    var n := c as int;
    || 9 <= n <= 13 || n == 0x20 || n == 0x85 || n == 0xA0 || n == 0x1680 || 0x2000 <= n <= 0x200a
    || n == 0x2028 || n == 0x2029 || n == 0x202f || n == 0x205f || n == 0x3000
  }

  predicate InWord(c: char) {
    !IsSpace(c)
  }

  predicate InLine(c: char) {
    c != '\n'
  }

  predicate IsBlank(c: char) {
    c == ' ' || c == '\t'
  }

  function TrimLeft(s: string, drop: char -> bool): (r: string)
    ensures |r| <= |s| && s[|s| - |r|..] == r
    ensures r != "" ==> !drop(r[0])
  {
    if s != "" && drop(s[0]) then TrimLeft(s[1..], drop) else s
  }

  function TrimRight(s: string, drop: char -> bool): (r: string)
    ensures r <= s
    ensures r != "" ==> !drop(r[|r| - 1])
  {
    if s != "" && drop(s[|s| - 1]) then TrimRight(s[..|s| - 1], drop) else s
  }

  function TrimSpace(s: string): string {
    TrimRight(TrimLeft(s, IsSpace), IsSpace)
  }

  /** How many characters at the start of s satisfy p. */
  function Leading(s: string, p: char -> bool): (n: nat)
    ensures n <= |s|
    ensures forall i | 0 <= i < n :: p(s[i])
    ensures n < |s| ==> !p(s[n])
  {
    if s != "" && p(s[0]) then 1 + Leading(s[1..], p) else 0
  }

  function WordLength(t: string): (n: nat)
    requires t != "" && !IsSpace(t[0])
    ensures 0 < n <= |t|
  {
    hide IsSpace;
    Leading(t, InWord)
  }

  /** The words of s: its maximal runs of characters that are not white space. */
  function Fields(s: string): (words: seq<string>)
    decreases |s|
  {
    hide IsSpace, Leading;
    var t := TrimLeft(s, IsSpace);
    if t == "" then []
    else
      var n := WordLength(t);
      [t[..n]] + Fields(t[n..])
  }

  /** Lines, each ended by a newline. */
  function Join(lines: seq<string>): string {
    if lines == [] then "" else lines[0] + "\n" + Join(lines[1..])
  }

  function SplitLines(text: string): seq<string>
    decreases |text|
  {
    if text == "" then []
    else
      var n := Leading(text, InLine);
      [text[..n]] + (if n < |text| then SplitLines(text[n + 1..]) else [])
  }

  lemma {:induction false} JoinAppend(a: seq<string>, b: seq<string>)
    ensures Join(a + b) == Join(a) + Join(b)
  {
    if a == [] {
      assert a + b == b;
    } else {
      assert (a + b)[1..] == a[1..] + b;
      JoinAppend(a[1..], b);
    }
  }

  /** Joined lines split into the same lines. */
  lemma {:induction false} SplitOfJoin(lines: seq<string>)
    requires forall line | line in lines :: '\n' !in line
    ensures SplitLines(Join(lines)) == lines
  {
    if lines == [] {
    } else {
      var line, rest := lines[0], Join(lines[1..]);
      var text := line + "\n" + rest;
      var n := Leading(text, InLine);
      assert line in lines && text[|line|] == '\n';
      assert forall i | 0 <= i < |line| :: text[i] == line[i] && line[i] in line;
      assert n == |line|;
      assert text[..n] == line && text[n + 1..] == rest;
      SplitOfJoin(lines[1..]);
    }
  }
}
