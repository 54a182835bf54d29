/** The Range and Content-Range header values of RFC 9110 sections 14.2 and 14.4,
    as the two roles print and parse them. */
module Headers {
  import opened Prelude

  // ----- decimal integers -----

  function DigitChar(d: nat): char
    requires d < 10
  {
    '0' + d as char
  }

  predicate IsDigit(c: char) {
    '0' <= c <= '9'
  }

  function DigitValue(c: char): nat
    requires IsDigit(c)
  {
    (c - '0') as nat
  }

  /** How a non-negative integer is printed. */
  function Decimal(n: nat): (s: string)
    ensures |s| > 0 && forall i | 0 <= i < |s| :: IsDigit(s[i])
  {
    if n < 10 then [DigitChar(n)] else Decimal(n / 10) + [DigitChar(n % 10)]
  }

  /** The value of a run of digits; an empty string or any other character is an error. */
  function ParseDigits(s: string): Option<nat> {
    if |s| == 0 || !IsDigit(s[|s| - 1]) then
      None
    else if |s| == 1 then
      Some(DigitValue(s[0]))
    else
      match ParseDigits(s[..|s| - 1])
      case None => None
      case Some(high) => Some(10 * high + DigitValue(s[|s| - 1]))
  }

  /** Base-10 parsing into a signed 64-bit integer: one optional sign, then digits,
      then a range check. */
  function ParseInt64(s: string): Option<int> {
    var negative := |s| > 0 && s[0] == '-';
    var digits := if |s| > 0 && (s[0] == '-' || s[0] == '+') then s[1..] else s;
    match ParseDigits(digits)
    case None => None
    case Some(n) =>
      var sign: int := if negative then -1 else 1;
      var value := sign * n;
      if -MAX_INT64 - 1 <= value <= MAX_INT64 then Some(value) else None
  }

  lemma {:induction false} ParseDigitsOfDecimal(n: nat)
    ensures ParseDigits(Decimal(n)) == Some(n)
  {
    if n >= 10 {
      var s := Decimal(n);
      assert s[..|s| - 1] == Decimal(n / 10);
      ParseDigitsOfDecimal(n / 10);
    }
  }

  lemma ParseInt64OfDecimal(n: nat)
    ensures ParseInt64(Decimal(n)) == if n <= MAX_INT64 then Some(n) else None
  {
    ParseDigitsOfDecimal(n);
    assert IsDigit(Decimal(n)[0]);
  }

  // ----- substrings -----

  predicate HasPrefix(s: string, p: string) {
    p <= s
  }

  predicate HasSuffix(s: string, p: string) {
    |p| <= |s| && s[|s| - |p|..] == p
  }

  /** The first index of c in s, or -1. */
  function IndexOf(s: string, c: char): (i: int)
    ensures -1 <= i < |s|
    ensures i >= 0 ==> s[i] == c && c !in s[..i]
    ensures i < 0 ==> c !in s
  {
    if |s| == 0 then -1
    else if s[0] == c then 0
    else
      var rest := IndexOf(s[1..], c);
      assert s == [s[0]] + s[1..];
      if rest < 0 then -1 else
        assert s[..rest + 1] == [s[0]] + s[1..][..rest];
        rest + 1
  }

  /** The last index of c in s, or -1. */
  function LastIndexOf(s: string, c: char): (i: int)
    ensures -1 <= i < |s|
    ensures i >= 0 ==> s[i] == c
    ensures forall j | i < j < |s| :: s[j] != c
  {
    if |s| == 0 then -1
    else if s[|s| - 1] == c then |s| - 1
    else LastIndexOf(s[..|s| - 1], c)
  }

  // ----- the consumer's Range header and the provider's reading of it -----

  function PrintRange(start: nat): string {
    "bytes=" + Decimal(start) + "-"
  }

  /** The one range form this connector supports, an open-ended offset; every other
      value, and an absent header (the empty string), reads as no range at all. */
  function ParseRangeStart(header: string): Option<nat> {
    if !HasPrefix(header, "bytes=") then None else
    var rest := header[6..];
    if !HasSuffix(rest, "-") then None else
    match ParseInt64(rest[..|rest| - 1])
    case None => None
    case Some(n) => if n < 0 then None else Some(n)
  }

  /** The offset a consumer asks for is the offset a provider reads, for every offset
      a file can have; past the 64-bit range the header reads as absent. */
  lemma RangeRoundTrip(start: nat)
    ensures ParseRangeStart(PrintRange(start)) == if start <= MAX_INT64 then Some(start) else None
  {
    var header := PrintRange(start);
    assert header[6..] == Decimal(start) + "-";
    assert (Decimal(start) + "-")[..|Decimal(start)|] == Decimal(start);
    ParseInt64OfDecimal(start);
  }

  // ----- the provider's Content-Range header and the consumer's reading of it -----

  function PrintContentRange(first: nat, last: nat, complete: nat): string {
    "bytes " + Decimal(first) + "-" + Decimal(last) + "/" + Decimal(complete)
  }

  function PrintUnsatisfiedRange(complete: nat): string {
    "bytes */" + Decimal(complete)
  }

  /** What a Content-Range value states: where the body starts and how long the whole
      representation is, each independently absent. */
  datatype ContentRange = ContentRange(first: Option<nat>, complete: Option<nat>)

  function NonNegative(n: Option<int>): Option<nat> {
    if n.Some? && n.value >= 0 then Some(n.value) else None
  }

  function ParseContentRange(header: string): ContentRange {
    if !HasPrefix(header, "bytes ") then ContentRange(None, None) else
    var rest := header[6..];
    var slash := LastIndexOf(rest, '/');
    if slash < 0 then ContentRange(None, None) else
    var rangePart, completePart := rest[..slash], rest[slash + 1..];
    var dash := IndexOf(rangePart, '-');
    ContentRange(
      if dash > 0 then NonNegative(ParseInt64(rangePart[..dash])) else None,
      NonNegative(ParseInt64(completePart)))
  }

  /** Splitting at a separator recovers the two halves when the half it is searched
      from does not contain it. */
  lemma SplitAt(a: string, c: char, b: string)
    ensures c !in a ==> IndexOf(a + [c] + b, c) == |a|
    ensures c !in b ==> LastIndexOf(a + [c] + b, c) == |a|
  {
    var s := a + [c] + b;
    assert s[..|a|] == a && s[|a|] == c && s[|a| + 1..] == b;
  }

  lemma DecimalLacks(n: nat, c: char)
    requires !IsDigit(c)
    ensures c !in Decimal(n)
  {
  }

  lemma CompleteHalf(rangePart: string, complete: nat)
    ensures LastIndexOf(rangePart + "/" + Decimal(complete), '/') == |rangePart|
    ensures NonNegative(ParseInt64(Decimal(complete))) == if complete <= MAX_INT64 then Some(complete) else None
  {
    DecimalLacks(complete, '/');
    SplitAt(rangePart, '/', Decimal(complete));
    ParseInt64OfDecimal(complete);
  }

  /** A satisfied range's header tells the consumer exactly the first byte position and
      the complete length the provider meant. */
  lemma ContentRangeRoundTrip(first: nat, last: nat, complete: nat)
    requires first <= MAX_INT64 && complete <= MAX_INT64
    ensures ParseContentRange(PrintContentRange(first, last, complete)) == ContentRange(Some(first), Some(complete))
  {
    var header := PrintContentRange(first, last, complete);
    var rangePart := Decimal(first) + "-" + Decimal(last);
    assert header[6..] == rangePart + "/" + Decimal(complete);
    CompleteHalf(rangePart, complete);
    assert header[6..][..|rangePart|] == rangePart;
    assert header[6..][|rangePart| + 1..] == Decimal(complete);
    DecimalLacks(first, '-');
    SplitAt(Decimal(first), '-', Decimal(last));
    assert rangePart[..|Decimal(first)|] == Decimal(first);
    ParseInt64OfDecimal(first);
  }

  /** An unsatisfied range's header states the complete length and no start. */
  lemma UnsatisfiedRangeRoundTrip(complete: nat)
    requires complete <= MAX_INT64
    ensures ParseContentRange(PrintUnsatisfiedRange(complete)) == ContentRange(None, Some(complete))
  {
    var header := PrintUnsatisfiedRange(complete);
    assert header[6..] == "*" + "/" + Decimal(complete);
    CompleteHalf("*", complete);
    assert header[6..][..1] == "*";
    assert header[6..][2..] == Decimal(complete);
  }

  // ----- exactly which headers are read, and as what -----

  function Zeros(n: nat): string {
    if n == 0 then "" else Zeros(n - 1) + "0"
  }

  predicate AllDigits(s: string) {
    s != "" && forall i | 0 <= i < |s| :: IsDigit(s[i])
  }

  /** A run of digits reads as the number it prints, leading zeros aside; nothing else reads
      as a number. */
  lemma {:induction false} ParseDigitsExactly(s: string)
    ensures ParseDigits(s).Some? <==> AllDigits(s)
    ensures AllDigits(s) ==> exists z: nat :: s == Zeros(z) + Decimal(ParseDigits(s).value)
  {
    if |s| == 0 {
    } else if |s| == 1 {
      if AllDigits(s) {
        assert s == Zeros(0) + Decimal(ParseDigits(s).value);
      }
    } else {
      hide Decimal, Zeros;
      var high, d := s[..|s| - 1], s[|s| - 1];
      ParseDigitsExactly(high);
      assert s == high + [d];
      if AllDigits(s) {
        assert AllDigits(high);
        var h := ParseDigits(high).value;
        var z: nat :| high == Zeros(z) + Decimal(h);
        LastDigit(high, d, h, z);
      }
    }
  }

  lemma LastDigit(high: string, d: char, h: nat, z: nat)
    requires IsDigit(d) && high == Zeros(z) + Decimal(h)
    ensures exists y: nat :: high + [d] == Zeros(y) + Decimal(10 * h + DigitValue(d))
  {
    var n := 10 * h + DigitValue(d);
    if h == 0 {
      assert high + [d] == Zeros(z + 1) + Decimal(n);
    } else {
      assert Decimal(n) == Decimal(h) + [d];
      assert high + [d] == Zeros(z) + Decimal(n);
    }
  }

  /** An integer reads with one optional sign, within 64 bits. */
  lemma ParseInt64Exactly(sign: string, digits: string)
    requires sign in {"", "+", "-"} && (digits != "" ==> digits[0] != '+' && digits[0] != '-')
    ensures ParseInt64(sign + digits) ==
      match ParseDigits(digits)
      case None => None
      case Some(n) =>
        var magnitude: int := n;
        var value := if sign == "-" then -magnitude else magnitude;
        if -MAX_INT64 - 1 <= value <= MAX_INT64 then Some(value) else None
  {
    hide ParseDigits;
    if sign == "" {
      assert sign + digits == digits;
    } else {
      assert (sign + digits)[1..] == digits;
    }
  }

  /** The one supported range is "bytes=N-" with N a non-negative integer; any other header
      reads as no range. */
  lemma RangeStartExactly(header: string, number: string)
    ensures ParseRangeStart("bytes=" + number + "-") == NonNegative(ParseInt64(number))
    ensures (forall s: string :: header != "bytes=" + s + "-") ==> ParseRangeStart(header) == None
  {
    hide ParseInt64;
    var h := "bytes=" + number + "-";
    assert h[6..] == number + "-" && (number + "-")[..|number|] == number;
    if HasPrefix(header, "bytes=") && HasSuffix(header[6..], "-") {
      var s := header[6..][..|header| - 7];
      assert header == "bytes=" + s + "-";
    }
  }

  /** A Content-Range is read in two halves, at its last slash and the first dash before it:
      each is present exactly if it is a non-negative integer. */
  lemma ContentRangeExactly(first: string, last: string, complete: string)
    requires '-' !in first && '/' !in complete
    ensures ParseContentRange("bytes " + first + "-" + last + "/" + complete) ==
      ContentRange(if first == "" then None else NonNegative(ParseInt64(first)), NonNegative(ParseInt64(complete)))
  {
    hide ParseInt64;
    var rangePart := first + "-" + last;
    var header := "bytes " + first + "-" + last + "/" + complete;
    assert header[6..] == rangePart + "/" + complete;
    SplitAt(rangePart, '/', complete);
    assert header[6..][..|rangePart|] == rangePart && header[6..][|rangePart| + 1..] == complete;
    SplitAt(first, '-', last);
    assert rangePart[..|first|] == first;
  }

  /** Without a dash nothing says where the body starts; without a slash, or in another
      unit, the header says nothing. */
  lemma ContentRangeLacks(rangePart: string, complete: string, header: string)
    ensures '-' !in rangePart && '/' !in complete ==>
      ParseContentRange("bytes " + rangePart + "/" + complete) == ContentRange(None, NonNegative(ParseInt64(complete)))
    ensures !("bytes " <= header) || '/' !in header[6..] ==> ParseContentRange(header) == ContentRange(None, None)
  {
    hide ParseInt64;
    var h := "bytes " + rangePart + "/" + complete;
    assert h[6..] == rangePart + "/" + complete;
    SplitAt(rangePart, '/', complete);
    assert h[6..][..|rangePart|] == rangePart && h[6..][|rangePart| + 1..] == complete;
  }
}
