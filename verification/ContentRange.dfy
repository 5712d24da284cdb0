/**
 The `Range` request value and the `Content-Range` parser of the download client, and the language
 the parser accepts (section 14.4 of RFC 9110).
 */
module ContentRange {
  import opened Basics

  // ---- Rust's string functions ----

  /** `char::is_whitespace`: the Unicode property White_Space. */
  predicate IsSpace(c: char) {
    var n := c as int;
    || 0x09 <= n <= 0x0D || n == 0x20 || n == 0x85 || n == 0xA0 || n == 0x1680
    || 0x2000 <= n <= 0x200A || n == 0x2028 || n == 0x2029 || n == 0x202F || n == 0x205F || n == 0x3000
  }

  function TrimStart(s: string): string {
    if s != [] && IsSpace(s[0]) then TrimStart(s[1..]) else s
  }

  function TrimEnd(s: string): string {
    if s != [] && IsSpace(s[|s| - 1]) then TrimEnd(s[..|s| - 1]) else s
  }

  function Trim(s: string): string {
    TrimEnd(TrimStart(s))
  }

  /** `split_once`: what is before and after the first `c`. */
  function SplitOnce(s: string, c: char): Option<(string, string)> {
    if s == [] then None
    else if s[0] == c then Some(([], s[1..]))
    else
      match SplitOnce(s[1..], c)
      case None => None
      case Some((a, b)) => Some(([s[0]] + a, b))
  }

  predicate IsDigit(c: char) {
    '0' <= c <= '9'
  }

  function DigitValue(c: char): nat
    requires IsDigit(c)
  {
    c as int - '0' as int
  }

  /** Decimal digits, most significant first; `None` when a digit is bad or the value leaves `u64`. */
  function ParseDigits(s: string): Option<u64> {
    if s == [] then Some(0)
    else
      match ParseDigits(s[..|s| - 1])
      case None => None
      case Some(high) =>
        var c := s[|s| - 1];
        if IsDigit(c) && high * 10 + DigitValue(c) < U64_LIMIT then Some(high * 10 + DigitValue(c)) else None
  }

  /** `str::parse::<u64>`: an optional plus sign and at least one digit. */
  function ParseU64(s: string): Option<u64> {
    var digits := if s != [] && s[0] == '+' then s[1..] else s;
    if digits == [] then None else ParseDigits(digits)
  }

  // ---- the parser ----

  datatype Range = Range(start: u64, end: u64, total: Option<u64>)

  function ParseTotal(s: string): Result<Option<u64>> {
    if s == "*" then Ok(None)
    else
      match ParseU64(s)
      case None => Err(InvalidRange)
      case Some(t) => Ok(Some(t))
  }

  /** `start-end`, with `start <= end`. */
  function ParseBounds(s: string): Result<(u64, u64)> {
    match SplitOnce(s, '-')
    case None => Err(InvalidRange)
    case Some((startPart, endPart)) =>
      match (ParseU64(Trim(startPart)), ParseU64(Trim(endPart)))
      case (Some(start), Some(end)) => if end < start then Err(InvalidRange) else Ok((start, end))
      case _ => Err(InvalidRange)
  }

  function ParseRangeAndTotal(s: string): Result<Range> {
    match SplitOnce(s, '/')
    case None => Err(InvalidRange)
    case Some((rangePart, totalPart)) =>
      match (ParseBounds(Trim(rangePart)), ParseTotal(Trim(totalPart)))
      case (Ok((start, end)), Ok(total)) => Ok(Range(start, end, total))
      case _ => Err(InvalidRange)
  }

  function ParseContentRange(value: string): Result<Range> {
    var s := Trim(value);
    var (unitPart, rest) := match SplitOnce(s, ' ') case None => (s, "") case Some(p) => p;
    var rangeAndTotal := Trim(rest);
    if Trim(unitPart) != "bytes" || rangeAndTotal == [] then Err(InvalidRange)
    else ParseRangeAndTotal(rangeAndTotal)
  }

  // ---- the language it accepts ----

  ghost predicate Blank(w: string) {
    forall i :: 0 <= i < |w| ==> IsSpace(w[i])
  }

  predicate AllDigits(s: string) {
    forall i :: 0 <= i < |s| ==> IsDigit(s[i])
  }

  /** The number that decimal digits stand for, however large. */
  function Value(s: string): nat
    requires AllDigits(s)
  {
    if s == [] then 0 else 10 * Value(s[..|s| - 1]) + DigitValue(s[|s| - 1])
  }

  function Unsigned(s: string): string {
    if s != [] && s[0] == '+' then s[1..] else s
  }

  /** A 64-bit number: perhaps a plus sign, then at least one digit, with a value below 2^64. */
  ghost predicate Numeral(s: string, n: u64) {
    var digits := Unsigned(s);
    digits != [] && AllDigits(digits) && Value(digits) == n
  }

  ghost predicate TotalText(s: string, total: Option<u64>) {
    match total
    case None => s == "*"
    case Some(t) => Numeral(s, t)
  }

  /** A header value cut into its parts: the tokens and the blanks around each of them. */
  datatype Parts = Parts(b0: string, b1: string, b2: string, start: string, b3: string, b4: string, end: string,
                         b5: string, b6: string, total: string, b7: string)

  function Render(p: Parts): string {
    p.b0 + "bytes" + p.b1 + " " + p.b2 + p.start + p.b3 + "-" + p.b4 + p.end + p.b5 + "/" + p.b6 + p.total + p.b7
  }

  /** `bytes start-end/total` with blanks anywhere around the tokens; the unit ends at the first space. */
  ghost predicate Denotes(p: Parts, r: Range) {
    && Blank(p.b0) && Blank(p.b1) && Blank(p.b2) && Blank(p.b3) && Blank(p.b4) && Blank(p.b5) && Blank(p.b6)
    && Blank(p.b7)
    && ' ' !in p.b1
    && Numeral(p.start, r.start) && Numeral(p.end, r.end) && TotalText(p.total, r.total)
    && r.start <= r.end
  }

  // ---- trimming and splitting ----

  lemma {:induction false} TrimStartBlank(w: string, x: string)
    requires Blank(w) && x != [] && !IsSpace(x[0])
    ensures TrimStart(w + x) == x
  {
    if w == [] {
      assert w + x == x;
    } else {
      assert (w + x)[1..] == w[1..] + x;
      TrimStartBlank(w[1..], x);
    }
  }

  lemma {:induction false} TrimEndBlank(x: string, w: string)
    requires Blank(w) && x != [] && !IsSpace(x[|x| - 1])
    ensures TrimEnd(x + w) == x
  {
    if w == [] {
      assert x + w == x;
    } else {
      assert (x + w)[..|x + w| - 1] == x + w[..|w| - 1];
      TrimEndBlank(x, w[..|w| - 1]);
    }
  }

  lemma TrimBlanks(w: string, x: string, w': string)
    requires Blank(w) && Blank(w') && x != [] && !IsSpace(x[0]) && !IsSpace(x[|x| - 1])
    ensures Trim(w + x + w') == x
  {
    assert w + x + w' == w + (x + w');
    TrimStartBlank(w, x + w');
    TrimEndBlank(x, w');
  }

  lemma {:induction false} TrimStartParts(s: string) returns (w: string)
    ensures Blank(w) && s == w + TrimStart(s)
  {
    if s != [] && IsSpace(s[0]) {
      w := TrimStartParts(s[1..]);
      w := [s[0]] + w;
    } else {
      w := [];
      assert TrimStart(s) == s && s == w + s;
    }
  }

  lemma {:induction false} TrimEndParts(s: string) returns (w: string)
    ensures Blank(w) && s == TrimEnd(s) + w
  {
    if s != [] && IsSpace(s[|s| - 1]) {
      w := TrimEndParts(s[..|s| - 1]);
      w := w + [s[|s| - 1]];
    } else {
      w := [];
    }
  }

  lemma TrimParts(s: string) returns (w: string, w': string)
    ensures Blank(w) && Blank(w') && s == w + Trim(s) + w'
  {
    w := TrimStartParts(s);
    w' := TrimEndParts(TrimStart(s));
  }

  lemma {:induction false} SplitAt(a: string, c: char, b: string)
    requires c !in a
    ensures SplitOnce(a + [c] + b, c) == Some((a, b))
  {
    var s := a + [c] + b;
    if a == [] {
      assert s[1..] == b;
    } else {
      assert s[1..] == a[1..] + [c] + b;
      SplitAt(a[1..], c, b);
      assert s[0] == a[0] && a[0] != c && [a[0]] + a[1..] == a;
    }
  }

  lemma {:induction false} SplitParts(s: string, c: char)
    requires SplitOnce(s, c).Some?
    ensures var (a, b) := SplitOnce(s, c).value; c !in a && s == a + [c] + b
  {
    if s[0] == c {
    } else {
      SplitParts(s[1..], c);
    }
  }

  // ---- numbers ----

  predicate NumberChar(c: char) {
    IsDigit(c) || c == '+'
  }

  /** Overflow at some prefix is overflow of the whole number. */
  lemma {:induction false} ParsedDigits(s: string)
    ensures ParseDigits(s) == if AllDigits(s) && Value(s) < U64_LIMIT then Some(Value(s)) else None
  {
    if s != [] {
      var high := s[..|s| - 1];
      ParsedDigits(high);
      assert AllDigits(s) <==> AllDigits(high) && IsDigit(s[|s| - 1]);
    }
  }

  /** The library's number parser reads exactly the numerals. */
  lemma ParsesNumerals(s: string, n: u64)
    ensures ParseU64(s) == Some(n) <==> Numeral(s, n)
  {
    ParsedDigits(Unsigned(s));
  }

  lemma NumeralChars(s: string, n: u64)
    requires Numeral(s, n)
    ensures s != [] && forall i :: 0 <= i < |s| ==> NumberChar(s[i])
  {
    assert forall i :: 0 < i < |s| ==> s[0] == '+' ==> s[i] == Unsigned(s)[i - 1];
  }

  function PrintU64(n: nat): string {
    var digit := ['0' + (n % 10) as char];
    if n < 10 then digit else PrintU64(n / 10) + digit
  }

  lemma {:induction false} PrintedDigits(n: u64)
    ensures ParseDigits(PrintU64(n)) == Some(n) && PrintU64(n) != [] && PrintU64(n)[0] != '+'
  {
    var s := PrintU64(n);
    if n < 10 {
      assert s[..|s| - 1] == [];
    } else {
      PrintedDigits(n / 10);
      assert s[..|s| - 1] == PrintU64(n / 10);
    }
  }

  lemma PrintedIsNumeral(n: u64)
    ensures Numeral(PrintU64(n), n)
  {
    PrintedDigits(n);
    ParsesNumerals(PrintU64(n), n);
  }

  // ---- the parser accepts exactly the language ----

  lemma AcceptsBounds(p: Parts, r: Range)
    requires Denotes(p, r)
    ensures ParseBounds(p.start + p.b3 + "-" + (p.b4 + p.end)) == Ok((r.start, r.end))
  {
    hide IsSpace, ParseU64, SplitOnce, Trim, Numeral;
    SpaceChars();
    NumeralChars(p.start, r.start);
    NumeralChars(p.end, r.end);
    ParsesNumerals(p.start, r.start);
    ParsesNumerals(p.end, r.end);
    SplitAt(p.start + p.b3, '-', p.b4 + p.end);
    TrimBlanks([], p.start, p.b3);
    TrimBlanks(p.b4, p.end, []);
    assert [] + p.start + p.b3 == p.start + p.b3 && p.b4 + p.end + [] == p.b4 + p.end;
  }

  /** The middle of a header value: from the first to the last token after the unit. */
  function Middle(p: Parts): string {
    (p.start + p.b3 + "-" + (p.b4 + p.end)) + p.b5 + "/" + (p.b6 + p.total)
  }

  lemma AcceptsMiddle(p: Parts, r: Range)
    requires Denotes(p, r)
    ensures ParseRangeAndTotal(Middle(p)) == Ok(r)
    ensures Middle(p) != [] && !IsSpace(Middle(p)[0]) && !IsSpace(Middle(p)[|Middle(p)| - 1])
  {
    hide IsSpace, ParseU64, SplitOnce, Trim, ParseBounds;
    SpaceChars();
    NumeralChars(p.start, r.start);
    NumeralChars(p.end, r.end);
    TotalChars(p.total, r.total);
    AcceptsBounds(p, r);
    var x := p.start + p.b3 + "-" + (p.b4 + p.end);
    SplitAt(x + p.b5, '/', p.b6 + p.total);
    TrimBlanks([], x, p.b5);
    TrimBlanks(p.b6, p.total, []);
    assert [] + x + p.b5 == x + p.b5 && p.b6 + p.total + [] == p.b6 + p.total;
  }

  lemma Accepts(p: Parts, r: Range)
    requires Denotes(p, r)
    ensures ParseContentRange(Render(p)) == Ok(r)
  {
    hide IsSpace, ParseU64, SplitOnce, Trim, ParseRangeAndTotal, Middle, Numeral, TotalText;
    SpaceChars();
    AcceptsMiddle(p, r);
    var m := Middle(p);
    var c := ("bytes" + p.b1) + " " + (p.b2 + m);
    RenderAround(p);
    TrimBlanks(p.b0, c, p.b7);
    SplitAt("bytes" + p.b1, ' ', p.b2 + m);
    TrimBlanks([], "bytes", p.b1);
    TrimBlanks(p.b2, m, []);
    assert [] + "bytes" + p.b1 == "bytes" + p.b1 && p.b2 + m + [] == p.b2 + m;
  }

  lemma RenderAround(p: Parts)
    ensures Render(p) == p.b0 + (("bytes" + p.b1) + " " + (p.b2 + Middle(p))) + p.b7
  {}

  lemma SpaceChars()
    ensures forall c :: NumberChar(c) || c == '/' || c == '-' || c == '*' || c == 'b' || c == 's' ==> !IsSpace(c)
  {}

  lemma TotalChars(s: string, total: Option<u64>)
    requires TotalText(s, total)
    ensures s != [] && forall i :: 0 <= i < |s| ==> NumberChar(s[i]) || s[i] == '*'
    ensures ParseTotal(s) == Ok(total)
  {
    if total.Some? {
      NumeralChars(s, total.value);
      ParsesNumerals(s, total.value);
    }
  }

  lemma AcceptedBounds(s: string)
    returns (b3: string, b4: string, start: string, end: string, before: string, after: string)
    requires ParseBounds(s).Ok?
    ensures Blank(before) && Blank(b3) && Blank(b4) && Blank(after)
    ensures Numeral(start, ParseBounds(s).value.0) && Numeral(end, ParseBounds(s).value.1)
    ensures ParseBounds(s).value.0 <= ParseBounds(s).value.1
    ensures s == before + start + b3 + "-" + b4 + end + after
  {
    hide ParseU64, SplitOnce, Trim, Numeral;
    SplitParts(s, '-');
    var (startPart, endPart) := SplitOnce(s, '-').value;
    start, end := Trim(startPart), Trim(endPart);
    ParsesNumerals(start, ParseBounds(s).value.0);
    ParsesNumerals(end, ParseBounds(s).value.1);
    before, b3 := TrimParts(startPart);
    b4, after := TrimParts(endPart);
  }

  lemma BlankAppend(a: string, b: string)
    requires Blank(a) && Blank(b)
    ensures Blank(a + b)
  {}

  /** `start-end/total`, with blanks before and after it. */
  lemma AcceptedMiddle(s: string) returns (p: Parts)
    requires ParseRangeAndTotal(s).Ok?
    ensures Denotes(p, ParseRangeAndTotal(s).value)
    ensures s == p.b2 + Middle(p) + p.b7
  {
    hide ParseU64, SplitOnce, Trim, ParseBounds, Blank, Numeral, ParseTotal;
    SplitParts(s, '/');
    var (rangePart, totalPart) := SplitOnce(s, '/').value;
    var x0, x1 := TrimParts(rangePart);
    var b6, t1 := TrimParts(totalPart);
    var b3, b4, start, end, s0, e1 := AcceptedBounds(Trim(rangePart));
    AcceptedTotal(Trim(totalPart));
    BlankAppend(x0, s0);
    BlankAppend(e1, x1);
    NothingIsBlank();
    p := Parts("", "", x0 + s0, start, b3, b4, end, e1 + x1, b6, Trim(totalPart), t1);
    var bounds := start + b3 + "-" + (b4 + end);
    assert Trim(rangePart) == s0 + bounds + e1;
    assert rangePart == x0 + s0 + bounds + (e1 + x1);
    assert totalPart == b6 + Trim(totalPart) + t1;
    AroundMiddle(p, bounds, rangePart, totalPart);
  }

  lemma AroundMiddle(p: Parts, bounds: string, rangePart: string, totalPart: string)
    requires bounds == p.start + p.b3 + "-" + (p.b4 + p.end)
    requires rangePart == p.b2 + bounds + p.b5 && totalPart == p.b6 + p.total + p.b7
    ensures rangePart + "/" + totalPart == p.b2 + Middle(p) + p.b7
  {
    assert Middle(p) == bounds + p.b5 + "/" + (p.b6 + p.total);
  }

  lemma NothingIsBlank()
    ensures Blank("")
  {}

  /** Every accepted header value has the form of the language, and means what was read from it. */
  lemma Accepted(value: string) returns (p: Parts)
    requires ParseContentRange(value).Ok?
    ensures Render(p) == value && Denotes(p, ParseContentRange(value).value)
  {
    hide ParseU64, SplitOnce, Trim, ParseRangeAndTotal, Blank, Numeral, TotalText, Middle, Render;
    var s := Trim(value);
    var v0, v7 := TrimParts(value);
    NothingTrimmed();
    SplitParts(s, ' ');
    var (unitPart, rest) := SplitOnce(s, ' ').value;
    var u0, b1 := TrimParts(unitPart);
    var r0, r1 := TrimParts(rest);
    var q := AcceptedMiddle(Trim(rest));
    p := q.(b0 := v0 + u0, b1 := b1, b2 := r0 + q.b2, b7 := q.b7 + r1 + v7);
    BlankAppend(v0, u0);
    BlankAppend(r0, q.b2);
    BlankAppend(q.b7, r1);
    BlankAppend(q.b7 + r1, v7);
    SameMiddle(p, q);
    RenderAround(p);
    var m := Middle(p);
    assert rest == p.b2 + m + (q.b7 + r1);
    assert s == u0 + "bytes" + b1 + " " + rest;
    assert value == p.b0 + (("bytes" + p.b1) + " " + (p.b2 + m)) + p.b7;
  }

  lemma SameMiddle(p: Parts, q: Parts)
    requires p == q.(b0 := p.b0, b1 := p.b1, b2 := p.b2, b7 := p.b7)
    ensures Middle(p) == Middle(q)
  {}

  lemma NothingTrimmed()
    ensures Trim("") == ""
  {}

  lemma AcceptedTotal(s: string)
    requires ParseTotal(s).Ok?
    ensures TotalText(s, ParseTotal(s).value)
  {
    hide ParseU64, Numeral;
    if s != "*" {
      ParsesNumerals(s, ParseTotal(s).value.value);
    }
  }

  /** The parser accepts a header value, with a given meaning, iff the language gives it that meaning. */
  lemma ParsesExactlyTheLanguage(value: string, r: Range)
    ensures ParseContentRange(value) == Ok(r) <==> exists p :: Render(p) == value && Denotes(p, r)
  {
    hide ParseContentRange, Render, Denotes;
    if ParseContentRange(value) == Ok(r) {
      var p := Accepted(value);
    }
    forall p | Render(p) == value && Denotes(p, r) ensures ParseContentRange(value) == Ok(r) {
      Accepts(p, r);
    }
  }

  /** What a server prints, `b` around each token included, is read back exactly. */
  lemma RoundTrip(r: Range, b: Parts)
    requires r.start <= r.end
    requires Blank(b.b0) && Blank(b.b1) && Blank(b.b2) && Blank(b.b3) && Blank(b.b4) && Blank(b.b5) && Blank(b.b6)
    requires Blank(b.b7)
    requires ' ' !in b.b1
    ensures var total := if r.total.None? then "*" else PrintU64(r.total.value);
            ParseContentRange(Render(b.(start := PrintU64(r.start), end := PrintU64(r.end), total := total))) == Ok(r)
  {
    hide ParseU64, ParseContentRange, Blank, PrintU64;
    PrintedIsNumeral(r.start);
    PrintedIsNumeral(r.end);
    if r.total.Some? {
      PrintedIsNumeral(r.total.value);
    }
    var total := if r.total.None? then "*" else PrintU64(r.total.value);
    Accepts(b.(start := PrintU64(r.start), end := PrintU64(r.end), total := total), r);
  }

  // ---- the requested range ----

  /** The last byte that a chunk of a known total asks for, in wrapping `u64` arithmetic. */
  function LastAsked(start: u64, chunkSize: u64, total: u64): u64
    requires total > 0
  {
    var last := (start + chunkSize - 1) % U64_LIMIT;
    if last < total - 1 then last else total - 1
  }

  function RangeSpec(start: u64, chunkSize: u64, total: u64): string {
    if total == 0 then "bytes=" + PrintU64(start) + "-"
    else "bytes=" + PrintU64(start) + "-" + PrintU64(LastAsked(start, chunkSize, total))
  }

  /** The header value that asks for the `length` bytes from `start`. */
  function Asks(start: nat, length: nat): string
    requires 1 <= length
  {
    "bytes=" + PrintU64(start) + "-" + PrintU64(start + length - 1)
  }

  lemma PrintsApart(m: u64, n: u64)
    ensures PrintU64(m) == PrintU64(n) ==> m == n
  {
    PrintedDigits(m);
    PrintedDigits(n);
  }

  lemma SameTail(a: string, b: string, c: string)
    ensures a + b == a + c <==> b == c
  {
    assert (a + b)[|a|..] == b && (a + c)[|a|..] == c;
  }

  /**
   For an offset before the end, the request asks for the next `min(chunkSize, total - start)` bytes
   iff `start + chunkSize - 1` does not overflow; if it does, the range ends before it begins.
   */
  lemma RequestedRange(start: u64, chunkSize: u64, total: u64)
    requires start < total && 1 <= chunkSize
    ensures var length := if chunkSize < total - start then chunkSize else total - start;
            RangeSpec(start, chunkSize, total) == Asks(start, length) <==> start + chunkSize - 1 < U64_LIMIT
    ensures start + chunkSize - 1 >= U64_LIMIT ==> LastAsked(start, chunkSize, total) < start
  {
    hide PrintU64;
    var length := if chunkSize < total - start then chunkSize else total - start;
    var last := LastAsked(start, chunkSize, total);
    PrintsApart(last, start + length - 1);
    SameTail("bytes=" + PrintU64(start) + "-", PrintU64(last), PrintU64(start + length - 1));
  }
}
