/**
 * Lexical layer of the REV text reader.
 *
 * The reader works on an immutable character buffer `s` with a cursor `p`
 * (an index into `s`; `|s|` plays the part of the `end` pointer). Every
 * reader here returns what it read together with the advanced cursor, or
 * `None` when it fails. Each concept has a reference function (`WsEnd`,
 * `U32At`, `FloatAt`, `LineAt`, `Trim`, `EolSkip`, `HeaderAt`) and a method
 * that computes it the way the reader does, with its loop.
 */
module RevLexer {
  import opened Wrappers

  /** `isspace` in the "C" locale: space, \t, \n, \v, \f, \r. */
  predicate IsSpace(c: char) { c == ' ' || '\t' <= c <= '\r' }

  predicate IsDigit(c: char) { '0' <= c <= '9' }

  /** The two characters trimmed from a chunk id line. */
  predicate IsBlank(c: char) { c == ' ' || c == '\t' }

  predicate IsSign(c: char) { c == '+' || c == '-' }

  predicate AllDigits(ds: string) { forall i :: 0 <= i < |ds| ==> IsDigit(ds[i]) }

  predicate AllBlank(t: string) { forall i :: 0 <= i < |t| ==> IsBlank(t[i]) }

  // ---------------------------------------------------------------- whitespace

  /** Where `skip_ws` leaves the cursor: the first non-space at or after `p`. */
  function WsEnd(s: string, p: nat): (q: nat)
    requires p <= |s|
    ensures p <= q <= |s|
    ensures forall i :: p <= i < q ==> IsSpace(s[i])
    ensures q == |s| || !IsSpace(s[q])
    decreases |s| - p
  {
    if p < |s| && IsSpace(s[p]) then WsEnd(s, p + 1) else p
  }

  method SkipWs(s: string, p: nat) returns (q: nat)
    requires p <= |s|
    ensures q == WsEnd(s, p)
  {
    q := p;
    while q < |s| && IsSpace(s[q])
      invariant p <= q <= |s|
      invariant WsEnd(s, q) == WsEnd(s, p)
      decreases |s| - q
    {
      q := q + 1;
    }
  }

  // ---------------------------------------------------------------- digits

  /** End of the run of decimal digits starting at `p`. */
  function DigitsEnd(s: string, p: nat): (q: nat)
    requires p <= |s|
    ensures p <= q <= |s|
    ensures forall i :: p <= i < q ==> IsDigit(s[i])
    ensures q == |s| || !IsDigit(s[q])
    decreases |s| - p
  {
    if p < |s| && IsDigit(s[p]) then DigitsEnd(s, p + 1) else p
  }

  function DigitValue(c: char): nat
    requires IsDigit(c)
  {
    c as int - '0' as int
  }

  /** Value of the decimal digits `s[a..e]`, most significant digit first. */
  function DigitsValue(s: string, a: nat, e: nat): nat
    requires a <= e <= |s| && forall i :: a <= i < e ==> IsDigit(s[i])
    decreases e - a
  {
    if e == a then 0 else DigitsValue(s, a, e - 1) * 10 + DigitValue(s[e - 1])
  }

  /** Scans the digit run at `p` and accumulates its value, as `strtoul` does. */
  method ScanDigits(s: string, p: nat) returns (q: nat, v: nat)
    requires p <= |s|
    ensures q == DigitsEnd(s, p)
    ensures v == DigitsValue(s, p, q)
  {
    q, v := p, 0;
    while q < |s| && IsDigit(s[q])
      invariant p <= q <= |s|
      invariant DigitsEnd(s, q) == DigitsEnd(s, p)
      invariant forall i :: p <= i < q ==> IsDigit(s[i])
      invariant v == DigitsValue(s, p, q)
      decreases |s| - q
    {
      v := v * 10 + DigitValue(s[q]);
      q := q + 1;
    }
  }

  // ---------------------------------------------------------------- read_u32

  const MaxU32: nat := 0xFFFF_FFFF

  /** The largest `unsigned long`, 64 bits wide. */
  const MaxULong: nat := 0xFFFF_FFFF_FFFF_FFFF

  /**
   * What `strtoul` returns for digits of value `v`, with a '-' before them
   * when `negative`: a value too large for `unsigned long` saturates to its
   * maximum, and a negated one wraps around modulo 2^64.
   */
  function UnsignedLong(negative: bool, v: nat): (r: nat)
    ensures r <= MaxULong
    ensures !negative && v <= MaxULong ==> r == v
  {
    if v > MaxULong then MaxULong
    else if negative && v > 0 then MaxULong + 1 - v
    else v
  }

  /**
   * `read_u32`: skip whitespace, then what `strtoul` reads in base 10 (an
   * optional sign and a non-empty run of decimal digits), accepted only
   * when the value it returns fits in 32 bits. Yields that value and the
   * cursor just after the digits.
   */
  function U32At(s: string, p: nat): (r: Option<(nat, nat)>)
    requires p <= |s|
    ensures r.Some? ==> r.value.0 <= MaxU32 && p < r.value.1 <= |s|
  {
    var q := WsEnd(s, p);
    if q >= |s| then None
    else
      var a := SignEnd(s, q);
      var e := DigitsEnd(s, a);
      if e == a then None
      else
        var v := UnsignedLong(s[q] == '-', DigitsValue(s, a, e));
        if v > MaxU32 then None else Some((v, e))
  }

  method ReadU32(s: string, p: nat) returns (r: Option<(nat, nat)>)
    requires p <= |s|
    ensures r == U32At(s, p)
  {
    var q := SkipWs(s, p);
    if q >= |s| {
      return None;
    }
    var a := if IsSign(s[q]) then q + 1 else q;
    var e, digits := ScanDigits(s, a);
    if e == a {
      return None;
    }
    var v := UnsignedLong(s[q] == '-', digits);
    if v > MaxU32 {
      return None;
    }
    return Some((v, e));
  }

  /**
   * Without a sign: `read_u32` fails at the end of the buffer, when no digit
   * follows the whitespace, and when the digits' value exceeds 0xFFFFFFFF;
   * otherwise it yields that value and the cursor after the digits.
   */
  lemma U32AtUnsigned(s: string, p: nat, q: nat)
    requires p <= q <= |s| && WsEnd(s, p) == q
    ensures q == |s| ==> U32At(s, p) == None
    ensures (q < |s| && !IsSign(s[q]) ==>
      var e := DigitsEnd(s, q);
      U32At(s, p) == if e == q then None else if DigitsValue(s, q, e) <= MaxU32 then Some((DigitsValue(s, q, e), e)) else None)
  {
  }

  /**
   * A sign before the digits: '+' keeps their value; '-' wraps it around
   * modulo 2^64, so "-0" reads as 0 while a negative number whose magnitude
   * is below 2^64 - 2^32 does not fit in 32 bits and fails.
   */
  lemma U32AtSigned(s: string, p: nat, q: nat, e: nat)
    requires p <= q && q + 1 < e <= |s|
    requires WsEnd(s, p) == q && IsSign(s[q]) && DigitsEnd(s, q + 1) == e
    ensures var v := DigitsValue(s, q + 1, e);
      && (s[q] == '+' ==> U32At(s, p) == if v <= MaxU32 then Some((v, e)) else None)
      && (s[q] == '-' && v == 0 ==> U32At(s, p) == Some((0, e)))
      && (s[q] == '-' && 0 < v < MaxULong + 1 - MaxU32 ==> U32At(s, p) == None)
  {
  }

  // ---------------------------------------------------------------- read_f32

  function Pow10(n: nat): (r: nat)
    ensures r >= 1
  {
    if n == 0 then 1 else 10 * Pow10(n - 1)
  }

  /** `x` times ten to the power `e`, for a signed exponent, one factor of ten at a time. */
  function Scale10(x: real, e: int): real
    decreases if e < 0 then -e else e
  {
    if e == 0 then x
    else if e > 0 then 10.0 * Scale10(x, e - 1)
    else Scale10(x, e + 1) / 10.0
  }

  /** Cursor after an optional '+' or '-' at `q`. */
  function SignEnd(s: string, q: nat): (r: nat)
    requires q <= |s|
    ensures q <= r <= |s| && r <= q + 1
  {
    if q < |s| && IsSign(s[q]) then q + 1 else q
  }

  /**
   * The digits of a decimal float after its sign, at `a`: an integer part
   * and an optional '.' with a fraction part, at least one digit in all.
   * Yields the unsigned value and the cursor after the last digit (or '.').
   */
  function MantissaAt(s: string, a: nat): (r: Option<(real, nat)>)
    requires a <= |s|
    ensures r.Some? ==> a < r.value.1 <= |s|
  {
    var ie := DigitsEnd(s, a);
    var fs := if ie < |s| && s[ie] == '.' then ie + 1 else ie;
    var fe := DigitsEnd(s, fs);
    if ie == a && fe == fs then None
    else Some((DigitsValue(s, a, ie) as real + Scale10(DigitsValue(s, fs, fe) as real, -(fe - fs)), fe))
  }

  method ScanMantissa(s: string, a: nat) returns (r: Option<(real, nat)>)
    requires a <= |s|
    ensures r == MantissaAt(s, a)
  {
    var ie, iv := ScanDigits(s, a);
    var fs := if ie < |s| && s[ie] == '.' then ie + 1 else ie;
    var fe, fv := ScanDigits(s, fs);
    if ie == a && fe == fs {
      return None;
    }
    return Some((iv as real + Scale10(fv as real, -(fe - fs)), fe));
  }

  /**
   * The optional exponent part at `q` of a decimal float: 'e' or 'E', an
   * optional sign and at least one digit. Yields (exponent, end); when no
   * digit follows, the part is absent and the result is (0, q).
   */
  function ExponentAt(s: string, q: nat): (r: (int, nat))
    requires q <= |s|
    ensures q <= r.1 <= |s|
  {
    if q < |s| && (s[q] == 'e' || s[q] == 'E') then
      var a := SignEnd(s, q + 1);
      var e := DigitsEnd(s, a);
      if e == a then (0, q)
      else
        var v := DigitsValue(s, a, e);
        (if s[q + 1] == '-' then -(v as int) else v, e)
    else (0, q)
  }

  method ScanExponent(s: string, q: nat) returns (ex: int, end: nat)
    requires q <= |s|
    ensures (ex, end) == ExponentAt(s, q)
  {
    ex, end := 0, q;
    if q < |s| && (s[q] == 'e' || s[q] == 'E') {
      var a := if q + 1 < |s| && IsSign(s[q + 1]) then q + 2 else q + 1;
      var e, v := ScanDigits(s, a);
      if e > a {
        ex, end := if s[q + 1] == '-' then -(v as int) else v, e;
      }
    }
  }

  /**
   * `read_f32` over the decimal syntax of `strtof`: skip whitespace, then an
   * optional sign, a mantissa and an optional exponent. Yields the exact
   * real value and the cursor after the token.
   */
  function FloatAt(s: string, p: nat): (r: Option<(real, nat)>)
    requires p <= |s|
    ensures r.Some? ==> p < r.value.1 <= |s|
  {
    var q := WsEnd(s, p);
    if q >= |s| then None
    else
      match MantissaAt(s, SignEnd(s, q))
      case None => None
      case Some((m, fe)) =>
        var (ex, end) := ExponentAt(s, fe);
        var magnitude := Scale10(m, ex);
        Some((if s[q] == '-' then -magnitude else magnitude, end))
  }

  method ReadF32(s: string, p: nat) returns (r: Option<(real, nat)>)
    requires p <= |s|
    ensures r == FloatAt(s, p)
  {
    var q := SkipWs(s, p);
    if q >= |s| {
      return None;
    }
    var m := ScanMantissa(s, if IsSign(s[q]) then q + 1 else q);
    if m.None? {
      return None;
    }
    var ex, end := ScanExponent(s, m.value.1);
    var magnitude := Scale10(m.value.0, ex);
    return Some((if s[q] == '-' then -magnitude else magnitude, end));
  }

  // ---------------------------------------------------------------- read_line

  /** A line read at the cursor: its text is `s[start..stop]`, and `next` is where reading resumes. */
  datatype Line = Line(start: nat, stop: nat, next: nat)

  /** The first '\n' at or after `p`, or `|s|` when there is none. */
  function NewlineFrom(s: string, p: nat): (e: nat)
    requires p <= |s|
    ensures p <= e <= |s|
    ensures forall i :: p <= i < e ==> s[i] != '\n'
    ensures e == |s| || s[e] == '\n'
    decreases |s| - p
  {
    if p < |s| && s[p] != '\n' then NewlineFrom(s, p + 1) else p
  }

  /**
   * `read_line`: fails only when the cursor is already at the end. Otherwise
   * the line runs from the cursor up to (not including) the next '\n', minus
   * one trailing '\r', and the cursor moves just past that '\n', or to the
   * end of the buffer when there is none.
   */
  function LineAt(s: string, p: nat): (r: Option<Line>)
    requires p <= |s|
    ensures r.Some? <==> p < |s|
    ensures r.Some? ==>
      && r.value.start == p <= r.value.stop <= |s|
      && p < r.value.next <= |s|
      && (forall i :: p <= i < r.value.stop ==> s[i] != '\n')
      && (r.value.next < |s| ==> s[r.value.next - 1] == '\n')
  {
    if p >= |s| then None
    else
      var e := NewlineFrom(s, p);
      Some(Line(p, if e > p && s[e - 1] == '\r' then e - 1 else e, if e < |s| then e + 1 else e))
  }

  function LineText(s: string, l: Line): string
    requires l.start <= l.stop <= |s|
  {
    s[l.start..l.stop]
  }

  method ReadLine(s: string, p: nat) returns (r: Option<Line>)
    requires p <= |s|
    ensures r == LineAt(s, p)
  {
    if p >= |s| {
      return None;
    }
    var e := p;
    while e < |s| && s[e] != '\n'
      invariant p <= e <= |s|
      invariant NewlineFrom(s, e) == NewlineFrom(s, p)
      decreases |s| - e
    {
      e := e + 1;
    }
    var stop := e;
    var next := e;
    if e < |s| && s[e] == '\n' {
      next := e + 1;
    }
    if stop > p && s[stop - 1] == '\r' {
      stop := stop - 1;
    }
    return Some(Line(p, stop, next));
  }

  /**
   * The optional line break the reader consumes after a record: when the
   * character at the cursor is '\r' or '\n', the rest of that line is read
   * and dropped; otherwise the cursor stays.
   */
  function EolSkip(s: string, p: nat): (q: nat)
    requires p <= |s|
    ensures p <= q <= |s|
  {
    if p < |s| && (s[p] == '\r' || s[p] == '\n') then LineAt(s, p).value.next else p
  }

  method SkipEol(s: string, p: nat) returns (q: nat)
    requires p <= |s|
    ensures q == EolSkip(s, p)
  {
    q := p;
    if p < |s| && (s[p] == '\r' || s[p] == '\n') {
      var l := ReadLine(s, p);
      q := l.value.next;
    }
  }

  // ---------------------------------------------------------------- to_string_trim

  /** First index at or after `i` that is not a blank. */
  function BlanksEnd(t: string, i: nat): (j: nat)
    requires i <= |t|
    ensures i <= j <= |t|
    ensures forall k :: i <= k < j ==> IsBlank(t[k])
    ensures j == |t| || !IsBlank(t[j])
    decreases |t| - i
  {
    if i < |t| && IsBlank(t[i]) then BlanksEnd(t, i + 1) else i
  }

  /** Start of the run of blanks that ends at `j`, not going below `lo`. */
  function BlanksStart(t: string, lo: nat, j: nat): (i: nat)
    requires lo <= j <= |t|
    ensures lo <= i <= j
    ensures forall k :: i <= k < j ==> IsBlank(t[k])
    ensures i == lo || !IsBlank(t[i - 1])
    decreases j - lo
  {
    if j > lo && IsBlank(t[j - 1]) then BlanksStart(t, lo, j - 1) else j
  }

  /** The chunk id line with its leading and trailing spaces and tabs removed. */
  function Trim(t: string): (r: string)
    ensures |r| <= |t|
    ensures r == [] || (!IsBlank(r[0]) && !IsBlank(r[|r| - 1]))
  {
    var a := BlanksEnd(t, 0);
    t[a..BlanksStart(t, a, |t|)]
  }

  method TrimBlanks(t: string) returns (r: string)
    ensures r == Trim(t)
  {
    var a := 0;
    while a < |t| && IsBlank(t[a])
      invariant 0 <= a <= |t|
      invariant BlanksEnd(t, a) == BlanksEnd(t, 0)
      decreases |t| - a
    {
      a := a + 1;
    }
    var b := |t|;
    while b > a && IsBlank(t[b - 1])
      invariant a <= b <= |t|
      invariant BlanksStart(t, a, b) == BlanksStart(t, a, |t|)
      decreases b
    {
      b := b - 1;
    }
    r := t[a..b];
  }

  // ---------------------------------------------------------------- read_chunk_header_txt

  /**
   * A chunk header: an id line (trimmed), then two unsigned integers read
   * with `read_u32`, then one line ending consumed only when it comes
   * immediately after the second integer. The integers are read and
   * dropped. Yields the id and the cursor after the header.
   */
  function HeaderAt(s: string, p: nat): (r: Option<(string, nat)>)
    requires p <= |s|
    ensures r.Some? ==> p < r.value.1 <= |s|
  {
    match LineAt(s, p)
    case None => None
    case Some(l) =>
      match U32At(s, l.next)
      case None => None
      case Some((_, q1)) =>
        match U32At(s, q1)
        case None => None
        case Some((_, q2)) => Some((Trim(LineText(s, l)), EolSkip(s, q2)))
  }

  /**
   * The line ending after a header is consumed only when it is the very next
   * character after the second integer. Anything else there, a trailing space
   * included, stays unread, and the cursor stops right after the integer.
   */
  lemma HeaderEolOnlyAdjacent(s: string, p: nat, l: Line, u0: nat, q1: nat, u1: nat, q2: nat)
    requires p <= |s| && LineAt(s, p) == Some(l)
    requires U32At(s, l.next) == Some((u0, q1)) && U32At(s, q1) == Some((u1, q2))
    ensures (q2 < |s| && (s[q2] == '\r' || s[q2] == '\n') ==>
      HeaderAt(s, p) == Some((Trim(LineText(s, l)), LineAt(s, q2).value.next)))
    ensures !(q2 < |s| && (s[q2] == '\r' || s[q2] == '\n')) ==> HeaderAt(s, p) == Some((Trim(LineText(s, l)), q2))
  {
  }

  /**
   * "HEAD\n 1 1 \nab": the space after the second integer keeps the line
   * ending unread, so the header ends at index 9 and the next line read
   * there is " ".
   */
  lemma HeaderTrailingSpace()
    ensures HeaderAt("HEAD\n 1 1 \nab", 0) == Some(("HEAD", 9))
    ensures LineAt("HEAD\n 1 1 \nab", 9) == Some(Line(9, 10, 11))
  {
    TrailingSpaceIdLine();
    TrailingSpaceNumbers();
    HeaderEolOnlyAdjacent("HEAD\n 1 1 \nab", 0, Line(0, 4, 5), 1, 7, 1, 9);
    assert NewlineFrom("HEAD\n 1 1 \nab", 9) == 10;
  }

  lemma TrailingSpaceIdLine()
    ensures LineAt("HEAD\n 1 1 \nab", 0) == Some(Line(0, 4, 5))
    ensures Trim(LineText("HEAD\n 1 1 \nab", Line(0, 4, 5))) == "HEAD"
  {
    assert NewlineFrom("HEAD\n 1 1 \nab", 0) == 4;
    assert LineText("HEAD\n 1 1 \nab", Line(0, 4, 5)) == "HEAD";
    assert BlanksEnd("HEAD", 0) == 0 && BlanksStart("HEAD", 0, 4) == 4;
  }

  lemma TrailingSpaceNumbers()
    ensures U32At("HEAD\n 1 1 \nab", 5) == Some((1, 7))
    ensures U32At("HEAD\n 1 1 \nab", 7) == Some((1, 9))
  {
    assert WsEnd("HEAD\n 1 1 \nab", 5) == 6 && DigitsEnd("HEAD\n 1 1 \nab", 6) == 7;
    assert WsEnd("HEAD\n 1 1 \nab", 7) == 8 && DigitsEnd("HEAD\n 1 1 \nab", 8) == 9;
  }

  method ReadChunkHeader(s: string, p: nat) returns (r: Option<(string, nat)>)
    requires p <= |s|
    ensures r == HeaderAt(s, p)
  {
    var l := ReadLine(s, p);
    if l.None? {
      return None;
    }
    var id := TrimBlanks(LineText(s, l.value));
    var u0 := ReadU32(s, l.value.next);
    if u0.None? {
      return None;
    }
    var u1 := ReadU32(s, u0.value.1);
    if u1.None? {
      return None;
    }
    var q := SkipEol(s, u1.value.1);
    return Some((id, q));
  }
}
