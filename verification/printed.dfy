/**
 * What a REV producer prints, and the proof that the lexical layer reads it
 * back: decimal integers, integer-valued floats, lines, and chunk headers
 * written as "%s\n%6u%6u\n".
 */
module RevPrinted {
  import opened Wrappers
  import opened RevLexer

  function DigitChar(d: nat): (c: char)
    requires d < 10
    ensures IsDigit(c) && DigitValue(c) == d
  {
    ('0' as int + d) as char
  }

  /** `n` in decimal, without leading zeros. */
  function Decimal(n: nat): (r: string)
    ensures 1 <= |r| && AllDigits(r)
    decreases n
  {
    if n < 10 then [DigitChar(n)] else Decimal(n / 10) + [DigitChar(n % 10)]
  }

  function Spaces(k: nat): (r: string)
    ensures |r| == k && forall i :: 0 <= i < k ==> r[i] == ' '
  {
    seq(k, _ => ' ')
  }

  /** A number printed with "%6u": right-aligned in six columns, never truncated. */
  function Field6(n: nat): string
  {
    var d := Decimal(n);
    Spaces(if |d| < 6 then 6 - |d| else 0) + d
  }

  /** A chunk header as the producer writes it: the id line, then "%6u%6u\n". */
  function HeaderText(id: string, u0: nat, u1: nat): string
  {
    id + "\n" + Field6(u0) + Field6(u1) + "\n"
  }

  /** Value of a string of decimal digits, most significant digit first. */
  function DecValue(ds: string): nat
    requires AllDigits(ds)
  {
    if ds == [] then 0 else DecValue(ds[..|ds| - 1]) * 10 + DigitValue(ds[|ds| - 1])
  }

  /** The digits between two cursors have the value of the digit string they form. */
  lemma {:induction false} DigitsValueOfSlice(s: string, a: nat, e: nat)
    requires a <= e <= |s| && forall i :: a <= i < e ==> IsDigit(s[i])
    ensures AllDigits(s[a..e]) && DigitsValue(s, a, e) == DecValue(s[a..e])
    decreases e - a
  {
    if e > a {
      DigitsValueOfSlice(s, a, e - 1);
      assert s[a..e][..e - 1 - a] == s[a..e - 1];
    }
  }

  lemma {:induction false} DecValueOfDecimal(n: nat)
    ensures DecValue(Decimal(n)) == n
    decreases n
  {
    var d := Decimal(n);
    if n < 10 {
      assert d[..0] == [];
    } else {
      assert d[..|d| - 1] == Decimal(n / 10);
      DecValueOfDecimal(n / 10);
    }
  }

  lemma {:induction false} DecimalLength(n: nat, k: nat)
    requires 1 <= k && n < Pow10(k)
    ensures |Decimal(n)| <= k
    decreases n
  {
    if n >= 10 {
      DecimalLength(n / 10, k - 1);
    }
  }

  /** The layout of a printed number: `pad` spaces, then the digits of `n`, then `post`. */
  lemma PrintedLayout(pre: string, pad: nat, n: nat, post: string)
    ensures var s := pre + Spaces(pad) + Decimal(n) + post;
      var a, e := |pre| + pad, |pre| + pad + |Decimal(n)|;
      && e <= |s|
      && (forall i :: |pre| <= i < a ==> IsSpace(s[i]))
      && (forall i :: a <= i < e ==> IsDigit(s[i]))
      && s[a..e] == Decimal(n)
      && (e < |s| ==> s[e] == post[0])
  {
    var s := pre + Spaces(pad) + Decimal(n) + post;
    var a, e := |pre| + pad, |pre| + pad + |Decimal(n)|;
    assert s[a..e] == Decimal(n);
    forall i | a <= i < e ensures IsDigit(s[i]) {
      assert s[i] == Decimal(n)[i - a];
    }
    forall i | |pre| <= i < a ensures IsSpace(s[i]) {
      assert s[i] == Spaces(pad)[i - |pre|];
    }
  }

  /**
   * Spaces from `p` to `a`, then digits from `a` to `e`: `read_u32` yields
   * their value when it fits in 32 bits, and fails otherwise.
   */
  lemma U32AtDigits(s: string, p: nat, a: nat, e: nat)
    requires p <= a < e <= |s|
    requires forall i :: p <= i < a ==> IsSpace(s[i])
    requires forall i :: a <= i < e ==> IsDigit(s[i])
    requires e == |s| || !IsDigit(s[e])
    requires AllDigits(s[a..e])
    ensures U32At(s, p) == if DecValue(s[a..e]) <= MaxU32 then Some((DecValue(s[a..e]), e)) else None
  {
    DigitsValueOfSlice(s, a, e);
    assert IsDigit(s[a]);
    assert WsEnd(s, p) == a;
    assert DigitsEnd(s, a) == e;
  }

  /**
   * A decimal integer after `pad` spaces reads back with `read_u32` when it
   * fits in 32 bits; a larger one fails.
   */
  lemma U32AtPrinted(pre: string, pad: nat, n: nat, post: string)
    requires post == [] || !IsDigit(post[0])
    ensures var s := pre + Spaces(pad) + Decimal(n) + post;
      U32At(s, |pre|) == if n <= MaxU32 then Some((n, |pre| + pad + |Decimal(n)|)) else None
  {
    var s := pre + Spaces(pad) + Decimal(n) + post;
    PrintedLayout(pre, pad, n, post);
    DecValueOfDecimal(n);
    U32AtDigits(s, |pre|, |pre| + pad, |pre| + pad + |Decimal(n)|);
  }

  /**
   * Spaces from `p` to `a`, then digits from `a` to `e` and nothing that
   * continues a float: `read_f32` yields their value as a real.
   */
  lemma FloatAtDigits(s: string, p: nat, a: nat, e: nat)
    requires p <= a < e <= |s|
    requires forall i :: p <= i < a ==> IsSpace(s[i])
    requires forall i :: a <= i < e ==> IsDigit(s[i])
    requires e == |s| || !(IsDigit(s[e]) || s[e] in ".eE")
    requires AllDigits(s[a..e])
    ensures FloatAt(s, p) == Some((DecValue(s[a..e]) as real, e))
  {
    DigitsValueOfSlice(s, a, e);
    assert IsDigit(s[a]);
    assert WsEnd(s, p) == a;
    assert SignEnd(s, a) == a;
    assert DigitsEnd(s, a) == e;
    assert DigitsEnd(s, e) == e;
    assert s[e..e] == [];
    assert MantissaAt(s, a) == Some((DecValue(s[a..e]) as real, e));
    assert ExponentAt(s, e) == (0, e);
  }

  /** A decimal integer after `pad` spaces reads back with `read_f32` as the same real. */
  lemma FloatAtPrinted(pre: string, pad: nat, n: nat, post: string)
    requires post == [] || !(IsDigit(post[0]) || post[0] in ".eE")
    ensures var s := pre + Spaces(pad) + Decimal(n) + post;
      FloatAt(s, |pre|) == Some((n as real, |pre| + pad + |Decimal(n)|))
  {
    var s := pre + Spaces(pad) + Decimal(n) + post;
    PrintedLayout(pre, pad, n, post);
    DecValueOfDecimal(n);
    FloatAtDigits(s, |pre|, |pre| + pad, |pre| + pad + |Decimal(n)|);
  }

  /** A line ended by "\n" or "\r\n" reads back as exactly its text. */
  lemma LineRoundTrip(text: string, eol: string, rest: string)
    requires '\n' !in text && (text == [] || text[|text| - 1] != '\r')
    requires eol == "\n" || eol == "\r\n"
    ensures var s := text + eol + rest;
      && LineAt(s, 0) == Some(Line(0, |text|, |text| + |eol|))
      && LineText(s, LineAt(s, 0).value) == text
  {
    var s := text + eol + rest;
    var e := |text| + |eol| - 1;
    assert s[e] == '\n';
    assert forall i :: 0 <= i < e ==> s[i] != '\n' by {
      forall i | 0 <= i < e ensures s[i] != '\n' {
        if i < |text| {
          assert s[i] == text[i];
        } else {
          assert s[i] == '\r';
        }
      }
    }
    assert NewlineFrom(s, 0) == e;
    assert s[..|text|] == text;
    if eol == "\n" && |text| > 0 {
      assert s[e - 1] == text[|text| - 1];
    }
  }

  /** Trimming removes exactly the surrounding spaces and tabs. */
  lemma TrimPadded(pre: string, t: string, post: string)
    requires AllBlank(pre) && AllBlank(post)
    requires t == [] || (!IsBlank(t[0]) && !IsBlank(t[|t| - 1]))
    ensures Trim(pre + t + post) == t
  {
    var s := pre + t + post;
    if t == [] {
      assert AllBlank(s) by {
        forall i | 0 <= i < |s| ensures IsBlank(s[i]) {
          if i < |pre| {
            assert s[i] == pre[i];
          } else {
            assert s[i] == post[i - |pre|];
          }
        }
      }
      assert BlanksEnd(s, 0) == |s|;
    } else {
      assert s[|pre|] == t[0];
      assert BlanksEnd(s, 0) == |pre|;
      assert s[|pre| + |t| - 1] == t[|t| - 1];
      assert forall k :: |pre| + |t| <= k < |s| ==> IsBlank(s[k]) by {
        forall k | |pre| + |t| <= k < |s| ensures IsBlank(s[k]) {
          assert s[k] == post[k - |pre| - |t|];
        }
      }
      assert BlanksStart(s, |pre|, |s|) == |pre| + |t|;
      assert s[|pre|..|pre| + |t|] == t;
    }
  }

  /** `HeaderAt` from its three reads. */
  lemma HeaderAtFromParts(s: string, p: nat, l: Line, id: string, u0: nat, q1: nat, u1: nat, q2: nat, n: nat)
    requires p <= |s|
    requires LineAt(s, p) == Some(l) && Trim(LineText(s, l)) == id
    requires U32At(s, l.next) == Some((u0, q1))
    requires U32At(s, q1) == Some((u1, q2))
    requires EolSkip(s, q2) == n
    ensures HeaderAt(s, p) == Some((id, n))
  {
  }

  /** The id line of a printed header reads back as the id, trimmed to itself. */
  lemma HeaderIdLine(s: string, id: string, u0: nat, u1: nat, rest: string)
    requires s == HeaderText(id, u0, u1) + rest
    requires '\n' !in id && '\r' !in id
    requires id == [] || (!IsBlank(id[0]) && !IsBlank(id[|id| - 1]))
    ensures LineAt(s, 0) == Some(Line(0, |id|, |id| + 1))
    ensures Trim(LineText(s, Line(0, |id|, |id| + 1))) == id
  {
    var tail := Field6(u0) + Field6(u1) + "\n" + rest;
    assert s == id + "\n" + tail;
    LineRoundTrip(id, "\n", tail);
    TrimPadded([], id, []);
    assert [] + id + [] == id;
  }

  /** The second "%6u" field, of fewer than six digits, reads back, and so does the line ending after it. */
  lemma HeaderSecondField(s: string, pre: string, at: nat, u1: nat, rest: string)
    requires s == pre + Field6(u1) + "\n" + rest && at == |pre|
    requires u1 < 100000
    ensures |Field6(u1)| == 6
    ensures U32At(s, at) == Some((u1, at + 6))
    ensures EolSkip(s, at + 6) == at + 7
  {
    var d1 := Decimal(u1);
    DecimalLength(u1, 5);
    var k1 := 6 - |d1|;
    assert s == pre + Spaces(k1) + d1 + ("\n" + rest);
    U32AtPrinted(pre, k1, u1, "\n" + rest);
    var q2 := |pre| + 6;
    assert s[q2] == '\n';
    assert NewlineFrom(s, q2) == q2;
  }

  /** The first "%6u" field reads back when the next field starts with a space. */
  lemma HeaderFirstField(s: string, pre: string, at: nat, u0: nat, u1: nat, rest: string)
    requires s == pre + Field6(u0) + Field6(u1) + "\n" + rest && at == |pre|
    requires u0 <= MaxU32 && u1 < 100000
    ensures U32At(s, at) == Some((u0, at + |Field6(u0)|))
  {
    var d0 := Decimal(u0);
    var k0 := if |d0| < 6 then 6 - |d0| else 0;
    DecimalLength(u1, 5);
    var post0 := Field6(u1) + "\n" + rest;
    assert post0[0] == ' ';
    assert s == pre + Spaces(k0) + d0 + post0;
    U32AtPrinted(pre, k0, u0, post0);
  }

  /** The two numbers of a printed header, each read at its position in the text, and the line ending after them. */
  lemma HeaderFields(s: string, id: string, u0: nat, u1: nat, rest: string)
    requires s == HeaderText(id, u0, u1) + rest
    requires u0 <= MaxU32 && u1 < 100000
    ensures U32At(s, |id| + 1) == Some((u0, |id| + 1 + |Field6(u0)|))
    ensures U32At(s, |id| + 1 + |Field6(u0)|) == Some((u1, |id| + 7 + |Field6(u0)|))
    ensures EolSkip(s, |id| + 7 + |Field6(u0)|) == |HeaderText(id, u0, u1)|
  {
    var pre0 := id + "\n";
    HeaderFirstField(s, pre0, |id| + 1, u0, u1, rest);
    HeaderSecondField(s, pre0 + Field6(u0), |id| + 1 + |Field6(u0)|, u1, rest);
  }

  /**
   * A chunk header written by the producer reads back as its id, and the
   * cursor lands just after the header's line ending. The second number must
   * have fewer than six digits: with six or more, "%6u%6u" runs the two
   * numbers together.
   */
  lemma HeaderRoundTrip(id: string, u0: nat, u1: nat, rest: string)
    requires '\n' !in id && '\r' !in id
    requires id == [] || (!IsBlank(id[0]) && !IsBlank(id[|id| - 1]))
    requires u0 <= MaxU32 && u1 < 100000
    ensures HeaderAt(HeaderText(id, u0, u1) + rest, 0) == Some((id, |HeaderText(id, u0, u1)|))
  {
    var s := HeaderText(id, u0, u1) + rest;
    HeaderIdLine(s, id, u0, u1, rest);
    HeaderFields(s, id, u0, u1, rest);
    var q1 := |id| + 1 + |Field6(u0)|;
    HeaderAtFromParts(s, 0, Line(0, |id|, |id| + 1), id, u0, q1, u1, |id| + 7 + |Field6(u0)|, |HeaderText(id, u0, u1)|);
  }
}
