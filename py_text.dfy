/**
 * The few pieces of Python's text rendering that the client's messages and
 * URLs depend on: `str(int)` and `repr(bytes)` (what an f-string shows for
 * `rsp.content`).
 */
module PyText {

  newtype byte = x: int | 0 <= x < 256

  predicate IsDigit(c: char) {
    '0' <= c <= '9'
  }

  function DigitChar(d: nat): (c: char)
    requires d < 10
    ensures IsDigit(c)
  {
    (48 + d) as char
  }

  /** `str(n)` for a non-negative integer: its decimal digits, no leading zero. */
  function NatToString(n: nat): (r: string)
    ensures |r| >= 1
    ensures forall i | 0 <= i < |r| :: IsDigit(r[i])
    ensures |r| > 1 ==> r[0] != '0'
    decreases n
  {
    if n < 10 then [DigitChar(n)] else NatToString(n / 10) + [DigitChar(n % 10)]
  }

  /** The value of a string of decimal digits. */
  function DecimalValue(s: string): nat
    requires forall i | 0 <= i < |s| :: IsDigit(s[i])
  {
    if s == [] then 0
    else
      var last := s[|s| - 1];
      assert IsDigit(last);
      DecimalValue(s[..|s| - 1]) * 10 + (last as int - '0' as int)
  }

  lemma {:induction false} NatToStringRoundTrip(n: nat)
    ensures DecimalValue(NatToString(n)) == n
    decreases n
  {
    if n >= 10 {
      NatToStringRoundTrip(n / 10);
      var s := NatToString(n);
      assert s[..|s| - 1] == NatToString(n / 10);
    }
  }

  /** `str(i)` for any integer. */
  function IntToString(i: int): (r: string)
    ensures |r| >= 1
    ensures forall k | 0 <= k < |r| :: r[k] == '-' || IsDigit(r[k])
    ensures i >= 0 <==> IsDigit(r[0])
  {
    if i < 0 then "-" + NatToString(-i) else NatToString(i)
  }

  /** Distinct integers are rendered differently. */
  lemma IntToStringInjective(i: int, j: int)
    requires IntToString(i) == IntToString(j)
    ensures i == j
  {
    if i < 0 {
      assert IntToString(i)[1..] == NatToString(-i);
      assert IntToString(j)[1..] == NatToString(-j);
      NatToStringRoundTrip(-i);
      NatToStringRoundTrip(-j);
    } else {
      NatToStringRoundTrip(i);
      NatToStringRoundTrip(j);
    }
  }

  const HEX_DIGITS := "0123456789abcdef"

  /** The quote `repr(bytes)` chooses: double quotes only when the bytes hold
      a single quote and no double quote. */
  function ReprQuote(b: seq<byte>): (q: char)
    ensures q == '\'' || q == '"'
  {
    if 39 in b && 34 !in b then '"' else '\''
  }

  /** How one byte is shown between the quotes. */
  function ReprByte(c: byte, quote: char): (r: string)
    ensures |r| >= 1
  {
    if c as int == quote as int || c == 92 then ['\\', c as int as char]
    else if c == 9 then "\\t"
    else if c == 10 then "\\n"
    else if c == 13 then "\\r"
    else if c < 32 || c >= 127 then "\\x" + [HEX_DIGITS[c as int / 16], HEX_DIGITS[c as int % 16]]
    else [c as int as char]
  }

  function ReprBody(b: seq<byte>, quote: char): string {
    if b == [] then "" else ReprBody(b[..|b| - 1], quote) + ReprByte(b[|b| - 1], quote)
  }

  /** `repr(b)` for a bytes value, as an f-string renders it. */
  function BytesRepr(b: seq<byte>): (r: string)
    ensures |r| >= 3 && r[0] == 'b'
    ensures r[1] == r[|r| - 1] == ReprQuote(b)
  {
    "b" + [ReprQuote(b)] + ReprBody(b, ReprQuote(b)) + [ReprQuote(b)]
  }

  /** A byte that is shown as itself. */
  predicate IsPlain(c: byte) {
    32 <= c < 127 && c != 39 && c != 34 && c != 92
  }

  function AsText(b: seq<byte>): (s: string)
    ensures |s| == |b|
    ensures forall i | 0 <= i < |b| :: s[i] as int == b[i] as int
  {
    if b == [] then "" else AsText(b[..|b| - 1]) + [b[|b| - 1] as int as char]
  }

  /** Printable text without quotes or backslashes is shown verbatim. */
  lemma {:induction false} BytesReprOfPlainText(b: seq<byte>)
    requires forall i | 0 <= i < |b| :: IsPlain(b[i])
    ensures BytesRepr(b) == "b'" + AsText(b) + "'"
  {
    assert 39 !in b by {
      forall i | 0 <= i < |b| ensures b[i] != 39 { }
    }
    PlainReprBody(b);
  }

  lemma {:induction false} PlainReprBody(b: seq<byte>)
    requires forall i | 0 <= i < |b| :: IsPlain(b[i])
    ensures ReprBody(b, '\'') == AsText(b)
  {
    if b != [] {
      PlainReprBody(b[..|b| - 1]);
    }
  }
}
