/**
 * Values shared by every module: optional values, outcomes of operations that
 * can throw, and the two JavaScript formatting routines the compiler relies on
 * (decimal printing of integers and JSON.stringify of a string).
 */
module Base {

  datatype Option<T> = None | Some(value: T)
  {
    predicate IsFailure() { None? }

    function PropagateFailure<U>(): Option<U>
      requires None?
    {
      None
    }

    function Extract(): T
      requires Some?
    {
      value
    }
  }

  /** The outcome of a JavaScript operation that either returns or throws. */
  datatype Result<T> = Ok(value: T) | Throw(message: string)

  /**
   * The outcome of a JavaScript computation that may also run forever: it
   * returns a value, throws, or never returns.
   */
  datatype Outcome<T> = Returns(value: T) | Throws(message: string) | Diverges

  // ---------------------------------------------------------------------------
  // Decimal printing of integers (Number.prototype.toString on an integer).

  function DigitChar(d: nat): (c: char)
    requires d < 10
    ensures '0' <= c <= '9' && c as int - '0' as int == d
  {
    (d + '0' as int) as char
  }

  function NatToString(n: nat): (r: string)
    ensures |r| >= 1 && forall k :: 0 <= k < |r| ==> '0' <= r[k] <= '9'
    decreases n
  {
    if n < 10 then [DigitChar(n)] else NatToString(n / 10) + [DigitChar(n % 10)]
  }

  function IntToString(i: int): (r: string)
    ensures |r| >= 1
    ensures (r[0] == '-') <==> i < 0
  {
    if i < 0 then "-" + NatToString(-i) else NatToString(i)
  }

  /** The number a string of decimal digits denotes. */
  function DigitsValue(s: string): nat
    requires forall k :: 0 <= k < |s| ==> '0' <= s[k] <= '9'
    decreases |s|
  {
    if s == [] then 0 else DigitsValue(s[..|s| - 1]) * 10 + (s[|s| - 1] as int - '0' as int)
  }

  /** Reading back the digits printed for n gives n. */
  lemma {:induction false} NatToStringRoundTrip(n: nat)
    ensures DigitsValue(NatToString(n)) == n
    decreases n
  {
    var r := NatToString(n);
    if n >= 10 {
      NatToStringRoundTrip(n / 10);
      assert r[..|r| - 1] == NatToString(n / 10);
    }
  }

  /** The printed form has no leading zero except for 0 itself. */
  lemma {:induction false} NatToStringCanonical(n: nat)
    ensures NatToString(n)[0] == '0' <==> n == 0
    decreases n
  {
    if n >= 10 {
      NatToStringCanonical(n / 10);
    }
  }

  // ---------------------------------------------------------------------------
  // JSON.stringify applied to a string.

  function HexDigit(d: nat): (c: char)
    requires d < 16
  {
    "0123456789abcdef"[d]
  }

  /** The escape JSON.stringify writes for one character of a string. */
  function JsonEscapeChar(c: char): (r: string)
    ensures |r| >= 1
    ensures r[0] == '\\' <==> (c == '"' || c == '\\' || c < ' ')
    ensures r[0] != '\\' ==> r == [c]
  {
    if c == '"' then "\\\""
    else if c == '\\' then "\\\\"
    else if c == '\n' then "\\n"
    else if c == '\r' then "\\r"
    else if c == '\t' then "\\t"
    else if c == 8 as char then "\\b"
    else if c == 12 as char then "\\f"
    else if c < ' ' then "\\u00" + [HexDigit(c as int / 16), HexDigit(c as int % 16)]
    else [c]
  }

  function JsonEscape(s: string): (r: string)
    ensures |r| >= |s|
    decreases |s|
  {
    if s == [] then "" else JsonEscape(s[..|s| - 1]) + JsonEscapeChar(s[|s| - 1])
  }

  /** JSON.stringify(s) for a string s: the escaped text between double quotes. */
  function JsonQuote(s: string): (r: string)
    ensures |r| >= |s| + 2 && r[0] == '"' && r[|r| - 1] == '"'
  {
    "\"" + JsonEscape(s) + "\""
  }

  /** A string with no quote, backslash or control character is quoted verbatim. */
  lemma {:induction false} JsonEscapePlain(s: string)
    requires forall k :: 0 <= k < |s| ==> s[k] != '"' && s[k] != '\\' && s[k] >= ' '
    ensures JsonEscape(s) == s
    decreases |s|
  {
    if s != [] {
      JsonEscapePlain(s[..|s| - 1]);
    }
  }

  /** Every quote or backslash of the escaped text is part of an escape: none is left bare. */
  lemma {:induction false} JsonEscapeNoBareQuote(s: string)
    ensures forall k :: 0 <= k < |JsonEscape(s)| && JsonEscape(s)[k] == '"' ==> k > 0 && JsonEscape(s)[k - 1] == '\\'
    decreases |s|
  {
    if s != [] {
      JsonEscapeNoBareQuote(s[..|s| - 1]);
      var p := JsonEscape(s[..|s| - 1]);
      var e := JsonEscapeChar(s[|s| - 1]);
      assert JsonEscape(s) == p + e;
      forall k | 0 <= k < |p + e| && (p + e)[k] == '"'
        ensures k > 0 && (p + e)[k - 1] == '\\'
      {
        if k >= |p| {
          assert e[k - |p|] == '"';
        }
      }
    }
  }

  // ---------------------------------------------------------------------------
  // Counting newlines in a text.

  /** The number of newline characters in a text. */
  function Newlines(v: seq<char>): (n: nat)
    ensures n <= |v|
  {
    if v == [] then 0 else (if v[0] == '\n' then 1 else 0) + Newlines(v[1..])
  }

  lemma {:induction false} NewlinesJoin(u: seq<char>, v: seq<char>)
    ensures Newlines(u + v) == Newlines(u) + Newlines(v)
  {
    if u == [] {
      assert u + v == v;
    } else {
      assert (u + v)[0] == u[0];
      assert (u + v)[1..] == u[1..] + v;
      NewlinesJoin(u[1..], v);
    }
  }

  lemma {:induction false} NoNewlines(v: seq<char>)
    requires forall i :: 0 <= i < |v| ==> v[i] != '\n'
    ensures Newlines(v) == 0
  {
    if v != [] {
      NoNewlines(v[1..]);
    }
  }

  /** Regrouping a concatenation; stated once so loops can cite it instead of re-deriving it. */
  lemma AppendAssoc<T>(a: seq<T>, b: seq<T>, c: seq<T>)
    ensures a + (b + c) == (a + b) + c
  {
  }

  /**
   * `value.length`: the number of UTF-16 code units, two for a character beyond
   * U+FFFF. (The lexer's input array holds one character per element, so its
   * other counters count characters.)
   */
  function Utf16Length(value: string): (n: nat)
    ensures |value| <= n <= 2 * |value|
    ensures (forall i :: 0 <= i < |value| ==> value[i] < '\U{10000}') ==> n == |value|
    decreases |value|
  {
    if value == [] then 0
    else Utf16Length(value[..|value| - 1]) + (if value[|value| - 1] < '\U{10000}' then 1 else 2)
  }
}
