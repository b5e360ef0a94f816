/**
 * The few pieces of JavaScript semantics the client relies on, written out
 * over Dafny's unbounded integers and `seq<char>` strings: `Math.floor` of a
 * quotient, the truncating `%` operator, number-to-string conversion, the
 * characters `String.prototype.trim` removes, the order `Object.keys` lists
 * a dictionary's keys in, and the "push unless already present" idiom used
 * for error lists.
 */
module Js {

  import opened Wrappers

  // ---------------------------------------------------------------------
  // Arithmetic
  // ---------------------------------------------------------------------

  /** `Math.floor(a / n)` for a positive integer divisor. */
  function FloorDiv(a: int, n: int): (q: int)
    requires n > 0
    ensures q * n <= a < q * n + n
  {
    a / n
  }

  /** JavaScript's `a % n`: the remainder takes the sign of the dividend. */
  function Rem(a: int, n: int): (r: int)
    requires n > 0
    ensures a >= 0 ==> 0 <= r < n
    ensures a < 0 ==> -n < r <= 0
    ensures a >= 0 ==> r == a % n
  {
    if a >= 0 then a % n else -((-a) % n)
  }

  // ---------------------------------------------------------------------
  // Decimal rendering of numbers (template literals, `"" + n`)
  // ---------------------------------------------------------------------

  predicate IsDigit(c: char) {
    '0' <= c <= '9'
  }

  predicate AllDigits(s: string) {
    forall i :: 0 <= i < |s| ==> IsDigit(s[i])
  }

  function Digit(d: nat): (c: char)
    requires d < 10
    ensures IsDigit(c) && c as int - '0' as int == d
  {
    ('0' as int + d) as char
  }

  function DigitValue(c: char): (d: nat)
    requires IsDigit(c)
    ensures d < 10 && Digit(d) == c
  {
    c as int - '0' as int
  }

  /** The decimal digits of `n`, most significant first, without leading zeros. */
  function NatToString(n: nat): (s: string)
    ensures 1 <= |s| && AllDigits(s)
    ensures s[|s| - 1] == Digit(n % 10)
    ensures n < 10 <==> |s| == 1
  {
    if n < 10 then [Digit(n)] else NatToString(n / 10) + [Digit(n % 10)]
  }

  /** `String(i)` for an integer: a minus sign, then the digits of `|i|`. */
  function IntToString(i: int): (s: string)
    ensures i >= 0 ==> s == NatToString(i)
    ensures i < 0 ==> s == "-" + NatToString(-i)
  {
    if i < 0 then "-" + NatToString(-i) else NatToString(i)
  }

  /** The number a string of decimal digits denotes. */
  function ParseNat(s: string): nat
    requires AllDigits(s)
  {
    if s == [] then 0 else ParseNat(s[..|s| - 1]) * 10 + DigitValue(s[|s| - 1])
  }

  /** Rendering a number and reading it back gives the number. */
  lemma {:induction false} ParseNatToString(n: nat)
    ensures ParseNat(NatToString(n)) == n
  {
    var s := NatToString(n);
    if n >= 10 {
      ParseNatToString(n / 10);
      assert s[..|s| - 1] == NatToString(n / 10);
    }
  }

  /** The last two characters of `"00" + String(n)` are the tens and units digits of `n`. */
  lemma {:induction false} LastTwoOfZeroPadded(n: nat)
    ensures var s := "00" + NatToString(n);
      |s| >= 3 && s[|s| - 2..] == [Digit((n / 10) % 10), Digit(n % 10)]
  {
    var t := NatToString(n);
    var s := "00" + t;
    if n >= 10 {
      var u := NatToString(n / 10);
      assert t == u + [Digit(n % 10)];
      assert s[|s| - 2] == u[|u| - 1];
    }
  }

  /** The first position of `c` in `s`, or `|s|` when `c` does not occur. */
  function IndexOf(s: string, c: char): (i: nat)
    ensures i <= |s|
    ensures c !in s[..i]
    ensures i < |s| ==> s[i] == c
  {
    if s == [] then 0
    else if s[0] == c then 0
    else 1 + IndexOf(s[1..], c)
  }

  // ---------------------------------------------------------------------
  // Strings
  // ---------------------------------------------------------------------

  /**
   * The characters `String.prototype.trim` strips: the WhiteSpace and
   * LineTerminator code points of ECMAScript (section 12.2 and 12.3 of
   * ECMA-262); the former includes every space separator (category Zs), the
   * latter is LF, CR, LS and PS.
   */
  predicate IsJsWhitespace(c: char) {
    || c == '\t' || c == '\n' || c == '\U{B}' || c == '\U{C}' || c == '\r' || c == ' '
    || c == '\U{A0}' || c == '\U{1680}' || ('\U{2000}' <= c <= '\U{200A}')
    || c == '\U{2028}' || c == '\U{2029}' || c == '\U{202F}' || c == '\U{205F}'
    || c == '\U{3000}' || c == '\U{FEFF}'
  }

  /** `s.trim()` is the empty string, i.e. falsy. */
  predicate TrimsToEmpty(s: string) {
    forall i :: 0 <= i < |s| ==> IsJsWhitespace(s[i])
  }

  /** JavaScript truthiness of an optional string: present and non-empty. */
  predicate IsTruthy(s: Option<string>) {
    s.Some? && s.value != ""
  }

  // ---------------------------------------------------------------------
  // Dictionaries and lists
  // ---------------------------------------------------------------------

  /**
   * `ids` is an order in which `Object.keys` may list a dictionary whose key
   * set is `keys`: every key exactly once.
   */
  ghost predicate IsKeyOrder<K>(ids: seq<K>, keys: set<K>) {
    && (forall i, j :: 0 <= i < j < |ids| ==> ids[i] != ids[j])
    && (forall i :: 0 <= i < |ids| ==> ids[i] in keys)
    && (forall k :: k in keys ==> k in ids)
  }

  /** The number of occurrences of `x` in `s`. */
  function Count<T(==)>(s: seq<T>, x: T): nat {
    if s == [] then 0 else (if s[0] == x then 1 else 0) + Count(s[1..], x)
  }

  lemma {:induction false} CountAppend<T>(s: seq<T>, t: seq<T>, x: T)
    ensures Count(s + t, x) == Count(s, x) + Count(t, x)
  {
    if s != [] {
      assert (s + t)[0] == s[0];
      assert (s + t)[1..] == s[1..] + t;
      CountAppend(s[1..], t, x);
    } else {
      assert s + t == t;
    }
  }

  lemma {:induction false} CountZero<T>(s: seq<T>, x: T)
    ensures Count(s, x) == 0 <==> x !in s
  {
    if s != [] {
      CountZero(s[1..], x);
      assert s == [s[0]] + s[1..];
    }
  }

  /**
   * The error-list idiom `if (list.findIndex(e => e === msg) === -1) list.push(msg)`:
   * the message is appended unless it is already there, so it ends up in the
   * list exactly once if it was there at most once before.
   */
  function PushIfAbsent(list: seq<string>, msg: string): (r: seq<string>)
    ensures msg in r
    ensures msg in list ==> r == list
    ensures msg !in list ==> r == list + [msg]
    ensures Count(list, msg) <= 1 ==> Count(r, msg) == 1
  {
    if msg in list then
      CountZero(list, msg);
      list
    else
      CountZero(list, msg);
      CountAppend(list, [msg], msg);
      list + [msg]
  }
}
