/**
 * The few JavaScript string and number operations the Andon code relies on,
 * written out with their ECMAScript meaning: `split` on a one-character
 * separator, `trim`, `startsWith`, `includes`, and `parseInt(x, 10)`.
 * Locale-sensitive operations (`toLowerCase`, `localeCompare`) are not here:
 * the modules that use them take them as parameters.
 */
module JsText {
  import opened Common

  /** A JavaScript primitive as it arrives in a JSON body or a database row. */
  datatype JsValue = JsNum(n: int) | JsStr(s: string) | JsNull | JsUndefined

  // ---------------------------------------------------------------- whitespace

  /** ECMAScript WhiteSpace and LineTerminator code points (what `trim` removes). */
  predicate IsWhitespace(c: char)
  {
    c == ' ' || c == '\t' || c == '\n' || c == '\r' || c == '\U{000B}' || c == '\U{000C}'
    || c == '\U{00A0}' || c == '\U{FEFF}' || c == '\U{1680}' || ('\U{2000}' <= c <= '\U{200A}')
    || c == '\U{2028}' || c == '\U{2029}' || c == '\U{202F}' || c == '\U{205F}' || c == '\U{3000}'
  }

  /** `s.trimStart()`: drops the leading whitespace and nothing else. */
  function TrimStart(s: string): (r: string)
    ensures |r| <= |s| && r == s[|s| - |r|..]
    ensures forall i :: 0 <= i < |s| - |r| ==> IsWhitespace(s[i])
    ensures r != [] ==> !IsWhitespace(r[0])
  {
    if s != [] && IsWhitespace(s[0]) then TrimStart(s[1..]) else s
  }

  /** `s.trimEnd()`: drops the trailing whitespace and nothing else. */
  function TrimEnd(s: string): (r: string)
    ensures |r| <= |s| && r == s[..|r|]
    ensures forall i :: |r| <= i < |s| ==> IsWhitespace(s[i])
    ensures r != [] ==> !IsWhitespace(r[|r| - 1])
  {
    if s != [] && IsWhitespace(s[|s| - 1]) then TrimEnd(s[..|s| - 1]) else s
  }

  /** `s.trim()`. */
  function Trim(s: string): string
  {
    TrimEnd(TrimStart(s))
  }

  /** `!s.trim()`: the string is empty or made only of whitespace. */
  predicate IsBlank(s: string)
  {
    Trim(s) == ""
  }

  lemma BlankIffAllWhitespace(s: string)
    ensures IsBlank(s) <==> forall i :: 0 <= i < |s| ==> IsWhitespace(s[i])
  {
    var t := TrimStart(s);
    if IsBlank(s) {
      assert TrimEnd(t) == "";
      forall i | 0 <= i < |s| ensures IsWhitespace(s[i]) {
        if i >= |s| - |t| {
          assert s[i] == t[i - (|s| - |t|)];
        }
      }
    } else {
      var r := Trim(s);
      assert r[0] == t[0];
      assert t[0] == s[|s| - |t|];
    }
  }

  // ---------------------------------------------------------------- searching

  /** `s.startsWith(prefix)`. */
  predicate StartsWith(s: string, prefix: string)
  {
    prefix <= s
  }

  /** `s.includes(t)`: `t` occurs at some offset of `s`. */
  predicate Includes(s: string, t: string)
    decreases |s|
  {
    t <= s || (s != [] && Includes(s[1..], t))
  }

  lemma {:induction false} IncludesAt(s: string, t: string, k: nat)
    requires k + |t| <= |s| && s[k..k + |t|] == t
    ensures Includes(s, t)
    decreases k
  {
    if k > 0 {
      assert s[1..][k - 1..k - 1 + |t|] == s[k..k + |t|];
      IncludesAt(s[1..], t, k - 1);
    } else {
      assert t <= s;
    }
  }

  /** Everything includes the empty string: an empty search filters nothing out. */
  lemma IncludesEmpty(s: string)
    ensures Includes(s, "")
  {
    assert "" <= s;
  }

  // ----------------------------------------------------------------- splitting

  /** The first position of `c` in `s`. */
  function IndexOf(s: string, c: char): (i: nat)
    requires c in s
    ensures i < |s| && s[i] == c && c !in s[..i]
  {
    if s[0] == c then 0
    else
      assert c in s[1..] by { var k :| 0 <= k < |s| && s[k] == c; assert s[1..][k - 1] == c; }
      var j := IndexOf(s[1..], c);
      assert s[..j + 1] == [s[0]] + s[1..][..j];
      j + 1
  }

  /** `parts.join(c)`. */
  function Join(parts: seq<string>, c: char): string
  {
    if parts == [] then ""
    else if |parts| == 1 then parts[0]
    else parts[0] + [c] + Join(parts[1..], c)
  }

  /** `s.split(c)` for a one-character separator: never empty, no piece holds `c`,
   *  and joining the pieces gives `s` back. */
  function Split(s: string, c: char): (r: seq<string>)
    ensures |r| >= 1
    ensures forall k :: 0 <= k < |r| ==> c !in r[k]
    ensures Join(r, c) == s
    decreases |s|
  {
    if c !in s then [s]
    else
      var i := IndexOf(s, c);
      var rest := Split(s[i + 1..], c);
      assert s == s[..i] + [c] + s[i + 1..];
      assert ([s[..i]] + rest)[1..] == rest;
      [s[..i]] + rest
  }

  /** The converse round trip: splitting a join of separator-free pieces gives
   *  back the pieces. */
  lemma {:induction false} SplitJoin(parts: seq<string>, c: char)
    requires |parts| >= 1
    requires forall k :: 0 <= k < |parts| ==> c !in parts[k]
    ensures Split(Join(parts, c), c) == parts
  {
    if |parts| > 1 {
      var tail := Join(parts[1..], c);
      var s := Join(parts, c);
      assert s == parts[0] + [c] + tail;
      assert s[|parts[0]|] == c;
      assert s[..|parts[0]|] == parts[0];
      assert IndexOf(s, c) == |parts[0]|;
      assert s[|parts[0]| + 1..] == tail;
      SplitJoin(parts[1..], c);
    }
  }

  // ----------------------------------------------------------------- parseInt

  predicate IsDigit(c: char)
  {
    '0' <= c <= '9'
  }

  /** The longest prefix of decimal digits. */
  function DigitPrefix(s: string): (d: string)
    ensures d <= s
    ensures forall i :: 0 <= i < |d| ==> IsDigit(d[i])
    ensures |d| < |s| ==> !IsDigit(s[|d|])
  {
    if s != [] && IsDigit(s[0]) then [s[0]] + DigitPrefix(s[1..]) else ""
  }

  /** The value of a string of decimal digits, most significant first. */
  function DigitsValue(d: string): nat
    requires forall i :: 0 <= i < |d| ==> IsDigit(d[i])
  {
    if d == [] then 0
    else
      assert IsDigit(d[|d| - 1]);
      DigitsValue(d[..|d| - 1]) * 10 + (d[|d| - 1] as int - '0' as int)
  }

  /** `parseInt(s, 10)`: skip leading whitespace, read an optional sign and a
   *  maximal run of digits; `None` stands for NaN (no digit at all). */
  function ParseInt(s: string): Option<int>
  {
    var t := TrimStart(s);
    var signed := t != [] && (t[0] == '-' || t[0] == '+');
    var u := if signed then t[1..] else t;
    var d := DigitPrefix(u);
    var magnitude: int := DigitsValue(d);
    if d == "" then None
    else if signed && t[0] == '-' then Some(-magnitude)
    else Some(magnitude)
  }

  /** `parseInt(v, 10)` on any JSON primitive: numbers are printed first
   *  (an integer prints as its digits), `null`/`undefined` print as words. */
  function ParseIntValue(v: JsValue): Option<int>
  {
    match v
    case JsNum(n) => Some(n)
    case JsStr(s) => ParseInt(s)
    case _ => None
  }

  /** The decimal digits of a natural number, without leading zeros. */
  function NatToString(n: nat): (d: string)
    ensures |d| >= 1 && forall i :: 0 <= i < |d| ==> IsDigit(d[i])
  {
    if n < 10 then [('0' as int + n) as char]
    else NatToString(n / 10) + [('0' as int + n % 10) as char]
  }

  lemma {:induction false} DigitsValueOfNatToString(n: nat)
    ensures DigitsValue(NatToString(n)) == n
  {
    var d := NatToString(n);
    if n >= 10 {
      DigitsValueOfNatToString(n / 10);
      assert d[..|d| - 1] == NatToString(n / 10);
    }
  }

  lemma {:induction false} DigitPrefixOfDigits(d: string, tail: string)
    requires forall i :: 0 <= i < |d| ==> IsDigit(d[i])
    requires tail == [] || !IsDigit(tail[0])
    ensures DigitPrefix(d + tail) == d
    decreases |d|
  {
    if d != [] {
      assert (d + tail)[0] == d[0] && IsDigit(d[0]);
      assert (d + tail)[1..] == d[1..] + tail;
      DigitPrefixOfDigits(d[1..], tail);
      assert DigitPrefix(d + tail) == [d[0]] + DigitPrefix(d[1..] + tail);
      assert [d[0]] + d[1..] == d;
    } else {
      assert d + tail == tail;
    }
  }

  /** Round trip: `parseInt` reads back the number that `NatToString` printed,
   *  whatever non-digit text follows it. */
  lemma ParseIntOfNatToString(n: nat, tail: string)
    requires tail == [] || !IsDigit(tail[0])
    ensures ParseInt(NatToString(n) + tail) == Some(n)
  {
    var d := NatToString(n);
    var s := d + tail;
    assert s[0] == d[0];
    assert TrimStart(s) == s;
    DigitPrefixOfDigits(d, tail);
    DigitsValueOfNatToString(n);
  }
  // ------------------------------------------------------ parseInt, no radix

  predicate IsHexDigit(c: char)
  {
    IsDigit(c) || 'a' <= c <= 'f' || 'A' <= c <= 'F'
  }

  function HexDigitValue(c: char): (v: nat)
    requires IsHexDigit(c)
    ensures v < 16
    ensures IsDigit(c) ==> v == c as int - '0' as int
  {
    if IsDigit(c) then c as int - '0' as int
    else if 'a' <= c <= 'f' then c as int - 'a' as int + 10
    else c as int - 'A' as int + 10
  }

  /** The longest prefix of hexadecimal digits. */
  function HexPrefix(s: string): (d: string)
    ensures d <= s
    ensures forall i :: 0 <= i < |d| ==> IsHexDigit(d[i])
    ensures |d| < |s| ==> !IsHexDigit(s[|d|])
  {
    if s != [] && IsHexDigit(s[0]) then [s[0]] + HexPrefix(s[1..]) else ""
  }

  /** The value of a string of hexadecimal digits, most significant first. */
  function HexValue(d: string): nat
    requires forall i :: 0 <= i < |d| ==> IsHexDigit(d[i])
  {
    if d == [] then 0
    else
      assert IsHexDigit(d[|d| - 1]);
      HexValue(d[..|d| - 1]) * 16 + HexDigitValue(d[|d| - 1])
  }

  /** `0x` or `0X` at the front. */
  predicate HasHexPrefix(u: string)
  {
    |u| >= 2 && u[0] == '0' && (u[1] == 'x' || u[1] == 'X')
  }

  /** The text after an optional leading sign. */
  function Unsigned(t: string): (u: string)
    ensures u == t || (t != [] && (t[0] == '-' || t[0] == '+') && u == t[1..])
  {
    if t != [] && (t[0] == '-' || t[0] == '+') then t[1..] else t
  }

  /** The hexadecimal reading of trimmed text whose digits follow `0x`. */
  function HexRead(t: string): Option<int>
    requires HasHexPrefix(Unsigned(t))
  {
    var h := HexPrefix(Unsigned(t)[2..]);
    var magnitude: int := HexValue(h);
    if h == "" then None
    else if t[0] == '-' then Some(-magnitude)
    else Some(magnitude)
  }

  /** `parseInt(s)` without a radix: as `parseInt(s, 10)`, except that after the
   *  sign a `0x` or `0X` switches to hexadecimal digits. A bare `0x` is NaN. */
  function ParseIntNoRadix(s: string): Option<int>
  {
    var t := TrimStart(s);
    if HasHexPrefix(Unsigned(t)) then HexRead(t) else ParseInt(s)
  }

  lemma TrimStartUnchanged(s: string)
    requires s != [] && !IsWhitespace(s[0])
    ensures TrimStart(s) == s
  {
  }

  lemma {:induction false} HexPrefixOfDigits(d: string, tail: string)
    requires forall i :: 0 <= i < |d| ==> IsHexDigit(d[i])
    requires tail == [] || !IsHexDigit(tail[0])
    ensures HexPrefix(d + tail) == d
    decreases |d|
  {
    if d != [] {
      assert (d + tail)[0] == d[0] && IsHexDigit(d[0]);
      assert (d + tail)[1..] == d[1..] + tail;
      HexPrefixOfDigits(d[1..], tail);
      assert HexPrefix(d + tail) == [d[0]] + HexPrefix(d[1..] + tail);
      assert [d[0]] + d[1..] == d;
    } else {
      assert d + tail == tail;
    }
  }

  /** Text that starts with `0x` is read as hexadecimal. */
  lemma HexReadTrimmed(s: string)
    requires HasHexPrefix(s)
    ensures Unsigned(s) == s && ParseIntNoRadix(s) == HexRead(s)
  {
    TrimStartUnchanged(s);
  }

  /** `0x` followed by hexadecimal digits reads as their value, whatever
   *  non-digit text follows. */
  lemma ParseIntNoRadixHex(s: string, d: string, tail: string)
    requires HasHexPrefix(s) && s[2..] == d + tail
    requires d != [] && forall i :: 0 <= i < |d| ==> IsHexDigit(d[i])
    requires tail == [] || !IsHexDigit(tail[0])
    ensures ParseIntNoRadix(s) == Some(HexValue(d))
  {
    HexReadTrimmed(s);
    HexPrefixOfDigits(d, tail);
  }

  /** `0x` with no hexadecimal digit after it is NaN. */
  lemma ParseIntNoRadixBareHex(s: string)
    requires HasHexPrefix(s) && (|s| == 2 || !IsHexDigit(s[2]))
    ensures ParseIntNoRadix(s) == None
  {
    HexReadTrimmed(s);
  }

  /** Without a `0x` after the sign the reading is the decimal one. */
  lemma NoHexPrefixIsDecimal(s: string)
    requires !HasHexPrefix(Unsigned(TrimStart(s)))
    ensures ParseIntNoRadix(s) == ParseInt(s)
  {
  }

  /** Printed decimal numbers read back as themselves without a radix too,
   *  unless a `0` is followed by an `x`. */
  lemma ParseIntNoRadixOfNatToString(n: nat, tail: string)
    requires tail == [] || (!IsDigit(tail[0]) && tail[0] != 'x' && tail[0] != 'X')
    ensures ParseIntNoRadix(NatToString(n) + tail) == Some(n)
  {
    var d := NatToString(n);
    var s := d + tail;
    assert !HasHexPrefix(Unsigned(TrimStart(s))) by {
      assert s[0] == d[0] && IsDigit(d[0]);
      TrimStartUnchanged(s);
      assert Unsigned(s) == s;
      if |s| >= 2 {
        if |d| >= 2 {
          assert s[1] == d[1] && IsDigit(d[1]);
        } else {
          assert s[1] == tail[0];
        }
      }
    }
    NoHexPrefixIsDecimal(s);
    ParseIntOfNatToString(n, tail);
  }

  /** `parseInt('0x10')` is 16. */
  lemma ParseIntNoRadixHexExample()
    ensures ParseIntNoRadix("0x10") == Some(16)
  {
    assert HexValue("10") == 16 by {
      assert "10"[..1] == "1";
      assert "1"[..0] == "";
    }
    ParseIntNoRadixHex("0x10", "10", "");
  }

  /** `parseInt('0X1A')` is 26: the prefix and the digits may be upper case. */
  lemma ParseIntNoRadixUpperHexExample()
    ensures ParseIntNoRadix("0X1A") == Some(26)
  {
    assert HexValue("1A") == 26 by {
      assert "1A"[..1] == "1";
      assert "1"[..0] == "";
    }
    ParseIntNoRadixHex("0X1A", "1A", "");
  }

  /** `parseInt('0x')` is NaN. */
  lemma ParseIntNoRadixBareHexExample()
    ensures ParseIntNoRadix("0x") == None
  {
    ParseIntNoRadixBareHex("0x");
  }
}
