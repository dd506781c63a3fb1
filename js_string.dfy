/** The JavaScript string built-ins the application relies on, over `seq<char>`. */
module JsString {

  /** The characters `String.prototype.trim` strips and the regular-expression class `\s`
      matches: the ECMAScript WhiteSpace and LineTerminator code points. */
  predicate IsWhiteSpace(c: char) {
    var n := c as int;
    n == 0x09 || n == 0x0A || n == 0x0B || n == 0x0C || n == 0x0D || n == 0x20 ||
    n == 0xA0 || n == 0x1680 || (0x2000 <= n <= 0x200A) || n == 0x2028 || n == 0x2029 ||
    n == 0x202F || n == 0x205F || n == 0x3000 || n == 0xFEFF
  }

  /** Number of white-space characters at the start of `s`. */
  function LeadingWhiteSpace(s: string): (n: nat)
    ensures n <= |s|
    ensures forall i :: 0 <= i < n ==> IsWhiteSpace(s[i])
    ensures n < |s| ==> !IsWhiteSpace(s[n])
  {
    if s != [] && IsWhiteSpace(s[0]) then 1 + LeadingWhiteSpace(s[1..]) else 0
  }

  /** Number of white-space characters at the end of `s`. */
  function TrailingWhiteSpace(s: string): (n: nat)
    ensures n <= |s|
    ensures forall i :: |s| - n <= i < |s| ==> IsWhiteSpace(s[i])
    ensures n < |s| ==> !IsWhiteSpace(s[|s| - 1 - n])
  {
    if s != [] && IsWhiteSpace(s[|s| - 1]) then 1 + TrailingWhiteSpace(s[..|s| - 1]) else 0
  }

  /** `s.trim()`: the longest infix of `s` that neither starts nor ends with white space,
      everything cut away being white space. */
  function Trim(s: string): (r: string)
    ensures |r| <= |s|
    ensures r != [] ==> !IsWhiteSpace(r[0]) && !IsWhiteSpace(r[|r| - 1])
    ensures LeadingWhiteSpace(s) + |r| <= |s|
    ensures r == s[LeadingWhiteSpace(s)..LeadingWhiteSpace(s) + |r|]
    ensures r == [] <==> forall i :: 0 <= i < |s| ==> IsWhiteSpace(s[i])
    ensures forall i :: LeadingWhiteSpace(s) + |r| <= i < |s| ==> IsWhiteSpace(s[i])
  {
    var a := LeadingWhiteSpace(s);
    var rest := s[a..];
    var r := rest[..|rest| - TrailingWhiteSpace(rest)];
    assert forall i :: a + |r| <= i < |s| ==> s[i] == rest[i - a];
    r
  }

  /** Trimming a trimmed string changes nothing. */
  lemma TrimIdempotent(s: string)
    ensures Trim(Trim(s)) == Trim(s)
  {
    var t := Trim(s);
    if t != [] {
      assert LeadingWhiteSpace(t) == 0;
      assert TrailingWhiteSpace(t) == 0;
    }
  }

  /** `s.startsWith(p)` */
  predicate StartsWith(s: string, p: string) {
    |p| <= |s| && s[..|p|] == p
  }

  /** `needle` occurs in `h` at offset `i`. */
  predicate OccursAt(h: string, needle: string, i: nat) {
    i + |needle| <= |h| && h[i..i + |needle|] == needle
  }

  /** `h.includes(needle)`: some offset of `h` holds `needle`. */
  function Includes(h: string, needle: string): (b: bool)
    ensures b <==> exists i: nat :: OccursAt(h, needle, i)
  {
    if |needle| > |h| then false
    else if h[..|needle|] == needle then
      assert OccursAt(h, needle, 0);
      true
    else
      var b := Includes(h[1..], needle);
      assert forall i: nat :: OccursAt(h[1..], needle, i) <==> OccursAt(h, needle, i + 1) by {
        forall i: nat ensures OccursAt(h[1..], needle, i) <==> OccursAt(h, needle, i + 1) {
          if i + |needle| <= |h[1..]| {
            assert h[1..][i..i + |needle|] == h[i + 1..i + 1 + |needle|];
          }
        }
      }
      assert b <==> exists i: nat :: OccursAt(h, needle, i) by {
        if exists i: nat :: OccursAt(h, needle, i) {
          var i: nat :| OccursAt(h, needle, i);
          assert i != 0;
          assert OccursAt(h[1..], needle, i - 1);
        }
      }
      b
  }

  /** Every string includes the empty string. */
  lemma IncludesEmpty(h: string)
    ensures Includes(h, "")
  {
    assert OccursAt(h, "", 0);
  }

  /** `parts.join(sep)` */
  function Join(parts: seq<string>, sep: string): string {
    if |parts| == 0 then ""
    else if |parts| == 1 then parts[0]
    else parts[0] + sep + Join(parts[1..], sep)
  }

  /** `s.split(sep)` for a one-character separator: the pieces between separators, in order;
      there is always at least one piece. */
  function Split(s: string, sep: char): (parts: seq<string>)
    ensures |parts| >= 1
    ensures forall k :: 0 <= k < |parts| ==> sep !in parts[k]
    ensures Join(parts, [sep]) == s
  {
    if s == [] then [""]
    else
      var tail := Split(s[1..], sep);
      if s[0] == sep then
        assert s == [sep] + s[1..];
        [""] + tail
      else
        var parts := [[s[0]] + tail[0]] + tail[1..];
        assert s == [s[0]] + s[1..];
        assert Join(parts, [sep]) == [s[0]] + Join(tail, [sep]) by {
          if |tail| == 1 {
          } else {
            assert parts[1..] == tail[1..];
          }
        }
        parts
  }

  /** `Split` is the only way to cut `s` into separator-free pieces that join back to `s`. */
  lemma {:induction false} SplitUnique(s: string, sep: char, parts: seq<string>)
    requires |parts| >= 1
    requires forall k :: 0 <= k < |parts| ==> sep !in parts[k]
    requires Join(parts, [sep]) == s
    ensures parts == Split(s, sep)
  {
    if |parts| == 1 {
      assert sep !in s;
      SplitNoSeparator(s, sep);
    } else if parts[0] == [] {
      var rest := Join(parts[1..], [sep]);
      assert s == [sep] + rest;
      assert s[1..] == rest;
      SplitUnique(rest, sep, parts[1..]);
    } else {
      var c := parts[0][0];
      var shorter := [parts[0][1..]] + parts[1..];
      assert parts[0] == [c] + parts[0][1..];
      assert Join(shorter, [sep]) == parts[0][1..] + [sep] + Join(parts[1..], [sep]);
      assert s == [c] + Join(shorter, [sep]);
      assert s[1..] == Join(shorter, [sep]);
      assert sep !in shorter[0];
      assert forall k :: 0 <= k < |shorter| ==> sep !in shorter[k] by {
        forall k | 0 <= k < |shorter| ensures sep !in shorter[k] {
          if k > 0 { assert shorter[k] == parts[k]; }
        }
      }
      SplitUnique(s[1..], sep, shorter);
      assert c != sep;
    }
  }

  /** A string without the separator splits into itself alone. */
  lemma {:induction false} SplitNoSeparator(s: string, sep: char)
    requires sep !in s
    ensures Split(s, sep) == [s]
  {
    if s != [] {
      SplitNoSeparator(s[1..], sep);
      assert s == [s[0]] + s[1..];
    }
  }

  /** ASCII case mapping (the application only lower- and upper-cases ASCII here). */
  function LowerChar(c: char): char {
    if 'A' <= c <= 'Z' then (c as int + 32) as char else c
  }

  function UpperChar(c: char): char {
    if 'a' <= c <= 'z' then (c as int - 32) as char else c
  }

  /** `s.toLowerCase()` restricted to ASCII letters. */
  function ToLower(s: string): (r: string)
    ensures |r| == |s|
    ensures forall i :: 0 <= i < |s| ==> r[i] == LowerChar(s[i])
  {
    seq(|s|, i requires 0 <= i < |s| => LowerChar(s[i]))
  }

  /** `s.toUpperCase()` restricted to ASCII letters. */
  function ToUpper(s: string): (r: string)
    ensures |r| == |s|
    ensures forall i :: 0 <= i < |s| ==> r[i] == UpperChar(s[i])
  {
    seq(|s|, i requires 0 <= i < |s| => UpperChar(s[i]))
  }

  /** `s.slice(0, n)` */
  function Prefix(s: string, n: nat): (r: string)
    ensures |r| == if n <= |s| then n else |s|
    ensures r == s[..|r|]
  {
    if n <= |s| then s[..n] else s
  }

  predicate IsDigit(c: char) {
    '0' as int <= c as int <= '9' as int
  }

  function DigitChar(d: nat): (c: char)
    requires d < 10
    ensures IsDigit(c) && c as int - '0' as int == d
  {
    ('0' as int + d) as char
  }

  /** Decimal digits of a natural number, most significant first, without leading zeros. */
  function NatToDecimal(n: nat): (s: string)
    ensures |s| >= 1
    ensures forall i :: 0 <= i < |s| ==> IsDigit(s[i])
    ensures |s| > 1 ==> s[0] != '0'
    decreases n
  {
    if n < 10 then [DigitChar(n)] else NatToDecimal(n / 10) + [DigitChar(n % 10)]
  }

  /** The value of a string of decimal digits. */
  function DecimalValue(s: string): nat
    requires forall i :: 0 <= i < |s| ==> IsDigit(s[i])
  {
    if s == [] then 0
    else
      assert IsDigit(s[|s| - 1]);
      DecimalValue(s[..|s| - 1]) * 10 + (s[|s| - 1] as int - '0' as int)
  }

  /** Reading back the digits that `NatToDecimal` writes gives the number. */
  lemma {:induction false} NatToDecimalRoundTrip(n: nat)
    ensures DecimalValue(NatToDecimal(n)) == n
    decreases n
  {
    if n >= 10 {
      var s := NatToDecimal(n);
      assert s[..|s| - 1] == NatToDecimal(n / 10);
      NatToDecimalRoundTrip(n / 10);
    }
  }

  /** `String(n)` for an integer: an optional minus sign, then the digits of `|n|`. */
  function IntToDecimal(n: int): (s: string)
    ensures |s| >= 1
    ensures n < 0 ==> s[0] == '-' && s[1..] == NatToDecimal(-n)
    ensures n >= 0 ==> forall i :: 0 <= i < |s| ==> IsDigit(s[i])
  {
    if n < 0 then "-" + NatToDecimal(-n) else NatToDecimal(n)
  }

  /** Distinct naturals have distinct digit strings. */
  lemma NatToDecimalInjective(m: nat, n: nat)
    requires NatToDecimal(m) == NatToDecimal(n)
    ensures m == n
  {
    NatToDecimalRoundTrip(m);
    NatToDecimalRoundTrip(n);
  }

  /** Distinct integers have distinct decimal forms. */
  lemma IntToDecimalInjective(m: int, n: int)
    requires IntToDecimal(m) == IntToDecimal(n)
    ensures m == n
  {
    if m < 0 && n < 0 {
      NatToDecimalInjective(-m, -n);
    } else if m >= 0 && n >= 0 {
      NatToDecimalInjective(m, n);
    }
  }
}
