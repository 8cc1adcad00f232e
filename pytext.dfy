/** The parts of Python's `str` behaviour the backend relies on: `isspace`,
    `strip`, `lower`, `join`, `replace`, `int(...)` on text and `str(...)` on
    integers, and `repr` of a string. */
module PyText {
  import opened Common

  /** Python's `str.isspace()`: the characters `str.strip()` removes. */
  predicate IsSpace(c: char) {
    || c == ' ' || c == '\t' || c == '\n' || c == '\r'
    || c == '\U{B}' || c == '\U{C}'
    || ('\U{1C}' <= c <= '\U{1F}')
    || c == '\U{85}' || c == '\U{A0}' || c == '\U{1680}'
    || ('\U{2000}' <= c <= '\U{200A}')
    || c == '\U{2028}' || c == '\U{2029}' || c == '\U{202F}'
    || c == '\U{205F}' || c == '\U{3000}'
  }

  predicate Blank(s: string) {
    forall i :: 0 <= i < |s| ==> IsSpace(s[i])
  }

  /** `s.lstrip()`: drops the leading whitespace and nothing else. */
  function LStrip(s: string): (r: string)
    ensures |r| <= |s| && r == s[|s| - |r|..]
    ensures forall i :: 0 <= i < |s| - |r| ==> IsSpace(s[i])
    ensures r != [] ==> !IsSpace(r[0])
  {
    if |s| > 0 && IsSpace(s[0]) then
      assert forall i :: 1 <= i < |s| ==> s[i] == s[1..][i - 1];
      LStrip(s[1..])
    else s
  }

  /** `s.rstrip()`: drops the trailing whitespace and nothing else. */
  function RStrip(s: string): (r: string)
    ensures |r| <= |s| && r == s[..|r|]
    ensures forall i :: |r| <= i < |s| ==> IsSpace(s[i])
    ensures r != [] ==> !IsSpace(r[|r| - 1])
  {
    if |s| > 0 && IsSpace(s[|s| - 1]) then RStrip(s[..|s| - 1]) else s
  }

  /** `s.strip()`. */
  function Strip(s: string): (r: string)
  {
    RStrip(LStrip(s))
  }

  /** `s.strip()` is empty exactly when every character of `s` is whitespace,
      and otherwise it is the middle of `s` with no whitespace at either end. */
  lemma StripEmptyIffBlank(s: string)
    ensures Strip(s) == "" <==> Blank(s)
    ensures Strip(s) != "" ==> !IsSpace(Strip(s)[0]) && !IsSpace(Strip(s)[|Strip(s)| - 1])
  {
    var l := LStrip(s);
    if Strip(s) == "" {
      // every character of `l` is whitespace, so `lstrip` left nothing
      assert l == [];
    }
  }

  /** `strip()` leaves a string with no whitespace at either end as it is. */
  lemma StripKeepsTrimmed(t: string)
    requires t != [] ==> !IsSpace(t[0]) && !IsSpace(t[|t| - 1])
    ensures Strip(t) == t
  {
    assert LStrip(t) == t;
  }

  /** A string with a non-whitespace character keeps one after `strip()`. */
  lemma NotBlankStrips(s: string, k: nat)
    requires k < |s| && !IsSpace(s[k])
    ensures Strip(s) != ""
  {
    StripEmptyIffBlank(s);
  }

  /** `sep.join(xs)`. */
  function Join(sep: string, xs: seq<string>): (r: string)
    ensures |xs| > 0 ==> |xs[0]| <= |r| && r[..|xs[0]|] == xs[0]
  {
    if |xs| == 0 then ""
    else if |xs| == 1 then xs[0]
    else xs[0] + sep + Join(sep, xs[1..])
  }

  /** `s.lower()` on ASCII letters; other characters are kept. */
  function Lower(s: string): (r: string)
    ensures |r| == |s|
    ensures forall i :: 0 <= i < |s| ==>
      r[i] == if 'A' <= s[i] <= 'Z' then (s[i] - 'A' + 'a') as char else s[i]
  {
    if s == [] then []
    else [if 'A' <= s[0] <= 'Z' then (s[0] - 'A' + 'a') as char else s[0]] + Lower(s[1..])
  }

  /** `p` occurs in `s` starting at index `i`. */
  predicate OccursAt(p: string, s: string, i: int) {
    0 <= i <= |s| - |p| && s[i..i + |p|] == p
  }

  /** `p` occurs somewhere in `s`. */
  ghost predicate Occurs(p: string, s: string) {
    exists i :: OccursAt(p, s, i)
  }

  /** `s.replace(p, r)`: every occurrence of `p`, scanning from the left and
      not overlapping, is replaced by `r`. */
  function Replace(s: string, p: string, r: string): string
    requires |p| > 0
    decreases |s|
  {
    if |s| < |p| then s
    else if s[..|p|] == p then r + Replace(s[|p|..], p, r)
    else [s[0]] + Replace(s[1..], p, r)
  }

  /** An occurrence in the tail of a string is an occurrence in the string. */
  lemma OccursInTail(p: string, s: string)
    requires |s| > 0
    ensures Occurs(p, s[1..]) ==> Occurs(p, s)
  {
    if Occurs(p, s[1..]) {
      var i :| OccursAt(p, s[1..], i);
      assert s[i + 1..i + 1 + |p|] == s[1..][i..i + |p|];
      assert OccursAt(p, s, i + 1);
    }
  }

  /** Replacing a pattern that does not occur changes nothing. */
  lemma {:induction false} ReplaceAbsent(s: string, p: string, r: string)
    requires |p| > 0 && !Occurs(p, s)
    ensures Replace(s, p, r) == s
    decreases |s|
  {
    if |s| >= |p| {
      assert !OccursAt(p, s, 0);
      assert s[0..|p|] == s[..|p|];
      OccursInTail(p, s);
      ReplaceAbsent(s[1..], p, r);
      assert s == [s[0]] + s[1..];
    }
  }

  /** When the pattern occurs, the replacement text appears in the result:
      the leftmost occurrence is always replaced. */
  lemma {:induction false} ReplaceInserts(s: string, p: string, r: string)
    requires |p| > 0 && Occurs(p, s)
    ensures Occurs(r, Replace(s, p, r))
    decreases |s|
  {
    var i :| OccursAt(p, s, i);
    if s[..|p|] == p {
      var t := Replace(s, p, r);
      assert t[0..|r|] == r;
      assert OccursAt(r, t, 0);
    } else {
      assert i > 0;
      assert s[1..][i - 1..i - 1 + |p|] == s[i..i + |p|];
      assert OccursAt(p, s[1..], i - 1);
      ReplaceInserts(s[1..], p, r);
      var t := Replace(s[1..], p, r);
      var j :| OccursAt(r, t, j);
      assert ([s[0]] + t)[j + 1..j + 1 + |r|] == t[j..j + |r|];
      assert OccursAt(r, [s[0]] + t, j + 1);
    }
  }

  /** Replacing a pattern by text that avoids a character keeps a string that
      avoids it free of it. */
  lemma {:induction false} ReplaceAvoids(s: string, p: string, r: string, c: char)
    requires |p| > 0 && c !in s && c !in r
    ensures c !in Replace(s, p, r)
    decreases |s|
  {
    if |s| >= |p| {
      if s[..|p|] == p {
        ReplaceAvoids(s[|p|..], p, r, c);
      } else {
        ReplaceAvoids(s[1..], p, r, c);
      }
    }
  }

  function DigitValue(c: char): (d: nat)
    requires '0' <= c <= '9'
    ensures d < 10
  {
    (c - '0') as nat
  }

  function DigitChar(d: nat): (c: char)
    requires d < 10
    ensures '0' <= c <= '9' && DigitValue(c) == d
  {
    ('0' as int + d) as char
  }

  predicate AllDigits(s: string) {
    forall i :: 0 <= i < |s| ==> '0' <= s[i] <= '9'
  }

  /** The value of a string of decimal digits, most significant first. */
  function DigitsValue(s: string): (n: nat)
    requires AllDigits(s)
  {
    if s == [] then 0 else DigitsValue(s[..|s| - 1]) * 10 + DigitValue(s[|s| - 1])
  }

  /** The decimal digits of a natural number, as `str(n)` writes them. */
  function NatDigits(n: nat): (s: string)
    ensures |s| > 0 && AllDigits(s)
    ensures DigitsValue(s) == n
    ensures |s| > 1 ==> s[0] != '0'
    decreases n
  {
    if n < 10 then [DigitChar(n)]
    else
      var init := NatDigits(n / 10);
      var s := init + [DigitChar(n % 10)];
      assert s[..|s| - 1] == init;
      s
  }

  /** `str(n)` for an integer. */
  function IntText(n: int): (s: string)
    ensures s != [] && !IsSpace(s[0])
  {
    if n < 0 then "-" + NatDigits(-n) else NatDigits(n)
  }

  /** `int(s)` for a string: surrounding whitespace is allowed, then an
      optional sign and at least one ASCII digit. */
  function ParseInt(s: string): (r: Option<int>)
  {
    var t := Strip(s);
    if t == [] then None
    else
      var sign := if t[0] == '-' then -1 else 1;
      var digits := if t[0] == '-' || t[0] == '+' then t[1..] else t;
      if digits != [] && AllDigits(digits) then Some(sign * DigitsValue(digits)) else None
  }

  /** `int(str(n)) == n`: an integer written by `str` is read back unchanged. */
  lemma IntTextRoundTrip(n: int)
    ensures ParseInt(IntText(n)) == Some(n)
  {
    var s := IntText(n);
    var d := NatDigits(if n < 0 then -n else n);
    assert d[0] != ' ' && !IsSpace(d[0]);
    assert !IsSpace(s[|s| - 1]) by {
      assert s[|s| - 1] == d[|d| - 1];
    }
    assert LStrip(s) == s;
    assert RStrip(s) == s;
    if n >= 0 {
      assert s[0] != '-' && s[0] != '+';
    } else {
      assert s[1..] == d;
    }
  }

  // ------------------------------------------------------------- repr

  /** The quote `repr` puts around a string: double quotes when the text
      holds a single quote and no double quote, single quotes otherwise. */
  function ReprQuote(s: string): (q: char)
    ensures q == '\'' || q == '"'
    ensures q == '"' <==> '\'' in s && '"' !in s
  {
    if '\'' in s && '"' !in s then '"' else '\''
  }

  function HexValue(c: char): Option<nat> {
    if '0' <= c <= '9' then Some(c as int - '0' as int)
    else if 'a' <= c <= 'f' then Some(c as int - 'a' as int + 10)
    else None
  }

  /** A lower-case hexadecimal digit, as `repr` writes them. */
  function HexDigit(d: nat): (c: char)
    requires d < 16
    ensures HexValue(c) == Some(d)
  {
    if d < 10 then DigitChar(d) else ('a' as int + d - 10) as char
  }

  /** The ASCII control characters `repr` writes as `\xNN`. */
  predicate HexEscaped(c: char) {
    (c < ' ' && c != '\t' && c != '\n' && c != '\r') || c == '\U{7F}'
  }

  /** How `repr` writes one character of a string quoted with `q`. */
  function EscapedChar(c: char, q: char): (e: string)
    ensures e != []
  {
    if c == q || c == '\\' then ['\\', c]
    else if c == '\t' then "\\t"
    else if c == '\n' then "\\n"
    else if c == '\r' then "\\r"
    else if HexEscaped(c) then "\\x" + [HexDigit(c as int / 16), HexDigit(c as int % 16)]
    else [c]
  }

  function Escaped(s: string, q: char): string {
    if s == [] then [] else EscapedChar(s[0], q) + Escaped(s[1..], q)
  }

  /** `repr(s)`: the text between quotes, with the quote, the backslash
      and the ASCII control characters escaped. */
  function StrRepr(s: string): (r: string)
    ensures |r| >= 2 && r[0] == ReprQuote(s) && r[|r| - 1] == ReprQuote(s)
  {
    [ReprQuote(s)] + Escaped(s, ReprQuote(s)) + [ReprQuote(s)]
  }

  function Prepend(c: char, rest: Option<string>): Option<string> {
    if rest.None? then None else Some([c] + rest.value)
  }

  /** Reading the escapes of a string literal back. */
  function Unescaped(t: string): Option<string>
    decreases |t|
  {
    if t == [] then Some([])
    else if t[0] != '\\' then Prepend(t[0], Unescaped(t[1..]))
    else if |t| < 2 then None
    else if t[1] == 't' then Prepend('\t', Unescaped(t[2..]))
    else if t[1] == 'n' then Prepend('\n', Unescaped(t[2..]))
    else if t[1] == 'r' then Prepend('\r', Unescaped(t[2..]))
    else if t[1] == 'x' then
      if |t| < 4 || HexValue(t[2]).None? || HexValue(t[3]).None? then None
      else Prepend((HexValue(t[2]).value * 16 + HexValue(t[3]).value) as char, Unescaped(t[4..]))
    else Prepend(t[1], Unescaped(t[2..]))
  }

  /** One escaped character is read back as that character. */
  lemma UnescapedChar(c: char, q: char, rest: string)
    requires q == '\'' || q == '"'
    ensures Unescaped(EscapedChar(c, q) + rest) == Prepend(c, Unescaped(rest))
  {
    if c == q || c == '\\' {
      var t := ['\\', c] + rest;
      assert t[1] == c && t[2..] == rest;
    } else if c == '\t' || c == '\n' || c == '\r' {
      var t := EscapedChar(c, q) + rest;
      assert |EscapedChar(c, q)| == 2 && t[2..] == rest;
    } else if HexEscaped(c) {
      UnescapedHex(c, q, rest);
    } else {
      assert ([c] + rest)[1..] == rest;
    }
  }

  /** The `\xNN` case of `UnescapedChar`. */
  lemma UnescapedHex(c: char, q: char, rest: string)
    requires HexEscaped(c) && c != q && c != '\\'
    ensures Unescaped(EscapedChar(c, q) + rest) == Prepend(c, Unescaped(rest))
  {
    var hi, lo := HexDigit(c as int / 16), HexDigit(c as int % 16);
    var t := ['\\', 'x', hi, lo] + rest;
    assert EscapedChar(c, q) + rest == t;
    assert t[4..] == rest;
    assert (HexValue(hi).value * 16 + HexValue(lo).value) as char == c;
  }

  /** Whatever the quote, the escaped text reads back as the original. */
  lemma {:induction false} EscapedRoundTrip(s: string, q: char)
    requires q == '\'' || q == '"'
    ensures Unescaped(Escaped(s, q)) == Some(s)
  {
    if s != [] {
      EscapedRoundTrip(s[1..], q);
      UnescapedChar(s[0], q, Escaped(s[1..], q));
      assert [s[0]] + s[1..] == s;
    }
  }

  /** Text without quotes, backslashes or control characters is written
      between single quotes unchanged. */
  lemma {:induction false} PlainRepr(s: string)
    requires forall i :: 0 <= i < |s| ==> s[i] != '\'' && s[i] != '\\' && s[i] >= ' ' && s[i] != '\U{7F}'
    ensures StrRepr(s) == "'" + s + "'"
  {
    PlainEscaped(s);
  }

  lemma {:induction false} PlainEscaped(s: string)
    requires forall i :: 0 <= i < |s| ==> s[i] != '\'' && s[i] != '\\' && s[i] >= ' ' && s[i] != '\U{7F}'
    ensures Escaped(s, '\'') == s
  {
    if s != [] {
      PlainEscaped(s[1..]);
      assert [s[0]] + s[1..] == s;
    }
  }
}
