/**
 * The two pieces of Go's standard library whose output the validator's error
 * messages are made of: the `%q` verb of `fmt` applied to a string (which is
 * `strconv.Quote`) and `strings.Join`. Each comes with a partner: a decoder
 * that recovers the quoted string, and a lemma giving the exact layout of a
 * joined string.
 */
module GoFormat {
  import opened Wrappers

  // ---------------------------------------------------------------------------
  // strconv.IsPrint

  /**
   * Go's `strconv.IsPrint`, exact on U+0000..U+00FF (the Latin-1 fast path):
   * printable are U+0020..U+007E and U+00A1..U+00FF except the soft hyphen
   * U+00AD. Runes above U+00FF are all treated as printable here.
   */
  predicate IsPrint(c: char)
  {
    var x := c as int;
    (0x20 <= x <= 0x7E) || (0xA1 <= x <= 0xFF && x != 0xAD) || x > 0xFF
  }

  // ---------------------------------------------------------------------------
  // Hexadecimal digits, lower case as strconv writes them

  function HexDigit(n: nat): (d: char)
    requires n < 16
    ensures HexVal(d) == n
  {
    if n < 10 then ('0' as int + n) as char else ('a' as int + n - 10) as char
  }

  /** The value of a lower-case hexadecimal digit, or -1 for any other character. */
  function HexVal(d: char): (v: int)
    ensures -1 <= v < 16
  {
    if '0' <= d <= '9' then d as int - '0' as int
    else if 'a' <= d <= 'f' then d as int - 'a' as int + 10
    else -1
  }

  // ---------------------------------------------------------------------------
  // The one-letter escapes \a \b \f \n \r \t \v

  /** The letter strconv writes after a backslash for a control character that has one. */
  function EscapeLetter(c: char): Option<char>
  {
    var x := c as int;
    if x == 0x07 then Some('a')
    else if x == 0x08 then Some('b')
    else if x == 0x0C then Some('f')
    else if x == 0x0A then Some('n')
    else if x == 0x0D then Some('r')
    else if x == 0x09 then Some('t')
    else if x == 0x0B then Some('v')
    else None
  }

  /** The control character a one-letter escape stands for. */
  function LetterEscape(l: char): Option<char>
  {
    if l == 'a' then Some(0x07 as char)
    else if l == 'b' then Some(0x08 as char)
    else if l == 'f' then Some(0x0C as char)
    else if l == 'n' then Some(0x0A as char)
    else if l == 'r' then Some(0x0D as char)
    else if l == 't' then Some(0x09 as char)
    else if l == 'v' then Some(0x0B as char)
    else None
  }

  // ---------------------------------------------------------------------------
  // %q (strconv.Quote)

  /** strconv's appendEscapedRune with `"` as the quote character. */
  function EscapeRune(c: char): (r: string)
  {
    var x := c as int;
    if c == '"' || c == '\\' then ['\\', c]
    else if IsPrint(c) then [c]
    else if EscapeLetter(c).Some? then ['\\', EscapeLetter(c).value]
    else if x < 0x20 || x == 0x7F then ['\\', 'x', HexDigit(x / 16), HexDigit(x % 16)]
    else ['\\', 'u', HexDigit(x / 16 / 16 / 16 % 16), HexDigit(x / 16 / 16 % 16), HexDigit(x / 16 % 16), HexDigit(x % 16)]
  }

  function Escape(s: string): string
  {
    if s == [] then "" else EscapeRune(s[0]) + Escape(s[1..])
  }

  /** What `fmt.Sprintf("%q", s)` writes for a string `s`. */
  function Quote(s: string): string
  {
    ['"'] + Escape(s) + ['"']
  }

  // ---------------------------------------------------------------------------
  // Decoding %q: the partner of Quote

  function Prepend(c: char, r: Option<(string, string)>): Option<(string, string)>
  {
    match r
    case None => None
    case Some((s, rest)) => Some(([c] + s, rest))
  }

  /**
   * Reads the body of a quoted string up to its closing quote and returns the
   * decoded text and what follows the closing quote.
   */
  function ParseQuotedBody(t: string): Option<(string, string)>
    decreases |t|
  {
    if |t| == 0 then None
    else if t[0] == '"' then Some(("", t[1..]))
    else if t[0] != '\\' then Prepend(t[0], ParseQuotedBody(t[1..]))
    else if |t| < 2 then None
    else if t[1] == '"' || t[1] == '\\' then Prepend(t[1], ParseQuotedBody(t[2..]))
    else if LetterEscape(t[1]).Some? then Prepend(LetterEscape(t[1]).value, ParseQuotedBody(t[2..]))
    else if t[1] == 'x' then
      if |t| < 4 || HexVal(t[2]) < 0 || HexVal(t[3]) < 0 then None
      else Prepend((16 * HexVal(t[2]) + HexVal(t[3])) as char, ParseQuotedBody(t[4..]))
    else if t[1] == 'u' then
      if |t| < 6 || HexVal(t[2]) < 0 || HexVal(t[3]) < 0 || HexVal(t[4]) < 0 || HexVal(t[5]) < 0 then None
      else
        var v := ((HexVal(t[2]) * 16 + HexVal(t[3])) * 16 + HexVal(t[4])) * 16 + HexVal(t[5]);
        if 0xD800 <= v < 0xE000 then None else Prepend(v as char, ParseQuotedBody(t[6..]))
    else None
  }

  /** Reads a quoted string at the front of `t`; returns its text and the rest of `t`. */
  function UnquotePrefix(t: string): Option<(string, string)>
  {
    if |t| > 0 && t[0] == '"' then ParseQuotedBody(t[1..]) else None
  }

  lemma EscapeRuneRoundTrip(c: char, tail: string)
    ensures ParseQuotedBody(EscapeRune(c) + tail) == Prepend(c, ParseQuotedBody(tail))
  {
    var x := c as int;
    if c == '"' || c == '\\' || IsPrint(c) || EscapeLetter(c).Some? {
      ShortEscapeRoundTrip(c, tail);
    } else if x < 0x20 || x == 0x7F {
      HexEscapeRoundTrip(c, tail);
    } else {
      UnicodeEscapeRoundTrip(c, tail);
    }
  }

  lemma ShortEscapeRoundTrip(c: char, tail: string)
    requires c == '"' || c == '\\' || IsPrint(c) || EscapeLetter(c).Some?
    ensures ParseQuotedBody(EscapeRune(c) + tail) == Prepend(c, ParseQuotedBody(tail))
  {
    var t := EscapeRune(c) + tail;
    if c == '"' || c == '\\' {
      assert t[2..] == tail;
    } else if IsPrint(c) {
      assert t[1..] == tail;
    } else {
      assert t[2..] == tail;
    }
  }

  lemma HexEscapeRoundTrip(c: char, tail: string)
    requires !(c == '"' || c == '\\' || IsPrint(c) || EscapeLetter(c).Some?)
    requires c as int < 0x20 || c as int == 0x7F
    ensures ParseQuotedBody(EscapeRune(c) + tail) == Prepend(c, ParseQuotedBody(tail))
  {
    var x := c as int;
    var t := EscapeRune(c) + tail;
    assert t[..4] == ['\\', 'x', HexDigit(x / 16), HexDigit(x % 16)];
    assert t[4..] == tail;
    assert 16 * (x / 16) + x % 16 == x;
  }

  lemma UnicodeEscapeRoundTrip(c: char, tail: string)
    requires !(c == '"' || c == '\\' || IsPrint(c) || EscapeLetter(c).Some?)
    requires !(c as int < 0x20 || c as int == 0x7F)
    ensures ParseQuotedBody(EscapeRune(c) + tail) == Prepend(c, ParseQuotedBody(tail))
  {
    var x := c as int;
    var t := EscapeRune(c) + tail;
    var q1, q2, q3 := x / 16, x / 16 / 16, x / 16 / 16 / 16;
    assert t[..6] == ['\\', 'u', HexDigit(q3 % 16), HexDigit(q2 % 16), HexDigit(q1 % 16), HexDigit(x % 16)];
    assert t[6..] == tail;
    assert x == 16 * q1 + x % 16;
    assert q1 == 16 * q2 + q1 % 16;
    assert q2 == 16 * q3 + q2 % 16;
    assert q3 % 16 == q3;
  }

  /** Decoding an escaped body followed by the closing quote gives back the text and the rest. */
  lemma {:induction false} EscapeRoundTrip(s: string, rest: string)
    ensures ParseQuotedBody(Escape(s) + ['"'] + rest) == Some((s, rest))
    decreases |s|
  {
    if s == [] {
      assert Escape(s) + ['"'] + rest == ['"'] + rest;
    } else {
      var tail := Escape(s[1..]) + ['"'] + rest;
      assert Escape(s) + ['"'] + rest == EscapeRune(s[0]) + tail;
      EscapeRuneRoundTrip(s[0], tail);
      EscapeRoundTrip(s[1..], rest);
      assert [s[0]] + s[1..] == s;
    }
  }

  /** `%q` loses nothing: the quoted text, and whatever follows it, can be read back. */
  lemma QuoteRoundTrip(s: string, rest: string)
    ensures UnquotePrefix(Quote(s) + rest) == Some((s, rest))
  {
    var t := Quote(s) + rest;
    assert t[1..] == Escape(s) + ['"'] + rest;
    EscapeRoundTrip(s, rest);
  }

  /** Different strings give different quotations. */
  lemma QuoteInjective(s1: string, s2: string)
    requires Quote(s1) == Quote(s2)
    ensures s1 == s2
  {
    QuoteRoundTrip(s1, "");
    QuoteRoundTrip(s2, "");
    assert Quote(s1) + "" == Quote(s2) + "";
  }

  /** A string of printable characters without `"` or `\` is quoted by surrounding it with `"`. */
  lemma {:induction false} QuotePlain(s: string)
    requires forall i :: 0 <= i < |s| ==> IsPrint(s[i]) && s[i] != '"' && s[i] != '\\'
    ensures Quote(s) == ['"'] + s + ['"']
  {
    EscapePlain(s);
  }

  lemma {:induction false} EscapePlain(s: string)
    requires forall i :: 0 <= i < |s| ==> IsPrint(s[i]) && s[i] != '"' && s[i] != '\\'
    ensures Escape(s) == s
  {
    if s != [] {
      EscapePlain(s[1..]);
      assert [s[0]] + s[1..] == s;
    }
  }

  // ---------------------------------------------------------------------------
  // strings.Join

  /** Go's `strings.Join`: nothing for no elements, the element itself for one, separators between. */
  function Join(elems: seq<string>, sep: string): string
  {
    if |elems| == 0 then ""
    else if |elems| == 1 then elems[0]
    else elems[0] + sep + Join(elems[1..], sep)
  }

  /** Where the `i`th element starts in `Join(elems, sep)`. */
  function Offset(elems: seq<string>, sep: string, i: nat): nat
    requires i <= |elems|
  {
    if i == 0 then 0 else |elems[0]| + |sep| + Offset(elems[1..], sep, i - 1)
  }

  /**
   * The layout of a joined string: every element, in order, at its offset;
   * a separator right after each element but the last; the last element
   * ending the string.
   */
  lemma {:induction false} JoinAt(elems: seq<string>, sep: string, i: nat)
    requires i < |elems|
    ensures Offset(elems, sep, i) + |elems[i]| <= |Join(elems, sep)|
    ensures Join(elems, sep)[Offset(elems, sep, i)..Offset(elems, sep, i) + |elems[i]|] == elems[i]
    ensures i + 1 < |elems| ==>
      Offset(elems, sep, i) + |elems[i]| + |sep| <= |Join(elems, sep)| &&
      Join(elems, sep)[Offset(elems, sep, i) + |elems[i]|..Offset(elems, sep, i) + |elems[i]| + |sep|] == sep
    ensures i + 1 == |elems| ==> Offset(elems, sep, i) + |elems[i]| == |Join(elems, sep)|
  {
    var j := Join(elems, sep);
    if |elems| == 1 {
    } else {
      var tail := Join(elems[1..], sep);
      var head := elems[0] + sep;
      assert j == head + tail;
      if i == 0 {
        assert j[..|elems[0]|] == elems[0];
        assert j[|elems[0]|..|head|] == sep;
      } else {
        var e := elems[1..];
        assert e[i - 1] == elems[i];
        JoinAt(e, sep, i - 1);
        var o := Offset(e, sep, i - 1);
        var n := |elems[i]|;
        assert Offset(elems, sep, i) == |head| + o;
        SliceAfter(head, tail, o, o + n);
        if i + 1 < |elems| {
          SliceAfter(head, tail, o + n, o + n + |sep|);
        }
      }
    }
  }

  /** A slice of the second part of a concatenation, shifted by the length of the first. */
  lemma SliceAfter(a: string, b: string, x: nat, y: nat)
    requires x <= y <= |b|
    ensures (a + b)[|a| + x..|a| + y] == b[x..y]
  {
  }
}
