/** String formatting the query layer relies on: decimal numbers, `str.join`,
    code-point ordering, substring search and Python's `repr` of a string. */
module Strings {
  import opened Py

  // ---------------------------------------------------------------------------
  // Decimal numbers (`str(int)`)

  function Digit(d: nat): char
    requires d < 10
  {
    "0123456789"[d]
  }

  predicate IsDigit(c: char)
  {
    '0' <= c <= '9'
  }

  function NatToString(n: nat): (s: string)
    ensures |s| >= 1
    ensures forall i :: 0 <= i < |s| ==> IsDigit(s[i])
    decreases n
  {
    if n < 10 then [Digit(n)] else NatToString(n / 10) + [Digit(n % 10)]
  }

  /** A character `str(int)` can write. */
  predicate NumberChar(c: char)
  {
    IsDigit(c) || c == '-'
  }

  /** `str(i)` for a Python int. */
  function IntToString(i: int): (s: string)
    ensures |s| >= 1 && (s[0] == '-' <==> i < 0)
    ensures forall k :: 0 <= k < |s| ==> NumberChar(s[k])
  {
    if i < 0 then "-" + NatToString(-i) else NatToString(i)
  }

  function DigitValue(c: char): nat
    requires IsDigit(c)
  {
    (c as int) - ('0' as int)
  }

  /** The number a string of decimal digits denotes (the reading `int(s)` does). */
  function DigitsValue(s: string): nat
    requires forall i :: 0 <= i < |s| ==> IsDigit(s[i])
  {
    if s == [] then 0
    else DigitsValue(s[..|s| - 1]) * 10 + DigitValue(s[|s| - 1])
  }

  /** `str(n)` loses nothing: the digits read back as n. */
  lemma {:induction false} NatToStringRoundTrip(n: nat)
    ensures DigitsValue(NatToString(n)) == n
    decreases n
  {
    var s := NatToString(n);
    if n >= 10 {
      NatToStringRoundTrip(n / 10);
      assert s[..|s| - 1] == NatToString(n / 10);
    }
  }

  lemma NatToStringInjective(m: nat, n: nat)
    requires NatToString(m) == NatToString(n)
    ensures m == n
  {
    NatToStringRoundTrip(m);
    NatToStringRoundTrip(n);
  }

  /** Distinct numbers print differently. */
  lemma IntToStringInjective(a: int, b: int)
    requires IntToString(a) == IntToString(b)
    ensures a == b
  {
    var sa, sb := IntToString(a), IntToString(b);
    if a < 0 {
      assert b < 0 by { assert sb[0] == sa[0] == '-'; }
      assert sa[1..] == NatToString(-a);
      assert sb[1..] == NatToString(-b);
      NatToStringInjective(-a, -b);
    } else {
      assert b >= 0 by { assert sb[0] == sa[0] != '-'; }
      NatToStringInjective(a, b);
    }
  }

  /** `'%0<width>d' % n` for a natural number. */
  function PadNat(n: nat, width: nat): (s: string)
    ensures |s| >= width
  {
    var digits := NatToString(n);
    if |digits| >= width then digits else seq(width - |digits|, _ => '0') + digits
  }

  /** `str(d)` for a `datetime.date`: ISO 8601, YYYY-MM-DD. */
  function DateIso(d: Date): string
  {
    PadNat(d.year, 4) + "-" + PadNat(d.month, 2) + "-" + PadNat(d.day, 2)
  }

  // ---------------------------------------------------------------------------
  // Joining and concatenating

  /** `sep.join(parts)`. */
  function Join(sep: string, parts: seq<string>): string
  {
    if |parts| == 0 then ""
    else if |parts| == 1 then parts[0]
    else parts[0] + sep + Join(sep, parts[1..])
  }

  lemma JoinTwo(sep: string, a: string, b: string)
    ensures Join(sep, [a, b]) == a + sep + b
  {
    assert [a, b][1..] == [b];
  }

  /** The text inside a one-character opening, followed by what comes after it. */
  lemma Unbrace(open: string, x: string, close: string, rest: string)
    requires |open| == 1
    ensures (open + x + close + rest)[1..] == x + (close + rest)
  {
  }

  lemma Regroup(a: string, b: string, c: string, d: string, e: string, f: string)
    ensures (a + b) + c + (d + e) + f == a + (b + (c + (d + (e + f))))
  {
  }

  /** A join of two or more parts, followed by a text, regrouped around its first separator. */
  lemma JoinCons(sep: string, parts: seq<string>, x: string)
    requires |parts| > 1
    ensures Join(sep, parts) + x == parts[0] + (sep + (Join(sep, parts[1..]) + x))
  {
  }

  /** `sep.join(parts)` starts with the first part. */
  lemma JoinStartsWithFirst(sep: string, parts: seq<string>)
    requires parts != []
    ensures IsPrefix(parts[0], Join(sep, parts))
  {
    var j := Join(sep, parts);
    if |parts| > 1 {
      assert j == parts[0] + (sep + Join(sep, parts[1..]));
      assert j[..|parts[0]|] == parts[0];
    }
  }

  /** `''.join(parts)`. */
  function Concat(parts: seq<string>): string
  {
    if parts == [] then "" else parts[0] + Concat(parts[1..])
  }

  lemma {:induction false} ConcatAppend(a: seq<string>, b: seq<string>)
    ensures Concat(a + b) == Concat(a) + Concat(b)
  {
    if a != [] {
      calc {
        Concat(a + b);
        (a + b)[0] + Concat((a + b)[1..]);
        { assert (a + b)[1..] == a[1..] + b; }
        a[0] + Concat(a[1..] + b);
        { ConcatAppend(a[1..], b); }
        a[0] + (Concat(a[1..]) + Concat(b));
      }
    } else {
      assert a + b == b;
    }
  }

  /** `str(xs)` for a list of ints: `[1, 2, 3]`. */
  function IntListStr(xs: seq<int>): string
  {
    "[" + Join(", ", IntStrings(xs)) + "]"
  }

  function IntStrings(xs: seq<int>): (r: seq<string>)
    ensures |r| == |xs|
    ensures forall i :: 0 <= i < |xs| ==> r[i] == IntToString(xs[i])
  {
    if xs == [] then [] else [IntToString(xs[0])] + IntStrings(xs[1..])
  }

  /** `attr[:-3]`: the attribute name without its `_id` suffix. */
  function DropId(attr: string): (r: string)
    ensures |attr| >= 3 ==> r + attr[|attr| - 3..] == attr
    ensures |attr| < 3 ==> r == ""
  {
    if |attr| >= 3 then attr[..|attr| - 3] else ""
  }

  // ---------------------------------------------------------------------------
  // Ordering by code point (Python's `<` on str)

  predicate StrLe(a: string, b: string)
  {
    if a == [] then true
    else if b == [] then false
    else if a[0] != b[0] then a[0] < b[0]
    else StrLe(a[1..], b[1..])
  }

  lemma {:induction false} StrLeTotal(a: string, b: string)
    ensures StrLe(a, b) || StrLe(b, a)
  {
    if a != [] && b != [] && a[0] == b[0] {
      StrLeTotal(a[1..], b[1..]);
    }
  }

  lemma {:induction false} StrLeTransitive(a: string, b: string, c: string)
    requires StrLe(a, b) && StrLe(b, c)
    ensures StrLe(a, c)
  {
    if a != [] && b != [] && c != [] && a[0] == b[0] && b[0] == c[0] {
      StrLeTransitive(a[1..], b[1..], c[1..]);
    }
  }

  lemma {:induction false} StrLeAntisymmetric(a: string, b: string)
    requires StrLe(a, b) && StrLe(b, a)
    ensures a == b
  {
    if a != [] && b != [] {
      StrLeAntisymmetric(a[1..], b[1..]);
      assert a == [a[0]] + a[1..];
      assert b == [b[0]] + b[1..];
    }
  }

  // ---------------------------------------------------------------------------
  // Substring search (`needle in hay`, and SQL `LIKE '%needle%'` without wildcards)

  predicate IsPrefix(p: string, s: string)
  {
    |p| <= |s| && s[..|p|] == p
  }

  /** Text joined from two parts starts with the first and continues with the second. */
  lemma SplitJoined(a: string, b: string)
    ensures IsPrefix(a, a + b) && (a + b)[|a|..] == b
  {
    assert (a + b)[..|a|] == a;
  }

  predicate Contains(hay: string, needle: string)
    decreases |hay|
  {
    IsPrefix(needle, hay) || (hay != [] && Contains(hay[1..], needle))
  }

  predicate OccursAt(hay: string, needle: string, i: int)
  {
    0 <= i <= |hay| - |needle| && hay[i..i + |needle|] == needle
  }

  /** The recursive search finds exactly the occurrences at some offset. */
  lemma {:induction false} ContainsAt(hay: string, needle: string)
    ensures Contains(hay, needle) <==> exists i :: OccursAt(hay, needle, i)
    decreases |hay|
  {
    if IsPrefix(needle, hay) {
      assert OccursAt(hay, needle, 0);
    } else if hay != [] {
      ContainsAt(hay[1..], needle);
      if Contains(hay[1..], needle) {
        var i :| OccursAt(hay[1..], needle, i);
        assert hay[i + 1..i + 1 + |needle|] == hay[1..][i..i + |needle|];
        assert OccursAt(hay, needle, i + 1);
      }
      if exists i :: OccursAt(hay, needle, i) {
        var i :| OccursAt(hay, needle, i);
        assert i != 0;
        assert hay[1..][i - 1..i - 1 + |needle|] == hay[i..i + |needle|];
        assert OccursAt(hay[1..], needle, i - 1);
      }
    }
  }

  // ---------------------------------------------------------------------------
  // Python's repr() of a str

  /** The quote character repr picks: double quotes only when the text has a
      single quote and no double quote. */
  function ReprQuote(s: string): char
  {
    if '\'' in s && '"' !in s then '"' else '\''
  }

  function EscapeChar(c: char, q: char): string
  {
    if c == '\\' then "\\\\"
    else if c == q then ['\\', c]
    else if c == '\n' then "\\n"
    else if c == '\r' then "\\r"
    else if c == '\t' then "\\t"
    else [c]
  }

  function Escape(s: string, q: char): string
  {
    if s == [] then "" else EscapeChar(s[0], q) + Escape(s[1..], q)
  }

  /** A printable ASCII character other than a backslash or a quote: `repr`
      writes it as itself whichever quote it picks. */
  predicate PlainChar(c: char)
  {
    ' ' <= c <= '~' && c != '\\' && c != '\'' && c != '"'
  }

  /** Text of printable, unquoted characters passes through the escaping unchanged. */
  lemma {:induction false} EscapeUnchanged(s: string, q: char)
    requires q == '\'' || q == '"'
    requires forall i :: 0 <= i < |s| ==> PlainChar(s[i])
    ensures Escape(s, q) == s
    decreases |s|
  {
    if s != [] {
      EscapeUnchanged(s[1..], q);
      assert s == [s[0]] + s[1..];
    }
  }

  /** `repr(s)` for a str. */
  function PyReprStr(s: string): (r: string)
    ensures |r| >= 2 && r[0] == r[|r| - 1] == ReprQuote(s)
  {
    var q := ReprQuote(s);
    [q] + Escape(s, q) + [q]
  }

  /** The repr of printable ASCII text without backslashes or quotes is that text
      between single quotes. */
  lemma PlainRepr(s: string)
    requires forall i :: 0 <= i < |s| ==> PlainChar(s[i])
    ensures PyReprStr(s) == "'" + s + "'"
  {
    EscapeUnchanged(s, '\'');
  }

  /** The character a backslash escape `\\c` stands for. */
  function UnescapedChar(c: char): Option<char>
  {
    if c == 'n' then Some('\n')
    else if c == 'r' then Some('\r')
    else if c == 't' then Some('\t')
    else if c == '\\' || c == '\'' || c == '"' then Some(c)
    else None
  }

  /** Reads back the body of a repr'd string: undoes the escapes. */
  function Unescape(e: string): Option<string>
    decreases |e|
  {
    if e == [] then Some("")
    else if e[0] != '\\' then
      match Unescape(e[1..])
      case Some(rest) => Some([e[0]] + rest)
      case None => None
    else if |e| < 2 then None
    else
      match (UnescapedChar(e[1]), Unescape(e[2..]))
      case (Some(ch), Some(rest)) => Some([ch] + rest)
      case _ => None
  }

  function Unrepr(r: string): Option<string>
  {
    if |r| < 2 then None else Unescape(r[1..|r| - 1])
  }

  lemma EscapeCharUnescape(c: char, q: char, rest: string, tail: string)
    requires q == '\'' || q == '"'
    requires Unescape(rest) == Some(tail)
    ensures Unescape(EscapeChar(c, q) + rest) == Some([c] + tail)
  {
    var e := EscapeChar(c, q) + rest;
    if |EscapeChar(c, q)| == 2 {
      assert e[2..] == rest;
    } else {
      assert e[1..] == rest;
    }
  }

  lemma {:induction false} EscapeRoundTrip(s: string, q: char)
    requires q == '\'' || q == '"'
    ensures Unescape(Escape(s, q)) == Some(s)
  {
    if s != [] {
      EscapeRoundTrip(s[1..], q);
      EscapeCharUnescape(s[0], q, Escape(s[1..], q), s[1..]);
      assert [s[0]] + s[1..] == s;
    }
  }

  /** repr of a str is lossless: distinct texts have distinct reprs. */
  lemma PyReprStrRoundTrip(s: string)
    ensures Unrepr(PyReprStr(s)) == Some(s)
  {
    var q := ReprQuote(s);
    var r := PyReprStr(s);
    assert r[1..|r| - 1] == Escape(s, q);
    EscapeRoundTrip(s, q);
  }

  // ---------------------------------------------------------------------------
  // Reading reprs back from the front of a text

  /** The text after a leading `lit`, when it starts with it. */
  function Skip(lit: string, s: string): (r: Option<string>)
    ensures r.Some? <==> IsPrefix(lit, s)
    ensures r.Some? ==> s == lit + r.value
  {
    if IsPrefix(lit, s) then
      assert s == s[..|lit|] + s[|lit|..];
      Some(s[|lit|..])
    else None
  }

  lemma SkipJoined(lit: string, rest: string)
    ensures Skip(lit, lit + rest) == Some(rest)
  {
    SplitJoined(lit, rest);
  }

  /** Reads escaped text up to the closing quote `q`: the text it stands for and what
      follows the quote. */
  function ReadEscaped(e: string, q: char): Option<(string, string)>
    decreases |e|
  {
    if e == [] then None
    else if e[0] == q then Some(("", e[1..]))
    else if e[0] != '\\' then
      match ReadEscaped(e[1..], q)
      case Some((s, rest)) => Some(([e[0]] + s, rest))
      case None => None
    else if |e| < 2 then None
    else
      match (UnescapedChar(e[1]), ReadEscaped(e[2..], q))
      case (Some(c), Some((s, rest))) => Some(([c] + s, rest))
      case _ => None
  }

  /** Reads a repr'd string from the front of a text: the string and what follows it. */
  function ReadQuoted(s: string): Option<(string, string)>
  {
    if s != [] && (s[0] == '\'' || s[0] == '"') then ReadEscaped(s[1..], s[0]) else None
  }

  lemma EscapeCharRead(c: char, q: char, more: string, tail: string, rest: string)
    requires q == '\'' || q == '"'
    requires ReadEscaped(more, q) == Some((tail, rest))
    ensures ReadEscaped(EscapeChar(c, q) + more, q) == Some(([c] + tail, rest))
  {
    var e := EscapeChar(c, q) + more;
    if |EscapeChar(c, q)| == 2 {
      assert e[2..] == more;
    } else {
      assert e[1..] == more;
    }
  }

  /** The escaped text, the closing quote and anything after it read back as the text
      and what follows. */
  lemma {:induction false} EscapeReadBack(s: string, q: char, rest: string)
    requires q == '\'' || q == '"'
    ensures ReadEscaped(Escape(s, q) + [q] + rest, q) == Some((s, rest))
  {
    if s == [] {
      assert Escape(s, q) + [q] + rest == [q] + rest;
      assert ([q] + rest)[1..] == rest;
    } else {
      EscapeReadBack(s[1..], q, rest);
      EscapeCharRead(s[0], q, Escape(s[1..], q) + [q] + rest, s[1..], rest);
      assert Escape(s, q) + [q] + rest == EscapeChar(s[0], q) + (Escape(s[1..], q) + [q] + rest);
      assert [s[0]] + s[1..] == s;
    }
  }

  /** `repr(x)` followed by anything reads back as x and what follows: a repr'd string
      ends where its closing quote is, whatever comes after it. */
  lemma ReadQuotedRepr(x: string, rest: string)
    ensures ReadQuoted(PyReprStr(x) + rest) == Some((x, rest))
  {
    var q := ReprQuote(x);
    var s := PyReprStr(x) + rest;
    assert s[1..] == Escape(x, q) + [q] + rest;
    EscapeReadBack(x, q, rest);
  }

  /** No character of `s` is in `stops`. */
  predicate Avoids(s: string, stops: set<char>)
  {
    forall k :: 0 <= k < |s| ==> s[k] !in stops
  }

  /** Splits a text before its first character from `stops`. */
  function ReadUntil(s: string, stops: set<char>): Option<(string, string)>
    decreases |s|
  {
    if s == [] then None
    else if s[0] in stops then Some(("", s))
    else
      match ReadUntil(s[1..], stops)
      case Some((a, b)) => Some(([s[0]] + a, b))
      case None => None
  }

  /** A text free of the stop characters, followed by a stop character, splits back
      into its two parts. */
  lemma {:induction false} ReadUntilJoined(a: string, b: string, stops: set<char>)
    requires Avoids(a, stops) && b != [] && b[0] in stops
    ensures ReadUntil(a + b, stops) == Some((a, b))
    decreases |a|
  {
    if a == [] {
      assert a + b == b;
    } else {
      ReadUntilJoined(a[1..], b, stops);
      assert (a + b)[1..] == a[1..] + b;
      assert [a[0]] + a[1..] == a;
    }
  }

  predicate AllDigits(t: string)
  {
    forall k :: 0 <= k < |t| ==> IsDigit(t[k])
  }

  /** `int(t)` for a decimal numeral with an optional minus sign. */
  function ParseInt(t: string): Option<int>
  {
    if t != [] && t[0] == '-' then
      if |t| > 1 && AllDigits(t[1..]) then var n: int := DigitsValue(t[1..]); Some(-n) else None
    else if t != [] && AllDigits(t) then Some(DigitsValue(t))
    else None
  }

  lemma ParseDigits(t: string, v: nat)
    requires t != [] && t[0] != '-' && AllDigits(t) && DigitsValue(t) == v
    ensures ParseInt(t) == Some(v)
  {
  }

  lemma ParseMinus(t: string, v: nat)
    requires t != [] && AllDigits(t) && DigitsValue(t) == v
    ensures ParseInt("-" + t) == Some(-(v as int))
  {
    assert ("-" + t)[1..] == t;
  }

  /** `int(str(i)) == i`. */
  lemma ParseIntRoundTrip(i: int)
    ensures ParseInt(IntToString(i)) == Some(i)
  {
    if i < 0 {
      var n: nat := -i;
      NatToStringRoundTrip(n);
      ParseMinus(NatToString(n), n);
    } else {
      NatToStringRoundTrip(i);
      ParseDigits(NatToString(i), i);
    }
  }

  /** `int(t)` for a decimal numeral without a sign; leading zeros are allowed. */
  function ParseNat(t: string): Option<nat>
  {
    if t != [] && AllDigits(t) then Some(DigitsValue(t)) else None
  }

  lemma {:induction false} ZerosValue(z: string)
    requires forall k :: 0 <= k < |z| ==> z[k] == '0'
    ensures AllDigits(z) && DigitsValue(z) == 0
    decreases |z|
  {
    if z != [] {
      ZerosValue(z[..|z| - 1]);
    }
  }

  /** Leading zeros do not change a numeral's value. */
  lemma {:induction false} LeadingZeros(z: string, d: string)
    requires forall k :: 0 <= k < |z| ==> z[k] == '0'
    requires AllDigits(d)
    ensures AllDigits(z + d) && DigitsValue(z + d) == DigitsValue(d)
    decreases |d|
  {
    if d == [] {
      assert z + d == z;
      ZerosValue(z);
    } else {
      var s := z + d;
      assert s[..|s| - 1] == z + d[..|d| - 1];
      LeadingZeros(z, d[..|d| - 1]);
    }
  }

  /** A zero-padded numeral reads back as its number. */
  lemma PadNatRoundTrip(n: nat, width: nat)
    ensures AllDigits(PadNat(n, width)) && ParseNat(PadNat(n, width)) == Some(n)
  {
    var digits := NatToString(n);
    NatToStringRoundTrip(n);
    if |digits| < width {
      LeadingZeros(seq(width - |digits|, _ => '0'), digits);
    }
  }

  /** Reads comma-separated numbers through the closing bracket of a list. */
  function ReadIntItems(s: string): Option<(seq<int>, string)>
    decreases |s|
  {
    match ReadUntil(s, {',', ']'})
    case None => None
    case Some((t, u)) =>
      match ParseInt(t)
      case None => None
      case Some(x) =>
        if u != [] && u[0] == ']' then Some(([x], u[1..]))
        else
          match Skip(", ", u)
          case None => None
          case Some(v) =>
            if |v| < |s| then
              match ReadIntItems(v)
              case None => None
              case Some((more, rest)) => Some(([x] + more, rest))
            else None
  }

  /** Reads `str(list)` of numbers from the front of a text. */
  function ReadIntList(s: string): Option<(seq<int>, string)>
  {
    if |s| >= 2 && s[0] == '[' && s[1] == ']' then Some(([], s[2..]))
    else if s != [] && s[0] == '[' then ReadIntItems(s[1..])
    else None
  }

  lemma IntTextAvoids(x: int, stops: set<char>)
    requires forall c :: c in stops ==> !NumberChar(c)
    ensures Avoids(IntToString(x), stops)
  {
  }

  lemma IntItemLast(x: int, rest: string)
    ensures ReadIntItems(IntToString(x) + ("]" + rest)) == Some(([x], rest))
  {
    IntTextAvoids(x, {',', ']'});
    ReadUntilJoined(IntToString(x), "]" + rest, {',', ']'});
    ParseIntRoundTrip(x);
    assert ("]" + rest)[1..] == rest;
  }

  lemma IntItemStep(x: int, u: string)
    ensures ReadIntItems(IntToString(x) + (", " + u)) ==
      match ReadIntItems(u)
      case None => None
      case Some((more, rest)) => Some(([x] + more, rest))
  {
    IntTextAvoids(x, {',', ']'});
    assert (", " + u)[0] == ',';
    ReadUntilJoined(IntToString(x), ", " + u, {',', ']'});
    ParseIntRoundTrip(x);
    SkipJoined(", ", u);
  }

  lemma IntItemCons(x: int, more: seq<int>, text: string, tail: string, rest: string)
    requires text == IntToString(x) + (", " + tail)
    requires ReadIntItems(tail) == Some((more, rest))
    ensures ReadIntItems(text) == Some(([x] + more, rest))
  {
    IntItemStep(x, tail);
  }

  lemma IntItemsText(xs: seq<int>, rest: string)
    requires |xs| > 1
    ensures Join(", ", IntStrings(xs)) + ("]" + rest) ==
      IntToString(xs[0]) + (", " + (Join(", ", IntStrings(xs[1..])) + ("]" + rest)))
  {
    JoinCons(", ", IntStrings(xs), "]" + rest);
    assert IntStrings(xs)[1..] == IntStrings(xs[1..]);
  }

  lemma {:induction false} IntItemsReadBack(xs: seq<int>, rest: string)
    requires xs != []
    ensures ReadIntItems(Join(", ", IntStrings(xs)) + ("]" + rest)) == Some((xs, rest))
    decreases |xs|
  {
    if |xs| == 1 {
      assert Join(", ", IntStrings(xs)) == IntToString(xs[0]);
      IntItemLast(xs[0], rest);
      assert [xs[0]] == xs;
    } else {
      IntItemsText(xs, rest);
      IntItemsReadBack(xs[1..], rest);
      IntItemCons(xs[0], xs[1..], Join(", ", IntStrings(xs)) + ("]" + rest),
        Join(", ", IntStrings(xs[1..])) + ("]" + rest), rest);
      assert [xs[0]] + xs[1..] == xs;
    }
  }

  /** `str(list)` of numbers, followed by anything, reads back as the list and what
      follows. */
  lemma IntListReadBack(xs: seq<int>, rest: string)
    ensures ReadIntList(IntListStr(xs) + rest) == Some((xs, rest))
  {
    var body := Join(", ", IntStrings(xs));
    var s := IntListStr(xs) + rest;
    assert s == "[" + (body + ("]" + rest));
    if xs == [] {
      assert body == "";
      assert s[2..] == rest;
    } else {
      JoinStartsWithFirst(", ", IntStrings(xs));
      assert s[1] == IntToString(xs[0])[0];
      assert s[1..] == body + ("]" + rest);
      IntItemsReadBack(xs, rest);
    }
  }

  /** Five pieces followed by a text, regrouped to the right. */
  lemma Nest5(a: string, b: string, c: string, d: string, e: string, x: string)
    ensures a + b + c + d + e + x == a + (b + (c + (d + (e + x))))
  {
  }

  lemma DigitsAvoid(t: string, stops: set<char>)
    requires AllDigits(t)
    requires forall c :: c in stops ==> !IsDigit(c)
    ensures Avoids(t, stops)
  {
  }

  /** Reads `str(date)` up to the character `stop` that follows it. */
  function ReadDate(s: string, stop: char): Option<(Date, string)>
  {
    match ReadUntil(s, {'-'})
    case None => None
    case Some((ty, a)) =>
      match Skip("-", a)
      case None => None
      case Some(b) =>
        match ReadUntil(b, {'-'})
        case None => None
        case Some((tm, c)) =>
          match Skip("-", c)
          case None => None
          case Some(e) =>
            match ReadUntil(e, {stop})
            case None => None
            case Some((td, rest)) =>
              match (ParseNat(ty), ParseNat(tm), ParseNat(td))
              case (Some(y), Some(m), Some(dd)) => Some((Date(y, m, dd), rest))
              case _ => None
  }

  /** `str(date)` followed by a text that starts with `stop` (not a digit) reads back
      as the date and that text. */
  lemma DateReadBack(d: Date, stop: char, rest: string)
    requires !IsDigit(stop) && stop != '-'
    requires rest != [] && rest[0] == stop
    ensures ReadDate(DateIso(d) + rest, stop) == Some((d, rest))
  {
    var py, pm, pd := PadNat(d.year, 4), PadNat(d.month, 2), PadNat(d.day, 2);
    PadNatRoundTrip(d.year, 4);
    PadNatRoundTrip(d.month, 2);
    PadNatRoundTrip(d.day, 2);
    DigitsAvoid(py, {'-'});
    DigitsAvoid(pm, {'-'});
    DigitsAvoid(pd, {stop});
    var s3 := pd + rest;
    var s1 := pm + ("-" + s3);
    Nest5(py, "-", pm, "-", pd, rest);
    assert DateIso(d) + rest == py + ("-" + s1);
    assert ("-" + s1)[0] == '-' && ("-" + s3)[0] == '-';
    ReadUntilJoined(py, "-" + s1, {'-'});
    SkipJoined("-", s1);
    ReadUntilJoined(pm, "-" + s3, {'-'});
    SkipJoined("-", s3);
    ReadUntilJoined(pd, rest, {stop});
  }
}
