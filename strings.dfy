/** String helpers shared by the TypeScript and Python parts of the model:
    JavaScript's `trim`, Python's `strip`, substring search, `split`/`join`
    on a separator, and the decimal rendering of a number that template
    literals and f-strings produce. */
module Strings {

  /** The characters `String.prototype.trim` removes: ECMAScript WhiteSpace
      (tab, vertical tab, form feed, space, no-break space, byte-order mark,
      the space separators) and LineTerminator. */
  predicate IsJsSpace(c: char) {
    c == ' ' || c == '\t' || c == '\n' || c == '\r' || c == '\U{B}' || c == '\U{C}'
    || c == '\U{A0}' || c == '\U{FEFF}' || c == '\U{1680}'
    || ('\U{2000}' <= c <= '\U{200A}')
    || c == '\U{2028}' || c == '\U{2029}' || c == '\U{202F}' || c == '\U{205F}' || c == '\U{3000}'
  }

  /** The characters Python's `str.strip()` removes (those for which `isspace()` holds). */
  predicate IsPySpace(c: char) {
    c == ' ' || ('\t' <= c <= '\r') || ('\U{1C}' <= c <= '\U{1F}')
    || c == '\U{85}' || c == '\U{A0}' || c == '\U{1680}'
    || ('\U{2000}' <= c <= '\U{200A}')
    || c == '\U{2028}' || c == '\U{2029}' || c == '\U{202F}' || c == '\U{205F}' || c == '\U{3000}'
  }

  /** Drops the leading characters satisfying `ws`. */
  function TrimStart(s: string, ws: char -> bool): (r: string)
    ensures |r| <= |s|
  {
    if s != [] && ws(s[0]) then TrimStart(s[1..], ws) else s
  }

  /** What is left is a suffix of `s` that does not start with a `ws` character,
      and everything dropped satisfied `ws`. */
  lemma {:induction false} TrimStartSpec(s: string, ws: char -> bool)
    ensures var r := TrimStart(s, ws);
      r == s[|s| - |r|..] && (r != [] ==> !ws(r[0]))
      && forall i :: 0 <= i < |s| - |r| ==> ws(s[i])
    decreases |s|
  {
    if s != [] && ws(s[0]) {
      TrimStartSpec(s[1..], ws);
    }
  }

  /** Drops the trailing characters satisfying `ws`. */
  function TrimEnd(s: string, ws: char -> bool): (r: string)
    ensures |r| <= |s|
  {
    if s != [] && ws(s[|s| - 1]) then TrimEnd(s[..|s| - 1], ws) else s
  }

  /** What is left is a prefix of `s` that does not end with a `ws` character,
      and everything dropped satisfied `ws`. */
  lemma {:induction false} TrimEndSpec(s: string, ws: char -> bool)
    ensures var r := TrimEnd(s, ws);
      r == s[..|r|] && (r != [] ==> !ws(r[|r| - 1]))
      && forall i :: |r| <= i < |s| ==> ws(s[i])
    decreases |s|
  {
    if s != [] && ws(s[|s| - 1]) {
      TrimEndSpec(s[..|s| - 1], ws);
    }
  }

  /** Both ends trimmed. */
  function Trim(s: string, ws: char -> bool): (r: string)
    ensures |r| <= |s|
  {
    TrimEnd(TrimStart(s, ws), ws)
  }

  /** The trimmed string is empty exactly when every
      character of `s` satisfies `ws`; otherwise it starts and ends with a character
      that does not; and a string with no `ws` character is left as it is. */
  lemma TrimSpec(s: string, ws: char -> bool)
    ensures var r := Trim(s, ws);
      (r == [] <==> forall i :: 0 <= i < |s| ==> ws(s[i]))
      && (r != [] ==> !ws(r[0]) && !ws(r[|r| - 1]))
      && ((forall i :: 0 <= i < |s| ==> !ws(s[i])) ==> r == s)
    ensures var r, a := Trim(s, ws), |s| - |TrimStart(s, ws)|;
      0 <= a && a + |r| <= |s| && r == s[a..a + |r|]
      && (forall i :: 0 <= i < a ==> ws(s[i]))
      && (forall i :: a + |r| <= i < |s| ==> ws(s[i]))
  {
    TrimSlice(s, ws);
    var r, a := Trim(s, ws), |s| - |TrimStart(s, ws)|;
    if r != [] {
      assert !ws(s[a]);
    }
    if forall i :: 0 <= i < |s| ==> !ws(s[i]) {
      if s != [] {
        assert !ws(s[0]);
        assert !ws(s[|s| - 1]);
      }
    }
  }

  /** The trimmed string is the slice of `s` between its leading and trailing
      whitespace, and it neither starts nor ends with whitespace. */
  lemma TrimSlice(s: string, ws: char -> bool)
    ensures var r, a := Trim(s, ws), |s| - |TrimStart(s, ws)|;
      0 <= a && a + |r| <= |s| && r == s[a..a + |r|]
      && (r != [] ==> !ws(r[0]) && !ws(r[|r| - 1]))
      && (forall i :: 0 <= i < a ==> ws(s[i]))
      && (forall i :: a + |r| <= i < |s| ==> ws(s[i]))
  {
    var t := TrimStart(s, ws);
    TrimStartSpec(s, ws);
    TrimEndSpec(t, ws);
    var r := Trim(s, ws);
    var a := |s| - |t|;
    assert r == s[a..a + |r|];
    if r != [] {
      assert r[0] == t[0];
    }
    forall i | a + |r| <= i < |s| ensures ws(s[i]) {
      assert s[i] == t[i - a];
    }
  }

  /** Trimming twice is trimming once. */
  lemma TrimIdempotent(s: string, ws: char -> bool)
    ensures Trim(Trim(s, ws), ws) == Trim(s, ws)
  {
    var r := Trim(s, ws);
    TrimSpec(s, ws);
    if r != [] {
      TrimStartSpec(r, ws);
      TrimEndSpec(r, ws);
    }
  }

  /** `s.trim()` in JavaScript. */
  function JsTrim(s: string): string {
    Trim(s, IsJsSpace)
  }

  /** `s.strip()` in Python. */
  function PyStrip(s: string): string {
    Trim(s, IsPySpace)
  }

  /** A string JavaScript treats as empty after `trim()`: `!s.trim()` holds.
      `undefined` and `null` prompts are modelled as "" and are blank too. */
  predicate Blank(s: string) {
    JsTrim(s) == []
  }

  lemma BlankIffAllSpace(s: string)
    ensures Blank(s) <==> forall i :: 0 <= i < |s| ==> IsJsSpace(s[i])
  {
    TrimSpec(s, IsJsSpace);
  }

  /** `s.startsWith(p)`. */
  predicate StartsWith(s: string, p: string) {
    |p| <= |s| && s[..|p|] == p
  }

  /** `t in s` in Python, `s.includes(t)` in JavaScript. */
  predicate Contains(s: string, t: string)
    decreases |s|
  {
    StartsWith(s, t) || (s != [] && Contains(s[1..], t))
  }

  /** Containment in a prefix implies containment in the whole string. */
  lemma {:induction false} ContainsInPrefix(s: string, k: nat, t: string)
    requires k <= |s|
    requires Contains(s[..k], t)
    ensures Contains(s, t)
    decreases k
  {
    if StartsWith(s[..k], t) {
      assert s[..|t|] == s[..k][..|t|];
    } else {
      assert s[..k][1..] == s[1..][..k - 1];
      ContainsInPrefix(s[1..], k - 1, t);
    }
  }

  /** Every character of `s` satisfies `p`. */
  predicate All(s: string, p: char -> bool) {
    forall i :: 0 <= i < |s| ==> p(s[i])
  }

  /** The characters of `s` that satisfy `keep`, in order
      (`"".join(c for c in s if keep(c))`). */
  function Filter(s: string, keep: char -> bool): (r: string)
    ensures |r| <= |s|
    ensures All(r, keep)
    ensures All(s, keep) ==> r == s
    decreases |s|
  {
    if s == [] then []
    else if keep(s[|s| - 1]) then Filter(s[..|s| - 1], keep) + [s[|s| - 1]]
    else Filter(s[..|s| - 1], keep)
  }

  /** Trimming keeps a slice of `s`, so a property of every character survives it. */
  lemma TrimKeepsAll(s: string, ws: char -> bool, p: char -> bool)
    requires All(s, p)
    ensures All(Trim(s, ws), p)
  {
    var t := TrimStart(s, ws);
    TrimStartSpec(s, ws);
    TrimEndSpec(t, ws);
    var r := Trim(s, ws);
    forall i | 0 <= i < |r| ensures p(r[i]) {
      assert r[i] == t[i] == s[|s| - |t| + i];
    }
  }

  /** Filtering distributes over concatenation. */
  lemma {:induction false} FilterAppend(a: string, b: string, keep: char -> bool)
    ensures Filter(a + b, keep) == Filter(a, keep) + Filter(b, keep)
    decreases |b|
  {
    if b == [] {
      assert a + b == a;
    } else {
      var b' := b[..|b| - 1];
      assert (a + b)[..|a + b| - 1] == a + b';
      FilterAppend(a, b', keep);
    }
  }

  /** Filtering keeps nothing from a string none of whose characters pass. */
  lemma {:induction false} FilterNone(s: string, keep: char -> bool)
    requires forall i :: 0 <= i < |s| ==> !keep(s[i])
    ensures Filter(s, keep) == []
    decreases |s|
  {
    if s != [] {
      FilterNone(s[..|s| - 1], keep);
    }
  }

  /** Filtering by a weaker test first does not change what a stronger one keeps. */
  lemma {:induction false} FilterFilter(s: string, keep: char -> bool, wider: char -> bool)
    requires forall c :: keep(c) ==> wider(c)
    ensures Filter(Filter(s, wider), keep) == Filter(s, keep)
    decreases |s|
  {
    if s != [] {
      var init := s[..|s| - 1];
      FilterFilter(init, keep, wider);
      if wider(s[|s| - 1]) {
        FilterAppend(Filter(init, wider), [s[|s| - 1]], keep);
        assert [s[|s| - 1]][..0] == [];
      }
    }
  }

  /** Trimming characters that `keep` rejects does not change what it keeps. */
  lemma FilterTrim(s: string, ws: char -> bool, keep: char -> bool)
    requires forall c :: ws(c) ==> !keep(c)
    ensures Filter(Trim(s, ws), keep) == Filter(s, keep)
  {
    TrimSpec(s, ws);
    var r, a := Trim(s, ws), |s| - |TrimStart(s, ws)|;
    var front, back := s[..a], s[a + |r|..];
    assert s == front + r + back;
    FilterNone(front, keep);
    FilterNone(back, keep);
    FilterAppend(front + r, back, keep);
    FilterAppend(front, r, keep);
  }

  /** `s.replace(a, b)` for single characters `a` and `b`. */
  function ReplaceChar(s: string, a: char, b: char): (r: string)
    ensures |r| == |s|
    ensures forall i :: 0 <= i < |s| ==> r[i] == (if s[i] == a then b else s[i])
  {
    seq(|s|, i requires 0 <= i < |s| => if s[i] == a then b else s[i])
  }

  /** Replacing one character `keep` rejects by another it rejects does not change
      what it keeps. */
  lemma {:induction false} FilterReplaceChar(s: string, a: char, b: char, keep: char -> bool)
    requires !keep(a) && !keep(b)
    ensures Filter(ReplaceChar(s, a, b), keep) == Filter(s, keep)
    decreases |s|
  {
    if s != [] {
      var init := s[..|s| - 1];
      var r := ReplaceChar(s, a, b);
      assert r[..|r| - 1] == ReplaceChar(init, a, b);
      FilterReplaceChar(init, a, b, keep);
    }
  }

  /** `sep.join(parts)`. */
  function Join(parts: seq<string>, sep: string): string
    decreases |parts|
  {
    if parts == [] then []
    else if |parts| == 1 then parts[0]
    else parts[0] + sep + Join(parts[1..], sep)
  }

  /** Joining after lengthening the first part by a prefix adds that prefix in front. */
  lemma JoinExtendFirst(x: string, parts: seq<string>, sep: string)
    requires parts != []
    ensures Join([x + parts[0]] + parts[1..], sep) == x + Join(parts, sep)
  {
    var ps := [x + parts[0]] + parts[1..];
    if |parts| > 1 {
      assert ps[1..] == parts[1..];
    }
  }

  /** `s.split(c)` in Python (and JavaScript) for a one-character separator:
      never empty, no part holds the separator, and joining restores `s`. */
  function Split(s: string, c: char): (parts: seq<string>)
    ensures |parts| >= 1
    ensures forall i :: 0 <= i < |parts| ==> c !in parts[i]
    ensures Join(parts, [c]) == s
    decreases |s|
  {
    if s == [] then [[]]
    else if s[0] == c then
      var rest := Split(s[1..], c);
      assert [c] + Join(rest, [c]) == s;
      [[]] + rest
    else
      var rest := Split(s[1..], c);
      JoinExtendFirst([s[0]], rest, [c]);
      assert [s[0]] + s[1..] == s;
      [[s[0]] + rest[0]] + rest[1..]
  }

  /** A string without the separator splits into itself alone. */
  lemma {:induction false} SplitNoSeparator(s: string, c: char)
    requires c !in s
    ensures Split(s, c) == [s]
    decreases |s|
  {
    if s != [] {
      assert c !in s[1..];
      SplitNoSeparator(s[1..], c);
    }
  }

  /** The first part of a split is a prefix of the string. */
  lemma {:induction false} SplitFirstIsPrefix(s: string, c: char)
    ensures |Split(s, c)[0]| <= |s| && Split(s, c)[0] == s[..|Split(s, c)[0]|]
    decreases |s|
  {
    if s != [] && s[0] != c {
      SplitFirstIsPrefix(s[1..], c);
      var k := |Split(s[1..], c)[0]|;
      assert [s[0]] + s[1..][..k] == s[..k + 1];
    }
  }

  /** The last part of a split is a suffix of the string. */
  lemma {:induction false} SplitLastIsSuffix(s: string, c: char)
    ensures var parts := Split(s, c);
      |parts[|parts| - 1]| <= |s| && parts[|parts| - 1] == s[|s| - |parts[|parts| - 1]|..]
    decreases |s|
  {
    if s != [] {
      SplitLastIsSuffix(s[1..], c);
      var parts := Split(s, c);
      var rest := Split(s[1..], c);
      var last := rest[|rest| - 1];
      assert last == s[1..][|s| - 1 - |last|..];
      if s[0] != c && |rest| == 1 {
        assert parts == [[s[0]] + rest[0]];
        assert [s[0]] + rest[0] == s;
      } else {
        assert parts[|parts| - 1] == last;
        assert s[1..][|s| - 1 - |last|..] == s[|s| - |last|..];
      }
    }
  }

  /** Splitting around one occurrence of the separator concatenates the two splits. */
  lemma {:induction false} SplitAround(a: string, b: string, c: char)
    ensures Split(a + [c] + b, c) == Split(a, c) + Split(b, c)
    decreases |a|
  {
    var s := a + [c] + b;
    if a == [] {
      assert s[0] == c && s[1..] == b;
    } else {
      assert s[1..] == a[1..] + [c] + b;
      SplitAround(a[1..], b, c);
    }
  }

  /** The decimal digit for `d`. */
  function Digit(d: nat): char
    requires d < 10
  {
    "0123456789"[d]
  }

  function DigitValue(c: char): nat
    requires '0' <= c <= '9'
  {
    (c as int - '0' as int) as nat
  }

  predicate IsDigit(c: char) {
    '0' <= c <= '9'
  }

  /** The decimal rendering of `n` (`${n}`, `str(n)`, `n.toString()`):
      digits only, and without a leading zero unless `n` is 0. */
  function NatToString(n: nat): (r: string)
    ensures |r| >= 1 && All(r, IsDigit)
    ensures r[0] == '0' <==> n == 0
  {
    if n < 10 then [Digit(n)] else NatToString(n / 10) + [Digit(n % 10)]
  }

  /** The value of a string of decimal digits. */
  function ParseDecimal(s: string): nat
    requires All(s, IsDigit)
  {
    if s == [] then 0
    else ParseDecimal(s[..|s| - 1]) * 10 + DigitValue(s[|s| - 1])
  }

  /** Reading back the decimal rendering gives the number. */
  lemma {:induction false} ParseNatToString(n: nat)
    ensures ParseDecimal(NatToString(n)) == n
  {
    var r := NatToString(n);
    if n >= 10 {
      ParseNatToString(n / 10);
      assert r[..|r| - 1] == NatToString(n / 10);
    }
  }

  /** A run of digits ended by a non-digit mark is determined by the string: the
      mark is the first non-digit. */
  lemma DigitsBeforeMark(d1: string, r1: string, d2: string, r2: string, mark: char)
    requires All(d1, IsDigit) && All(d2, IsDigit) && !IsDigit(mark)
    requires d1 + [mark] + r1 == d2 + [mark] + r2
    ensures d1 == d2 && r1 == r2
  {
    var s := d1 + [mark] + r1;
    assert s[|d1|] == mark;
    assert s[|d2|] == (d2 + [mark] + r2)[|d2|] == mark;
    assert |d1| == |d2|;
    assert d1 == s[..|d1|] == d2;
    assert r1 == s[|d1| + 1..] == r2;
  }

  /** Different numbers render differently. */
  lemma NatToStringInjective(m: nat, n: nat)
    requires NatToString(m) == NatToString(n)
    ensures m == n
  {
    ParseNatToString(m);
    ParseNatToString(n);
  }
}
