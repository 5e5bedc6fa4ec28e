/** The string operations of the two runtimes that the core relies on:
    TypeScript's `startsWith`, `trim`, `split` and template numbers, and Go's
    `strings.HasPrefix`, `strings.Split`, `filepath.Ext` and `strconv.FormatInt`.
    Strings are sequences of Unicode scalar values. */
module Text {

  /** `s.startsWith(prefix)` in TypeScript, `strings.HasPrefix(s, prefix)` in Go. */
  predicate StartsWith(s: string, prefix: string) {
    |prefix| <= |s| && s[..|prefix|] == prefix
  }

  /** The characters `String.prototype.trim` strips: ECMAScript's WhiteSpace
      (TAB, VT, FF, ZWNBSP and the space separators) and LineTerminator. */
  predicate IsWhitespace(c: char) {
    || c == ' ' || c == '\t' || c == '\n' || c == '\r'
    || c == '\U{000B}' || c == '\U{000C}' || c == '\U{00A0}' || c == '\U{1680}'
    || ('\U{2000}' <= c <= '\U{200A}')
    || c == '\U{2028}' || c == '\U{2029}' || c == '\U{202F}' || c == '\U{205F}'
    || c == '\U{3000}' || c == '\U{FEFF}'
  }

  /** Every character is whitespace (the empty string included). */
  predicate IsBlank(s: string) {
    forall i :: 0 <= i < |s| ==> IsWhitespace(s[i])
  }

  function TrimStart(s: string): (r: string)
    ensures |r| <= |s| && r == s[|s| - |r|..]
    ensures r == [] || !IsWhitespace(r[0])
    decreases |s|
  {
    if s != [] && IsWhitespace(s[0]) then TrimStart(s[1..]) else s
  }

  function TrimEnd(s: string): (r: string)
    ensures |r| <= |s| && r == s[..|r|]
    ensures r == [] || !IsWhitespace(r[|r| - 1])
    decreases |s|
  {
    if s != [] && IsWhitespace(s[|s| - 1]) then TrimEnd(s[..|s| - 1]) else s
  }

  /** `s.trim()` */
  function Trim(s: string): string {
    TrimEnd(TrimStart(s))
  }

  /** A string is blank exactly when its first character is whitespace and the
      rest is blank. */
  lemma BlankCons(s: string)
    requires s != []
    ensures IsBlank(s) <==> IsWhitespace(s[0]) && IsBlank(s[1..])
  {
    if IsWhitespace(s[0]) && IsBlank(s[1..]) {
      forall i | 0 < i < |s| ensures IsWhitespace(s[i]) {
        assert s[i] == s[1..][i - 1];
      }
    }
  }

  /** A string is blank exactly when its last character is whitespace and the
      rest is blank. */
  lemma BlankSnoc(s: string)
    requires s != []
    ensures IsBlank(s) <==> IsWhitespace(s[|s| - 1]) && IsBlank(s[..|s| - 1])
  {
    if IsWhitespace(s[|s| - 1]) && IsBlank(s[..|s| - 1]) {
      forall i | 0 <= i < |s| - 1 ensures IsWhitespace(s[i]) {
        assert s[i] == s[..|s| - 1][i];
      }
    }
  }

  lemma {:induction false} TrimStartEmptyIffBlank(s: string)
    ensures TrimStart(s) == [] <==> IsBlank(s)
    decreases |s|
  {
    if s != [] {
      BlankCons(s);
      if IsWhitespace(s[0]) {
        TrimStartEmptyIffBlank(s[1..]);
      }
    }
  }

  lemma {:induction false} TrimEndEmptyIffBlank(s: string)
    ensures TrimEnd(s) == [] <==> IsBlank(s)
    decreases |s|
  {
    if s != [] {
      BlankSnoc(s);
      if IsWhitespace(s[|s| - 1]) {
        TrimEndEmptyIffBlank(s[..|s| - 1]);
      }
    }
  }

  /** `s.trim() !== ''` holds exactly when some character of `s` is not whitespace. */
  lemma TrimEmptyIffBlank(s: string)
    ensures Trim(s) == [] <==> IsBlank(s)
  {
    var t := TrimStart(s);
    TrimStartEmptyIffBlank(s);
    TrimEndEmptyIffBlank(t);
    if t != [] {
      assert !IsWhitespace(t[0]);
    }
  }

  /** `s.split(sep)` (TypeScript) and `strings.Split(s, string(sep))` (Go) for a
      one-character separator: the pieces between separators, at least one. */
  function Split(s: string, sep: char): (parts: seq<string>)
    ensures |parts| >= 1
    ensures forall i :: 0 <= i < |parts| ==> sep !in parts[i]
    decreases |s|
  {
    if s == [] then [""]
    else
      var rest := Split(s[1..], sep);
      if s[0] == sep then [""] + rest
      else [[s[0]] + rest[0]] + rest[1..]
  }

  /** `parts.join(sep)`. */
  function Join(parts: seq<string>, sep: char): string
    requires |parts| >= 1
  {
    if |parts| == 1 then parts[0] else parts[0] + [sep] + Join(parts[1..], sep)
  }

  /** Cutting at a separator: text before the first `sep` is the first piece. */
  lemma {:induction false} SplitAtFirst(a: string, b: string, sep: char)
    requires sep !in a
    ensures Split(a + [sep] + b, sep) == [a] + Split(b, sep)
    decreases |a|
  {
    if a == [] {
      assert ([] + [sep] + b)[1..] == b;
    } else {
      assert (a + [sep] + b)[1..] == a[1..] + [sep] + b;
      SplitAtFirst(a[1..], b, sep);
      assert [a[0]] + a[1..] == a;
    }
  }

  /** A text without the separator is one piece. */
  lemma {:induction false} SplitWhole(a: string, sep: char)
    requires sep !in a
    ensures Split(a, sep) == [a]
    decreases |a|
  {
    if a != [] {
      SplitWhole(a[1..], sep);
      assert [a[0]] + a[1..] == a;
    }
  }

  /** Joining pieces free of the separator and splitting again gives the pieces
      back: the other half of the round trip `JoinSplit` states. */
  lemma {:induction false} SplitJoin(parts: seq<string>, sep: char)
    requires |parts| >= 1
    requires forall i :: 0 <= i < |parts| ==> sep !in parts[i]
    ensures Split(Join(parts, sep), sep) == parts
    decreases |parts|
  {
    if |parts| == 1 {
      SplitWhole(parts[0], sep);
    } else {
      SplitAtFirst(parts[0], Join(parts[1..], sep), sep);
      SplitJoin(parts[1..], sep);
    }
  }

  /** Splitting loses nothing: joining the pieces with the separator gives the input back. */
  lemma {:induction false} JoinSplit(s: string, sep: char)
    ensures Join(Split(s, sep), sep) == s
    decreases |s|
  {
    if s != [] {
      var rest := Split(s[1..], sep);
      JoinSplit(s[1..], sep);
      if s[0] == sep {
        assert ([""] + rest)[1..] == rest;
      } else {
        var parts := [[s[0]] + rest[0]] + rest[1..];
        if |rest| > 1 {
          assert parts[1..] == rest[1..];
          assert Join(rest, sep) == rest[0] + [sep] + Join(rest[1..], sep);
        }
      }
    }
  }

  /** The first piece of a split is the prefix of `s` before the first separator
      (all of `s` when there is none). */
  lemma SplitHead(s: string, sep: char)
    ensures StartsWith(s, Split(s, sep)[0])
    ensures sep !in Split(s, sep)[0]
    ensures |Split(s, sep)[0]| < |s| ==> s[|Split(s, sep)[0]|] == sep
    ensures sep !in s ==> Split(s, sep)[0] == s
  {
    var parts := Split(s, sep);
    JoinSplit(s, sep);
    if |parts| > 1 {
      assert s == parts[0] + [sep] + Join(parts[1..], sep);
      assert s[..|parts[0]|] == parts[0];
      assert s[|parts[0]|] == sep;
    } else {
      assert s == parts[0];
    }
  }

  /** Go's `filepath.Ext` on a Unix path: the suffix from the final dot of the
      final path element, or "" when that element has no dot. */
  function Ext(path: string): (ext: string)
    ensures |ext| <= |path| && ext == path[|path| - |ext|..]
    ensures ext == [] || ext[0] == '.'
    ensures forall i :: 0 < i < |ext| ==> ext[i] != '.' && ext[i] != '/'
    ensures path != [] && path[|path| - 1] == '.' ==> ext == "."
    ensures '.' !in path ==> ext == []
    decreases |path|
  {
    if path == [] then []
    else
      var last := path[|path| - 1];
      if last == '/' then []
      else if last == '.' then "."
      else
        var e := Ext(path[..|path| - 1]);
        if e == [] then [] else e + [last]
  }

  function Digit(d: nat): (c: char)
    requires d < 10
    ensures '0' <= c <= '9'
  {
    "0123456789"[d]
  }

  predicate IsDigits(s: string) {
    forall i :: 0 <= i < |s| ==> '0' <= s[i] <= '9'
  }

  /** The decimal numeral of a natural number, as template literals and
      `strconv.FormatInt(n, 10)` write it. */
  function NatToDecimal(n: nat): (s: string)
    ensures |s| >= 1 && IsDigits(s)
    decreases n
  {
    if n < 10 then [Digit(n)] else NatToDecimal(n / 10) + [Digit(n % 10)]
  }

  /** `strconv.FormatInt(n, 10)`: an optional minus sign and then digits. */
  function IntToDecimal(n: int): (s: string)
    ensures |s| >= 1
    ensures s[0] == '-' || '0' <= s[0] <= '9'
    ensures IsDigits(s[1..])
  {
    if n < 0 then "-" + NatToDecimal(-n) else NatToDecimal(n)
  }
  lemma DigitInjective(x: nat, y: nat)
    requires x < 10 && y < 10
    ensures Digit(x) == Digit(y) ==> x == y
  {
  }

  /** Different numbers have different numerals. */
  lemma {:induction false} NatToDecimalInjective(a: nat, b: nat)
    ensures NatToDecimal(a) == NatToDecimal(b) ==> a == b
    decreases a
  {
    var s, t := NatToDecimal(a), NatToDecimal(b);
    if a < 10 && b < 10 {
      DigitInjective(a, b);
    } else if a >= 10 && b >= 10 {
      var p, q := NatToDecimal(a / 10), NatToDecimal(b / 10);
      assert s == p + [Digit(a % 10)] && t == q + [Digit(b % 10)];
      if s == t {
        assert p == s[..|s| - 1] && q == t[..|t| - 1];
        NatToDecimalInjective(a / 10, b / 10);
        DigitInjective(a % 10, b % 10);
      }
    } else {
      assert |s| == 1 <==> a < 10;
      assert |t| == 1 <==> b < 10;
    }
  }

  /** `strconv.FormatInt` is one-to-one. */
  lemma DecimalInjective(a: int, b: int)
    requires a != b
    ensures IntToDecimal(a) != IntToDecimal(b)
  {
    var s, t := IntToDecimal(a), IntToDecimal(b);
    if a < 0 && b < 0 {
      NatToDecimalInjective(-a, -b);
      assert s[1..] == NatToDecimal(-a) && t[1..] == NatToDecimal(-b);
    } else if a >= 0 && b >= 0 {
      NatToDecimalInjective(a, b);
    } else {
      assert (s[0] == '-') != (t[0] == '-');
    }
  }
}
