// String helpers with Python's meaning: `str.strip`, `str.split`,
// `str.lower` (ASCII part), `str.isdigit`, `str.join` and code-point order.
module Text {
  import opened Wrappers

  /** The characters Python's `str.isspace()` accepts, which `str.strip()`
      removes: the ASCII whitespace, the separators `\x1c`-`\x1f` and the Unicode
      spaces. */
  predicate IsSpace(c: char) {
    || c == ' ' || ('\t' <= c <= '\r') || ('\U{001C}' <= c <= '\U{001F}')
    || c == '\U{0085}' || c == '\U{00A0}' || c == '\U{1680}' || ('\U{2000}' <= c <= '\U{200A}')
    || c == '\U{2028}' || c == '\U{2029}' || c == '\U{202F}' || c == '\U{205F}' || c == '\U{3000}'
  }

  predicate IsDigit(c: char) { '0' <= c <= '9' }
  predicate IsLowerAscii(c: char) { 'a' <= c <= 'z' }
  predicate IsUpperAscii(c: char) { 'A' <= c <= 'Z' }
  predicate IsAlnumAscii(c: char) { IsDigit(c) || IsLowerAscii(c) || IsUpperAscii(c) }

  /** Python `s.isdigit()`: non-empty and every character a digit. */
  predicate AllDigits(s: string) {
    |s| > 0 && forall i :: 0 <= i < |s| ==> IsDigit(s[i])
  }

  function TrimStart(s: string): (r: string)
    ensures |r| <= |s| && r == s[|s| - |r|..]
    ensures r == [] || !IsSpace(r[0])
    ensures forall i :: 0 <= i < |s| - |r| ==> IsSpace(s[i])
  {
    if s != [] && IsSpace(s[0]) then TrimStart(s[1..]) else s
  }

  function TrimEnd(s: string): (r: string)
    ensures |r| <= |s| && r == s[..|r|]
    ensures r == [] || !IsSpace(r[|r| - 1])
    ensures forall i :: |r| <= i < |s| ==> IsSpace(s[i])
  {
    if s != [] && IsSpace(s[|s| - 1]) then TrimEnd(s[..|s| - 1]) else s
  }

  /** Python `s.strip()`: `r` is the slice of `s` left after dropping
      surrounding whitespace; it neither starts nor ends with whitespace. */
  function Strip(s: string): (r: string)
    ensures |r| <= |s|
    ensures r == [] || (!IsSpace(r[0]) && !IsSpace(r[|r| - 1]))
    ensures (s == [] || (!IsSpace(s[0]) && !IsSpace(s[|s| - 1]))) ==> r == s
  {
    TrimEnd(TrimStart(s))
  }

  /** A digit string has no surrounding whitespace. */
  lemma DigitsStripped(t: string)
    requires AllDigits(t)
    ensures Strip(t) == t
  {
    assert IsDigit(t[0]) && IsDigit(t[|t| - 1]);
  }

  /** Stripping only removes characters. */
  lemma StripKeeps(s: string, c: char)
    requires c !in s
    ensures c !in Strip(s)
  {
    var t := TrimStart(s);
    forall i | 0 <= i < |t| ensures t[i] != c { assert t[i] == s[|s| - |t| + i]; }
    var r := TrimEnd(t);
    forall i | 0 <= i < |r| ensures r[i] != c { assert r[i] == t[i]; }
  }

  /** Python `c in s`, as the first index of `c`. */
  function IndexOf(s: string, c: char): (r: Option<nat>)
    ensures r.None? <==> c !in s
    ensures r.Some? ==> r.value < |s| && s[r.value] == c && c !in s[..r.value]
  {
    if s == [] then None
    else if s[0] == c then Some(0)
    else
      var k := IndexOf(s[1..], c);
      if k.None? then None else
        assert s[..k.value + 1] == [s[0]] + s[1..][..k.value];
        Some(k.value + 1)
  }

  /** Python `s.split(sep)` for a one-character separator. */
  function Split(s: string, sep: char): (r: seq<string>)
    ensures |r| >= 1
    ensures forall i :: 0 <= i < |r| ==> sep !in r[i]
    decreases |s|
  {
    match IndexOf(s, sep)
    case None => [s]
    case Some(k) => [s[..k]] + Split(s[k + 1..], sep)
  }

  /** Python `sep.join(parts)`. */
  function Join(parts: seq<string>, sep: string): string {
    if parts == [] then ""
    else if |parts| == 1 then parts[0]
    else parts[0] + sep + Join(parts[1..], sep)
  }

  /** The digits of a Python integer literal: ASCII digits, with single
      underscores between two of them. */
  predicate PyDigits(t: string) {
    && |t| > 0 && IsDigit(t[0]) && IsDigit(t[|t| - 1])
    && (forall i :: 0 <= i < |t| ==> IsDigit(t[i]) || t[i] == '_')
    && NoDoubledUnderscore(t)
  }

  predicate NoDoubledUnderscore(t: string) {
    |t| < 2 || (!(t[0] == '_' && t[1] == '_') && NoDoubledUnderscore(t[1..]))
  }

  /** Plain digits are a Python integer literal. */
  lemma {:induction false} DigitsNoDoubled(t: string)
    requires forall i :: 0 <= i < |t| ==> IsDigit(t[i])
    ensures NoDoubledUnderscore(t)
  {
    if |t| >= 2 {
      assert IsDigit(t[0]);
      DigitsNoDoubled(t[1..]);
    }
  }

  /** The value of the unsigned part of `int(s)`, `None` where it raises. */
  function PyDigitsValue(t: string): (r: Option<nat>)
    ensures AllDigits(t) ==> r == Some(DigitsValue(t))
    ensures r.Some? ==> PyDigits(t)
  {
    if AllDigits(t) then
      DigitsNoDoubled(t);
      assert '_' !in t;
      Some(DigitsValue(t))
    else if !PyDigits(t) then None
    else
      RemoveCharKeeps(t, '_');
      Some(DigitsValue(RemoveChar(t, '_')))
  }

  /** Python `int(s)` of a string: surrounding whitespace, an optional sign,
      digits grouped by single underscores. */
  function PyInt(s: string): (r: Option<int>)
    ensures Strip(s) == "" ==> r.None?
    ensures AllDigits(Strip(s)) ==> r == Some(DigitsValue(Strip(s)))
  {
    var t := Strip(s);
    if |t| >= 1 && (t[0] == '+' || t[0] == '-') then
      match PyDigitsValue(t[1..])
      case None => None
      case Some(n) =>
        var m: int := n;
        if t[0] == '-' then Some(-m) else Some(m)
    else
      match PyDigitsValue(t)
      case None => None
      case Some(n) => Some(n)
  }

  /** What is left after removing a character comes from the text. */
  lemma {:induction false} RemoveCharKeeps(s: string, a: char)
    ensures forall i :: 0 <= i < |RemoveChar(s, a)| ==> RemoveChar(s, a)[i] in s
  {
    if s != [] {
      RemoveCharKeeps(s[1..], a);
    }
  }

  lemma GroupedShape()
    ensures Strip("1_000") == "1_000" && PyDigits("1_000") && !AllDigits("1_000")
  {
    var t := "1_000";
    assert !IsSpace(t[0]) && !IsSpace(t[4]);
    assert NoDoubledUnderscore(t) by {
      assert t[1..] == "_000" && t[1..][1..] == "000" && "000"[1..] == "00" && "00"[1..] == "0";
    }
    assert t[1] == '_';
  }

  lemma GroupedDigits()
    ensures RemoveChar("1_000", '_') == "1000"
  {
    var t := "1_000";
    assert t[1..] == "_000" && t[1..][1..] == "000";
    assert RemoveChar("000", '_') == "000";
  }

  lemma ThousandValue()
    ensures DigitsValue("1000") == 1000
  {
    assert "1000"[..3] == "100" && "100"[..2] == "10" && "10"[..1] == "1";
  }

  /** `int` reads underscores between digits. */
  lemma PyIntGrouped()
    ensures PyInt("1_000") == Some(1000)
  {
    GroupedShape();
    GroupedDigits();
    ThousandValue();
    assert PyDigitsValue("1_000") == Some(1000);
  }

  /** Joining the pieces of a split with the separator gives the text back. */
  lemma {:induction false} JoinSplit(s: string, sep: char)
    ensures Join(Split(s, sep), [sep]) == s
    decreases |s|
  {
    match IndexOf(s, sep)
    case None =>
    case Some(k) =>
      var rest := Split(s[k + 1..], sep);
      JoinSplit(s[k + 1..], sep);
      assert Split(s, sep) == [s[..k]] + rest;
      assert s == s[..k] + [sep] + s[k + 1..];
  }

  /** Python `s.split(c, 1)` when `c in s`: the text before and after the first `c`. */
  function SplitFirst(s: string, c: char): (r: Option<(string, string)>)
    ensures r.None? <==> c !in s
    ensures r.Some? ==> c !in r.value.0 && s == r.value.0 + [c] + r.value.1
  {
    match IndexOf(s, c)
    case None => None
    case Some(k) =>
      assert s == s[..k] + [c] + s[k + 1..];
      Some((s[..k], s[k + 1..]))
  }

  function LowerChar(c: char): char {
    if IsUpperAscii(c) then (c as int + 32) as char else c
  }

  /** `str.lower()` restricted to ASCII letters. */
  function Lower(s: string): (r: string)
    ensures |r| == |s|
    ensures forall i :: 0 <= i < |s| ==> r[i] == LowerChar(s[i])
  {
    seq(|s|, i requires 0 <= i < |s| => LowerChar(s[i]))
  }

  predicate StartsWith(s: string, prefix: string) {
    |prefix| <= |s| && s[..|prefix|] == prefix
  }

  /** Python `s.replace(a, b)` for single characters. */
  function ReplaceChar(s: string, a: char, b: char): (r: string)
    ensures |r| == |s|
    ensures forall i :: 0 <= i < |s| ==> r[i] == (if s[i] == a then b else s[i])
  {
    seq(|s|, i requires 0 <= i < |s| => if s[i] == a then b else s[i])
  }

  /** Python `s.replace(a, "")` for a single character. */
  function RemoveChar(s: string, a: char): (r: string)
    ensures a !in r
    ensures |r| <= |s|
    ensures a !in s ==> r == s
  {
    if s == [] then []
    else if s[0] == a then RemoveChar(s[1..], a)
    else [s[0]] + RemoveChar(s[1..], a)
  }

  /** Python's string `<`: code-point lexicographic order. */
  predicate Less(a: string, b: string) {
    if a == [] then b != []
    else if b == [] then false
    else if a[0] != b[0] then a[0] < b[0]
    else Less(a[1..], b[1..])
  }

  lemma {:induction false} LessIrreflexive(a: string)
    ensures !Less(a, a)
  {
    if a != [] { LessIrreflexive(a[1..]); }
  }

  lemma {:induction false} LessTransitive(a: string, b: string, c: string)
    requires Less(a, b) && Less(b, c)
    ensures Less(a, c)
  {
    if a != [] && b != [] && c != [] && a[0] == b[0] && b[0] == c[0] {
      LessTransitive(a[1..], b[1..], c[1..]);
    }
  }

  /** A common prefix does not change the order. */
  lemma {:induction false} LessAfterPrefix(p: string, a: string, b: string)
    requires Less(a, b)
    ensures Less(p + a, p + b)
  {
    if p != [] {
      assert (p + a)[0] == p[0] == (p + b)[0];
      assert (p + a)[1..] == p[1..] + a && (p + b)[1..] == p[1..] + b;
      LessAfterPrefix(p[1..], a, b);
    } else {
      assert p + a == a && p + b == b;
    }
  }

  lemma {:induction false} LessTotal(a: string, b: string)
    requires a != b
    ensures Less(a, b) || Less(b, a)
  {
    if a != [] && b != [] && a[0] == b[0] {
      assert a == [a[0]] + a[1..] && b == [b[0]] + b[1..];
      LessTotal(a[1..], b[1..]);
    }
  }

  function DigitChar(d: nat): char
    requires d < 10
  {
    ('0' as int + d) as char
  }

  /** Python `str(n)` for an integer. */
  function NatToString(n: nat): (r: string)
    ensures |r| >= 1 && AllDigits(r)
    ensures n < 10 ==> r == [DigitChar(n)]
  {
    if n < 10 then [DigitChar(n)] else NatToString(n / 10) + [DigitChar(n % 10)]
  }

  function IntToString(n: int): (r: string)
    ensures |r| >= 1
    ensures n >= 0 ==> AllDigits(r)
    ensures n < 0 ==> r[0] == '-' && AllDigits(r[1..])
  {
    if n >= 0 then NatToString(n) else "-" + NatToString(-n)
  }

  /** The value of a string of decimal digits. */
  function DigitsValue(s: string): (n: nat)
    requires forall i :: 0 <= i < |s| ==> IsDigit(s[i])
  {
    if s == [] then 0
    else
      assert IsDigit(s[|s| - 1]);
      DigitsValue(s[..|s| - 1]) * 10 + (s[|s| - 1] as int - '0' as int)
  }

  /** Reading back the decimal text of a number gives the number. */
  lemma {:induction false} DigitsValueOfNatToString(n: nat)
    ensures DigitsValue(NatToString(n)) == n
  {
    if n >= 10 {
      var s := NatToString(n);
      DigitsValueOfNatToString(n / 10);
      assert s[..|s| - 1] == NatToString(n / 10);
    }
  }
  /** `int(str(n))` is `n`. */
  lemma PyIntOfNat(n: nat)
    ensures PyInt(NatToString(n)) == Some(n)
  {
    var s := NatToString(n);
    assert !IsSpace(s[0]) && !IsSpace(s[|s| - 1]);
    DigitsValueOfNatToString(n);
  }


  /** The first occurrence of `c`, with no other after it, is the only one. */
  lemma OnlyOccurrence(s: string, c: char, i: nat, j: nat)
    requires IndexOf(s, c) == Some(i) && c !in s[i + 1..]
    requires j < |s| && s[j] == c
    ensures j == i
  {
    forall k | 0 <= k < i ensures s[k] != c { assert s[k] == s[..i][k]; }
    forall k | i < k < |s| ensures s[k] != c { assert s[k] == s[i + 1..][k - i - 1]; }
  }

  lemma IndexOfAfter(a: string, c: char, b: string)
    requires c !in a
    ensures IndexOf(a + [c] + b, c) == Some(|a|)
  {
    var s := a + [c] + b;
    assert s[|a|] == c && s[..|a|] == a;
  }

  /** Splitting at the first separator peels off the text before it. */
  lemma SplitAfter(a: string, c: char, b: string)
    requires c !in a
    ensures Split(a + [c] + b, c) == [a] + Split(b, c)
  {
    var s := a + [c] + b;
    IndexOfAfter(a, c, b);
    assert s[..|a|] == a && s[|a| + 1..] == b;
  }

  lemma SplitNone(s: string, c: char)
    requires c !in s
    ensures Split(s, c) == [s]
  {
  }

  lemma SplitFirstAfter(a: string, c: char, b: string)
    requires c !in a
    ensures SplitFirst(a + [c] + b, c) == Some((a, b))
  {
    var s := a + [c] + b;
    IndexOfAfter(a, c, b);
    assert s[..|a|] == a && s[|a| + 1..] == b;
  }

  /** A join starts with its first part. */
  lemma JoinStartsWithFirst(parts: seq<string>, sep: string)
    requires parts != []
    ensures StartsWith(Join(parts, sep), parts[0])
  {
    if |parts| > 1 {
      var j := Join(parts, sep);
      assert j == parts[0] + (sep + Join(parts[1..], sep));
      assert j[..|parts[0]|] == parts[0];
    }
  }

  /** Python `sub in s` for strings. */
  predicate Contains(s: string, sub: string) {
    StartsWith(s, sub) || (s != [] && Contains(s[1..], sub))
  }

  /** Python `s.endswith(suffix)`. */
  predicate EndsWith(s: string, suffix: string) {
    |suffix| <= |s| && s[|s| - |suffix|..] == suffix
  }

  /** Splitting a join at its one-character separator gives the parts back. */
  lemma {:induction false} SplitJoin(parts: seq<string>, c: char)
    requires parts != []
    requires forall i :: 0 <= i < |parts| ==> c !in parts[i]
    ensures Split(Join(parts, [c]), c) == parts
  {
    if |parts| == 1 {
      SplitNone(parts[0], c);
    } else {
      SplitJoin(parts[1..], c);
      SplitAfter(parts[0], c, Join(parts[1..], [c]));
      assert parts == [parts[0]] + parts[1..];
    }
  }
}
