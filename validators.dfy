// The regular-expression checks shared by the CRM lead and the contact form:
// Vietnamese phone numbers, tax codes and e-mail addresses (ASCII reading of
// `\d`; a match must reach the end of the text).
module Validators {
  import opened Wrappers
  import Text

  /** Every character an ASCII digit, and exactly `n` of them. */
  predicate Digits(s: string, n: nat) {
    |s| == n && forall i :: 0 <= i < |s| ==> Text.IsDigit(s[i])
  }

  /** The class `[3|5|7|8|9]` as written: the `|` signs are members of it. */
  predicate OperatorCharAsWritten(c: char) {
    c == '3' || c == '|' || c == '5' || c == '7' || c == '8' || c == '9'
  }

  /** The mobile operator digits the class evidently means: `[35789]`. */
  predicate OperatorChar(c: char) {
    c == '3' || c == '5' || c == '7' || c == '8' || c == '9'
  }

  /** `^(0|\+84)X[0-9]{8}$` for a class `X`, on a text with spaces removed. */
  predicate PhoneShape(t: string, operator: char -> bool) {
    || (|t| == 10 && t[0] == '0' && operator(t[1]) && Digits(t[2..], 8))
    || (|t| == 12 && t[..3] == "+84" && operator(t[3]) && Digits(t[4..], 8))
  }

  /** The phone pattern exactly as written. */
  predicate PhoneMatchesAsWritten(t: string) {
    PhoneShape(t, OperatorCharAsWritten)
  }

  /** The phone pattern with the class corrected to the operator digits. */
  predicate PhoneMatches(t: string) {
    PhoneShape(t, OperatorChar)
  }

  /** A phone constraint over the operator class `operator`: an empty or
      missing value is not checked; any other is checked after
      `replace(' ', '')`. */
  predicate PhoneAcceptedBy(v: Option<string>, operator: char -> bool) {
    v.None? || v.value == "" || PhoneShape(Text.RemoveChar(v.value, ' '), operator)
  }

  /** The phone constraint the lead and the contact form run, with the class
      as written. */
  predicate PhoneAcceptedAsWritten(v: Option<string>) {
    PhoneAcceptedBy(v, OperatorCharAsWritten)
  }

  /** The phone constraint with the corrected class. */
  predicate PhoneAccepted(v: Option<string>) {
    PhoneAcceptedBy(v, OperatorChar)
  }

  lemma {:induction false} RemoveCharKeepsOut(s: string, a: char, b: char)
    requires b !in s
    ensures b !in Text.RemoveChar(s, a)
  {
    if s != [] {
      assert b !in s[1..] by { assert forall k :: 0 <= k < |s[1..]| ==> s[1..][k] == s[k + 1]; }
      RemoveCharKeepsOut(s[1..], a, b);
    }
  }

  /** The pattern as written and the corrected one give the same verdict on
      every value without a `|`: the pipe is the only text they disagree on. */
  lemma AcceptedAgreeWithoutPipe(v: Option<string>)
    requires v.Some? ==> '|' !in v.value
    ensures PhoneAcceptedAsWritten(v) <==> PhoneAccepted(v)
  {
    if v.Some? && v.value != "" {
      var t := Text.RemoveChar(v.value, ' ');
      RemoveCharKeepsOut(v.value, ' ', '|');
      if |t| == 10 { assert t[1] in t; }
      if |t| == 12 { assert t[3] in t; }
    }
  }

  /** As written, a `|` in the operator position is accepted; the corrected
      class refuses it. */
  lemma PipeAcceptedAsWritten()
    ensures PhoneMatchesAsWritten("0|12345678")
    ensures !PhoneMatches("0|12345678")
  {
    var t := "0|12345678";
    assert t[2..] == "12345678";
  }

  /** The constraints built on the two classes disagree on that number. */
  lemma PipeConstraintAsWritten()
    ensures PhoneAcceptedAsWritten(Some("0|12345678")) && !PhoneAccepted(Some("0|12345678"))
  {
    var t := "0|12345678";
    assert ' ' !in t by {
      assert forall k :: 0 <= k < |t| ==> t[k] != ' ';
    }
    assert Text.RemoveChar(t, ' ') == t;
    PipeAcceptedAsWritten();
  }

  /** A corrected match is made of digits only, after an optional leading
      `+`, and is 10 or 12 characters long. */
  lemma PhoneMatchIsNumeric(t: string)
    requires PhoneMatches(t)
    ensures |t| == 10 || |t| == 12
    ensures forall i :: (if t[0] == '+' then 1 else 0) <= i < |t| ==> Text.IsDigit(t[i])
  {
    if |t| == 10 {
      forall i | 2 <= i < 10 ensures Text.IsDigit(t[i]) { assert t[i] == t[2..][i - 2]; }
    } else {
      assert t[0] == t[..3][0] && t[1] == t[..3][1] && t[2] == t[..3][2];
      forall i | 4 <= i < 12 ensures Text.IsDigit(t[i]) { assert t[i] == t[4..][i - 4]; }
    }
  }

  /** The national `0` prefix and the international `+84` prefix accept the
      same subscriber numbers. */
  lemma PrefixesAgree(rest: string)
    ensures PhoneMatches("0" + rest) <==> PhoneMatches("+84" + rest)
  {
    var a := "0" + rest;
    var b := "+84" + rest;
    assert a[1..] == rest && b[3..] == rest && b[..3] == "+84";
    if |rest| >= 1 {
      assert a[1] == rest[0] && b[3] == rest[0];
      assert a[2..] == rest[1..] && b[4..] == rest[1..];
    }
  }

  lemma RemoveCharConcat(a: string, b: string, c: char)
    ensures Text.RemoveChar(a + b, c) == Text.RemoveChar(a, c) + Text.RemoveChar(b, c)
  {
    if a != [] {
      assert (a + b)[0] == a[0] && (a + b)[1..] == a[1..] + b;
      RemoveCharConcat(a[1..], b, c);
      if a[0] != c {
        assert Text.RemoveChar(a + b, c) == [a[0]] + Text.RemoveChar(a[1..] + b, c);
        assert Text.RemoveChar(a, c) == [a[0]] + Text.RemoveChar(a[1..], c);
      }
    } else {
      assert a + b == b;
    }
  }

  /** Spaces typed inside the number do not change the verdict, whichever
      the operator class. */
  lemma SpacesIgnored(a: string, b: string, operator: char -> bool)
    requires a + b != ""
    ensures PhoneAcceptedBy(Some(a + " " + b), operator) == PhoneAcceptedBy(Some(a + b), operator)
  {
    RemoveCharConcat(a + " ", b, ' ');
    RemoveCharConcat(a, " ", ' ');
    RemoveCharConcat(a, b, ' ');
    assert Text.RemoveChar(" ", ' ') == Text.RemoveChar("", ' ') == "";
    assert Text.RemoveChar(a, ' ') + "" == Text.RemoveChar(a, ' ');
  }

  /** `^\d{10}(-\d{3})?$`. */
  predicate TaxCodeMatches(s: string) {
    || Digits(s, 10)
    || (|s| == 14 && Digits(s[..10], 10) && s[10] == '-' && Digits(s[11..], 3))
  }

  /** The tax-code constraint: an empty or missing value is not checked. */
  predicate TaxCodeAccepted(v: Option<string>) {
    v.None? || v.value == "" || TaxCodeMatches(v.value)
  }

  /** A branch suffix `-ddd` may follow any ten-digit code, and the code
      without it is valid too. */
  lemma TaxCodeBranch(code: string, branch: string)
    requires Digits(code, 10) && Digits(branch, 3)
    ensures TaxCodeMatches(code) && TaxCodeMatches(code + "-" + branch)
  {
    var s := code + "-" + branch;
    assert s[..10] == code && s[11..] == branch && s[10] == '-';
  }

  predicate IsLetter(c: char) { Text.IsLowerAscii(c) || Text.IsUpperAscii(c) }

  /** `[a-zA-Z0-9._%+-]` */
  predicate LocalChar(c: char) {
    Text.IsAlnumAscii(c) || c == '.' || c == '_' || c == '%' || c == '+' || c == '-'
  }

  /** `[a-zA-Z0-9.-]` */
  predicate DomainChar(c: char) {
    Text.IsAlnumAscii(c) || c == '.' || c == '-'
  }

  predicate AllOf(s: string, p: char -> bool) {
    forall i :: 0 <= i < |s| ==> p(s[i])
  }

  /** `[a-zA-Z0-9.-]+\.[a-zA-Z]{2,}$` read as the regular expression does:
      some split of `d` at a dot. */
  ghost predicate DomainPattern(d: string) {
    exists p :: 1 <= p && p + 3 <= |d| && d[p] == '.' && AllOf(d[..p], DomainChar) && AllOf(d[p + 1..], IsLetter)
  }

  /** `^[a-zA-Z0-9._%+-]+@[a-zA-Z0-9.-]+\.[a-zA-Z]{2,}$` read as the regular
      expression does: some split of `s` at an `@`. */
  ghost predicate EmailPattern(s: string) {
    exists i :: 1 <= i < |s| && s[i] == '@' && AllOf(s[..i], LocalChar) && DomainPattern(s[i + 1..])
  }

  /** The last index of `c` in `s`. */
  function LastIndexOf(s: string, c: char): (r: Option<nat>)
    ensures r.None? <==> c !in s
    ensures r.Some? ==> r.value < |s| && s[r.value] == c && c !in s[r.value + 1..]
  {
    if s == [] then None
    else if s[|s| - 1] == c then Some(|s| - 1)
    else
      var k := LastIndexOf(s[..|s| - 1], c);
      if k.None? then None else
        assert s[k.value + 1..] == s[..|s| - 1][k.value + 1..] + [s[|s| - 1]];
        Some(k.value)
  }

  /** The domain check written as a direct scan: the part after the last dot. */
  predicate DomainValid(d: string) {
    match LastIndexOf(d, '.')
    case None => false
    case Some(p) => 1 <= p && p + 3 <= |d| && AllOf(d[..p], DomainChar) && AllOf(d[p + 1..], IsLetter)
  }

  /** The e-mail check written as a direct scan: the text around the first `@`. */
  predicate EmailValid(s: string) {
    match Text.IndexOf(s, '@')
    case None => false
    case Some(i) => 1 <= i && AllOf(s[..i], LocalChar) && DomainValid(s[i + 1..])
  }

  /** No dot follows the dot a domain pattern splits at. */
  lemma DotsBefore(d: string, p: nat)
    requires p < |d| && AllOf(d[p + 1..], IsLetter)
    ensures forall k :: p < k < |d| ==> d[k] != '.'
  {
    forall k | p < k < |d| ensures d[k] != '.' { assert d[k] == d[p + 1..][k - p - 1]; }
  }

  lemma DomainValidIsPattern(d: string)
    ensures DomainValid(d) <==> DomainPattern(d)
  {
    if DomainPattern(d) {
      var p :| 1 <= p && p + 3 <= |d| && d[p] == '.' && AllOf(d[..p], DomainChar) && AllOf(d[p + 1..], IsLetter);
      var q := LastIndexOf(d, '.');
      assert d[p] in d;
      DotsBefore(d, p);
      forall k | q.value < k < |d| ensures d[k] != '.' { assert d[k] == d[q.value + 1..][k - q.value - 1]; }
      assert q.value == p;
    }
  }

  /** No `@` precedes the `@` the pattern splits at. */
  lemma AtsAfter(s: string, i: nat)
    requires i <= |s| && AllOf(s[..i], LocalChar)
    ensures forall k :: 0 <= k < i ==> s[k] != '@'
  {
    forall k | 0 <= k < i ensures s[k] != '@' { assert s[k] == s[..i][k]; }
  }

  lemma PatternIsValid(s: string)
    requires EmailPattern(s)
    ensures EmailValid(s)
  {
    var i :| 1 <= i < |s| && s[i] == '@' && AllOf(s[..i], LocalChar) && DomainPattern(s[i + 1..]);
    var k := Text.IndexOf(s, '@');
    assert s[i] in s;
    AtsAfter(s, i);
    forall j | 0 <= j < k.value ensures s[j] != '@' { assert s[j] == s[..k.value][j]; }
    assert k.value == i;
    DomainValidIsPattern(s[i + 1..]);
  }

  lemma ValidIsPattern(s: string)
    requires EmailValid(s)
    ensures EmailPattern(s)
  {
    var i := Text.IndexOf(s, '@').value;
    DomainValidIsPattern(s[i + 1..]);
    assert 1 <= i < |s| && s[i] == '@' && AllOf(s[..i], LocalChar) && DomainPattern(s[i + 1..]);
  }

  /** The scan accepts exactly the texts the regular expression matches. */
  lemma EmailValidIsPattern(s: string)
    ensures EmailValid(s) <==> EmailPattern(s)
  {
    if EmailPattern(s) { PatternIsValid(s); }
    if EmailValid(s) { ValidIsPattern(s); }
  }

  /** The e-mail constraint: an empty or missing value is not checked. */
  predicate EmailAccepted(v: Option<string>) {
    v.None? || v.value == "" || EmailValid(v.value)
  }

  lemma AtIsNotDomainChar(c: char)
    requires DomainChar(c) || IsLetter(c)
    ensures c != '@'
  {
  }

  /** A valid domain holds no `@`. */
  lemma NoAtInDomain(d: string)
    requires DomainValid(d)
    ensures '@' !in d
  {
    var q := LastIndexOf(d, '.').value;
    forall k | 0 <= k < |d| ensures d[k] != '@' {
      if k < q {
        assert d[k] == d[..q][k];
        AtIsNotDomainChar(d[k]);
      } else if k > q {
        assert d[k] == d[q + 1..][k - q - 1];
        AtIsNotDomainChar(d[k]);
      }
    }
  }

  /** An address has exactly one `@`. */
  lemma EmailHasOneAt(s: string, j: nat)
    requires EmailValid(s) && j < |s| && s[j] == '@'
    ensures Text.IndexOf(s, '@') == Some(j)
  {
    var i := Text.IndexOf(s, '@').value;
    NoAtInDomain(s[i + 1..]);
    Text.OnlyOccurrence(s, '@', i, j);
  }

  /** A concrete address is accepted. */
  lemma GoodEmailExample()
    ensures EmailValid("a@b.vn")
  {
    var s := "a@b.vn";
    assert Text.IndexOf(s, '@') == Some(1);
    assert s[..1] == "a" && s[2..] == "b.vn";
    GoodDomainExample();
  }

  lemma GoodDomainExample()
    ensures DomainValid("b.vn")
  {
    var d := "b.vn";
    assert LastIndexOf(d, '.') == Some(1);
    assert d[..1] == "b" && d[2..] == "vn";
  }

  /** An address with a one-letter top-level domain is refused. */
  lemma ShortDomainRefused()
    ensures !EmailValid("a@b.v")
  {
    var t := "a@b.v";
    assert Text.IndexOf(t, '@') == Some(1);
    assert t[2..] == "b.v";
    assert LastIndexOf("b.v", '.') == Some(1);
  }
}
