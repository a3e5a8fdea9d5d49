// `_get_vietnamese_slug` of products, product categories and blog posts
// (and `get_vietnamese_slug` of blog categories): the four copies share one
// character table. Every character outside the table is dropped, ASCII
// letters and digits included.
module VietSlug {
  import Text
  import Slug

  // `vietnamese_map`, grouped by the letter each key maps to: the accented
  // lower- and upper-case Vietnamese letters and `đ`/`Đ`.
  const ToA: set<char> := {'à', 'á', 'ạ', 'ả', 'ã', 'ă', 'ằ', 'ắ', 'ặ', 'ẳ', 'ẵ', 'â', 'ầ', 'ấ', 'ậ', 'ẩ', 'ẫ', 'À', 'Á', 'Ạ', 'Ả', 'Ã', 'Ă', 'Ằ', 'Ắ', 'Ặ', 'Ẳ', 'Ẵ', 'Â', 'Ầ', 'Ấ', 'Ậ', 'Ẩ', 'Ẫ'}
  const ToE: set<char> := {'è', 'é', 'ẹ', 'ẻ', 'ẽ', 'ê', 'ề', 'ế', 'ệ', 'ể', 'ễ', 'È', 'É', 'Ẹ', 'Ẻ', 'Ẽ', 'Ê', 'Ề', 'Ế', 'Ệ', 'Ể', 'Ễ'}
  const ToI: set<char> := {'ì', 'í', 'ị', 'ỉ', 'ĩ', 'Ì', 'Í', 'Ị', 'Ỉ', 'Ĩ'}
  const ToO: set<char> := {'ò', 'ó', 'ọ', 'ỏ', 'õ', 'ô', 'ồ', 'ố', 'ộ', 'ổ', 'ỗ', 'ơ', 'ờ', 'ớ', 'ợ', 'ở', 'ỡ', 'Ò', 'Ó', 'Ọ', 'Ỏ', 'Õ', 'Ô', 'Ồ', 'Ố', 'Ộ', 'Ổ', 'Ỗ', 'Ơ', 'Ờ', 'Ớ', 'Ợ', 'Ở', 'Ỡ'}
  const ToU: set<char> := {'ù', 'ú', 'ụ', 'ủ', 'ũ', 'ư', 'ừ', 'ứ', 'ự', 'ử', 'ữ', 'Ù', 'Ú', 'Ụ', 'Ủ', 'Ũ', 'Ư', 'Ừ', 'Ứ', 'Ự', 'Ử', 'Ữ'}
  const ToY: set<char> := {'ỳ', 'ý', 'ỵ', 'ỷ', 'ỹ', 'Ỳ', 'Ý', 'Ỵ', 'Ỷ', 'Ỹ'}
  const ToD: set<char> := {'đ', 'Đ'}

  /** The letters the table maps to. */
  predicate IsSlugLetter(c: char) {
    c == 'a' || c == 'd' || c == 'e' || c == 'i' || c == 'o' || c == 'u' || c == 'y'
  }

  /** `vietnamese_map.get(c, '')`. */
  function DropChar(c: char): (r: string)
    ensures |r| <= 1
    ensures forall i :: 0 <= i < |r| ==> IsSlugLetter(r[i])
  {
    if c in ToA then "a"
    else if c in ToE then "e"
    else if c in ToI then "i"
    else if c in ToO then "o"
    else if c in ToU then "u"
    else if c in ToY then "y"
    else if c in ToD then "d"
    else ""
  }

  /** Every key lies outside ASCII, so ASCII letters and digits are dropped. */
  lemma AsciiDropChar(c: char)
    requires c as int < 128
    ensures DropChar(c) == ""
  {
    assert c !in ToA && c !in ToE && c !in ToI && c !in ToO;
  }

  /** `''.join(f(c) for c in text)`. */
  function Join(text: string, f: char -> string): string {
    if text == [] then ""
    else Join(text[..|text| - 1], f) + f(text[|text| - 1])
  }

  lemma {:induction false} JoinBounds(text: string, f: char -> string)
    requires forall c :: |f(c)| <= 1 && forall i :: 0 <= i < |f(c)| ==> IsSlugLetter(f(c)[i])
    ensures |Join(text, f)| <= |text|
    ensures forall i :: 0 <= i < |Join(text, f)| ==> IsSlugLetter(Join(text, f)[i])
  {
    if text != [] {
      JoinBounds(text[..|text| - 1], f);
    }
  }

  lemma {:induction false} JoinConcat(a: string, b: string, f: char -> string)
    ensures Join(a + b, f) == Join(a, f) + Join(b, f)
    decreases |b|
  {
    if b == [] {
      assert a + b == a;
    } else {
      var ab := a + b;
      assert ab[..|ab| - 1] == a + b[..|b| - 1];
      assert ab[|ab| - 1] == b[|b| - 1];
      JoinConcat(a, b[..|b| - 1], f);
    }
  }

  /** `''.join(vietnamese_map.get(c, '') for c in text)`. */
  function Converted(text: string): (r: string)
    ensures |r| <= |text|
    ensures forall i :: 0 <= i < |r| ==> IsSlugLetter(r[i])
  {
    JoinBounds(text, DropChar);
    Join(text, DropChar)
  }

  /** `_get_vietnamese_slug`: the converted text, lower-cased, with runs of
      other characters turned into hyphens, then trimmed and collapsed. */
  function VietnameseSlug(text: string): string {
    if text == "" then ""
    else Slug.CollapseDash(Slug.StripDash(Slug.DashRuns(Text.Lower(Converted(text)))))
  }

  /** A text of these letters passes every later substitution unchanged. */
  lemma LettersUnchanged(c: string)
    requires forall i :: 0 <= i < |c| ==> IsSlugLetter(c[i])
    ensures Slug.CollapseDash(Slug.StripDash(Slug.DashRuns(Text.Lower(c)))) == c
    ensures Slug.Shaped(c) && '-' !in c
  {
    assert Text.Lower(c) == c;
    Slug.SlugCharsUnchanged(c);
  }

  /** The converted text only holds a, d, e, i, o, u, y, so none of the
      substitutions after the conversion changes anything. */
  lemma SlugIsConverted(text: string)
    ensures VietnameseSlug(text) == Converted(text)
  {
    if text != "" {
      LettersUnchanged(Converted(text));
    }
  }

  /** The slug has the hyphen shape (in fact no hyphen at all), uses only
      a, d, e, i, o, u, y, and is no longer than the text. */
  lemma SlugShape(text: string)
    ensures var s := VietnameseSlug(text);
      && Slug.Shaped(s) && '-' !in s && |s| <= |text|
      && forall i :: 0 <= i < |s| ==> IsSlugLetter(s[i])
  {
    SlugIsConverted(text);
    LettersUnchanged(Converted(text));
  }

  /** The stored slug of a named record (`_compute_vietnamese_slug`): a
      record without a name gets ''. */
  function NameSlug(name: string): (r: string)
    ensures r == Converted(name)
    ensures Slug.Shaped(r) && |r| <= |name|
    ensures name == "" ==> r == ""
  {
    SlugIsConverted(name);
    SlugShape(name);
    if name != "" then VietnameseSlug(name) else ""
  }

  lemma ConvertedConcat(a: string, b: string)
    ensures Converted(a + b) == Converted(a) + Converted(b)
  {
    JoinConcat(a, b, DropChar);
  }

  /** The slug of a concatenation is the concatenation of the slugs: each
      character is converted on its own, and no separator is ever added. */
  lemma SlugConcat(a: string, b: string)
    ensures VietnameseSlug(a + b) == VietnameseSlug(a) + VietnameseSlug(b)
  {
    SlugIsConverted(a + b);
    SlugIsConverted(a);
    SlugIsConverted(b);
    ConvertedConcat(a, b);
  }

  /** A text of ASCII characters only has the empty slug. */
  lemma {:induction false} AsciiDropped(text: string)
    requires forall i :: 0 <= i < |text| ==> text[i] as int < 128
    ensures VietnameseSlug(text) == ""
  {
    SlugIsConverted(text);
    AsciiConverted(text);
  }

  lemma {:induction false} AsciiConverted(text: string)
    requires forall i :: 0 <= i < |text| ==> text[i] as int < 128
    ensures Converted(text) == ""
  {
    if text != [] {
      var init := text[..|text| - 1];
      assert forall i :: 0 <= i < |init| ==> init[i] == text[i];
      AsciiConverted(init);
      AsciiDropChar(text[|text| - 1]);
      assert Converted(text) == Converted(init) + DropChar(text[|text| - 1]);
    }
  }

  /** The evidently intended conversion, `vietnamese_map.get(c, c)`: a
      character outside the table is kept, so that the hyphenation after it
      has ASCII letters and digits to keep. */
  function KeepChar(c: char): (r: string)
    ensures |r| == 1
  {
    if DropChar(c) != "" then DropChar(c) else [c]
  }

  /** `_get_vietnamese_slug` with the corrected conversion. */
  function KeptSlug(text: string): string {
    if text == "" then ""
    else Slug.CollapseDash(Slug.StripDash(Slug.DashRuns(Text.Lower(Join(text, KeepChar)))))
  }

  lemma KeepAsciiChar(c: char)
    requires c as int < 128
    ensures KeepChar(c) == [c]
  {
    AsciiDropChar(c);
  }

  lemma {:induction false} AsciiKept(text: string)
    requires forall i :: 0 <= i < |text| ==> text[i] as int < 128
    ensures Join(text, KeepChar) == text
  {
    if text != [] {
      var init, last := text[..|text| - 1], text[|text| - 1];
      assert forall i :: 0 <= i < |init| ==> init[i] == text[i];
      AsciiKept(init);
      KeepAsciiChar(last);
      assert Join(text, KeepChar) == Join(init, KeepChar) + KeepChar(last);
      assert text == init + [last];
    }
  }

  /** Lower-cased ASCII letters and digits are all slug characters. */
  lemma LowerAlnumIsSlug(text: string)
    requires forall i :: 0 <= i < |text| ==> Text.IsAlnumAscii(text[i])
    ensures forall i :: 0 <= i < |Text.Lower(text)| ==> Slug.IsSlugChar(Text.Lower(text)[i])
  {
  }

  /** With the corrected conversion an ASCII name of letters and digits keeps
      them all, lower-cased: "Kim" slugs to "kim" where the code as written
      gives "". */
  lemma KeptSlugKeepsAlnum(text: string)
    requires forall i :: 0 <= i < |text| ==> Text.IsAlnumAscii(text[i])
    ensures KeptSlug(text) == Text.Lower(text)
    ensures text != [] ==> KeptSlug(text) != "" && VietnameseSlug(text) == ""
  {
    assert forall i :: 0 <= i < |text| ==> text[i] as int < 128;
    AsciiKept(text);
    LowerAlnumIsSlug(text);
    Slug.SlugCharsUnchanged(Text.Lower(text));
    assert |Text.Lower(text)| == |text|;
    AsciiDropped(text);
  }

  lemma {:induction false} TableKept(text: string)
    requires forall i :: 0 <= i < |text| ==> DropChar(text[i]) != ""
    ensures Join(text, KeepChar) == Join(text, DropChar)
  {
    if text != [] {
      var init := text[..|text| - 1];
      assert forall i :: 0 <= i < |init| ==> init[i] == text[i];
      TableKept(init);
    }
  }

  /** On a text made only of characters of the table the two conversions
      agree: the correction changes nothing the table already covers. */
  lemma KeptSlugAgreesOnTable(text: string)
    requires forall i :: 0 <= i < |text| ==> DropChar(text[i]) != ""
    ensures KeptSlug(text) == VietnameseSlug(text)
  {
    TableKept(text);
  }

  /** "Đá" followed by any ASCII text, say "Đá Kim", becomes "da": the
      space and the ASCII letters are dropped rather than kept or turned
      into a hyphen. */
  lemma DroppedExample(tail: string)
    requires forall i :: 0 <= i < |tail| ==> tail[i] as int < 128
    ensures VietnameseSlug("Đá" + tail) == "da"
  {
    SlugIsConverted("Đá" + tail);
    AsciiConverted(tail);
    ConvertedConcat("Đá", tail);
    ConvertedExample();
  }

  lemma ConvertedExample()
    ensures Converted("Đá") == "da"
  {
    DropCharExamples();
    assert "Đá"[..1] == "Đ";
    assert Converted("Đ") == Converted("") + DropChar('Đ');
    assert Converted("Đá") == Converted("Đ") + DropChar('á');
  }

  lemma DropCharExamples()
    ensures DropChar('Đ') == "d" && DropChar('á') == "a"
  {
    assert 'á' in ToA;
    assert 'Đ' !in ToA && 'Đ' !in ToE && 'Đ' !in ToI;
    assert 'Đ' !in ToO && 'Đ' !in ToU && 'Đ' !in ToY;
  }
}
