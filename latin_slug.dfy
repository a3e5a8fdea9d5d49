// `_generate_slug` of courses, course categories and website pages (the
// three copies share one replacement table): lower-case the text, replace
// the accented Vietnamese letters one table entry at a time, turn every
// other run of characters into one hyphen and strip the hyphens at the ends.
module LatinSlug {
  import opened Wrappers
  import Text
  import Slug
  import VietSlug

  /** Python's `str.lower()` on the upper-case accented Vietnamese letters. */
  const Capitals: map<char, char> := map[
    'À' := 'à', 'Á' := 'á', 'Ạ' := 'ạ', 'Ả' := 'ả', 'Ã' := 'ã', 'Ă' := 'ă',
    'Ằ' := 'ằ', 'Ắ' := 'ắ', 'Ặ' := 'ặ', 'Ẳ' := 'ẳ', 'Ẵ' := 'ẵ', 'Â' := 'â',
    'Ầ' := 'ầ', 'Ấ' := 'ấ', 'Ậ' := 'ậ', 'Ẩ' := 'ẩ', 'Ẫ' := 'ẫ', 'È' := 'è',
    'É' := 'é', 'Ẹ' := 'ẹ', 'Ẻ' := 'ẻ', 'Ẽ' := 'ẽ', 'Ê' := 'ê', 'Ề' := 'ề',
    'Ế' := 'ế', 'Ệ' := 'ệ', 'Ể' := 'ể', 'Ễ' := 'ễ', 'Ì' := 'ì', 'Í' := 'í',
    'Ị' := 'ị', 'Ỉ' := 'ỉ', 'Ĩ' := 'ĩ', 'Ò' := 'ò', 'Ó' := 'ó', 'Ọ' := 'ọ',
    'Ỏ' := 'ỏ', 'Õ' := 'õ', 'Ô' := 'ô', 'Ồ' := 'ồ', 'Ố' := 'ố', 'Ộ' := 'ộ',
    'Ổ' := 'ổ', 'Ỗ' := 'ỗ', 'Ơ' := 'ơ', 'Ờ' := 'ờ', 'Ớ' := 'ớ', 'Ợ' := 'ợ',
    'Ở' := 'ở', 'Ỡ' := 'ỡ', 'Ù' := 'ù', 'Ú' := 'ú', 'Ụ' := 'ụ', 'Ủ' := 'ủ',
    'Ũ' := 'ũ', 'Ư' := 'ư', 'Ừ' := 'ừ', 'Ứ' := 'ứ', 'Ự' := 'ự', 'Ử' := 'ử',
    'Ữ' := 'ữ', 'Ỳ' := 'ỳ', 'Ý' := 'ý', 'Ỵ' := 'ỵ', 'Ỷ' := 'ỷ', 'Ỹ' := 'ỹ',
    'Đ' := 'đ'
  ]

  /** `str.lower()` on one character: ASCII letters and the Vietnamese
      capitals above; every other character is kept. */
  function LowerChar(c: char): char {
    if c as int < 128 then Text.LowerChar(c)
    else if c in Capitals then Capitals[c]
    else c
  }

  function Lower(s: string): (r: string)
    ensures |r| == |s|
    ensures forall i :: 0 <= i < |s| ==> r[i] == LowerChar(s[i])
  {
    seq(|s|, i requires 0 <= i < |s| => LowerChar(s[i]))
  }

  // The keys of `replacements`, grouped by the letter they become, in the
  // written order of the table.
  const FromA := "áàảãạăắằẳẵặâấầẩẫậ"
  const FromD := "đ"
  const FromE := "éèẻẽẹêếềểễệ"
  const FromI := "íìỉĩị"
  const FromO := "óòỏõọôốồổỗộơớờởỡợ"
  const FromU := "úùủũụưứừửữự"
  const FromY := "ýỳỷỹỵ"

  /** The entries `(key, t)` for every key in `keys`, in order. */
  function Pairs(keys: string, t: char): (r: seq<(char, char)>)
    ensures |r| == |keys|
    ensures forall i :: 0 <= i < |keys| ==> r[i] == (keys[i], t)
  {
    seq(|keys|, i requires 0 <= i < |keys| => (keys[i], t))
  }

  /** `replacements.items()`, in the table's order. */
  const Replacements: seq<(char, char)> := Pairs(FromA, 'a') + Pairs(FromD, 'd') + Pairs(FromE, 'e') + Pairs(FromI, 'i') + Pairs(FromO, 'o') + Pairs(FromU, 'u') + Pairs(FromY, 'y')

  /** Each replacement applied in turn to one character. */
  function ApplyPairs(pairs: seq<(char, char)>, c: char): char {
    if pairs == [] then c
    else
      var d := ApplyPairs(pairs[..|pairs| - 1], c);
      if d == pairs[|pairs| - 1].0 then pairs[|pairs| - 1].1 else d
  }

  /** `for k, v in pairs: text = text.replace(k, v)`. */
  function ReplaceAll(pairs: seq<(char, char)>, s: string): (r: string)
    ensures |r| == |s|
    ensures forall i :: 0 <= i < |s| ==> r[i] == ApplyPairs(pairs, s[i])
  {
    if pairs == [] then s
    else Text.ReplaceChar(ReplaceAll(pairs[..|pairs| - 1], s), pairs[|pairs| - 1].0, pairs[|pairs| - 1].1)
  }

  /** The value of the first entry with key `c`. */
  function FirstMatch(pairs: seq<(char, char)>, c: char): (r: Option<char>)
    ensures r.None? <==> forall p :: p in pairs ==> p.0 != c
    ensures r.Some? ==> (c, r.value) in pairs
  {
    if pairs == [] then None
    else
      var m := FirstMatch(pairs[..|pairs| - 1], c);
      if m.Some? then
        assert forall p :: p in pairs[..|pairs| - 1] ==> p in pairs;
        m
      else if pairs[|pairs| - 1].0 == c then Some(pairs[|pairs| - 1].1)
      else
        assert pairs == pairs[..|pairs| - 1] + [pairs[|pairs| - 1]];
        None
  }

  /** A table whose keys lie outside ASCII and whose values inside it. */
  ghost predicate AsciiValues(pairs: seq<(char, char)>) {
    forall p :: p in pairs ==> p.0 as int >= 128 && p.1 as int < 128
  }

  /** When no value is also a key, replacing entry by entry is the same as
      looking the character up once: the order of the table does not matter. */
  lemma {:induction false} ApplyIsLookup(pairs: seq<(char, char)>, c: char)
    requires AsciiValues(pairs)
    ensures ApplyPairs(pairs, c) == FirstMatch(pairs, c).GetOr(c)
  {
    if pairs != [] {
      var init := pairs[..|pairs| - 1];
      assert forall p :: p in init ==> p in pairs;
      ApplyIsLookup(init, c);
      var m := FirstMatch(init, c);
      if m.Some? {
        assert (c, m.value) in pairs;
        assert pairs[|pairs| - 1] in pairs;
      }
    }
  }

  lemma KeysOutsideAscii(keys: string, t: char)
    requires forall i :: 0 <= i < |keys| ==> keys[i] as int >= 128
    requires t as int < 128
    ensures AsciiValues(Pairs(keys, t))
  {
  }

  lemma ReplacementsAscii()
    ensures AsciiValues(Replacements)
  {
    KeysOutsideAscii(FromA, 'a');
    KeysOutsideAscii(FromD, 'd');
    KeysOutsideAscii(FromE, 'e');
    KeysOutsideAscii(FromI, 'i');
    KeysOutsideAscii(FromO, 'o');
    KeysOutsideAscii(FromU, 'u');
    KeysOutsideAscii(FromY, 'y');
    assert forall a: seq<(char, char)>, b: seq<(char, char)> :: AsciiValues(a) && AsciiValues(b) ==> AsciiValues(a + b);
  }

  /** `replacements.get(c, c)`. */
  function Replace(c: char): char {
    FirstMatch(Replacements, c).GetOr(c)
  }

  /** Every character replaced by its table value, if it has one. */
  function Folded(s: string): (r: string)
    ensures |r| == |s|
    ensures forall i :: 0 <= i < |s| ==> r[i] == Replace(s[i])
  {
    seq(|s|, i requires 0 <= i < |s| => Replace(s[i]))
  }

  /** What `_generate_slug` returns. */
  function GeneratedSlug(text: string): string {
    Slug.StripDash(Slug.DashRuns(Folded(Lower(text))))
  }

  /** `_generate_slug`, with its loop over the replacement table. */
  method GenerateSlug(text: string) returns (slug: string)
    ensures slug == GeneratedSlug(text)
  {
    var t := Lower(text);
    var k := 0;
    while k < |Replacements|
      invariant 0 <= k <= |Replacements|
      invariant t == ReplaceAll(Replacements[..k], Lower(text))
    {
      assert Replacements[..k + 1][..k] == Replacements[..k];
      t := Text.ReplaceChar(t, Replacements[k].0, Replacements[k].1);
      k := k + 1;
    }
    assert Replacements[..k] == Replacements;
    ReplacedIsFolded(Lower(text));
    slug := Slug.StripDash(Slug.DashRuns(t));
  }

  lemma ReplacedIsFolded(s: string)
    ensures ReplaceAll(Replacements, s) == Folded(s)
  {
    ReplacementsAscii();
    forall i | 0 <= i < |s| ensures ReplaceAll(Replacements, s)[i] == Folded(s)[i] {
      ApplyIsLookup(Replacements, s[i]);
    }
  }

  /** The slug uses only `[a-z0-9-]`, never holds two hyphens in a row and
      neither starts nor ends with one. */
  lemma SlugShape(text: string)
    ensures Slug.Shaped(GeneratedSlug(text))
  {
    Slug.StripShaped(Slug.DashRuns(Folded(Lower(text))));
  }

  /** On ASCII text lower-casing is ASCII lower-casing, and the table
      replaces nothing. */
  lemma AsciiFolded(s: string)
    requires forall i :: 0 <= i < |s| ==> s[i] as int < 128
    ensures Folded(Lower(s)) == Text.Lower(s)
  {
    ReplacementsAscii();
    forall i | 0 <= i < |s| ensures Folded(Lower(s))[i] == Text.Lower(s)[i] {
      var c := Text.LowerChar(s[i]);
      assert FirstMatch(Replacements, c).None?;
    }
  }

  lemma ShapedFolded(s: string)
    requires Slug.Shaped(s)
    ensures Folded(Lower(s)) == s
  {
    assert forall i :: 0 <= i < |s| ==> Slug.SlugOrDash(s[i]);
    assert forall i :: 0 <= i < |s| ==> s[i] as int < 128;
    AsciiFolded(s);
    assert forall i :: 0 <= i < |s| ==> Text.LowerChar(s[i]) == s[i];
  }

  /** Slugging a slug changes nothing. */
  lemma Idempotent(text: string)
    ensures GeneratedSlug(GeneratedSlug(text)) == GeneratedSlug(text)
  {
    var s := GeneratedSlug(text);
    SlugShape(text);
    ShapedFolded(s);
    Slug.DashRunsOfPlain(s);
    Slug.StripOfShaped(s);
  }

  /** ASCII letters and digits survive, lower-cased: a text made of them
      slugs to its lower-case form. */
  lemma AlnumKept(text: string)
    requires forall i :: 0 <= i < |text| ==> Text.IsAlnumAscii(text[i])
    ensures GeneratedSlug(text) == Text.Lower(text)
  {
    assert forall i :: 0 <= i < |text| ==> text[i] as int < 128;
    AsciiFolded(text);
    var l := Text.Lower(text);
    assert forall i :: 0 <= i < |l| ==> Slug.IsSlugChar(l[i]);
    Slug.SlugCharsUnchanged(l);
    Slug.DashRunsOfPlain(l);
    Slug.StripOfShaped(l);
  }

  /** The two slug families part ways on plain ASCII names: this one keeps
      the letters and digits, the drop-map one removes them all. */
  lemma FamiliesDiffer(text: string)
    requires text != []
    requires forall i :: 0 <= i < |text| ==> Text.IsAlnumAscii(text[i])
    ensures GeneratedSlug(text) == Text.Lower(text) && GeneratedSlug(text) != ""
    ensures VietSlug.VietnameseSlug(text) == ""
  {
    AlnumKept(text);
    assert forall i :: 0 <= i < |text| ==> text[i] as int < 128;
    VietSlug.AsciiDropped(text);
  }
}
