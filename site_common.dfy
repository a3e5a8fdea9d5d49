// Defaults shared by the shop and blog records: the meta title filled in on
// create and write, the 150-character summary, and the element colours.
module SiteCommon {
  /** `vals.get(key, default)` on the values handed to `create`/`write`;
      a text field set to `False` is "". */
  function Get(vals: map<string, string>, key: string, default: string): string {
    if key in vals then vals[key] else default
  }

  /** `create`: `meta_title` becomes the name (or '') when it is absent or
      empty; nothing else changes. */
  function MetaTitleOnCreate(vals: map<string, string>): (r: map<string, string>)
    ensures "meta_title" in r
    ensures "meta_title" in vals && vals["meta_title"] != "" ==> r == vals
    ensures !("meta_title" in vals && vals["meta_title"] != "") ==> r["meta_title"] == Get(vals, "name", "")
    ensures forall k :: k != "meta_title" ==> (k in r <==> k in vals) && (k in r ==> r[k] == vals[k])
  {
    if "meta_title" !in vals || vals["meta_title"] == "" then vals["meta_title" := Get(vals, "name", "")]
    else vals
  }

  /** `write`: a written name without a (non-empty) meta title also becomes
      the meta title; nothing else changes. */
  function MetaTitleOnWrite(vals: map<string, string>): (r: map<string, string>)
    ensures "name" in vals && !("meta_title" in vals && vals["meta_title"] != "") ==>
      r == vals["meta_title" := vals["name"]]
    ensures "name" !in vals || ("meta_title" in vals && vals["meta_title"] != "") ==> r == vals
  {
    if "name" in vals && ("meta_title" !in vals || vals["meta_title"] == "") then vals["meta_title" := vals["name"]]
    else vals
  }

  /** Creating with a name always leaves a non-empty meta title behind when
      the name is non-empty, and a meta title that was given is kept. */
  lemma MetaTitleNeverEmpty(vals: map<string, string>)
    requires "name" in vals && vals["name"] != ""
    ensures MetaTitleOnCreate(vals)["meta_title"] != ""
    ensures "name" in MetaTitleOnWrite(vals) && MetaTitleOnWrite(vals)["meta_title"] != ""
  {
  }

  /** `text[:150] + '...' if len(text) > 150 else text`. */
  function Truncated(text: string): (r: string)
    ensures |text| <= 150 ==> r == text
    ensures |text| > 150 ==> |r| == 153 && r[..150] == text[..150] && r[150..] == "..."
    ensures |r| <= 153 && |r| <= |text| + 3
  {
    if |text| > 150 then text[..150] + "..." else text
  }

  /** `create`: the summary field is filled from the source field when the
      former is empty and the latter is not. */
  function SummaryOnCreate(vals: map<string, string>, summary: string, source: string): (r: map<string, string>)
    requires summary != source
    ensures Get(vals, summary, "") == "" && Get(vals, source, "") != "" ==>
      r == vals[summary := Truncated(vals[source])]
    ensures !(Get(vals, summary, "") == "" && Get(vals, source, "") != "") ==> r == vals
  {
    if Get(vals, summary, "") == "" && Get(vals, source, "") != "" then vals[summary := Truncated(vals[source])]
    else vals
  }

  const DefaultColor := "#6c757d"

  /** `get_element_color`: the colour of a Lục Khí element code. */
  function ElementColor(element: string): (r: string)
    ensures r != DefaultColor <==> element in ["kim", "moc", "thuy", "hoa", "tho", "phong"]
  {
    if element == "kim" then "#C0C0C0"
    else if element == "moc" then "#228B22"
    else if element == "thuy" then "#4682B4"
    else if element == "hoa" then "#FF4500"
    else if element == "tho" then "#8B4513"
    else if element == "phong" then "#87CEEB"
    else DefaultColor
  }
}
