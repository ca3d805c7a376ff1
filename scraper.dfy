/**
  The decision logic of backend/app/services/ai/scraper.py: the category a
  page URL is filed under, and the rule by which `run` tops a thin scrape up
  with the built-in synthetic FAQ before saving. Fetching and HTML parsing
  are not modelled; the scraped documents are a parameter.
*/
module Scraper {
  import Text

  /** The labels `_extract_category` can return. */
  const Labels: set<string> := {"internet", "mobile", "facturation", "technique", "general"}

  /** `_extract_category`: the first keyword group, in fixed order, that
      occurs in the lowercased URL decides; "general" when none does. */
  function ExtractCategory(url: string): (r: string)
    ensures r in Labels
  {
    var u := Text.Lower(url);
    if Text.Contains(u, "internet") then "internet"
    else if Text.Contains(u, "mobile") then "mobile"
    else if Text.Contains(u, "facture") || Text.Contains(u, "facturation") then "facturation"
    else if Text.Contains(u, "technique") then "technique"
    else "general"
  }

  /** A keyword group and the label it gives. */
  datatype KeywordRule = KeywordRule(keywords: seq<string>, category: string)

  /** The keyword groups in the order they are tried. */
  const KeywordRules: seq<KeywordRule> := [
    KeywordRule(["internet"], "internet"),
    KeywordRule(["mobile"], "mobile"),
    KeywordRule(["facture", "facturation"], "facturation"),
    KeywordRule(["technique"], "technique")
  ]

  /** Some keyword of the group occurs in `u`. */
  predicate AnyOccurs(u: string, keywords: seq<string>) {
    keywords != [] && (Text.Contains(u, keywords[0]) || AnyOccurs(u, keywords[1..]))
  }

  /** The category of the first rule, from index `i` on, one of whose keywords
      occurs in `u`; "general" when there is none. */
  function FirstLabel(u: string, rules: seq<KeywordRule>, i: nat): string
    requires i <= |rules|
    decreases |rules| - i
  {
    if i == |rules| then "general"
    else if AnyOccurs(u, rules[i].keywords) then rules[i].category
    else FirstLabel(u, rules, i + 1)
  }

  /** The category is the label of the first rule of the table that matches
      the lowercased URL, and "general" exactly when no rule matches. */
  lemma ExtractCategoryIsFirstRule(url: string)
    ensures ExtractCategory(url) == FirstLabel(Text.Lower(url), KeywordRules, 0)
    ensures ExtractCategory(url) == "general" <==>
      forall i :: 0 <= i < |KeywordRules| ==> !AnyOccurs(Text.Lower(url), KeywordRules[i].keywords)
  {
    var u := Text.Lower(url);
    OneKeyword(u, "internet");
    OneKeyword(u, "mobile");
    OneKeyword(u, "facturation");
    assert ["facture", "facturation"][1..] == ["facturation"];
    OneKeyword(u, "technique");
    assert FirstLabel(u, KeywordRules, 4) == "general";
    assert FirstLabel(u, KeywordRules, 3) == if Text.Contains(u, "technique") then "technique" else "general";
  }

  lemma OneKeyword(u: string, w: string)
    ensures AnyOccurs(u, [w]) == Text.Contains(u, w)
  {
    assert [w][1..] == [];
  }

  lemma {:induction false} LowerIdempotent(s: string)
    ensures Text.Lower(Text.Lower(s)) == Text.Lower(s)
  {
    forall i | 0 <= i < |s|
      ensures Text.Lower(Text.Lower(s))[i] == Text.Lower(s)[i]
    {
      Text.LowerCharIdempotent(s[i]);
    }
  }

  /** The category ignores letter case. */
  lemma ExtractCategoryIgnoresCase(url: string)
    ensures ExtractCategory(Text.Lower(url)) == ExtractCategory(url)
  {
    LowerIdempotent(url);
  }

  /** A document of the knowledge base, as `run` handles it. A scraped one
      carries what the page parser read; a synthetic one is entry `entry` of
      the built-in FAQ, with source "synthetic". All have type "faq". */
  datatype FaqDoc =
    | Scraped(question: string, answer: string, category: string, source: string)
    | Synthetic(entry: nat, category: string)

  /** The categories of the built-in FAQ, entry by entry. */
  const SyntheticCategories: seq<string> := [
    "technique", "technique", "technique",
    "facturation", "facturation", "facturation",
    "commercial", "commercial", "commercial",
    "resiliation", "resiliation",
    "technique", "technique", "technique"
  ]

  /** `generate_synthetic_faq`. */
  function SyntheticFaq(): (docs: seq<FaqDoc>)
    ensures |docs| == |SyntheticCategories|
    ensures forall k :: 0 <= k < |docs| ==> docs[k] == Synthetic(k, SyntheticCategories[k])
  {
    seq(|SyntheticCategories|, k requires 0 <= k < |SyntheticCategories| => Synthetic(k, SyntheticCategories[k]))
  }

  /** Fewer scraped documents than this and the synthetic FAQ is added. */
  const TopUpThreshold := 10

  /** What `run` does: save a list of documents, or report that there is none. */
  datatype RunOutcome = Saved(documents: seq<FaqDoc>) | NothingSaved

  /** `run`, given what `scrape_faq` returned. The scraped documents always
      come first, in order; the synthetic FAQ follows them exactly when fewer
      than ten were scraped, so at least ten documents are saved and the
      "nothing created" branch is never taken. */
  function Run(scraped: seq<FaqDoc>): (r: RunOutcome)
    ensures r.Saved?
    ensures |r.documents| >= TopUpThreshold
    ensures |scraped| <= |r.documents| && r.documents[..|scraped|] == scraped
    ensures r.documents == scraped + SyntheticFaq() <==> |scraped| < TopUpThreshold
    ensures r.documents == scraped <==> |scraped| >= TopUpThreshold
  {
    var documents := if |scraped| < TopUpThreshold then scraped + SyntheticFaq() else scraped;
    if documents != [] then Saved(documents) else NothingSaved
  }
}
