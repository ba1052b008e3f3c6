/**
 * Building one Lucene document from one documentation page: three text
 * fields, four keyword fields, fixed boosts on the title fields, and a
 * document boost taken from the `boost_by_path` rules.
 *
 * Regular-expression matching is not modelled: `matches(pattern, path)` is
 * any total relation, and every result here holds for all of them.
 */
module DocumentBuilder {
  import opened DocsTypes

  const TitleBoost: real := 3.0
  const BreadcrumbBoost: real := 1.5

  /**
   * The rule loop as a left fold: each rule whose pattern matches `path`
   * overwrites the boost carried so far, and the loop never stops early.
   */
  function FoldBoost(rules: seq<BoostRule>, path: string, matches: (string, string) -> bool, boost: real): real
    decreases |rules|
  {
    if rules == [] then boost
    else FoldBoost(rules[1..], path, matches, if matches(rules[0].pattern, path) then rules[0].boost else boost)
  }

  /** Rule `i` is the last rule, in configured order, whose pattern matches `path`. */
  predicate LastMatch(rules: seq<BoostRule>, path: string, matches: (string, string) -> bool, i: int)
  {
    0 <= i < |rules| && matches(rules[i].pattern, path) &&
    forall j :: i < j < |rules| ==> !matches(rules[j].pattern, path)
  }

  /**
   * The fold's meaning: the boost of the last matching rule, or the starting
   * boost when no rule matches. Matching rules never combine.
   */
  lemma {:induction false} FoldBoostIsLastMatch(rules: seq<BoostRule>, path: string, matches: (string, string) -> bool, boost: real)
    ensures (forall i :: 0 <= i < |rules| ==> !matches(rules[i].pattern, path)) ==>
              FoldBoost(rules, path, matches, boost) == boost
    ensures forall i :: LastMatch(rules, path, matches, i) ==>
              FoldBoost(rules, path, matches, boost) == rules[i].boost
  {
    if rules != [] {
      var rest := rules[1..];
      var next := if matches(rules[0].pattern, path) then rules[0].boost else boost;
      FoldBoostIsLastMatch(rest, path, matches, next);
      assert forall i :: 0 <= i < |rest| ==> rest[i] == rules[i + 1];
      forall i | LastMatch(rules, path, matches, i)
        ensures FoldBoost(rules, path, matches, boost) == rules[i].boost
      {
        if i > 0 {
          assert LastMatch(rest, path, matches, i - 1);
        }
      }
    }
  }

  /**
   * Two rules that both match: the later one decides the document boost, not
   * the first one and not a combination of both.
   */
  lemma LaterMatchOverrides(first: BoostRule, second: BoostRule, path: string, matches: (string, string) -> bool)
    requires matches(first.pattern, path) && matches(second.pattern, path)
    ensures FoldBoost([first, second], path, matches, DefaultBoost) == second.boost
  {
    FoldBoostIsLastMatch([first, second], path, matches, DefaultBoost);
    assert LastMatch([first, second], path, matches, 1);
  }

  /** The document built for `page`; `BuildDocument` computes it step by step. */
  function DocumentFor(page: Page, rules: seq<BoostRule>, matches: (string, string) -> bool): Document
  {
    Document(
      map[
        "content" := Field("content", page.html, Text, DefaultBoost),
        "Title" := Field("Title", page.title, Text, TitleBoost),
        "BreadcrumbTitle" := Field("BreadcrumbTitle", page.breadcrumbTitle, Text, BreadcrumbBoost),
        "Version" := Field("Version", page.entity.version, Keyword, DefaultBoost),
        "Language" := Field("Language", page.entity.language, Keyword, DefaultBoost),
        "Entity" := Field("Entity", page.entity.asString, Keyword, DefaultBoost),
        "Link" := Field("Link", page.link, Keyword, DefaultBoost)
      ],
      FoldBoost(rules, page.relativePath, matches, DefaultBoost))
  }

  /** What the document built for `page` holds, field by field. */
  lemma DocumentForFields(page: Page, rules: seq<BoostRule>, matches: (string, string) -> bool)
    ensures var d := DocumentFor(page, rules, matches);
      d.fields.Keys == {"content", "Title", "BreadcrumbTitle", "Version", "Language", "Entity", "Link"} &&
      (forall name :: name in d.fields ==> d.fields[name].name == name) &&
      d.fields["content"].value == page.html && d.fields["content"].kind == Text &&
      d.fields["Title"].value == page.title && d.fields["Title"].kind == Text &&
      d.fields["BreadcrumbTitle"].value == page.breadcrumbTitle && d.fields["BreadcrumbTitle"].kind == Text &&
      d.fields["Version"].value == page.entity.version && d.fields["Version"].kind == Keyword &&
      d.fields["Language"].value == page.entity.language && d.fields["Language"].kind == Keyword &&
      d.fields["Entity"].value == page.entity.asString && d.fields["Entity"].kind == Keyword &&
      d.fields["Link"].value == page.link && d.fields["Link"].kind == Keyword
  {
  }

  /**
   * Field boosts are 3 for the title, 1.5 for the breadcrumb title and the
   * default elsewhere, and the path rules never change any of them.
   */
  lemma FieldBoostsIgnoreRules(page: Page, rules: seq<BoostRule>, matches: (string, string) -> bool,
                               otherRules: seq<BoostRule>, otherMatches: (string, string) -> bool)
    ensures var d := DocumentFor(page, rules, matches);
      d.fields == DocumentFor(page, otherRules, otherMatches).fields &&
      d.fields["Title"].boost == 3.0 && d.fields["BreadcrumbTitle"].boost == 1.5 &&
      forall name :: name in d.fields && name != "Title" && name != "BreadcrumbTitle" ==>
        d.fields[name].boost == DefaultBoost
  {
  }

  /**
   * The document boost is the boost of the last rule whose pattern matches the
   * page's relative path, and the default when none does.
   */
  lemma DocumentBoostIsLastMatch(page: Page, rules: seq<BoostRule>, matches: (string, string) -> bool)
    ensures (forall i :: 0 <= i < |rules| ==> !matches(rules[i].pattern, page.relativePath)) ==>
              DocumentFor(page, rules, matches).boost == DefaultBoost
    ensures forall i :: LastMatch(rules, page.relativePath, matches, i) ==>
              DocumentFor(page, rules, matches).boost == rules[i].boost
  {
    FoldBoostIsLastMatch(rules, page.relativePath, matches, DefaultBoost);
  }

  /**
   * Builds the document for `page` the way the task does: add the fields,
   * raise the boosts of the two title fields, then let every matching rule
   * overwrite the document boost in turn.
   */
  method BuildDocument(page: Page, rules: seq<BoostRule>, matches: (string, string) -> bool) returns (doc: Document)
    ensures doc == DocumentFor(page, rules, matches)
  {
    var fields: map<string, Field> := map[];
    fields := fields["content" := Field("content", page.html, Text, DefaultBoost)];
    fields := fields["Title" := Field("Title", page.title, Text, DefaultBoost)];
    fields := fields["BreadcrumbTitle" := Field("BreadcrumbTitle", page.breadcrumbTitle, Text, DefaultBoost)];
    fields := fields["Version" := Field("Version", page.entity.version, Keyword, DefaultBoost)];
    fields := fields["Language" := Field("Language", page.entity.language, Keyword, DefaultBoost)];
    fields := fields["Entity" := Field("Entity", page.entity.asString, Keyword, DefaultBoost)];
    fields := fields["Link" := Field("Link", page.link, Keyword, DefaultBoost)];

    fields := fields["Title" := fields["Title"].(boost := TitleBoost)];
    fields := fields["BreadcrumbTitle" := fields["BreadcrumbTitle"].(boost := BreadcrumbBoost)];

    var boost := DefaultBoost;
    var i := 0;
    while i < |rules|
      invariant 0 <= i <= |rules|
      invariant FoldBoost(rules[i..], page.relativePath, matches, boost)
             == FoldBoost(rules, page.relativePath, matches, DefaultBoost)
    {
      assert rules[i..][1..] == rules[i + 1..];
      if matches(rules[i].pattern, page.relativePath) {
        boost := rules[i].boost;
      }
      i := i + 1;
    }
    doc := Document(fields, boost);
  }
}
