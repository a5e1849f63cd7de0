/**
 * The rule evaluator of server/routes.ts: a fixed, ordered battery of checks
 * over the tag record, each appending at most one issue and subtracting a
 * fixed amount from a score that starts at 100, then clamped at 0.
 *
 * `Evaluate` follows the handler's if/else chain statement by statement. It
 * is proved equal to a declarative rule table: every check is a `Rule` with a
 * firing condition, a severity, a category and a deduction, and the issues
 * are the rules of `RuleTable` that fire, in table order.
 */
module Evaluation {
  import opened JsBuiltins
  import opened Schema
  import Extraction

  datatype Rule =
    | MissingTitle | TitleTooLong | TitleTooShort
    | MissingDescription | DescriptionTooLong | DescriptionTooShort
    | MissingOpenGraph | MissingOgTitle | MissingOgDescription | MissingOgImage
    | MissingTwitterCard | MissingTwitterImage
    | MissingCanonical | MissingViewport

  /** The checks of each block of the handler, in the order it runs them. */
  const TitleChecks: seq<Rule> := [MissingTitle, TitleTooLong, TitleTooShort]
  const DescriptionChecks: seq<Rule> := [MissingDescription, DescriptionTooLong, DescriptionTooShort]
  const OpenGraphChecks: seq<Rule> := [MissingOpenGraph, MissingOgTitle, MissingOgDescription, MissingOgImage]
  const TwitterChecks: seq<Rule> := [MissingTwitterCard, MissingTwitterImage]

  /** All checks, block after block: title, description, Open Graph, Twitter, canonical URL, viewport. */
  const RuleTable: seq<Rule> :=
    TitleChecks + DescriptionChecks + OpenGraphChecks + TwitterChecks + [MissingCanonical] + [MissingViewport]

  /** A rule's position in RuleTable. */
  function Rank(r: Rule): nat {
    match r
    case MissingTitle => 0
    case TitleTooLong => 1
    case TitleTooShort => 2
    case MissingDescription => 3
    case DescriptionTooLong => 4
    case DescriptionTooShort => 5
    case MissingOpenGraph => 6
    case MissingOgTitle => 7
    case MissingOgDescription => 8
    case MissingOgImage => 9
    case MissingTwitterCard => 10
    case MissingTwitterImage => 11
    case MissingCanonical => 12
    case MissingViewport => 13
  }

  /**
   * When a rule fires, stated on its own: the else-branches of the handler
   * are not assumed here, they are proved to be implied.
   */
  predicate Fires(r: Rule, t: MetaTags) {
    match r
    case MissingTitle => !Truthy(t.title)
    case TitleTooLong => Truthy(t.title) && |t.title.value| > 60
    case TitleTooShort => Truthy(t.title) && |t.title.value| < 30
    case MissingDescription => !Truthy(t.description)
    case DescriptionTooLong => Truthy(t.description) && |t.description.value| > 160
    case DescriptionTooShort => Truthy(t.description) && |t.description.value| < 120
    case MissingOpenGraph => !Truthy(t.ogTitle) && !Truthy(t.ogDescription) && !Truthy(t.ogImage)
    case MissingOgTitle => !Truthy(t.ogTitle) && (Truthy(t.ogDescription) || Truthy(t.ogImage))
    case MissingOgDescription => !Truthy(t.ogDescription) && (Truthy(t.ogTitle) || Truthy(t.ogImage))
    case MissingOgImage => !Truthy(t.ogImage) && (Truthy(t.ogTitle) || Truthy(t.ogDescription))
    case MissingTwitterCard => !Truthy(t.twitterCard)
    case MissingTwitterImage => !Truthy(t.twitterImage) && !Truthy(t.ogImage)
    case MissingCanonical => !Truthy(t.canonical)
    case MissingViewport => !Truthy(t.viewport)
  }

  /** What a rule subtracts from the score when it fires: between 2 and 20 points. */
  function Deduction(r: Rule): (d: nat)
    ensures 2 <= d <= 20
  {
    match r
    case MissingTitle => 20
    case TitleTooLong => 5
    case TitleTooShort => 5
    case MissingDescription => 20
    case DescriptionTooLong => 5
    case DescriptionTooShort => 3
    case MissingOpenGraph => 10
    case MissingOgTitle => 3
    case MissingOgDescription => 3
    case MissingOgImage => 5
    case MissingTwitterCard => 3
    case MissingTwitterImage => 2
    case MissingCanonical => 3
    case MissingViewport => 5
  }

  /**
   * The severity of a rule's issue. A heavier severity never costs less:
   * critical issues cost 20 points, warnings 3 to 10, infos 2 or 3.
   */
  function SeverityOf(r: Rule): (s: Severity)
    ensures s == Critical <==> Deduction(r) == 20
    ensures s == Warning ==> 3 <= Deduction(r) <= 10
    ensures s == Info ==> 2 <= Deduction(r) <= 3
  {
    match r
    case MissingTitle | MissingDescription => Critical
    case TitleTooLong | TitleTooShort | DescriptionTooLong | DescriptionTooShort
       | MissingOpenGraph | MissingOgImage | MissingViewport => Warning
    case MissingOgTitle | MissingOgDescription | MissingTwitterCard | MissingTwitterImage
       | MissingCanonical => Info
  }

  /** The category of a rule's issue names the block of checks the rule belongs to. */
  function CategoryOf(r: Rule): (c: string)
    ensures c == "General" <==> r in TitleChecks + DescriptionChecks
    ensures c == "Open Graph" <==> r in OpenGraphChecks
    ensures c == "Twitter" <==> r in TwitterChecks
    ensures c == "Technical" <==> r == MissingCanonical || r == MissingViewport
  {
    var general, twitter := "General", "Twitter";
    assert general[0] != twitter[0];
    match r
    case MissingTitle | TitleTooLong | TitleTooShort
       | MissingDescription | DescriptionTooLong | DescriptionTooShort => "General"
    case MissingOpenGraph | MissingOgTitle | MissingOgDescription | MissingOgImage => "Open Graph"
    case MissingTwitterCard | MissingTwitterImage => "Twitter"
    case MissingCanonical | MissingViewport => "Technical"
  }

  /** The headline of a rule's issue. */
  function IssueTitle(r: Rule): string {
    match r
    case MissingTitle => "Missing Title Tag"
    case TitleTooLong => "Title Too Long"
    case TitleTooShort => "Title Too Short"
    case MissingDescription => "Missing Meta Description"
    case DescriptionTooLong => "Description Too Long"
    case DescriptionTooShort => "Description Too Short"
    case MissingOpenGraph => "Missing Open Graph Tags"
    case MissingOgTitle => "Missing og:title"
    case MissingOgDescription => "Missing og:description"
    case MissingOgImage => "Missing og:image"
    case MissingTwitterCard => "Missing Twitter Card Type"
    case MissingTwitterImage => "Missing Twitter Image"
    case MissingCanonical => "Missing Canonical URL"
    case MissingViewport => "Missing Viewport Meta Tag"
  }

  /** The explanation of a rule's issue; the four length checks quote the measured length. */
  function IssueDescription(r: Rule, t: MetaTags): string {
    match r
    case MissingTitle => "The page does not have a title tag, which is essential for SEO."
    case TitleTooLong =>
      "Title is " + NumberToString(LengthOf(t.title)) + " characters. Google typically displays 50-60 characters."
    case TitleTooShort =>
      "Title is only " + NumberToString(LengthOf(t.title)) + " characters. It may not be descriptive enough."
    case MissingDescription => "The page does not have a meta description tag."
    case DescriptionTooLong =>
      "Description is " + NumberToString(LengthOf(t.description)) + " characters. Google typically displays 150-160 characters."
    case DescriptionTooShort =>
      "Description is only " + NumberToString(LengthOf(t.description)) + " characters. You have room for more detail."
    case MissingOpenGraph => "No Open Graph tags found. Your page won't display well when shared on social media."
    case MissingOgTitle => "Open Graph title is missing. Falls back to page title when shared."
    case MissingOgDescription => "Open Graph description is missing."
    case MissingOgImage => "Open Graph image is missing. Social shares will appear without an image."
    case MissingTwitterCard => "No twitter:card meta tag found."
    case MissingTwitterImage => "No twitter:image or og:image found."
    case MissingCanonical => "No canonical URL specified. This can cause duplicate content issues."
    case MissingViewport => "No viewport meta tag found. This affects mobile responsiveness."
  }

  function Recommendation(r: Rule): string {
    match r
    case MissingTitle => "Add a descriptive title tag (50-60 characters) that accurately describes your page content."
    case TitleTooLong => "Shorten your title to 50-60 characters to ensure it displays fully in search results."
    case TitleTooShort => "Expand your title to better describe your page content (aim for 50-60 characters)."
    case MissingDescription => "Add a compelling meta description (150-160 characters) that summarizes your page content."
    case DescriptionTooLong => "Shorten your description to 150-160 characters to avoid truncation in search results."
    case DescriptionTooShort => "Expand your description to better entice users (aim for 150-160 characters)."
    case MissingOpenGraph => "Add og:title, og:description, and og:image tags for better social media sharing."
    case MissingOgTitle => "Add og:title for consistent branding across social platforms."
    case MissingOgDescription => "Add og:description to control how your page is described on social media."
    case MissingOgImage => "Add og:image (recommended: 1200x630px) for eye-catching social shares."
    case MissingTwitterCard => "Add twitter:card tag (use 'summary_large_image' for best results)."
    case MissingTwitterImage => "Add twitter:image or og:image for visual Twitter cards."
    case MissingCanonical => "Add a canonical link tag to indicate the preferred version of this page."
    case MissingViewport => "Add <meta name='viewport' content='width=device-width, initial-scale=1'> for proper mobile display."
  }

  /** The issue record the handler pushes when a rule fires. */
  function IssueOf(r: Rule, t: MetaTags): Issue {
    Issue(SeverityOf(r), CategoryOf(r), IssueTitle(r), IssueDescription(r, t), Recommendation(r))
  }

  /** `[r]` when the rule fires, else nothing. */
  function Opt(r: Rule, t: MetaTags): seq<Rule> {
    if Fires(r, t) then [r] else []
  }

  /** `[r]` when the tag is missing: a check on one tag. */
  function IfMissing(o: Option<string>, r: Rule): seq<Rule> {
    if Truthy(o) then [] else [r]
  }

  /** What such a check costs: `n` when the tag is missing. */
  function CostIfMissing(o: Option<string>, n: nat): nat {
    if Truthy(o) then 0 else n
  }

  /** The rules among `rules` that fire on `t`, in the order given. */
  function Select(rules: seq<Rule>, t: MetaTags): seq<Rule> {
    if rules == [] then [] else Select(rules[..|rules| - 1], t) + Opt(rules[|rules| - 1], t)
  }

  /** The rules that fire on `t`, in check order: the reference for the handler's issue list. */
  function Fired(t: MetaTags): seq<Rule> {
    Select(RuleTable, t)
  }

  /** The issue records of the given rules, one for one. */
  function IssuesOf(rules: seq<Rule>, t: MetaTags): (r: seq<Issue>)
    ensures |r| == |rules|
    ensures forall i :: 0 <= i < |rules| ==> r[i] == IssueOf(rules[i], t)
  {
    seq(|rules|, i requires 0 <= i < |rules| => IssueOf(rules[i], t))
  }

  function TotalDeduction(rules: seq<Rule>): nat {
    if rules == [] then 0 else TotalDeduction(rules[..|rules| - 1]) + Deduction(rules[|rules| - 1])
  }

  /** What one rule costs on `t`: its deduction when it fires, else nothing. */
  function Penalty(r: Rule, t: MetaTags): nat {
    if Fires(r, t) then Deduction(r) else 0
  }

  /**
   * `Math.max(0, 100 - deductions)` over the rules that fire. The deductions
   * never exceed 63, so the score lies between 37 and 100 and the clamp at 0
   * never changes it.
   */
  function Score(t: MetaTags): (s: int)
    ensures 37 <= s <= 100 && s == 100 - TotalDeduction(Fired(t))
  {
    MaxDeduction(t);
    MaxZero(100 - TotalDeduction(Fired(t)))
  }

  /** `tags.title || "Untitled Page"`. */
  function PageTitle(t: MetaTags): (r: string)
    ensures r != ""
    ensures Truthy(t.title) ==> r == t.title.value
    ensures !Truthy(t.title) ==> r == "Untitled Page"
  {
    if Truthy(t.title) then t.title.value else "Untitled Page"
  }

  // ---------------------------------------------------------------------------
  // Selection and deductions over concatenated tables

  lemma Selected(rules: seq<Rule>, r: Rule, t: MetaTags)
    ensures Select(rules + [r], t) == Select(rules, t) + Opt(r, t)
  {
    assert (rules + [r])[..|rules|] == rules;
  }

  lemma {:induction false} SelectAppend(a: seq<Rule>, b: seq<Rule>, t: MetaTags)
    ensures Select(a + b, t) == Select(a, t) + Select(b, t)
    decreases |b|
  {
    if b == [] {
      assert a + b == a;
    } else {
      var init := b[..|b| - 1];
      var last := b[|b| - 1];
      assert a + b == (a + init) + [last];
      assert b == init + [last];
      Selected(a + init, last, t);
      Selected(init, last, t);
      SelectAppend(a, init, t);
    }
  }

  lemma {:induction false} DeductionAppend(a: seq<Rule>, b: seq<Rule>)
    ensures TotalDeduction(a + b) == TotalDeduction(a) + TotalDeduction(b)
    decreases |b|
  {
    if b == [] {
      assert a + b == a;
    } else {
      var init := b[..|b| - 1];
      assert (a + b)[..|a + b| - 1] == a + init;
      DeductionAppend(a, init);
    }
  }

  lemma OptPushed(s: seq<Rule>, r: Rule, t: MetaTags)
    ensures TotalDeduction(s + Opt(r, t)) == TotalDeduction(s) + Penalty(r, t)
  {
    if Fires(r, t) {
      assert (s + [r])[..|s|] == s;
    } else {
      assert s + Opt(r, t) == s;
    }
  }

  /** A selection has no deduction exactly when it is empty: every rule costs something. */
  lemma {:induction false} NoDeduction(rules: seq<Rule>)
    ensures TotalDeduction(rules) == 0 <==> rules == []
  {
    if rules != [] {
      NoDeduction(rules[..|rules| - 1]);
    }
  }

  // ---------------------------------------------------------------------------
  // The table, block by block, against the handler's branches

  /** The table read block by block. */
  lemma FiredByBlocks(t: MetaTags)
    ensures Fired(t) ==
      Select(TitleChecks, t) + Select(DescriptionChecks, t) + Select(OpenGraphChecks, t) +
      Select(TwitterChecks, t) + Opt(MissingCanonical, t) + Opt(MissingViewport, t)
  {
    var x2 := TitleChecks + DescriptionChecks;
    var x3 := x2 + OpenGraphChecks;
    var x4 := x3 + TwitterChecks;
    var x5 := x4 + [MissingCanonical];
    Selected(x5, MissingViewport, t);
    Selected(x4, MissingCanonical, t);
    SelectAppend(x3, TwitterChecks, t);
    SelectAppend(x2, OpenGraphChecks, t);
    SelectAppend(TitleChecks, DescriptionChecks, t);
  }

  /** The total deduction, block by block. */
  lemma DeductionByBlocks(t: MetaTags)
    ensures TotalDeduction(Fired(t)) ==
      TotalDeduction(Select(TitleChecks, t)) + TotalDeduction(Select(DescriptionChecks, t)) +
      TotalDeduction(Select(OpenGraphChecks, t)) + TotalDeduction(Select(TwitterChecks, t)) +
      Penalty(MissingCanonical, t) + Penalty(MissingViewport, t)
  {
    FiredByBlocks(t);
    var s1 := Select(TitleChecks, t);
    var s2 := s1 + Select(DescriptionChecks, t);
    var s3 := s2 + Select(OpenGraphChecks, t);
    var s4 := s3 + Select(TwitterChecks, t);
    var s5 := s4 + Opt(MissingCanonical, t);
    OptPushed(s5, MissingViewport, t);
    OptPushed(s4, MissingCanonical, t);
    DeductionAppend(s3, Select(TwitterChecks, t));
    DeductionAppend(s2, Select(OpenGraphChecks, t));
    DeductionAppend(s1, Select(DescriptionChecks, t));
  }

  /**
   * The title rules are stated independently, yet at most one fires, and
   * which one is exactly what the handler's else-if chain picks.
   */
  lemma TitleBlock(t: MetaTags)
    ensures Select(TitleChecks, t) ==
      if !Truthy(t.title) then [MissingTitle]
      else if |t.title.value| > 60 then [TitleTooLong]
      else if |t.title.value| < 30 then [TitleTooShort]
      else []
  {
    assert TitleChecks == [] + [MissingTitle] + [TitleTooLong] + [TitleTooShort];
    Selected([], MissingTitle, t);
    Selected([MissingTitle], TitleTooLong, t);
    Selected([MissingTitle, TitleTooLong], TitleTooShort, t);
  }

  /** Likewise for the description rules. */
  lemma DescriptionBlock(t: MetaTags)
    ensures Select(DescriptionChecks, t) ==
      if !Truthy(t.description) then [MissingDescription]
      else if |t.description.value| > 160 then [DescriptionTooLong]
      else if |t.description.value| < 120 then [DescriptionTooShort]
      else []
  {
    assert DescriptionChecks == [] + [MissingDescription] + [DescriptionTooLong] + [DescriptionTooShort];
    Selected([], MissingDescription, t);
    Selected([MissingDescription], DescriptionTooLong, t);
    Selected([MissingDescription, DescriptionTooLong], DescriptionTooShort, t);
  }

  /**
   * The Open Graph rules: the aggregate rule alone when all three tags are
   * missing, otherwise the per-tag rules, each firing on its own tag.
   */
  lemma OpenGraphBlock(t: MetaTags)
    ensures Select(OpenGraphChecks, t) ==
      if !Truthy(t.ogTitle) && !Truthy(t.ogDescription) && !Truthy(t.ogImage) then [MissingOpenGraph]
      else IfMissing(t.ogTitle, MissingOgTitle) + IfMissing(t.ogDescription, MissingOgDescription) +
           IfMissing(t.ogImage, MissingOgImage)
  {
    OpenGraphSelected(t);
    if Truthy(t.ogTitle) || Truthy(t.ogDescription) || Truthy(t.ogImage) {
      assert Opt(MissingOpenGraph, t) == [];
      assert Opt(MissingOgTitle, t) == IfMissing(t.ogTitle, MissingOgTitle);
      assert Opt(MissingOgDescription, t) == IfMissing(t.ogDescription, MissingOgDescription);
      assert Opt(MissingOgImage, t) == IfMissing(t.ogImage, MissingOgImage);
    }
  }

  lemma OpenGraphSelected(t: MetaTags)
    ensures Select(OpenGraphChecks, t) ==
      Opt(MissingOpenGraph, t) + Opt(MissingOgTitle, t) + Opt(MissingOgDescription, t) + Opt(MissingOgImage, t)
  {
    assert OpenGraphChecks == [] + [MissingOpenGraph] + [MissingOgTitle] + [MissingOgDescription] + [MissingOgImage];
    Selected([], MissingOpenGraph, t);
    Selected([MissingOpenGraph], MissingOgTitle, t);
    Selected([MissingOpenGraph, MissingOgTitle], MissingOgDescription, t);
    Selected([MissingOpenGraph, MissingOgTitle, MissingOgDescription], MissingOgImage, t);
  }

  lemma TwitterBlock(t: MetaTags)
    ensures Select(TwitterChecks, t) == Opt(MissingTwitterCard, t) + Opt(MissingTwitterImage, t)
  {
    assert TwitterChecks == [] + [MissingTwitterCard] + [MissingTwitterImage];
    Selected([], MissingTwitterCard, t);
    Selected([MissingTwitterCard], MissingTwitterImage, t);
  }

  // ---------------------------------------------------------------------------
  // What each block costs

  lemma TitleDeduction(t: MetaTags)
    ensures TotalDeduction(Select(TitleChecks, t)) ==
      if !Truthy(t.title) then 20
      else if |t.title.value| > 60 then 5
      else if |t.title.value| < 30 then 5
      else 0
  {
    TitleBlock(t);
  }

  lemma DescriptionDeduction(t: MetaTags)
    ensures TotalDeduction(Select(DescriptionChecks, t)) ==
      if !Truthy(t.description) then 20
      else if |t.description.value| > 160 then 5
      else if |t.description.value| < 120 then 3
      else 0
  {
    DescriptionBlock(t);
  }

  lemma OpenGraphDeduction(t: MetaTags)
    ensures TotalDeduction(Select(OpenGraphChecks, t)) ==
      if !Truthy(t.ogTitle) && !Truthy(t.ogDescription) && !Truthy(t.ogImage) then 10
      else CostIfMissing(t.ogTitle, 3) + CostIfMissing(t.ogDescription, 3) + CostIfMissing(t.ogImage, 5)
  {
    OpenGraphBlock(t);
    if Truthy(t.ogTitle) || Truthy(t.ogDescription) || Truthy(t.ogImage) {
      var a := IfMissing(t.ogTitle, MissingOgTitle);
      var b := IfMissing(t.ogDescription, MissingOgDescription);
      var c := IfMissing(t.ogImage, MissingOgImage);
      DeductionAppend(a + b, c);
      DeductionAppend(a, b);
    }
  }

  lemma TwitterDeduction(t: MetaTags)
    ensures TotalDeduction(Select(TwitterChecks, t)) == Penalty(MissingTwitterCard, t) + Penalty(MissingTwitterImage, t)
  {
    TwitterBlock(t);
    OptPushed([], MissingTwitterCard, t);
    OptPushed(Opt(MissingTwitterCard, t), MissingTwitterImage, t);
    assert [] + Opt(MissingTwitterCard, t) == Opt(MissingTwitterCard, t);
  }

  // ---------------------------------------------------------------------------
  // Properties of the rule table

  /**
   * The deductions add up to at most 63: title 20, description 20, Open Graph
   * 10, Twitter 3 + 2, canonical 3, viewport 5.
   */
  lemma MaxDeduction(t: MetaTags)
    ensures TotalDeduction(Fired(t)) <= 63
  {
    DeductionByBlocks(t);
    TitleDeduction(t);
    DescriptionDeduction(t);
    OpenGraphDeduction(t);
    TwitterDeduction(t);
  }

  /** Every rule whose tags are all missing fires. */
  lemma NothingPresent(t: MetaTags)
    requires !Truthy(t.title) && !Truthy(t.description)
    requires !Truthy(t.ogTitle) && !Truthy(t.ogDescription) && !Truthy(t.ogImage)
    requires !Truthy(t.twitterCard) && !Truthy(t.twitterImage) && !Truthy(t.canonical) && !Truthy(t.viewport)
    ensures Fired(t) == [MissingTitle, MissingDescription, MissingOpenGraph,
                         MissingTwitterCard, MissingTwitterImage, MissingCanonical, MissingViewport]
    ensures TotalDeduction(Fired(t)) == 63
  {
    FiredByBlocks(t);
    DeductionByBlocks(t);
    TitleBlock(t);
    DescriptionBlock(t);
    OpenGraphBlock(t);
    TwitterBlock(t);
    TitleDeduction(t);
    DescriptionDeduction(t);
    OpenGraphDeduction(t);
    TwitterDeduction(t);
  }

  /** The bound is reached: the empty record fires seven rules and loses exactly 63. */
  lemma AllAbsent()
    ensures Fired(NoTags) == [MissingTitle, MissingDescription, MissingOpenGraph,
                              MissingTwitterCard, MissingTwitterImage, MissingCanonical, MissingViewport]
    ensures |IssuesOf(Fired(NoTags), NoTags)| == 7
    ensures TotalDeduction(Fired(NoTags)) == 63 && Score(NoTags) == 37
  {
    NothingPresent(NoTags);
  }

  /** `r` is selected exactly when it is among `rules` and fires. */
  lemma {:induction false} SelectMembership(rules: seq<Rule>, t: MetaTags, r: Rule)
    ensures r in Select(rules, t) <==> r in rules && Fires(r, t)
  {
    if rules != [] {
      var init := rules[..|rules| - 1];
      SelectMembership(init, t, r);
      assert rules == init + [rules[|rules| - 1]];
    }
  }

  /** The table written out: rule `i` has rank `i`. */
  lemma RuleTableListed()
    ensures RuleTable == [MissingTitle, TitleTooLong, TitleTooShort,
                          MissingDescription, DescriptionTooLong, DescriptionTooShort,
                          MissingOpenGraph, MissingOgTitle, MissingOgDescription, MissingOgImage,
                          MissingTwitterCard, MissingTwitterImage, MissingCanonical, MissingViewport]
    ensures forall i :: 0 <= i < |RuleTable| ==> Rank(RuleTable[i]) == i
    ensures forall r :: RuleTable[Rank(r)] == r
  {
  }

  /** A rule's issue is reported exactly when the rule fires. */
  lemma FiredMembership(t: MetaTags, r: Rule)
    ensures r in Fired(t) <==> Fires(r, t)
  {
    SelectMembership(RuleTable, t, r);
    RuleTableListed();
  }

  /** Strictly increasing in check order: no rule twice, none out of place. */
  predicate InCheckOrder(rules: seq<Rule>) {
    forall i, j :: 0 <= i < j < |rules| ==> Rank(rules[i]) < Rank(rules[j])
  }

  lemma {:induction false} SelectKeepsOrder(rules: seq<Rule>, t: MetaTags)
    requires InCheckOrder(rules)
    ensures InCheckOrder(Select(rules, t))
    ensures forall r :: r in Select(rules, t) ==> r in rules
  {
    if rules != [] {
      var init := rules[..|rules| - 1];
      var last := rules[|rules| - 1];
      SelectKeepsOrder(init, t);
      var s := Select(init, t);
      forall i | 0 <= i < |s| ensures Rank(s[i]) < Rank(last) {
        assert s[i] in init;
      }
    }
  }

  /**
   * The issues come in the handler's order (title, description, Open Graph,
   * Twitter card, Twitter image, canonical, viewport) and none twice.
   */
  lemma FiredInCheckOrder(t: MetaTags)
    ensures InCheckOrder(Fired(t))
  {
    RuleTableListed();
    SelectKeepsOrder(RuleTable, t);
  }

  /** Title: missing, too long (over 60) or too short (under 30), at most one of them. */
  lemma TitleCheck(t: MetaTags)
    ensures MissingTitle in Fired(t) <==> !Truthy(t.title)
    ensures TitleTooLong in Fired(t) <==> Truthy(t.title) && |t.title.value| > 60
    ensures TitleTooShort in Fired(t) <==> Truthy(t.title) && |t.title.value| < 30
    ensures !(MissingTitle in Fired(t) && TitleTooLong in Fired(t))
    ensures !(MissingTitle in Fired(t) && TitleTooShort in Fired(t))
    ensures !(TitleTooLong in Fired(t) && TitleTooShort in Fired(t))
    ensures (MissingTitle !in Fired(t) && TitleTooLong !in Fired(t) && TitleTooShort !in Fired(t)) <==>
            Truthy(t.title) && 30 <= |t.title.value| <= 60
  {
    FiredMembership(t, MissingTitle);
    FiredMembership(t, TitleTooLong);
    FiredMembership(t, TitleTooShort);
  }

  /** Description: missing, too long (over 160) or too short (under 120), at most one of them. */
  lemma DescriptionCheck(t: MetaTags)
    ensures MissingDescription in Fired(t) <==> !Truthy(t.description)
    ensures DescriptionTooLong in Fired(t) <==> Truthy(t.description) && |t.description.value| > 160
    ensures DescriptionTooShort in Fired(t) <==> Truthy(t.description) && |t.description.value| < 120
    ensures !(MissingDescription in Fired(t) && DescriptionTooLong in Fired(t))
    ensures !(MissingDescription in Fired(t) && DescriptionTooShort in Fired(t))
    ensures !(DescriptionTooLong in Fired(t) && DescriptionTooShort in Fired(t))
    ensures (MissingDescription !in Fired(t) && DescriptionTooLong !in Fired(t) && DescriptionTooShort !in Fired(t)) <==>
            Truthy(t.description) && 120 <= |t.description.value| <= 160
  {
    FiredMembership(t, MissingDescription);
    FiredMembership(t, DescriptionTooLong);
    FiredMembership(t, DescriptionTooShort);
  }

  /**
   * Open Graph: with all three tags missing only the aggregate issue appears;
   * otherwise each missing tag is reported on its own.
   */
  lemma OpenGraphCheck(t: MetaTags)
    ensures MissingOpenGraph in Fired(t) <==> !Truthy(t.ogTitle) && !Truthy(t.ogDescription) && !Truthy(t.ogImage)
    ensures MissingOpenGraph in Fired(t) ==>
              MissingOgTitle !in Fired(t) && MissingOgDescription !in Fired(t) && MissingOgImage !in Fired(t)
    ensures MissingOpenGraph !in Fired(t) ==>
              (MissingOgTitle in Fired(t) <==> !Truthy(t.ogTitle)) &&
              (MissingOgDescription in Fired(t) <==> !Truthy(t.ogDescription)) &&
              (MissingOgImage in Fired(t) <==> !Truthy(t.ogImage))
  {
    FiredMembership(t, MissingOpenGraph);
    FiredMembership(t, MissingOgTitle);
    FiredMembership(t, MissingOgDescription);
    FiredMembership(t, MissingOgImage);
  }

  /** The four single-condition checks. */
  lemma RemainingChecks(t: MetaTags)
    ensures MissingTwitterCard in Fired(t) <==> !Truthy(t.twitterCard)
    ensures MissingTwitterImage in Fired(t) <==> !Truthy(t.twitterImage) && !Truthy(t.ogImage)
    ensures MissingCanonical in Fired(t) <==> !Truthy(t.canonical)
    ensures MissingViewport in Fired(t) <==> !Truthy(t.viewport)
  {
    FiredMembership(t, MissingTwitterCard);
    FiredMembership(t, MissingTwitterImage);
    FiredMembership(t, MissingCanonical);
    FiredMembership(t, MissingViewport);
  }

  /** A page that passes every check. */
  predicate WellConfigured(t: MetaTags) {
    Truthy(t.title) && 30 <= |t.title.value| <= 60 &&
    Truthy(t.description) && 120 <= |t.description.value| <= 160 &&
    Truthy(t.ogTitle) && Truthy(t.ogDescription) && Truthy(t.ogImage) &&
    Truthy(t.twitterCard) && Truthy(t.canonical) && Truthy(t.viewport)
  }

  /** No issue, a full score and a well-configured page are the same thing. */
  lemma CleanPage(t: MetaTags)
    ensures Fired(t) == [] <==> WellConfigured(t)
    ensures Score(t) == 100 <==> WellConfigured(t)
  {
    NoIssueWhenConfigured(t);
    NoDeduction(Fired(t));
  }

  lemma NoIssueWhenConfigured(t: MetaTags)
    ensures Fired(t) == [] <==> WellConfigured(t)
  {
    FiredByBlocks(t);
    TitleBlock(t);
    DescriptionBlock(t);
    OpenGraphBlock(t);
    TwitterBlock(t);
  }

  /** `t2` keeps every tag `t1` has and may add more. */
  predicate Extends(t1: MetaTags, t2: MetaTags) {
    forall f :: Truthy(Get(t1, f)) ==> Get(t2, f) == Get(t1, f)
  }

  /** The title and description, as `Extends` leaves them. */
  lemma ExtendsKeepsText(t1: MetaTags, t2: MetaTags)
    requires Extends(t1, t2)
    ensures Truthy(t1.title) ==> t2.title == t1.title
    ensures Truthy(t1.description) ==> t2.description == t1.description
  {
    assert Truthy(Get(t1, Title)) ==> Get(t2, Title) == Get(t1, Title);
    assert Truthy(Get(t1, Description)) ==> Get(t2, Description) == Get(t1, Description);
  }

  /** The social tags the checks read stay present under `Extends`. */
  lemma ExtendsKeepsSocial(t1: MetaTags, t2: MetaTags)
    requires Extends(t1, t2)
    ensures Truthy(t1.ogTitle) ==> Truthy(t2.ogTitle)
    ensures Truthy(t1.ogDescription) ==> Truthy(t2.ogDescription)
    ensures Truthy(t1.ogImage) ==> Truthy(t2.ogImage)
    ensures Truthy(t1.twitterCard) ==> Truthy(t2.twitterCard)
    ensures Truthy(t1.twitterImage) ==> Truthy(t2.twitterImage)
  {
    assert Truthy(Get(t1, OgTitle)) ==> Get(t2, OgTitle) == Get(t1, OgTitle);
    assert Truthy(Get(t1, OgDescription)) ==> Get(t2, OgDescription) == Get(t1, OgDescription);
    assert Truthy(Get(t1, OgImage)) ==> Get(t2, OgImage) == Get(t1, OgImage);
    assert Truthy(Get(t1, TwitterCard)) ==> Get(t2, TwitterCard) == Get(t1, TwitterCard);
    assert Truthy(Get(t1, TwitterImage)) ==> Get(t2, TwitterImage) == Get(t1, TwitterImage);
  }

  /** The canonical URL and viewport checks cannot newly fire under `Extends`. */
  lemma ExtendsKeepsTechnical(t1: MetaTags, t2: MetaTags)
    requires Extends(t1, t2)
    ensures Penalty(MissingCanonical, t2) <= Penalty(MissingCanonical, t1)
    ensures Penalty(MissingViewport, t2) <= Penalty(MissingViewport, t1)
  {
    assert Truthy(Get(t1, Canonical)) ==> Get(t2, Canonical) == Get(t1, Canonical);
    assert Truthy(Get(t1, Viewport)) ==> Get(t2, Viewport) == Get(t1, Viewport);
  }

  lemma TitleNeverWorse(t1: MetaTags, t2: MetaTags)
    requires Truthy(t1.title) ==> t2.title == t1.title
    ensures TotalDeduction(Select(TitleChecks, t2)) <= TotalDeduction(Select(TitleChecks, t1))
  {
    TitleDeduction(t1);
    TitleDeduction(t2);
  }

  lemma DescriptionNeverWorse(t1: MetaTags, t2: MetaTags)
    requires Truthy(t1.description) ==> t2.description == t1.description
    ensures TotalDeduction(Select(DescriptionChecks, t2)) <= TotalDeduction(Select(DescriptionChecks, t1))
  {
    DescriptionDeduction(t1);
    DescriptionDeduction(t2);
  }

  lemma OpenGraphNeverWorse(t1: MetaTags, t2: MetaTags)
    requires Truthy(t1.ogTitle) ==> Truthy(t2.ogTitle)
    requires Truthy(t1.ogDescription) ==> Truthy(t2.ogDescription)
    requires Truthy(t1.ogImage) ==> Truthy(t2.ogImage)
    ensures TotalDeduction(Select(OpenGraphChecks, t2)) <= TotalDeduction(Select(OpenGraphChecks, t1))
  {
    OpenGraphDeduction(t1);
    OpenGraphDeduction(t2);
  }

  lemma TwitterNeverWorse(t1: MetaTags, t2: MetaTags)
    requires Truthy(t1.twitterCard) ==> Truthy(t2.twitterCard)
    requires Truthy(t1.twitterImage) ==> Truthy(t2.twitterImage)
    requires Truthy(t1.ogImage) ==> Truthy(t2.ogImage)
    ensures TotalDeduction(Select(TwitterChecks, t2)) <= TotalDeduction(Select(TwitterChecks, t1))
  {
    TwitterDeduction(t1);
    TwitterDeduction(t2);
  }

  /** Adding tags never lowers the score. */
  lemma AddingTagsNeverHurts(t1: MetaTags, t2: MetaTags)
    requires Extends(t1, t2)
    ensures TotalDeduction(Fired(t2)) <= TotalDeduction(Fired(t1))
    ensures Score(t1) <= Score(t2)
  {
    ExtendsKeepsText(t1, t2);
    ExtendsKeepsSocial(t1, t2);
    ExtendsKeepsTechnical(t1, t2);
    TitleNeverWorse(t1, t2);
    DescriptionNeverWorse(t1, t2);
    OpenGraphNeverWorse(t1, t2);
    TwitterNeverWorse(t1, t2);
    DeductionByBlocks(t1);
    DeductionByBlocks(t2);
  }

  // ---------------------------------------------------------------------------
  // The handler's evaluation, block by block
  //
  // Each block takes the issues found so far, each recorded as the rule it
  // comes from, and the running score, and returns them updated; `IssueOf`
  // gives the record the handler pushes for a rule.

  /** The title block: missing, else too long, else too short. */
  method CheckTitle(tags: MetaTags, found0: seq<Rule>, score0: int) returns (found: seq<Rule>, score: int)
    ensures found == found0 + Select(TitleChecks, tags)
    ensures score == score0 - TotalDeduction(Select(TitleChecks, tags))
  {
    TitleBlock(tags);
    found, score := found0, score0;
    if !Truthy(tags.title) {
      found, score := found + [MissingTitle], score - 20;
    } else if |tags.title.value| > 60 {
      found, score := found + [TitleTooLong], score - 5;
    } else if |tags.title.value| < 30 {
      found, score := found + [TitleTooShort], score - 5;
    }
  }

  /** The description block: missing, else too long, else too short. */
  method CheckDescription(tags: MetaTags, found0: seq<Rule>, score0: int) returns (found: seq<Rule>, score: int)
    ensures found == found0 + Select(DescriptionChecks, tags)
    ensures score == score0 - TotalDeduction(Select(DescriptionChecks, tags))
  {
    DescriptionBlock(tags);
    found, score := found0, score0;
    if !Truthy(tags.description) {
      found, score := found + [MissingDescription], score - 20;
    } else if |tags.description.value| > 160 {
      found, score := found + [DescriptionTooLong], score - 5;
    } else if |tags.description.value| < 120 {
      found, score := found + [DescriptionTooShort], score - 3;
    }
  }

  /** The Open Graph block: one aggregate issue, else one per missing tag. */
  method CheckOpenGraph(tags: MetaTags, found0: seq<Rule>, score0: int) returns (found: seq<Rule>, score: int)
    ensures found == found0 + Select(OpenGraphChecks, tags)
    ensures score == score0 - TotalDeduction(Select(OpenGraphChecks, tags))
  {
    OpenGraphBlock(tags);
    OpenGraphDeduction(tags);
    if !Truthy(tags.ogTitle) && !Truthy(tags.ogDescription) && !Truthy(tags.ogImage) {
      assert Select(OpenGraphChecks, tags) == [MissingOpenGraph];
      found, score := found0 + [MissingOpenGraph], score0 - 10;
    } else {
      assert Select(OpenGraphChecks, tags) == IfMissing(tags.ogTitle, MissingOgTitle) +
        IfMissing(tags.ogDescription, MissingOgDescription) + IfMissing(tags.ogImage, MissingOgImage);
      found, score := CheckEachOgTag(tags, found0, score0);
    }
  }

  /** The else-branch of the Open Graph block: each of the three tags on its own. */
  method CheckEachOgTag(tags: MetaTags, found0: seq<Rule>, score0: int) returns (found: seq<Rule>, score: int)
    ensures found == found0 + IfMissing(tags.ogTitle, MissingOgTitle) +
                     IfMissing(tags.ogDescription, MissingOgDescription) + IfMissing(tags.ogImage, MissingOgImage)
    ensures score == score0 - CostIfMissing(tags.ogTitle, 3) - CostIfMissing(tags.ogDescription, 3) -
                     CostIfMissing(tags.ogImage, 5)
  {
    found, score := found0, score0;
    if !Truthy(tags.ogTitle) {
      found, score := found + [MissingOgTitle], score - 3;
    }
    assert found == found0 + IfMissing(tags.ogTitle, MissingOgTitle);
    if !Truthy(tags.ogDescription) {
      found, score := found + [MissingOgDescription], score - 3;
    }
    if !Truthy(tags.ogImage) {
      found, score := found + [MissingOgImage], score - 5;
    }
  }

  /** The Twitter Card block: the card type, then an image from either tag family. */
  method CheckTwitter(tags: MetaTags, found0: seq<Rule>, score0: int) returns (found: seq<Rule>, score: int)
    ensures found == found0 + Select(TwitterChecks, tags)
    ensures score == score0 - TotalDeduction(Select(TwitterChecks, tags))
  {
    TwitterBlock(tags);
    TwitterDeduction(tags);
    found, score := found0, score0;
    if !Truthy(tags.twitterCard) {
      found, score := found + [MissingTwitterCard], score - 3;
    }
    if !Truthy(tags.twitterImage) && !Truthy(tags.ogImage) {
      found, score := found + [MissingTwitterImage], score - 2;
    }
  }

  /** The canonical URL block. */
  method CheckCanonical(tags: MetaTags, found0: seq<Rule>, score0: int) returns (found: seq<Rule>, score: int)
    ensures found == found0 + Opt(MissingCanonical, tags)
    ensures score == score0 - Penalty(MissingCanonical, tags)
  {
    found, score := found0, score0;
    if !Truthy(tags.canonical) {
      found, score := found + [MissingCanonical], score - 3;
    }
  }

  /** The viewport block. */
  method CheckViewport(tags: MetaTags, found0: seq<Rule>, score0: int) returns (found: seq<Rule>, score: int)
    ensures found == found0 + Opt(MissingViewport, tags)
    ensures score == score0 - Penalty(MissingViewport, tags)
  {
    found, score := found0, score0;
    if !Truthy(tags.viewport) {
      found, score := found + [MissingViewport], score - 5;
    }
  }

  /**
   * The handler's checks in order, from an empty list and a score of 100,
   * then `Math.max(0, score)`: the issues are those of the rule table that
   * fire, in table order, and the score is 100 less their deductions.
   */
  method Evaluate(tags: MetaTags) returns (issues: seq<Issue>, score: int)
    ensures issues == IssuesOf(Fired(tags), tags)
    ensures score == Score(tags)
    ensures score == 100 - TotalDeduction(Fired(tags)) && 37 <= score <= 100
  {
    var found: seq<Rule> := [];
    score := 100;
    found, score := CheckTitle(tags, found, score);
    assert found == Select(TitleChecks, tags);
    found, score := CheckDescription(tags, found, score);
    found, score := CheckOpenGraph(tags, found, score);
    found, score := CheckTwitter(tags, found, score);
    found, score := CheckCanonical(tags, found, score);
    found, score := CheckViewport(tags, found, score);
    FiredByBlocks(tags);
    DeductionByBlocks(tags);
    MaxDeduction(tags);
    issues := IssuesOf(found, tags);
    score := MaxZero(score);
  }

  /** The request's result: the tags, the issues in evaluation order, the score and the page title. */
  method AnalyzePage(raw: Extraction.RawDocument, url: string, fetchedAt: string) returns (result: AnalysisResult)
    ensures result.url == url && result.fetchedAt == fetchedAt
    ensures result.tags == Extraction.Extract(raw) && WellFormed(result.tags)
    ensures result.issues == IssuesOf(Fired(result.tags), result.tags)
    ensures 37 <= result.score <= 100 && result.score == Score(result.tags)
    ensures result.pageTitle == PageTitle(result.tags)
  {
    var tags := Extraction.Extract(raw);
    var issues, score := Evaluate(tags);
    result := AnalysisResult(url, fetchedAt, tags, issues, score, PageTitle(tags));
  }
}
