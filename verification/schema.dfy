/**
 * The shared data model: the 24 optional meta-tag fields, the issue record
 * with its three severities, and the analysis result sent to the client.
 */
module Schema {
  import opened JsBuiltins

  /** One optional string per recognised tag; `None` is an absent field. */
  datatype MetaTags = MetaTags(
    // General
    title: Option<string>,
    description: Option<string>,
    keywords: Option<string>,
    author: Option<string>,
    robots: Option<string>,
    canonical: Option<string>,
    viewport: Option<string>,
    charset: Option<string>,
    // Open Graph
    ogTitle: Option<string>,
    ogDescription: Option<string>,
    ogImage: Option<string>,
    ogUrl: Option<string>,
    ogType: Option<string>,
    ogSiteName: Option<string>,
    ogLocale: Option<string>,
    // Twitter Card
    twitterCard: Option<string>,
    twitterTitle: Option<string>,
    twitterDescription: Option<string>,
    twitterImage: Option<string>,
    twitterSite: Option<string>,
    twitterCreator: Option<string>,
    // Additional
    favicon: Option<string>,
    themeColor: Option<string>,
    language: Option<string>)

  /** The names of the 24 fields, so that properties can quantify over them. */
  datatype Field =
    | Title | Description | Keywords | Author | Robots | Canonical | Viewport | Charset
    | OgTitle | OgDescription | OgImage | OgUrl | OgType | OgSiteName | OgLocale
    | TwitterCard | TwitterTitle | TwitterDescription | TwitterImage | TwitterSite | TwitterCreator
    | Favicon | ThemeColor | Language

  function Get(tags: MetaTags, f: Field): Option<string> {
    match f
    case Title => tags.title
    case Description => tags.description
    case Keywords => tags.keywords
    case Author => tags.author
    case Robots => tags.robots
    case Canonical => tags.canonical
    case Viewport => tags.viewport
    case Charset => tags.charset
    case OgTitle => tags.ogTitle
    case OgDescription => tags.ogDescription
    case OgImage => tags.ogImage
    case OgUrl => tags.ogUrl
    case OgType => tags.ogType
    case OgSiteName => tags.ogSiteName
    case OgLocale => tags.ogLocale
    case TwitterCard => tags.twitterCard
    case TwitterTitle => tags.twitterTitle
    case TwitterDescription => tags.twitterDescription
    case TwitterImage => tags.twitterImage
    case TwitterSite => tags.twitterSite
    case TwitterCreator => tags.twitterCreator
    case Favicon => tags.favicon
    case ThemeColor => tags.themeColor
    case Language => tags.language
  }

  /** The record with every field absent. */
  const NoTags := MetaTags(None, None, None, None, None, None, None, None,
                           None, None, None, None, None, None, None,
                           None, None, None, None, None, None,
                           None, None, None)

  /** A field as extraction leaves it: absent, or a non-empty string with no surrounding whitespace. */
  predicate NormalisedValue(o: Option<string>) {
    o.None? || (o.value != "" && IsTrimmed(o.value))
  }

  predicate WellFormed(tags: MetaTags) {
    forall f :: NormalisedValue(Get(tags, f))
  }

  /** A record is well formed when each of its fields, taken one by one, is. */
  lemma FieldsNormalised(tags: MetaTags)
    requires NormalisedValue(tags.title) && NormalisedValue(tags.description)
    requires NormalisedValue(tags.keywords) && NormalisedValue(tags.author)
    requires NormalisedValue(tags.robots) && NormalisedValue(tags.canonical)
    requires NormalisedValue(tags.viewport) && NormalisedValue(tags.charset)
    requires NormalisedValue(tags.ogTitle) && NormalisedValue(tags.ogDescription)
    requires NormalisedValue(tags.ogImage) && NormalisedValue(tags.ogUrl)
    requires NormalisedValue(tags.ogType) && NormalisedValue(tags.ogSiteName)
    requires NormalisedValue(tags.ogLocale) && NormalisedValue(tags.twitterCard)
    requires NormalisedValue(tags.twitterTitle) && NormalisedValue(tags.twitterDescription)
    requires NormalisedValue(tags.twitterImage) && NormalisedValue(tags.twitterSite)
    requires NormalisedValue(tags.twitterCreator) && NormalisedValue(tags.favicon)
    requires NormalisedValue(tags.themeColor) && NormalisedValue(tags.language)
    ensures WellFormed(tags)
  {
    forall f ensures NormalisedValue(Get(tags, f)) {
      match f
      case _ =>
    }
  }

  /** On a well-formed record a field is truthy exactly when it is present. */
  lemma WellFormedTruthy(tags: MetaTags, f: Field)
    requires WellFormed(tags)
    ensures Truthy(Get(tags, f)) <==> Get(tags, f).Some?
  {
    assert NormalisedValue(Get(tags, f));
  }

  /** `Math.max(0, x)` on the score. */
  function MaxZero(x: int): int {
    if x < 0 then 0 else x
  }

  /** Length of an optional string, 0 when absent. */
  function LengthOf(o: Option<string>): nat {
    if o.Some? then |o.value| else 0
  }

  datatype Severity = Critical | Warning | Info

  datatype Issue = Issue(
    severity: Severity,
    category: string,
    title: string,
    description: string,
    recommendation: string)

  datatype AnalysisResult = AnalysisResult(
    url: string,
    fetchedAt: string,
    tags: MetaTags,
    issues: seq<Issue>,
    score: int,
    pageTitle: string)
}
