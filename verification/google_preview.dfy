/**
 * The search-result preview (client/src/components/google-preview.tsx):
 * general tags first, Open Graph tags second, then a literal default; the
 * domain shown under the favicon. Whether `new URL(url)` parses, and the
 * hostname when it does, is an input.
 */
module GooglePreview {
  import opened JsBuiltins
  import opened Schema
  import Evaluation
  import TwitterPreview
  import FacebookPreview

  datatype GoogleView = GoogleView(
    title: string,
    description: string,
    domain: string,
    favicon: Option<string>)

  /**
   * `getDomain`: the hostname without its first `www.` when the URL parses
   * (`parsed` is its hostname), the URL text itself when it throws (`None`).
   */
  function GetDomain(urlString: string, parsed: Option<string>): (r: string)
    ensures parsed.None? ==> r == urlString
    ensures parsed.Some? ==> r == TwitterPreview.StripWww(parsed.value)
  {
    match parsed
    case None => urlString
    case Some(hostname) => ReplaceFirst(hostname, "www.", "")
  }

  /** The values the component renders; `favicon` is the icon shown, `None` for the globe. */
  function View(tags: MetaTags, url: string, parsed: Option<string>): (v: GoogleView)
    ensures Truthy(tags.title) ==> v.title == tags.title.value
    ensures !Truthy(tags.title) && Truthy(tags.ogTitle) ==> v.title == tags.ogTitle.value
    ensures !Truthy(tags.title) && !Truthy(tags.ogTitle) ==> v.title == "No title"
    ensures Truthy(tags.description) ==> v.description == tags.description.value
    ensures !Truthy(tags.description) && Truthy(tags.ogDescription) ==> v.description == tags.ogDescription.value
    ensures !Truthy(tags.description) && !Truthy(tags.ogDescription) ==> v.description == "No description available"
    ensures v.domain == GetDomain(url, parsed)
    ensures v.favicon.Some? <==> Truthy(tags.favicon)
    ensures v.favicon.Some? ==> v.favicon == tags.favicon
  {
    GoogleView(
      Or(tags.title, Or(tags.ogTitle, "No title")),
      Or(tags.description, Or(tags.ogDescription, "No description available")),
      GetDomain(url, parsed),
      if Truthy(tags.favicon) then tags.favicon else None)
  }

  /**
   * The search preview and the social previews rank the two title tags the
   * other way round: with both present and different, they show different titles.
   */
  lemma TitlePriorityReversed(tags: MetaTags, url: string, parsed: Option<string>, hostname: string)
    requires Truthy(tags.title) && Truthy(tags.ogTitle) && tags.title != tags.ogTitle
    ensures View(tags, url, parsed).title == tags.title.value
    ensures FacebookPreview.View(tags, hostname).title == tags.ogTitle.value
    ensures View(tags, url, parsed).title != FacebookPreview.View(tags, hostname).title
  {
  }

  /** With only one of the two title tags, every preview shows it (the Twitter one lacking `twitter:title`). */
  lemma TitlesAgree(tags: MetaTags, url: string, parsed: Option<string>, hostname: string)
    requires Truthy(tags.title) != Truthy(tags.ogTitle) && !Truthy(tags.twitterTitle)
    ensures View(tags, url, parsed).title == FacebookPreview.View(tags, hostname).title
    ensures View(tags, url, parsed).title == TwitterPreview.View(tags, hostname).title
  {
  }

  /** The search preview's title is the page title of the analysis whenever `<title>` is set. */
  lemma TitleIsPageTitle(tags: MetaTags, url: string, parsed: Option<string>)
    requires Truthy(tags.title)
    ensures View(tags, url, parsed).title == Evaluation.PageTitle(tags)
  {
  }

  /** When the URL parses, the search preview and the Twitter card show the same domain. */
  lemma DomainAgreesWithTwitter(tags: MetaTags, url: string, hostname: string)
    ensures View(tags, url, Some(hostname)).domain == TwitterPreview.View(tags, hostname).domain
  {
  }

  /** A URL that does not parse is shown as typed, `www.` and all. */
  lemma UnparsableUrlShownAsIs(tags: MetaTags, url: string)
    ensures View(tags, url, None).domain == url
  {
  }
}
