/**
 * The Facebook share preview (client/src/components/facebook-preview.tsx):
 * Open Graph tags first, general tags second, then a literal default.
 * `new URL(url).hostname` is an input.
 */
module FacebookPreview {
  import opened JsBuiltins
  import opened Schema

  datatype FacebookView = FacebookView(
    title: string,
    description: string,
    image: Option<string>,
    siteName: string)

  /** The values the component renders. */
  function View(tags: MetaTags, hostname: string): (v: FacebookView)
    ensures Truthy(tags.ogTitle) ==> v.title == tags.ogTitle.value
    ensures !Truthy(tags.ogTitle) && Truthy(tags.title) ==> v.title == tags.title.value
    ensures !Truthy(tags.ogTitle) && !Truthy(tags.title) ==> v.title == "No title"
    ensures Truthy(tags.ogDescription) ==> v.description == tags.ogDescription.value
    ensures !Truthy(tags.ogDescription) && Truthy(tags.description) ==> v.description == tags.description.value
    ensures !Truthy(tags.ogDescription) && !Truthy(tags.description) ==> v.description == "No description"
    ensures v.image == tags.ogImage
    ensures Truthy(tags.ogSiteName) ==> v.siteName == tags.ogSiteName.value
    ensures !Truthy(tags.ogSiteName) ==> v.siteName == hostname
  {
    FacebookView(
      Or(tags.ogTitle, Or(tags.title, "No title")),
      Or(tags.ogDescription, Or(tags.description, "No description")),
      tags.ogImage,
      Or(tags.ogSiteName, hostname))
  }

  /** The Twitter tags play no part: changing them changes nothing shown. */
  lemma IgnoresTwitterTags(tags: MetaTags, other: MetaTags, hostname: string)
    requires other == tags.(twitterCard := other.twitterCard, twitterTitle := other.twitterTitle,
                            twitterDescription := other.twitterDescription, twitterImage := other.twitterImage,
                            twitterSite := other.twitterSite, twitterCreator := other.twitterCreator)
    ensures View(other, hostname) == View(tags, hostname)
  {
  }

  /** Without `og:site_name` the hostname is shown whole, `www.` included. */
  lemma SiteNameUnstripped(tags: MetaTags, rest: string)
    requires !Truthy(tags.ogSiteName)
    ensures View(tags, "www." + rest).siteName == "www." + rest
  {
  }
}
