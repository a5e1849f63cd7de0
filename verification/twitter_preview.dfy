/**
 * The Twitter card preview (client/src/components/twitter-preview.tsx): what
 * it shows is chosen from the tags by `||` fallback chains, from the Twitter
 * tags to the Open Graph tags to the general ones. `new URL(url).hostname` is
 * an input.
 */
module TwitterPreview {
  import opened JsBuiltins
  import opened Schema
  import Evaluation

  datatype TwitterView = TwitterView(
    cardType: string,
    title: string,
    description: string,
    image: Option<string>,
    domain: string,
    largeImage: bool)

  /**
   * `hostname.replace("www.", "")`: the first occurrence only, wherever it is.
   * The host changes exactly when it contains `www.`, and then loses exactly
   * those four characters.
   */
  function StripWww(hostname: string): (r: string)
    ensures r == hostname <==> forall j: nat :: !OccursAt(hostname, "www.", j)
    ensures r != hostname ==> |r| == |hostname| - 4
  {
    ReplaceFirst(hostname, "www.", "")
  }

  /** The values the component renders. */
  function View(tags: MetaTags, hostname: string): (v: TwitterView)
    ensures v.cardType == if Truthy(tags.twitterCard) then tags.twitterCard.value else "summary"
    ensures Truthy(tags.twitterTitle) ==> v.title == tags.twitterTitle.value
    ensures !Truthy(tags.twitterTitle) && Truthy(tags.ogTitle) ==> v.title == tags.ogTitle.value
    ensures !Truthy(tags.twitterTitle) && !Truthy(tags.ogTitle) && Truthy(tags.title) ==> v.title == tags.title.value
    ensures !Truthy(tags.twitterTitle) && !Truthy(tags.ogTitle) && !Truthy(tags.title) ==> v.title == "No title"
    ensures Truthy(tags.twitterDescription) ==> v.description == tags.twitterDescription.value
    ensures !Truthy(tags.twitterDescription) && Truthy(tags.ogDescription) ==> v.description == tags.ogDescription.value
    ensures !Truthy(tags.twitterDescription) && !Truthy(tags.ogDescription) && Truthy(tags.description) ==>
              v.description == tags.description.value
    ensures !Truthy(tags.twitterDescription) && !Truthy(tags.ogDescription) && !Truthy(tags.description) ==>
              v.description == "No description"
    ensures v.image == if Truthy(tags.twitterImage) then tags.twitterImage else tags.ogImage
    ensures v.largeImage <==> v.cardType == "summary_large_image"
    ensures v.domain == StripWww(hostname)
  {
    var cardType := Or(tags.twitterCard, "summary");
    TwitterView(
      cardType,
      Or(tags.twitterTitle, Or(tags.ogTitle, Or(tags.title, "No title"))),
      Or(tags.twitterDescription, Or(tags.ogDescription, Or(tags.description, "No description"))),
      OrElse(tags.twitterImage, tags.ogImage),
      StripWww(hostname),
      cardType == "summary_large_image")
  }

  /** The title and the description are never empty: each chain ends in a literal. */
  lemma NeverBlank(tags: MetaTags, hostname: string)
    ensures View(tags, hostname).title != "" && View(tags, hostname).description != ""
    ensures View(tags, hostname).cardType != ""
  {
  }

  /**
   * An image is shown exactly when the evaluator does not report a missing
   * Twitter image: both accept `twitter:image` or `og:image`.
   */
  lemma ImageAgreesWithEvaluation(tags: MetaTags, hostname: string)
    ensures Truthy(View(tags, hostname).image) <==> Evaluation.MissingTwitterImage !in Evaluation.Fired(tags)
  {
    Evaluation.RemainingChecks(tags);
  }

  /** Only the exact card type `summary_large_image` switches to the large layout. */
  lemma LargeLayout(tags: MetaTags, hostname: string)
    ensures View(tags, hostname).largeImage <==> tags.twitterCard == Some("summary_large_image")
  {
  }

  /** A leading `www.` is dropped, and only the first one. */
  lemma StripsLeadingWww(rest: string)
    ensures StripWww("www." + rest) == rest
  {
    var s := "www." + rest;
    assert OccursAt(s, "www.", 0) by {
      assert s[0..4] == "www.";
    }
    assert IndexOf(s, "www.", 0) == Some(0);
    assert s[4..] == rest;
  }

  /** A hostname without `www.` is shown as it is. */
  lemma KeepsPlainHost(hostname: string)
    requires forall j: nat :: !OccursAt(hostname, "www.", j)
    ensures StripWww(hostname) == hostname
  {
    ReplaceFirstAbsent(hostname, "www.", "");
  }

  /**
   * The first `www.` is removed wherever it occurs, not only at the start:
   * the text around it is kept.
   */
  lemma StripsFirstOccurrence(before: string, after: string)
    requires forall j: nat :: !OccursAt(before + "www.", "www.", j) || j == |before|
    ensures StripWww(before + "www." + after) == before + after
  {
    var s := before + "www." + after;
    var i := |before|;
    assert s[i..i + 4] == "www.";
    NoEarlierWww(before, after);
    ReplaceFirstAt(s, "www.", "", i);
    assert s[..i] == before && s[i + 4..] == after;
  }

  lemma NoEarlierWww(before: string, after: string)
    requires forall j: nat :: !OccursAt(before + "www.", "www.", j) || j == |before|
    ensures forall j: nat :: j < |before| ==> !OccursAt(before + "www." + after, "www.", j)
  {
    var s := before + "www." + after;
    var prefix := before + "www.";
    assert s[..|prefix|] == prefix;
    forall j: nat | j < |before| ensures !OccursAt(s, "www.", j) {
      assert !OccursAt(prefix, "www.", j);
    }
  }
}
