/**
 * Tag extraction (server/routes.ts, the `tags` record built after the page is
 * loaded). The HTML parser answers each selector with the first matching
 * element's raw attribute or text; those raw answers are the input here. What
 * the analyzer itself does with them is modelled: trim, turn empty into
 * absent, and the `charset` fallback to the http-equiv Content-Type header.
 */
module Extraction {
  import opened JsBuiltins
  import opened Schema

  /** The parser's answer per selector: `None` when no element matched or it lacks the attribute. */
  datatype RawDocument = RawDocument(
    titleText: Option<string>,           // text of the first <title>
    description: Option<string>,         // meta[name="description"] content
    keywords: Option<string>,
    author: Option<string>,
    robots: Option<string>,
    canonical: Option<string>,           // link[rel="canonical"] href
    viewport: Option<string>,
    metaCharset: Option<string>,         // meta[charset] charset
    contentType: Option<string>,         // meta[http-equiv="Content-Type"] content
    ogTitle: Option<string>,             // meta[property="og:title"] content
    ogDescription: Option<string>,
    ogImage: Option<string>,
    ogUrl: Option<string>,
    ogType: Option<string>,
    ogSiteName: Option<string>,
    ogLocale: Option<string>,
    twitterCard: Option<string>,         // meta[name="twitter:card"] content
    twitterTitle: Option<string>,
    twitterDescription: Option<string>,
    twitterImage: Option<string>,
    twitterSite: Option<string>,
    twitterCreator: Option<string>,
    favicon: Option<string>,             // first link[rel="icon"] or link[rel="shortcut icon"] href
    themeColor: Option<string>,
    language: Option<string>)            // <html lang>

  /** `raw?.trim() || undefined`. */
  function Normalise(raw: Option<string>): (r: Option<string>)
    ensures NormalisedValue(r)
    ensures r.None? <==> raw.None? || AllWhitespace(raw.value)
    ensures r.Some? ==> r.value == Trim(raw.value)
  {
    match raw
    case None => None
    case Some(s) => var t := Trim(s); if t == "" then None else Some(t)
  }

  /** A value padded with whitespace normalises to its core; a blank one to absent. */
  lemma NormalisePadded(before: string, core: string, after: string)
    requires AllWhitespace(before) && AllWhitespace(after) && IsTrimmed(core)
    ensures Normalise(Some(before + core + after)) == if core == "" then None else Some(core)
  {
    TrimOfPadded(before, core, after);
  }

  /** Normalising a normalised value changes nothing. */
  lemma NormaliseIdempotent(raw: Option<string>)
    ensures Normalise(Normalise(raw)) == Normalise(raw)
  {
    if raw.Some? {
      TrimIdempotent(raw.value);
    }
  }

  const CharsetKey := "charset="

  /**
   * Where `/charset=([^;]+)/` can match: the key followed by at least one
   * character other than `;`.
   */
  predicate CharsetMatchAt(s: string, i: nat) {
    OccursAt(s, CharsetKey, i) && i + |CharsetKey| < |s| && s[i + |CharsetKey|] != ';'
  }

  /** The leftmost position at or after `from` where the pattern matches. */
  function FirstCharsetMatch(s: string, from: nat): (r: Option<nat>)
    ensures r.Some? ==> from <= r.value && CharsetMatchAt(s, r.value)
    ensures r.Some? ==> forall j :: from <= j < r.value ==> !CharsetMatchAt(s, j)
    ensures r.None? ==> forall j :: from <= j ==> !CharsetMatchAt(s, j)
    decreases |s| - from
  {
    if from + |CharsetKey| >= |s| then None
    else if CharsetMatchAt(s, from) then Some(from)
    else FirstCharsetMatch(s, from + 1)
  }

  /** The greedy `[^;]+` run: the longest prefix without `;`. */
  function UpToSemicolon(s: string): (r: string)
    ensures |r| <= |s| && r == s[..|r|]
    ensures forall i :: 0 <= i < |r| ==> r[i] != ';'
    ensures |r| == |s| || s[|r|] == ';'
  {
    if s == [] || s[0] == ';' then [] else [s[0]] + UpToSemicolon(s[1..])
  }

  /**
   * `value` is what the group captures when the leftmost match is at `i`: the
   * text right after that `charset=`, up to the next `;` or the end.
   */
  predicate CapturedAt(content: string, i: nat, value: string) {
    CharsetMatchAt(content, i) && (forall j: nat :: j < i ==> !CharsetMatchAt(content, j)) &&
    i + |CharsetKey| + |value| <= |content| &&
    content[i + |CharsetKey|..i + |CharsetKey| + |value|] == value &&
    (i + |CharsetKey| + |value| == |content| || content[i + |CharsetKey| + |value|] == ';')
  }

  /**
   * `content.match(/charset=([^;]+)/)?.[1]`: capture group 1 of the leftmost
   * match, the run after that `charset=` up to the next `;` or the end.
   */
  function CharsetCapture(content: string): (r: Option<string>)
    ensures r.Some? ==> r.value != "" && forall i :: 0 <= i < |r.value| ==> r.value[i] != ';'
    ensures r.None? <==> forall j :: !CharsetMatchAt(content, j)
    ensures r.Some? ==> exists i: nat :: CapturedAt(content, i, r.value)
  {
    match FirstCharsetMatch(content, 0)
    case None => None
    case Some(i) =>
      var rest := content[i + |CharsetKey|..];
      assert rest[0] != ';';
      var run := UpToSemicolon(rest);
      assert content[i + |CharsetKey|..i + |CharsetKey| + |run|] == rest[..|run|];
      assert i + |CharsetKey| + |run| < |content| ==> content[i + |CharsetKey| + |run|] == rest[|run|];
      assert CapturedAt(content, i, run);
      Some(run)
  }

  /**
   * `metaCharset?.trim() || contentType?.match(/charset=([^;]+)/)?.[1]?.trim() || undefined`.
   */
  function CharsetOf(metaCharset: Option<string>, contentType: Option<string>): (r: Option<string>)
    ensures NormalisedValue(r)
    ensures Normalise(metaCharset).Some? ==> r == Normalise(metaCharset)
    ensures Normalise(metaCharset).None? && contentType.Some? ==>
              r == Normalise(CharsetCapture(contentType.value))
    ensures Normalise(metaCharset).None? && contentType.None? ==> r.None?
  {
    var direct := Normalise(metaCharset);
    if direct.Some? then direct
    else if contentType.None? then None
    else Normalise(CharsetCapture(contentType.value))
  }

  /** In the usual header form the leftmost match is the key after `; `. */
  lemma HeaderCharsetPosition()
    ensures FirstCharsetMatch("text/html; charset=UTF-8", 0) == Some(11)
  {
    var s := "text/html; charset=UTF-8";
    assert CharsetMatchAt(s, 11);
    forall j | 0 <= j < 11 ensures !CharsetMatchAt(s, j) {
      assert s[j + 7] != '=';
      assert s[j..j + 8][7] == s[j + 7];
    }
  }

  lemma HeaderCharsetCapture()
    ensures CharsetCapture("text/html; charset=UTF-8") == Some("UTF-8")
  {
    var s := "text/html; charset=UTF-8";
    HeaderCharsetPosition();
    CaptureFromFirst(s, 11);
    assert s[19..] == "UTF-8";
    assert UpToSemicolon("UTF-8") == "UTF-8";
  }

  /** The group is the `[^;]+` run after the leftmost match. */
  lemma CaptureFromFirst(content: string, i: nat)
    requires FirstCharsetMatch(content, 0) == Some(i)
    ensures CharsetCapture(content) == Some(UpToSemicolon(content[i + |CharsetKey|..]))
  {
  }

  /** The usual header form yields the encoding name. */
  lemma CharsetFromContentType()
    ensures CharsetOf(None, Some("text/html; charset=UTF-8")) == Some("UTF-8")
  {
    var s, utf8 := "text/html; charset=UTF-8", "UTF-8";
    assert CharsetCapture(s) == Some(utf8) by { HeaderCharsetCapture(); }
    assert IsTrimmed(utf8) by { assert utf8[0] == 'U' && utf8[4] == '8'; }
    CaptureUsed(s, utf8);
  }

  /** Without `<meta charset>`, a trimmed capture from the header is the charset. */
  lemma CaptureUsed(content: string, captured: string)
    requires CharsetCapture(content) == Some(captured) && IsTrimmed(captured)
    ensures CharsetOf(None, Some(content)) == Some(captured)
  {
    NormaliseKeepsTrimmed(captured);
  }

  /** A non-empty trimmed value is kept as it is. */
  lemma NormaliseKeepsTrimmed(core: string)
    requires core != "" && IsTrimmed(core)
    ensures Normalise(Some(core)) == Some(core)
  {
    NormalisePadded([], core, []);
    assert [] + core + [] == core;
  }

  /** In `charset=;charset=utf-8` the first key is followed by `;`, so the leftmost match is the second. */
  lemma SkippedMatchPosition()
    ensures FirstCharsetMatch("charset=;charset=utf-8", 0) == Some(9)
  {
    var s := "charset=;charset=utf-8";
    assert !CharsetMatchAt(s, 0);
    assert CharsetMatchAt(s, 9);
    forall j | 1 <= j < 9 ensures !CharsetMatchAt(s, j) {
      assert s[j + 7] != '=';
      assert s[j..j + 8][7] == s[j + 7];
    }
  }

  /**
   * The match does not stop at the first `charset=`: when that one is
   * followed by `;`, the next occurrence is taken.
   */
  lemma CharsetSkipsEmptyMatch()
    ensures CharsetCapture("charset=;charset=utf-8") == Some("utf-8")
  {
    var s := "charset=;charset=utf-8";
    SkippedMatchPosition();
    CaptureFromFirst(s, 9);
    assert s[17..] == "utf-8";
    assert UpToSemicolon("utf-8") == "utf-8";
  }

  /** The selector answer each field other than `charset` is normalised from. */
  function RawFor(raw: RawDocument, f: Field): Option<string>
    requires f != Charset
  {
    match f
    case Title => raw.titleText
    case Description => raw.description
    case Keywords => raw.keywords
    case Author => raw.author
    case Robots => raw.robots
    case Canonical => raw.canonical
    case Viewport => raw.viewport
    case OgTitle => raw.ogTitle
    case OgDescription => raw.ogDescription
    case OgImage => raw.ogImage
    case OgUrl => raw.ogUrl
    case OgType => raw.ogType
    case OgSiteName => raw.ogSiteName
    case OgLocale => raw.ogLocale
    case TwitterCard => raw.twitterCard
    case TwitterTitle => raw.twitterTitle
    case TwitterDescription => raw.twitterDescription
    case TwitterImage => raw.twitterImage
    case TwitterSite => raw.twitterSite
    case TwitterCreator => raw.twitterCreator
    case Favicon => raw.favicon
    case ThemeColor => raw.themeColor
    case Language => raw.language
  }

  /**
   * The tag record built from the selector answers. Extraction never fails
   * and never yields an empty or padded value: every field is absent or a
   * non-empty trimmed string, whatever the document held.
   */
  function Extract(raw: RawDocument): (r: MetaTags)
    ensures WellFormed(r)
  {
    var r := MetaTags(
      title := Normalise(raw.titleText),
      description := Normalise(raw.description),
      keywords := Normalise(raw.keywords),
      author := Normalise(raw.author),
      robots := Normalise(raw.robots),
      canonical := Normalise(raw.canonical),
      viewport := Normalise(raw.viewport),
      charset := CharsetOf(raw.metaCharset, raw.contentType),
      ogTitle := Normalise(raw.ogTitle),
      ogDescription := Normalise(raw.ogDescription),
      ogImage := Normalise(raw.ogImage),
      ogUrl := Normalise(raw.ogUrl),
      ogType := Normalise(raw.ogType),
      ogSiteName := Normalise(raw.ogSiteName),
      ogLocale := Normalise(raw.ogLocale),
      twitterCard := Normalise(raw.twitterCard),
      twitterTitle := Normalise(raw.twitterTitle),
      twitterDescription := Normalise(raw.twitterDescription),
      twitterImage := Normalise(raw.twitterImage),
      twitterSite := Normalise(raw.twitterSite),
      twitterCreator := Normalise(raw.twitterCreator),
      favicon := Normalise(raw.favicon),
      themeColor := Normalise(raw.themeColor),
      language := Normalise(raw.language));
    FieldsNormalised(r);
    r
  }

  /** Each field but `charset` is its own selector answer, normalised. */
  lemma ExtractField(raw: RawDocument, f: Field)
    requires f != Charset
    ensures Get(Extract(raw), f) == Normalise(RawFor(raw, f))
  {
    match f
    case _ =>
  }

  /** A whitespace-only attribute leaves its field absent, e.g. `<meta name="description" content="   ">`. */
  lemma BlankAttributeIsAbsent(raw: RawDocument, f: Field)
    requires f != Charset && RawFor(raw, f).Some? && AllWhitespace(RawFor(raw, f).value)
    ensures Get(Extract(raw), f).None?
  {
    ExtractField(raw, f);
  }
}
