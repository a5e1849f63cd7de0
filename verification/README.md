# SEO meta-tag analyzer — a Dafny model

The analyzer takes the URL of a web page and loads its HTML. It reads the
page's meta tags into a record of 24 optional fields: general, Open Graph,
Twitter Card and a few technical ones. It then scores the page.

The score starts at 100. A fixed, ordered list of checks each push at most
one issue and subtract a fixed amount from it. The checks cover:

- the title: missing, too long or too short;
- the description: missing, too long or too short;
- Open Graph: one aggregate issue, or one issue per missing tag;
- the Twitter card type and image;
- the canonical URL;
- the viewport.

The client then shows the result in several components:

- the issues, regrouped by severity under a score label and colour;
- a table of every tag with a character budget for the titles and descriptions;
- three share previews (Twitter, Facebook and Google search), each of which picks what it shows through its own chain of fallbacks.

The model has one module per source file:

- `JsBuiltins` holds the JavaScript behaviour the code relies on:
  - truthiness and `||`;
  - `trim` with the ECMAScript whitespace set;
  - ASCII lower-casing;
  - decimal printing;
  - `indexOf` and first-occurrence `replace`.
- `Schema` holds the tag record, the issue record and the analysis result.
- `Extraction` covers the server's tag extraction: trimming, empty-to-absent, and the `charset` fallback with its `charset=([^;]+)` capture.
- `Evaluation` covers the server's checks. It has two parts:
  - the imperative handler: `Evaluate`, block by block;
  - a declarative rule table, `Fired`, `Score`, that the handler is proved to compute.

  The properties of the evaluation are proved about the rule table.
- `SeoFeedback`, `MetaTagsDisplay`, `TwitterPreview`, `FacebookPreview` and `GooglePreview` cover the client components.

Some consequences of the code that the model proves:

- The deductions add up to at most 63, so the score never drops below 37 and the `Math.max(0, …)` clamp never changes it (`Evaluation.Score`).
- A page with no head content gets seven issues and a score of 37 (`Evaluation.AllAbsent`).
- Every field, `viewport` included, is trimmed (`Extraction.ExtractField`).
- The record has 24 fields. The tag table shows 23 rows and leaves out `author` (`MetaTagsDisplay.DisplayedFields`).

## Model

| member | source | states |
|---|---|---|
| JsBuiltins.Or | client/src/components/google-preview.tsx:11-12 | `a \|\| fallback` yields `a` when it is a non-empty string and the fallback otherwise |
| JsBuiltins.OrElse | client/src/components/twitter-preview.tsx:14 | `a \|\| b` between optional strings is truthy exactly when one of them is |
| JsBuiltins.Trim | server/routes.ts:101-130 | the result has no whitespace at either end, and is empty exactly when the input is all whitespace |
| JsBuiltins.TrimOfPadded | server/routes.ts:101-130 | trimming whitespace-padding off a trimmed core gives back exactly the core |
| JsBuiltins.TrimIdempotent | server/routes.ts:101-130 | trimming twice is trimming once |
| JsBuiltins.NumberToString | server/routes.ts:152 | a non-empty run of decimal digits, with no leading zero except for 0 itself |
| JsBuiltins.DecimalRoundTrip | server/routes.ts:152 | reading back the printed digits gives the number |
| JsBuiltins.NumberToStringInjective | client/src/components/seo-feedback.tsx:98 | different counts print differently |
| JsBuiltins.IndexOf | client/src/components/twitter-preview.tsx:15 | from a start position within the string: the result is the first position where the pattern occurs, and absent exactly when it never occurs |
| JsBuiltins.ReplaceFirst | client/src/components/twitter-preview.tsx:15 | `replace` with a string pattern replaces only the first occurrence; what that keeps is stated by ReplaceFirstAt and ReplaceFirstAbsent |
| JsBuiltins.ReplaceFirstAt | client/src/components/twitter-preview.tsx:15 | replacing the first occurrence keeps the text before and after it unchanged |
| JsBuiltins.ReplaceFirstAbsent | client/src/components/twitter-preview.tsx:15 | a string without the pattern is returned unchanged |
| Schema.FieldsNormalised | shared/schema.ts:11-43 | a record whose 24 fields are each absent or non-empty and trimmed is well formed |
| Schema.WellFormedTruthy | shared/schema.ts:11-43 | on a well-formed record a field is truthy exactly when it is present |
| Extraction.Normalise | server/routes.ts:101-107 | `raw?.trim() \|\| undefined` is absent exactly when the raw value is absent or all whitespace; otherwise it is the trimmed value |
| Extraction.NormalisePadded | server/routes.ts:101-130 | a padded value extracts to its core, and blank padding to absent |
| Extraction.NormaliseIdempotent | server/routes.ts:101-130 | normalising an extracted value again changes nothing |
| Extraction.FirstCharsetMatch | server/routes.ts:108 | the leftmost position where `charset=` is followed by a character other than `;`, or none if there is no such position |
| Extraction.UpToSemicolon | server/routes.ts:108 | the greedy `[^;]+` run: the longest prefix that contains no `;` |
| Extraction.CharsetCapture | server/routes.ts:108 | absent exactly when the pattern matches nowhere; otherwise the text right after the leftmost `charset=` that is followed by a character other than `;`, up to the next `;` or the end of the string, so non-empty and `;`-free |
| Extraction.CaptureFromFirst | server/routes.ts:108 | the capture is the greedy `[^;]+` run after the leftmost match |
| Extraction.CharsetOf | server/routes.ts:108 | the trimmed `<meta charset>` when non-empty, else the trimmed capture from the Content-Type header, else absent |
| Extraction.HeaderCharsetPosition | server/routes.ts:108 | in `text/html; charset=UTF-8` the match starts at position 11 |
| Extraction.HeaderCharsetCapture | server/routes.ts:108 | the capture from `text/html; charset=UTF-8` is `UTF-8` |
| Extraction.CharsetFromContentType | server/routes.ts:108 | without `<meta charset>`, the usual header yields `UTF-8` |
| Extraction.CaptureUsed | server/routes.ts:108 | without `<meta charset>`, a capture with no surrounding whitespace becomes the charset as it is |
| Extraction.NormaliseKeepsTrimmed | server/routes.ts:101-130 | a non-empty value with no surrounding whitespace extracts to itself |
| Extraction.SkippedMatchPosition | server/routes.ts:108 | a `charset=` followed directly by `;` is not a match; the next one is |
| Extraction.CharsetSkipsEmptyMatch | server/routes.ts:108 | `charset=;charset=utf-8` captures `utf-8` |
| Extraction.ExtractField | server/routes.ts:101-130 | every field except `charset` is its own selector answer, trimmed, with empty made absent |
| Extraction.Extract | server/routes.ts:99-131 | every extracted field is absent or a non-empty trimmed string, whatever the page held |
| Extraction.BlankAttributeIsAbsent | server/routes.ts:101-130 | a whitespace-only attribute leaves its field absent |
| Evaluation.IssuesOf | server/routes.ts:139-284 | one issue record per fired rule, in the same order |
| Evaluation.Fires | server/routes.ts:137-285 | the condition of each check stated on its own, without the else-branches it sits in; FiredMembership proves a rule is reported exactly when it holds |
| Evaluation.Deduction | server/routes.ts:137-285 | every check costs between 2 and 20 points |
| Evaluation.SeverityOf | server/routes.ts:137-285 | critical exactly for the checks that cost 20; warnings cost 3 to 10 and infos 2 or 3, so a heavier severity never costs less |
| Evaluation.CategoryOf | server/routes.ts:137-285 | General exactly for the title and description checks, Open Graph for the Open Graph block, Twitter for the Twitter block, Technical for canonical and viewport |
| Evaluation.IssueOf | server/routes.ts:137-285 | the record pushed for a rule: the severity and category characterised by SeverityOf and CategoryOf, the title, the description (quoting the measured length for the four length checks) and the recommendation; IssuesOf maps it over the fired rules |
| Evaluation.Score | server/routes.ts:135-288 | the score is 100 minus the deductions of the fired rules and lies in 37..100, so `Math.max(0, …)` never changes it |
| Evaluation.PageTitle | server/routes.ts:296 | the title when it is present, else "Untitled Page"; never empty |
| Evaluation.FiredByBlocks | server/routes.ts:134-285 | the fired rules are the title block's, then the description block's, the Open Graph block's, the Twitter block's, canonical and viewport, in that order |
| Evaluation.DeductionByBlocks | server/routes.ts:134-285 | the total deduction is the sum of each block's deductions |
| Evaluation.TitleBlock | server/routes.ts:138-165 | the title block yields exactly one of missing, too long (over 60) or too short (under 30), or nothing for 30..60 |
| Evaluation.DescriptionBlock | server/routes.ts:168-195 | the description block yields exactly one of missing, too long (over 160) or too short (under 120), or nothing for 120..160 |
| Evaluation.OpenGraphBlock | server/routes.ts:198-238 | with all three Open Graph tags missing, only the aggregate issue; otherwise one issue per missing tag, in title, description, image order |
| Evaluation.TwitterBlock | server/routes.ts:241-261 | the Twitter block is the card-type check followed by the image check |
| Evaluation.TitleDeduction | server/routes.ts:138-165 | the title block costs 20 if missing, 5 if too long, 5 if too short, else 0 |
| Evaluation.DescriptionDeduction | server/routes.ts:168-195 | the description block costs 20 if missing, 5 if too long, 3 if too short, else 0 |
| Evaluation.OpenGraphDeduction | server/routes.ts:198-238 | the Open Graph block costs 10 with all three missing, otherwise 3, 3 and 5 for each missing tag |
| Evaluation.TwitterDeduction | server/routes.ts:241-261 | the Twitter block costs 3 for a missing card type plus 2 when both images are missing |
| Evaluation.MaxDeduction | server/routes.ts:135-285 | the deductions of the fired rules total at most 63 |
| Evaluation.NothingPresent | server/routes.ts:134-285 | with every checked tag missing, exactly seven rules fire, in check order, costing 63 |
| Evaluation.AllAbsent | server/routes.ts:134-288 | the empty record gives seven issues and a score of 37 |
| Evaluation.SelectMembership | server/routes.ts:134-285 | a rule is selected exactly when it is listed and fires |
| Evaluation.RuleTableListed | server/routes.ts:137-285 | the rule table lists the fourteen checks in the handler's order |
| Evaluation.FiredMembership | server/routes.ts:134-285 | a rule is reported exactly when its condition holds |
| Evaluation.SelectKeepsOrder | server/routes.ts:134-285 | selecting from a list in check order keeps check order and adds nothing |
| Evaluation.FiredInCheckOrder | server/routes.ts:134-285 | issues appear in check order: title, description, Open Graph, Twitter card, Twitter image, canonical, viewport |
| Evaluation.TitleCheck | server/routes.ts:138-165 | each title issue fires exactly under its condition; no two fire together; none fires exactly when the title is present with 30..60 characters |
| Evaluation.DescriptionCheck | server/routes.ts:168-195 | each description issue fires exactly under its condition; no two fire together; none fires exactly when the description is present with 120..160 characters |
| Evaluation.OpenGraphCheck | server/routes.ts:198-238 | the aggregate issue fires exactly when all three tags are missing and then excludes the per-tag issues; otherwise each per-tag issue fires exactly when its tag is missing |
| Evaluation.RemainingChecks | server/routes.ts:241-285 | card type, canonical and viewport fire exactly when their tag is missing; the Twitter image issue exactly when both images are |
| Evaluation.CleanPage | server/routes.ts:134-288 | no issue, a score of 100 and a well-configured page are the same thing |
| Evaluation.NoIssueWhenConfigured | server/routes.ts:134-285 | no rule fires exactly when the page is well configured |
| Evaluation.TitleNeverWorse | server/routes.ts:138-165 | keeping a present title never makes the title block cost more |
| Evaluation.DescriptionNeverWorse | server/routes.ts:168-195 | keeping a present description never makes the description block cost more |
| Evaluation.OpenGraphNeverWorse | server/routes.ts:198-238 | adding Open Graph tags never makes the Open Graph block cost more |
| Evaluation.TwitterNeverWorse | server/routes.ts:241-261 | keeping a card type, a Twitter image and an Open Graph image that are present never makes the Twitter block cost more |
| Evaluation.AddingTagsNeverHurts | server/routes.ts:134-288 | adding tags to a page, keeping those it has, never lowers its score |
| Evaluation.CheckTitle | server/routes.ts:138-165 | the title block appends the title rules that fire and subtracts their deductions |
| Evaluation.CheckDescription | server/routes.ts:168-195 | the description block appends the description rules that fire and subtracts their deductions |
| Evaluation.CheckOpenGraph | server/routes.ts:198-238 | the Open Graph block appends the Open Graph rules that fire and subtracts their deductions |
| Evaluation.CheckEachOgTag | server/routes.ts:207-238 | the else-branch appends one rule per missing tag and subtracts 3, 3 and 5 |
| Evaluation.CheckTwitter | server/routes.ts:241-261 | the Twitter block appends the Twitter rules that fire and subtracts their deductions |
| Evaluation.CheckCanonical | server/routes.ts:264-273 | the canonical check appends its rule and subtracts 3 exactly when it fires |
| Evaluation.CheckViewport | server/routes.ts:276-285 | the viewport check appends its rule and subtracts 5 exactly when it fires |
| Evaluation.Evaluate | server/routes.ts:134-288 | the handler's issues are those of the rule table that fire, in table order; its score is 100 minus their deductions, in 37..100 |
| Evaluation.AnalyzePage | server/routes.ts:99-297 | the result carries the extracted well-formed tags, the evaluated issues and score, and the page title |
| SeoFeedback.OfSeverity | client/src/components/seo-feedback.tsx:76-78 | the filter keeps only issues of the given severity and never lengthens the list |
| SeoFeedback.FilterAppend | client/src/components/seo-feedback.tsx:76-78 | filtering distributes over concatenation |
| SeoFeedback.FilterOfFiltered | client/src/components/seo-feedback.tsx:76-80 | filtering a filtered list by the same severity changes nothing, and by another severity empties it |
| SeoFeedback.FiltersPartition | client/src/components/seo-feedback.tsx:76-80 | the three filtered lists together hold exactly the issues of the input |
| SeoFeedback.Regroup | client/src/components/seo-feedback.tsx:76-80 | the regrouped list is a permutation of the input, of the same length |
| SeoFeedback.RegroupOrdered | client/src/components/seo-feedback.tsx:80 | critical issues come before warnings, and warnings before infos |
| SeoFeedback.RegroupStable | client/src/components/seo-feedback.tsx:76-80 | within each severity the input order is kept |
| SeoFeedback.Band | client/src/components/seo-feedback.tsx:55-60 | each score falls in one of the four label bands |
| SeoFeedback.ScoreColor | client/src/components/seo-feedback.tsx:49-53 | text-success exactly from 80, text-warning for 60..79, text-error below 60 |
| SeoFeedback.ScoreLabel | client/src/components/seo-feedback.tsx:55-60 | Excellent exactly from 80, Good for 60..79, Needs Work for 40..59, Poor below 40 |
| SeoFeedback.LabelMonotone | client/src/components/seo-feedback.tsx:55-60 | a higher score never gets a lower label |
| SeoFeedback.ColourMatchesLabel | client/src/components/seo-feedback.tsx:49-60 | success colour exactly for Excellent, warning exactly for Good, error for Needs Work and Poor |
| SeoFeedback.HeaderText | client/src/components/seo-feedback.tsx:92-98 | "All checks passed!" for no issue, else the count followed by " Issue Found" for one and " Issues Found" otherwise |
| SeoFeedback.HeaderCountsIssues | client/src/components/seo-feedback.tsx:92-98 | the header counts every issue, so regrouping does not change it |
| SeoFeedback.HeaderSingular | client/src/components/seo-feedback.tsx:98 | the singular form appears exactly for one issue |
| SeoFeedback.HeaderDigits | client/src/components/seo-feedback.tsx:98 | a non-zero header starts with the count's digits, followed by a space |
| SeoFeedback.HeaderInjective | client/src/components/seo-feedback.tsx:92-98 | different issue counts give different headers |
| SeoFeedback.ItemValue | client/src/components/seo-feedback.tsx:103-105 | every accordion value starts with `issue-` and continues past it |
| SeoFeedback.ItemValueInjective | client/src/components/seo-feedback.tsx:103-105 | different indices give different accordion values |
| SeoFeedback.DefaultOpen | client/src/components/seo-feedback.tsx:103 | the accordion values `issue-0` up to the number of critical issues; DefaultOpenIsCritical proves these are exactly the items showing a critical issue |
| SeoFeedback.DefaultOpenIsCritical | client/src/components/seo-feedback.tsx:103-105 | an item starts open exactly when the issue at its position in the regrouped list is critical |
| SeoFeedback.PriorityLabel | client/src/components/seo-feedback.tsx:35-39 | High Priority exactly for critical, Medium for warning, Low for info |
| SeoFeedback.EmptyPageIsPoor | client/src/components/seo-feedback.tsx:55-60 | a page with no tags is labelled Poor |
| SeoFeedback.PoorIsNarrow | client/src/components/seo-feedback.tsx:55-60 | an analysed page is labelled Poor exactly when it scores 37..39 |
| SeoFeedback.CleanPageIsExcellent | client/src/components/seo-feedback.tsx:55-98 | a well-configured page is labelled Excellent under the all-clear header |
| MetaTagsDisplay.CharacterStatus | client/src/components/meta-tags-display.tsx:33-37 | error exactly when over the budget; warning exactly when over nine tenths of it and within it; success otherwise |
| MetaTagsDisplay.StatusMonotone | client/src/components/meta-tags-display.tsx:33-37 | a longer value never has a better status under the same budget |
| MetaTagsDisplay.WarningZones | client/src/components/meta-tags-display.tsx:35 | the warning zone is 55..60 for a budget of 60 and 145..160 for a budget of 160 |
| MetaTagsDisplay.CharacterCount | client/src/components/meta-tags-display.tsx:39 | 0 for an absent value, else its length |
| MetaTagsDisplay.LabelOf | client/src/components/meta-tags-display.tsx:108-141 | the label the section arrays give each field; RowOf puts it on the field's row and TestId derives the row's test ids from it |
| MetaTagsDisplay.Budget | client/src/components/meta-tags-display.tsx:108-141 | a budget of 60 exactly for the three titles, 160 exactly for the three descriptions, none for every other field |
| MetaTagsDisplay.RowOf | client/src/components/meta-tags-display.tsx:108-141 | a row shows its field's value |
| MetaTagsDisplay.Rows | client/src/components/meta-tags-display.tsx:108-141 | one row per field of the section, in order |
| MetaTagsDisplay.RowStatus | client/src/components/meta-tags-display.tsx:40 | the status is null exactly when the row has no budget; otherwise it is the character status of the value's length |
| MetaTagsDisplay.CounterShown | client/src/components/meta-tags-display.tsx:52 | `maxLength && value`: the counter needs a non-zero budget and a non-empty value; Budgets states when that happens for each field |
| MetaTagsDisplay.ShownListed | client/src/components/meta-tags-display.tsx:108-141 | the four sections list their fields in display order |
| MetaTagsDisplay.ShownIndexed | client/src/components/meta-tags-display.tsx:108-141 | each shown field sits at its own row |
| MetaTagsDisplay.DisplayedFields | client/src/components/meta-tags-display.tsx:108-141 | 23 rows, no field twice, and every field except `author` is shown |
| MetaTagsDisplay.Budgets | client/src/components/meta-tags-display.tsx:40-52 | a row shows a status exactly when its field has a budget, and the `count/max` counter exactly when it also has a value; no row shows the counter without a status |
| MetaTagsDisplay.TitleBudgetAgrees | client/src/components/meta-tags-display.tsx:33-40 | whatever the title, its row is red exactly when the analysis reports it as too long |
| MetaTagsDisplay.DescriptionBudgetAgrees | client/src/components/meta-tags-display.tsx:33-40 | whatever the description, its row is red exactly when the analysis reports it as too long |
| MetaTagsDisplay.Lower | client/src/components/meta-tags-display.tsx:45 | each character lower-cased, length kept |
| MetaTagsDisplay.Dashed | client/src/components/meta-tags-display.tsx:45 | replacing whitespace runs by `-` leaves no whitespace |
| MetaTagsDisplay.Slug | client/src/components/meta-tags-display.tsx:45 | a test-id slug has no whitespace and no capitals |
| MetaTagsDisplay.DashedKeeps | client/src/components/meta-tags-display.tsx:45 | the replacement introduces no capital letter |
| MetaTagsDisplay.DashedJoins | client/src/components/meta-tags-display.tsx:45 | a whitespace run between two words becomes a single `-`, whatever its length |
| MetaTagsDisplay.DashedAtGap | client/src/components/meta-tags-display.tsx:45 | a leading whitespace run becomes a single `-` |
| MetaTagsDisplay.LowerJoins | client/src/components/meta-tags-display.tsx:45 | lower-casing distributes over concatenation and leaves whitespace alone |
| MetaTagsDisplay.SlugJoins | client/src/components/meta-tags-display.tsx:45 | two words separated by whitespace give their slugs joined by one `-` |
| MetaTagsDisplay.DashedNoWhitespace | client/src/components/meta-tags-display.tsx:45 | text without whitespace is left unchanged |
| MetaTagsDisplay.SlugIdempotent | client/src/components/meta-tags-display.tsx:45 | slugging a slug changes nothing |
| MetaTagsDisplay.TestId | client/src/components/meta-tags-display.tsx:45 | a test id is the prefix and a `-`, followed by text with no whitespace and no capitals |
| MetaTagsDisplay.SlugOfWord | client/src/components/meta-tags-display.tsx:45 | a one-word label is only lower-cased |
| MetaTagsDisplay.TestIdJoins | client/src/components/meta-tags-display.tsx:45 | a two-word label's id is the first word's id, one `-`, then the second word's slug |
| TwitterPreview.View | client/src/components/twitter-preview.tsx:11-17 | card type `twitter:card` else "summary"; title and description fall back from Twitter to Open Graph to general to a literal default; image `twitter:image` else `og:image`; large layout exactly for "summary_large_image"; domain with its first `www.` removed |
| TwitterPreview.StripWww | client/src/components/twitter-preview.tsx:15 | the hostname changes exactly when it contains `www.`, and then loses exactly those four characters |
| TwitterPreview.NeverBlank | client/src/components/twitter-preview.tsx:11-13 | the card type, title and description shown are never empty |
| TwitterPreview.ImageAgreesWithEvaluation | client/src/components/twitter-preview.tsx:14 | an image is shown exactly when the analysis reports no missing Twitter image |
| TwitterPreview.LargeLayout | client/src/components/twitter-preview.tsx:17 | the large layout is used exactly when `twitter:card` is "summary_large_image" |
| TwitterPreview.StripsLeadingWww | client/src/components/twitter-preview.tsx:15 | a leading `www.` is removed |
| TwitterPreview.KeepsPlainHost | client/src/components/twitter-preview.tsx:15 | a hostname without `www.` is shown unchanged |
| TwitterPreview.StripsFirstOccurrence | client/src/components/twitter-preview.tsx:15 | the first `www.` is removed wherever it occurs, and the text around it is kept |
| FacebookPreview.View | client/src/components/facebook-preview.tsx:11-14 | title and description fall back from Open Graph to general to a literal default; image exactly `og:image`; site name `og:site_name` else the hostname |
| FacebookPreview.IgnoresTwitterTags | client/src/components/facebook-preview.tsx:11-14 | no Twitter tag changes what the Facebook preview shows; in particular `twitter:image` is never used |
| FacebookPreview.SiteNameUnstripped | client/src/components/facebook-preview.tsx:14 | without `og:site_name` the hostname is shown with its `www.` |
| GooglePreview.GetDomain | client/src/components/google-preview.tsx:15-22 | the hostname with its first `www.` removed when the URL parses, the URL text itself when it does not |
| GooglePreview.View | client/src/components/google-preview.tsx:11-34 | title and description fall back from general to Open Graph to a literal default; the domain is `getDomain`; the favicon is shown exactly when `favicon` is truthy, otherwise the globe |
| GooglePreview.TitlePriorityReversed | client/src/components/google-preview.tsx:11 | with both title tags present and different, the search preview shows `<title>` and the Facebook preview `og:title` |
| GooglePreview.TitlesAgree | client/src/components/google-preview.tsx:11 | with one title tag present and no `twitter:title`, all three previews show the same title |
| GooglePreview.TitleIsPageTitle | client/src/components/google-preview.tsx:11 | with `<title>` present, the search preview's title is the page title of the analysis |
| GooglePreview.DomainAgreesWithTwitter | client/src/components/google-preview.tsx:15-24 | when the URL parses, the search preview and the Twitter card show the same domain |
| GooglePreview.UnparsableUrlShownAsIs | client/src/components/google-preview.tsx:19-21 | a URL that does not parse is shown as typed |

## Left out

- The HTTP route is not modelled: request validation, the demo-mode sample page, the fetch with its headers, timeout and redirects, the mapping of HTTP status and network errors to messages, and the 500 response (server/routes.ts:8-96 and 299-305). This is transport and I/O.
- HTML parsing and CSS selector matching are done by a library. The first matching raw attribute or text per selector is an input (`Extraction.RawDocument`), so document order among `link[rel="icon"]` and `link[rel="shortcut icon"]` is not modelled.
- `fetchedAt` comes from the clock, so it is a parameter of `Evaluation.AnalyzePage`.
- URL parsing (`new URL(url)`) is a foreign call. The previews receive the hostname, or for `getDomain` an optional hostname where `None` stands for a parse failure.
- TwitterPreview.View: the Twitter preview throws on a URL that does not parse. Its hostname is an input here, so that exception is not modelled.
- FacebookPreview.View: the Facebook preview throws on a URL that does not parse, whenever `og:site_name` is absent. Its hostname is an input here, so that exception is not modelled.
- MetaTagsDisplay.Lower: lower-cases ASCII letters only, whereas `toLowerCase` also maps non-ASCII capitals. All the row labels are ASCII.
- MetaTagsDisplay.CharacterStatus: compares `10 * length > 9 * max` in exact integers, where the code compares `length > max * 0.9` in floating point. The two agree for the budgets in use, 60 and 160.
- String lengths count characters. JavaScript's `.length` counts UTF-16 code units, so the two differ for text outside the Basic Multilingual Plane.
- The optional chaining `tags?.` in the previews is not modelled. The tag record is always present.
- Rendering is not modelled: React state (the copy button's `copied` flag, the clipboard, the timer), icons, CSS classes other than the score colour, the `uppercase` styling of the Facebook site name, and the floating-point progress-bar width (client/src/components/meta-tags-display.tsx:81).
- Zod's runtime validation in shared/schema.ts is not modelled; its types give the model's datatypes.
- client/src/pages/home.tsx, client/src/components/url-input-form.tsx, client/src/components/preview-skeleton.tsx and server/storage.ts are not part of this model. They are UI wiring, or empty.
