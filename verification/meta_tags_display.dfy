/**
 * The tag table (client/src/components/meta-tags-display.tsx): four sections
 * of rows, each row a label, the tag it shows and an optional character
 * budget; the budget status of a value; and the test id derived from a label.
 */
module MetaTagsDisplay {
  import opened JsBuiltins
  import Schema
  import Evaluation

  // ---------------------------------------------------------------------------
  // Character budget

  datatype Status = Error | Warning | Success

  /**
   * `getCharacterStatus`: over the budget is an error, above nine tenths of
   * it a warning. `length > max * 0.9` is stated as `10 * length > 9 * max`.
   */
  function CharacterStatus(length: nat, max: nat): (s: Status)
    ensures s == Error <==> length > max
    ensures s == Warning <==> 9 * max < 10 * length <= 10 * max
    ensures s == Success <==> 10 * length <= 9 * max
  {
    if length > max then Error
    else if 10 * length > 9 * max then Warning
    else Success
  }

  /** Success, warning, error: how far a value has used up its budget. */
  function Urgency(s: Status): nat {
    match s
    case Success => 0
    case Warning => 1
    case Error => 2
  }

  /** A longer value never has a better status under the same budget. */
  lemma StatusMonotone(a: nat, b: nat, max: nat)
    requires a <= b
    ensures Urgency(CharacterStatus(a, max)) <= Urgency(CharacterStatus(b, max))
  {
  }

  /** For the two budgets in use, the warning zone is 55 to 60 and 145 to 160 characters. */
  lemma WarningZones(length: nat)
    ensures CharacterStatus(length, 60) == Warning <==> 55 <= length <= 60
    ensures CharacterStatus(length, 160) == Warning <==> 145 <= length <= 160
  {
  }

  /** `value?.length || 0`. */
  function CharacterCount(value: Option<string>): (n: nat)
    ensures value.None? ==> n == 0
    ensures value.Some? ==> n == |value.value|
  {
    if value.Some? then |value.value| else 0
  }

  // ---------------------------------------------------------------------------
  // Rows

  /** The label of the row showing a field. */
  function LabelOf(f: Schema.Field): string {
    match f
    case Title => "Title"
    case Description => "Description"
    case Keywords => "Keywords"
    case Author => "Author"
    case Robots => "Robots"
    case Canonical => "Canonical URL"
    case Viewport => "Viewport"
    case Charset => "Charset"
    case OgTitle => "OG Title"
    case OgDescription => "OG Description"
    case OgImage => "OG Image"
    case OgUrl => "OG URL"
    case OgType => "OG Type"
    case OgSiteName => "OG Site Name"
    case OgLocale => "OG Locale"
    case TwitterCard => "Twitter Card"
    case TwitterTitle => "Twitter Title"
    case TwitterDescription => "Twitter Description"
    case TwitterImage => "Twitter Image"
    case TwitterSite => "Twitter Site"
    case TwitterCreator => "Twitter Creator"
    case Favicon => "Favicon"
    case ThemeColor => "Theme Color"
    case Language => "Language"
  }

  /**
   * The `maxLength` a field's row carries: 60 for the three titles, 160 for
   * the three descriptions, none for every other field.
   */
  function Budget(f: Schema.Field): (b: Option<nat>)
    ensures b == Some(60) <==> f in {Schema.Title, Schema.OgTitle, Schema.TwitterTitle}
    ensures b == Some(160) <==> f in {Schema.Description, Schema.OgDescription, Schema.TwitterDescription}
    ensures b.None? <==> f !in {Schema.Title, Schema.OgTitle, Schema.TwitterTitle,
                                Schema.Description, Schema.OgDescription, Schema.TwitterDescription}
  {
    match f
    case Title | OgTitle | TwitterTitle => Some(60)
    case Description | OgDescription | TwitterDescription => Some(160)
    case _ => None
  }

  /** One row: its label, the value it shows and its character budget, if any. */
  datatype TagRow = TagRow(labelText: string, value: Option<string>, maxLength: Option<nat>)

  /** The row for a field, as the section arrays build it. */
  function RowOf(f: Schema.Field, tags: Schema.MetaTags): (row: TagRow)
    ensures row.value == Schema.Get(tags, f)
  {
    TagRow(LabelOf(f), Schema.Get(tags, f), Budget(f))
  }

  /** The fields of each section, in display order. */
  const GeneralTags: seq<Schema.Field> := [Schema.Title, Schema.Description, Schema.Keywords, Schema.Canonical, Schema.Robots]
  const OgTags: seq<Schema.Field> :=
    [Schema.OgTitle, Schema.OgDescription, Schema.OgImage, Schema.OgUrl, Schema.OgType, Schema.OgSiteName, Schema.OgLocale]
  const TwitterTags: seq<Schema.Field> :=
    [Schema.TwitterCard, Schema.TwitterTitle, Schema.TwitterDescription, Schema.TwitterImage,
     Schema.TwitterSite, Schema.TwitterCreator]
  const TechnicalTags: seq<Schema.Field> :=
    [Schema.Charset, Schema.Viewport, Schema.Language, Schema.ThemeColor, Schema.Favicon]

  /** The four sections in display order. */
  const Shown: seq<Schema.Field> := GeneralTags + OgTags + TwitterTags + TechnicalTags

  /** The rows of a section. */
  function Rows(section: seq<Schema.Field>, tags: Schema.MetaTags): (rows: seq<TagRow>)
    ensures |rows| == |section|
    ensures forall i :: 0 <= i < |section| ==> rows[i] == RowOf(section[i], tags)
  {
    seq(|section|, i requires 0 <= i < |section| => RowOf(section[i], tags))
  }

  /** `maxLength ? getCharacterStatus(characterCount, maxLength) : null`; a budget of 0 is falsy. */
  function RowStatus(row: TagRow): (r: Option<Status>)
    ensures r.None? <==> row.maxLength.None? || row.maxLength.value == 0
    ensures r.Some? ==> r.value == CharacterStatus(CharacterCount(row.value), row.maxLength.value)
  {
    if row.maxLength.Some? && row.maxLength.value != 0
    then Some(CharacterStatus(CharacterCount(row.value), row.maxLength.value))
    else None
  }

  /** The `count/max` counter appears when the row has a budget and a value. */
  predicate CounterShown(row: TagRow) {
    row.maxLength.Some? && row.maxLength.value != 0 && Truthy(row.value)
  }

  /** The sections written out. */
  lemma ShownListed()
    ensures Shown == [
      Schema.Title, Schema.Description, Schema.Keywords, Schema.Canonical, Schema.Robots,
      Schema.OgTitle, Schema.OgDescription, Schema.OgImage, Schema.OgUrl, Schema.OgType, Schema.OgSiteName,
      Schema.OgLocale,
      Schema.TwitterCard, Schema.TwitterTitle, Schema.TwitterDescription, Schema.TwitterImage,
      Schema.TwitterSite, Schema.TwitterCreator,
      Schema.Charset, Schema.Viewport, Schema.Language, Schema.ThemeColor, Schema.Favicon]
  {
  }

  /** Each shown field sits at its own position: the rows are a numbering of the fields. */
  lemma ShownIndexed()
    ensures |Shown| == 23
    ensures forall i :: 0 <= i < |Shown| ==> Shown[i] != Schema.Author && FieldRow(Shown[i]) == i
  {
    ShownListed();
  }

  /** Every field but `author` has exactly one row; `author` has none. */
  lemma DisplayedFields()
    ensures |Shown| == 23
    ensures forall i, j :: 0 <= i < j < |Shown| ==> Shown[i] != Shown[j]
    ensures forall f :: f in Shown <==> f != Schema.Author
  {
    ShownIndexed();
    forall f | f != Schema.Author ensures f in Shown {
      ShownListed();
      assert Shown[FieldRow(f)] == f;
    }
  }

  /** The position of a field other than `author` among the rows. */
  function FieldRow(f: Schema.Field): (i: nat)
    requires f != Schema.Author
    ensures i < 23
  {
    match f
    case Title => 0
    case Description => 1
    case Keywords => 2
    case Canonical => 3
    case Robots => 4
    case OgTitle => 5
    case OgDescription => 6
    case OgImage => 7
    case OgUrl => 8
    case OgType => 9
    case OgSiteName => 10
    case OgLocale => 11
    case TwitterCard => 12
    case TwitterTitle => 13
    case TwitterDescription => 14
    case TwitterImage => 15
    case TwitterSite => 16
    case TwitterCreator => 17
    case Charset => 18
    case Viewport => 19
    case Language => 20
    case ThemeColor => 21
    case Favicon => 22
  }

  /**
   * A row shows a status exactly when its field has a budget, and the
   * `count/max` counter exactly when it also has a value; no row shows the
   * counter without a status.
   */
  lemma Budgets(tags: Schema.MetaTags, f: Schema.Field)
    ensures RowStatus(RowOf(f, tags)).Some? <==> Budget(f).Some?
    ensures CounterShown(RowOf(f, tags)) <==> Budget(f).Some? && Truthy(Schema.Get(tags, f))
    ensures CounterShown(RowOf(f, tags)) ==> RowStatus(RowOf(f, tags)).Some?
  {
  }

  /**
   * The title row turns red exactly when the evaluator reports the title as
   * too long: both use the limit of 60 characters.
   */
  lemma TitleBudgetAgrees(tags: Schema.MetaTags)
    ensures RowStatus(RowOf(Schema.Title, tags)) == Some(Error) <==> Evaluation.TitleTooLong in Evaluation.Fired(tags)
  {
    Evaluation.TitleCheck(tags);
  }

  /** Likewise the description row and the limit of 160. */
  lemma DescriptionBudgetAgrees(tags: Schema.MetaTags)
    ensures RowStatus(RowOf(Schema.Description, tags)) == Some(Error) <==>
            Evaluation.DescriptionTooLong in Evaluation.Fired(tags)
  {
    Evaluation.DescriptionCheck(tags);
  }

  // ---------------------------------------------------------------------------
  // Test ids

  /** `toLowerCase`, ASCII letters only. */
  function Lower(s: string): (r: string)
    ensures |r| == |s|
    ensures forall i :: 0 <= i < |s| ==> r[i] == ToLowerChar(s[i])
  {
    if s == [] then [] else [ToLowerChar(s[0])] + Lower(s[1..])
  }

  /** `replace(/\s+/g, '-')`: every maximal run of whitespace becomes one `-`. */
  function Dashed(s: string): (r: string)
    ensures forall i :: 0 <= i < |r| ==> !IsWhitespace(r[i])
    decreases |s|
  {
    if s == [] then []
    else if IsWhitespace(s[0]) then "-" + Dashed(TrimStart(s))
    else [s[0]] + Dashed(s[1..])
  }

  /** The part of a test id that comes from the label. */
  function Slug(labelText: string): (r: string)
    ensures forall i :: 0 <= i < |r| ==> !IsWhitespace(r[i])
    ensures NoCapitals(r)
  {
    var lower := Lower(labelText);
    DashedKeeps(lower);
    Dashed(lower)
  }

  /** No ASCII capital letter in `s`. */
  predicate NoCapitals(s: string) {
    forall i :: 0 <= i < |s| ==> !('A' <= s[i] <= 'Z')
  }

  lemma NoCapitalsJoin(x: string, y: string)
    requires NoCapitals(x) && NoCapitals(y)
    ensures NoCapitals(x + y)
  {
    forall i | 0 <= i < |x + y| ensures !('A' <= (x + y)[i] <= 'Z') {
      if i >= |x| {
        assert (x + y)[i] == y[i - |x|];
      }
    }
  }

  /** Dashed adds only `-` to what it keeps. */
  lemma {:induction false} DashedKeeps(s: string)
    requires NoCapitals(s)
    ensures NoCapitals(Dashed(s))
    decreases |s|
  {
    if s != [] {
      if IsWhitespace(s[0]) {
        var t := TrimStart(s);
        assert t == s[|s| - |t|..];
        DashedKeeps(t);
        NoCapitalsJoin("-", Dashed(t));
      } else {
        assert NoCapitals(s[1..]);
        DashedKeeps(s[1..]);
        NoCapitalsJoin([s[0]], Dashed(s[1..]));
      }
    }
  }

  /**
   * The run between two words becomes a single `-`, whatever its length and
   * whichever whitespace characters it holds.
   */
  lemma {:induction false} DashedJoins(a: string, gap: string, b: string)
    requires gap != [] && AllWhitespace(gap)
    requires a == [] || !IsWhitespace(a[|a| - 1])
    requires b == [] || !IsWhitespace(b[0])
    ensures Dashed(a + gap + b) == Dashed(a) + "-" + Dashed(b)
    decreases |a|, 1
  {
    if a == [] {
      assert a + gap + b == gap + b;
      DashedAtGap(gap, b);
    } else if IsWhitespace(a[0]) {
      DashedJoinsAfterRun(a, gap, b);
    } else {
      DashedJoinsAfterChar(a, gap, b);
    }
  }

  /** A leading run of whitespace becomes one `-`. */
  lemma DashedAtGap(gap: string, b: string)
    requires gap != [] && AllWhitespace(gap)
    requires b == [] || !IsWhitespace(b[0])
    ensures Dashed(gap + b) == "-" + Dashed(b)
  {
    assert (gap + b)[0] == gap[0];
    TrimStartSkips(gap, b);
  }

  /** The step of DashedJoins when `a` starts with whitespace. */
  lemma {:induction false} DashedJoinsAfterRun(a: string, gap: string, b: string)
    requires gap != [] && AllWhitespace(gap)
    requires a != [] && IsWhitespace(a[0]) && !IsWhitespace(a[|a| - 1])
    requires b == [] || !IsWhitespace(b[0])
    ensures Dashed(a + gap + b) == Dashed(a) + "-" + Dashed(b)
    decreases |a|, 0
  {
    var t := TrimStart(a);
    LeadingRunDropped(a);
    TrimStartJoined(a, gap, b);
    DashedRun(a + gap + b);
    DashedRun(a);
    DashedJoins(t, gap, b);
    DashJoinAssoc("-", Dashed(t), Dashed(b));
  }

  /** A string that starts with whitespace becomes `-` and the rest after the run. */
  lemma DashedRun(s: string)
    requires s != [] && IsWhitespace(s[0])
    ensures Dashed(s) == "-" + Dashed(TrimStart(s))
  {
  }

  /**
   * Leading whitespace stops at the first other character, whatever follows
   * it: the leading run of `a + gap + b` is that of `a`.
   */
  lemma {:induction false} TrimStartJoined(a: string, gap: string, b: string)
    requires a != [] && !IsWhitespace(a[|a| - 1])
    ensures (a + gap + b)[0] == a[0]
    ensures TrimStart(a + gap + b) == TrimStart(a) + gap + b
    decreases |a|
  {
    if IsWhitespace(a[0]) {
      assert (a + gap + b)[1..] == a[1..] + gap + b;
      TrimStartJoined(a[1..], gap, b);
    }
  }

  /** Dropping a leading run of whitespace shortens a word and keeps its last character. */
  lemma LeadingRunDropped(a: string)
    requires a != [] && IsWhitespace(a[0]) && !IsWhitespace(a[|a| - 1])
    ensures 0 < |TrimStart(a)| < |a| && TrimStart(a)[|TrimStart(a)| - 1] == a[|a| - 1]
  {
    var t := TrimStart(a);
    assert TrimStart(a) == TrimStart(a[1..]);
    assert t == a[|a| - |t|..];
  }

  /** The step of DashedJoins when `a` starts with another character. */
  lemma {:induction false} DashedJoinsAfterChar(a: string, gap: string, b: string)
    requires gap != [] && AllWhitespace(gap)
    requires a != [] && !IsWhitespace(a[0]) && !IsWhitespace(a[|a| - 1])
    requires b == [] || !IsWhitespace(b[0])
    ensures Dashed(a + gap + b) == Dashed(a) + "-" + Dashed(b)
    decreases |a|, 0
  {
    var s := a + gap + b;
    var rest := a[1..];
    assert s[0] == a[0] && s[1..] == rest + gap + b;
    assert rest == [] || rest[|rest| - 1] == a[|a| - 1];
    DashedJoins(rest, gap, b);
    assert Dashed(s) == [a[0]] + Dashed(rest + gap + b);
    assert Dashed(a) == [a[0]] + Dashed(rest);
    DashJoinAssoc([a[0]], Dashed(rest), Dashed(b));
  }

  /** Moving a prefix in front of a dash-joined pair. */
  lemma DashJoinAssoc(x: string, y: string, z: string)
    ensures x + (y + "-" + z) == (x + y) + "-" + z
  {
  }

  /** Lower-casing distributes over concatenation and leaves whitespace alone. */
  lemma LowerJoins(a: string, gap: string, b: string)
    requires AllWhitespace(gap)
    ensures Lower(a + gap + b) == Lower(a) + gap + Lower(b)
  {
    LowerAppend(a + gap, b);
    LowerAppend(a, gap);
    LowerKeepsWhitespace(gap);
  }

  lemma LowerAppend(x: string, y: string)
    ensures Lower(x + y) == Lower(x) + Lower(y)
  {
    var l, r := Lower(x + y), Lower(x) + Lower(y);
    forall i | 0 <= i < |l| ensures l[i] == r[i] {
      if i < |x| {
        assert (x + y)[i] == x[i];
      } else {
        assert (x + y)[i] == y[i - |x|];
      }
    }
  }

  lemma LowerKeepsWhitespace(gap: string)
    requires AllWhitespace(gap)
    ensures Lower(gap) == gap
  {
    forall i | 0 <= i < |gap| ensures Lower(gap)[i] == gap[i] {
      assert IsWhitespace(gap[i]);
    }
  }

  /** Two words separated by whitespace give their slugs joined by one `-`. */
  lemma SlugJoins(a: string, gap: string, b: string)
    requires gap != [] && AllWhitespace(gap)
    requires a == [] || !IsWhitespace(a[|a| - 1])
    requires b == [] || !IsWhitespace(b[0])
    ensures Slug(a + gap + b) == Slug(a) + "-" + Slug(b)
  {
    LowerJoins(a, gap, b);
    var la, lb := Lower(a), Lower(b);
    assert la == [] || !IsWhitespace(la[|la| - 1]);
    assert lb == [] || !IsWhitespace(lb[0]);
    DashedJoins(la, gap, lb);
  }

  /** A string without whitespace has nothing to dash. */
  lemma {:induction false} DashedNoWhitespace(s: string)
    requires forall i :: 0 <= i < |s| ==> !IsWhitespace(s[i])
    ensures Dashed(s) == s
  {
    if s != [] {
      DashedNoWhitespace(s[1..]);
      assert s == [s[0]] + s[1..];
    }
  }

  /** A slug is its own slug: lower-casing and dashing change nothing more. */
  lemma SlugIdempotent(labelText: string)
    ensures Slug(Slug(labelText)) == Slug(labelText)
  {
    var s := Slug(labelText);
    assert Lower(s) == s;
    DashedNoWhitespace(s);
  }

  /** `tag-…`, `value-…` and `copy-…`: the test ids of a row. */
  function TestId(prefix: string, labelText: string): (r: string)
    ensures |r| > |prefix| && r[..|prefix| + 1] == prefix + "-"
    ensures forall i :: |prefix| < i < |r| ==> !IsWhitespace(r[i]) && !('A' <= r[i] <= 'Z')
  {
    prefix + "-" + Slug(labelText)
  }

  /** A label word without whitespace is only lower-cased. */
  lemma SlugOfWord(w: string)
    requires forall i :: 0 <= i < |w| ==> !IsWhitespace(w[i])
    ensures Slug(w) == Lower(w)
  {
    DashedNoWhitespace(Lower(w));
  }

  /**
   * The test id of a two-word label: the first word's id, a single `-` for
   * the whitespace between them, and the second word's slug.
   */
  lemma TestIdJoins(prefix: string, a: string, gap: string, b: string)
    requires gap != [] && AllWhitespace(gap)
    requires a == [] || !IsWhitespace(a[|a| - 1])
    requires b == [] || !IsWhitespace(b[0])
    ensures TestId(prefix, a + gap + b) == TestId(prefix, a) + "-" + Slug(b)
  {
    SlugJoins(a, gap, b);
    DashJoinAssoc(prefix + "-", Slug(a), Slug(b));
  }
}
