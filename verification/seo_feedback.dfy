/**
 * The SEO feedback panel (client/src/components/seo-feedback.tsx): the issues
 * regrouped by severity, the score's label and colour, the header line and
 * the accordion items that start open.
 */
module SeoFeedback {
  import opened JsBuiltins
  import opened Schema
  import Evaluation

  /** `issues.filter((i) => i.severity === sev)`. */
  function OfSeverity(issues: seq<Issue>, sev: Severity): (r: seq<Issue>)
    ensures |r| <= |issues|
    ensures forall i :: 0 <= i < |r| ==> r[i].severity == sev
  {
    if issues == [] then []
    else (if issues[0].severity == sev then [issues[0]] else []) + OfSeverity(issues[1..], sev)
  }

  /**
   * `[...criticalIssues, ...warningIssues, ...infoIssues]`. Regrouping loses
   * and invents nothing: it is a permutation of the issues.
   */
  function Regroup(issues: seq<Issue>): (r: seq<Issue>)
    ensures multiset(r) == multiset(issues)
    ensures |r| == |issues|
  {
    FiltersPartition(issues);
    var r := OfSeverity(issues, Critical) + OfSeverity(issues, Warning) + OfSeverity(issues, Info);
    assert |multiset(r)| == |multiset(issues)|;
    r
  }

  /** The position of a severity in the regrouped list: critical first, info last. */
  function Level(s: Severity): nat {
    match s
    case Critical => 0
    case Warning => 1
    case Info => 2
  }

  // ---------------------------------------------------------------------------
  // Filtering

  lemma {:induction false} FilterAppend(a: seq<Issue>, b: seq<Issue>, sev: Severity)
    ensures OfSeverity(a + b, sev) == OfSeverity(a, sev) + OfSeverity(b, sev)
  {
    if a == [] {
      assert a + b == b;
    } else {
      assert (a + b)[1..] == a[1..] + b;
      FilterAppend(a[1..], b, sev);
    }
  }

  /** Filtering by the severity the list already has keeps it whole; by another empties it. */
  lemma {:induction false} FilterOfFiltered(issues: seq<Issue>, kept: Severity, sev: Severity)
    ensures OfSeverity(OfSeverity(issues, kept), sev) == if kept == sev then OfSeverity(issues, kept) else []
  {
    if issues != [] {
      var head := if issues[0].severity == kept then [issues[0]] else [];
      FilterOfFiltered(issues[1..], kept, sev);
      FilterAppend(head, OfSeverity(issues[1..], kept), sev);
    }
  }

  /** The three filters split the list: every issue lands in exactly one of them. */
  lemma {:induction false} FiltersPartition(issues: seq<Issue>)
    ensures multiset(issues) ==
      multiset(OfSeverity(issues, Critical)) + multiset(OfSeverity(issues, Warning)) + multiset(OfSeverity(issues, Info))
  {
    if issues != [] {
      assert issues == [issues[0]] + issues[1..];
      FiltersPartition(issues[1..]);
      PartitionStep(issues[0], issues[1..]);
    }
  }

  lemma MultisetShuffle(x: multiset<Issue>, c: multiset<Issue>, w: multiset<Issue>, i: multiset<Issue>)
    ensures x + c + w + i == c + (x + w) + i == c + w + (x + i)
  {
  }

  /** One issue in front goes to the filter of its own severity. */
  lemma PartitionStep(x: Issue, rest: seq<Issue>)
    requires multiset(rest) ==
      multiset(OfSeverity(rest, Critical)) + multiset(OfSeverity(rest, Warning)) + multiset(OfSeverity(rest, Info))
    ensures multiset([x] + rest) ==
      multiset(OfSeverity([x] + rest, Critical)) + multiset(OfSeverity([x] + rest, Warning)) +
      multiset(OfSeverity([x] + rest, Info))
  {
    var s := [x] + rest;
    assert s[0] == x && s[1..] == rest;
    var c, w, i := multiset(OfSeverity(rest, Critical)), multiset(OfSeverity(rest, Warning)), multiset(OfSeverity(rest, Info));
    var c', w', i' := multiset(OfSeverity(s, Critical)), multiset(OfSeverity(s, Warning)), multiset(OfSeverity(s, Info));
    assert multiset(s) == multiset{x} + c + w + i;
    match x.severity
    case Critical =>
      assert c' == multiset{x} + c && w' == w && i' == i;
    case Warning =>
      assert c' == c && w' == multiset{x} + w && i' == i;
      MultisetShuffle(multiset{x}, c, w, i);
    case Info =>
      assert c' == c && w' == w && i' == multiset{x} + i;
      MultisetShuffle(multiset{x}, c, w, i);
  }

  // ---------------------------------------------------------------------------
  // The regrouped list

  /** Every critical issue comes before every warning, and every warning before every info. */
  lemma RegroupOrdered(issues: seq<Issue>)
    ensures forall i, j :: 0 <= i < j < |Regroup(issues)| ==>
              Level(Regroup(issues)[i].severity) <= Level(Regroup(issues)[j].severity)
  {
    var c := OfSeverity(issues, Critical);
    var w := OfSeverity(issues, Warning);
    var r := Regroup(issues);
    forall i, j | 0 <= i < j < |r| ensures Level(r[i].severity) <= Level(r[j].severity) {
      if i < |c| {
        assert r[i] == c[i];
      } else if i < |c| + |w| {
        assert r[i] == w[i - |c|];
        assert r[j] == (w + OfSeverity(issues, Info))[j - |c|];
      } else {
        assert r[j] == OfSeverity(issues, Info)[j - |c| - |w|];
        assert r[i] == OfSeverity(issues, Info)[i - |c| - |w|];
      }
    }
  }

  /**
   * The partition is stable: the issues of any one severity appear in the
   * regrouped list in the same order, and as many times, as in the input.
   */
  lemma RegroupStable(issues: seq<Issue>, sev: Severity)
    ensures OfSeverity(Regroup(issues), sev) == OfSeverity(issues, sev)
  {
    var c := OfSeverity(issues, Critical);
    var w := OfSeverity(issues, Warning);
    var i := OfSeverity(issues, Info);
    assert Regroup(issues) == c + w + i;
    FilterAppend(c + w, i, sev);
    FilterAppend(c, w, sev);
    FilterOfFiltered(issues, Critical, sev);
    FilterOfFiltered(issues, Warning, sev);
    FilterOfFiltered(issues, Info, sev);
  }

  // ---------------------------------------------------------------------------
  // Score label and colour

  /** `getScoreColor`: success from 80, warning from 60 to 79, error below 60. */
  function ScoreColor(score: int): (r: string)
    ensures r == "text-success" <==> 80 <= score
    ensures r == "text-warning" <==> 60 <= score < 80
    ensures r == "text-error" <==> score < 60
  {
    if score >= 80 then "text-success"
    else if score >= 60 then "text-warning"
    else "text-error"
  }

  /**
   * `getScoreLabel`. The bands are the half-open ranges below 40, 40 to 59,
   * 60 to 79 and from 80.
   */
  function ScoreLabel(score: int): (r: string)
    ensures r == "Excellent" <==> 80 <= score
    ensures r == "Good" <==> 60 <= score < 80
    ensures r == "Needs Work" <==> 40 <= score < 60
    ensures r == "Poor" <==> score < 40
  {
    if score >= 80 then "Excellent"
    else if score >= 60 then "Good"
    else if score >= 40 then "Needs Work"
    else "Poor"
  }

  /** The labels from worst to best. */
  const Labels: seq<string> := ["Poor", "Needs Work", "Good", "Excellent"]

  /** The band a score falls in: the index of its label in Labels. */
  function Band(score: int): (b: nat)
    ensures b < 4 && Labels[b] == ScoreLabel(score)
  {
    if score >= 80 then 3 else if score >= 60 then 2 else if score >= 40 then 1 else 0
  }

  /** A higher score never gets a worse label. */
  lemma LabelMonotone(a: int, b: int)
    requires a <= b
    ensures Band(a) <= Band(b)
  {
  }

  /** The colour follows the label: success for Excellent, warning for Good, error below. */
  lemma ColourMatchesLabel(score: int)
    ensures ScoreColor(score) == "text-success" <==> ScoreLabel(score) == "Excellent"
    ensures ScoreColor(score) == "text-warning" <==> ScoreLabel(score) == "Good"
    ensures ScoreColor(score) == "text-error" <==> ScoreLabel(score) in {"Needs Work", "Poor"}
  {
  }

  // ---------------------------------------------------------------------------
  // Header and accordion

  /** The header line: a success message, or the count with "Issue" pluralised. */
  function HeaderText(count: nat): (r: string)
    ensures count == 0 ==> r == "All checks passed!"
    ensures count > 0 ==> r == NumberToString(count) + (if count == 1 then " Issue Found" else " Issues Found")
  {
    if count == 0 then "All checks passed!"
    else NumberToString(count) + " Issue" + (if count != 1 then "s" else "") + " Found"
  }

  /** The header's count is read off the regrouped list, which has the input's length. */
  lemma HeaderCountsIssues(issues: seq<Issue>)
    ensures HeaderText(|Regroup(issues)|) == HeaderText(|issues|)
  {
  }

  /** The header ends in "Issue Found" only for one issue. */
  lemma HeaderSingular(count: nat)
    ensures count > 0 ==> (HeaderText(count) == NumberToString(count) + " Issue Found" <==> count == 1)
  {
    if count > 1 {
      var d := NumberToString(count);
      assert HeaderText(count)[|d| + 6] == 's';
      assert (d + " Issue Found")[|d| + 6] == ' ';
    }
  }

  /** In a header with a count, the digits run up to the first space. */
  lemma HeaderDigits(count: nat)
    requires count > 0
    ensures var d := NumberToString(count);
      |d| < |HeaderText(count)| && HeaderText(count)[..|d|] == d && HeaderText(count)[|d|] == ' '
  {
  }

  /** Different counts give different headers: the count can be read back. */
  lemma HeaderInjective(a: nat, b: nat)
    ensures HeaderText(a) == HeaderText(b) ==> a == b
  {
    if HeaderText(a) == HeaderText(b) {
      if a > 0 && b > 0 {
        HeaderDigits(a);
        HeaderDigits(b);
        var h, da, db := HeaderText(a), NumberToString(a), NumberToString(b);
        if |da| == |db| {
          assert da == h[..|da|] == db;
          NumberToStringInjective(a, b);
        }
      } else if a > 0 {
        HeaderDigits(a);
      } else if b > 0 {
        HeaderDigits(b);
      }
    }
  }

  /** The value of accordion item `index`: `issue-${index}`. */
  function ItemValue(index: nat): (r: string)
    ensures |r| > 6 && r[..6] == "issue-"
  {
    "issue-" + NumberToString(index)
  }

  lemma ItemValueInjective(a: nat, b: nat)
    ensures ItemValue(a) == ItemValue(b) ==> a == b
  {
    if ItemValue(a) == ItemValue(b) {
      assert NumberToString(a) == ItemValue(a)[6..];
      NumberToStringInjective(a, b);
    }
  }

  /** `criticalIssues.map((_, i) => `issue-${i}`)`: the items that start open. */
  function DefaultOpen(issues: seq<Issue>): seq<string> {
    seq(|OfSeverity(issues, Critical)|, i requires 0 <= i => ItemValue(i))
  }

  /**
   * The items that start open are exactly those showing a critical issue:
   * the default values are indices into the critical filter, and the
   * regrouped list puts those issues first.
   */
  lemma DefaultOpenIsCritical(issues: seq<Issue>, index: nat)
    requires index < |Regroup(issues)|
    ensures ItemValue(index) in DefaultOpen(issues) <==> Regroup(issues)[index].severity == Critical
  {
    var c := OfSeverity(issues, Critical);
    var r := Regroup(issues);
    var open := DefaultOpen(issues);
    if index < |c| {
      assert r[index] == c[index];
      assert open[index] == ItemValue(index);
    } else {
      assert r[index] == (OfSeverity(issues, Warning) + OfSeverity(issues, Info))[index - |c|];
      if ItemValue(index) in open {
        var k :| 0 <= k < |open| && open[k] == ItemValue(index);
        ItemValueInjective(k, index);
      }
    }
  }

  /** The badge text of each severity; the three are distinct. */
  function PriorityLabel(s: Severity): (r: string)
    ensures s == Critical <==> r == "High Priority"
    ensures s == Warning <==> r == "Medium Priority"
    ensures s == Info <==> r == "Low Priority"
  {
    match s
    case Critical => "High Priority"
    case Warning => "Medium Priority"
    case Info => "Low Priority"
  }

  /** A page with no tags at all gets the lowest label the analyzer can produce. */
  lemma EmptyPageIsPoor()
    ensures ScoreLabel(Evaluation.Score(NoTags)) == "Poor"
  {
    Evaluation.AllAbsent();
  }

  /** Since the score never drops below 37, "Poor" is only ever shown for 37, 38 or 39. */
  lemma PoorIsNarrow(t: MetaTags)
    ensures ScoreLabel(Evaluation.Score(t)) == "Poor" <==> 37 <= Evaluation.Score(t) <= 39
  {
  }

  /** A page that passes every check shows "Excellent" and the all-clear header. */
  lemma CleanPageIsExcellent(t: MetaTags)
    requires Evaluation.WellConfigured(t)
    ensures ScoreLabel(Evaluation.Score(t)) == "Excellent"
    ensures HeaderText(|Evaluation.IssuesOf(Evaluation.Fired(t), t)|) == "All checks passed!"
  {
    Evaluation.CleanPage(t);
  }
}
