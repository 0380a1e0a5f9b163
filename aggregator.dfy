/**
  The result formatter at the end of `run_analysis` in app.py: it turns the
  crew's final output into the dictionary `{findings, recommendations}`.
  First tier: parse the text as a JSON object and read the two keys.
  Second tier, when that raises: split the text into blank-line separated
  sections and classify each one by a case-insensitive substring test.
  `json.loads` is not modelled; it is a parameter `loads` that either
  fails (None) or yields some JSON value.
 */
module Aggregator {
  import opened Wrappers
  import opened Text

  /** A value `json.loads` can produce. Numbers keep their literal text. */
  datatype Json =
    | Null
    | Bool(b: bool)
    | Number(literal: string)
    | Str(s: string)
    | Array(items: seq<Json>)
    | Object(fields: map<string, Json>)

  /** What `crew.kickoff` handed back: a `str`, or an object of another type. */
  datatype CrewOutput = TextOutput(text: string) | OtherOutput

  /** The dictionary `run_analysis` returns; each value is whatever was stored under its key. */
  datatype Report = Report(findings: Json, recommendations: Json)

  const FINDINGS_KEY := "findings"
  const RECOMMENDATIONS_KEY := "recommendations"
  const SECTION_SEPARATOR := "\n\n"
  const FINDING_TOKEN := "finding"
  const RECOMMENDATION_TOKEN := "recommendation"

  /** The initial `formatted_result`: two empty lists. */
  const EMPTY_REPORT := Report(Array([]), Array([]))

  /** A Python list of `str`, as a JSON array of strings. */
  function StringList(xs: seq<string>): (j: Json)
    ensures j.Array? && |j.items| == |xs|
    ensures forall i :: 0 <= i < |xs| ==> j.items[i] == Str(xs[i])
  {
    Array(seq(|xs|, i requires 0 <= i < |xs| => Str(xs[i])))
  }

  /** `parsed.get(key, [])` on a dictionary. */
  function GetOrEmpty(fields: map<string, Json>, key: string): Json {
    if key in fields then fields[key] else Array([])
  }

  /**
    The JSON tier. Only a JSON object parses to a value with `.get`; a
    failed parse, or any other JSON value (whose `.get` raises
    AttributeError), makes the bare `except` take over: None here.
   */
  function Structured(text: string, loads: string -> Option<Json>): (r: Option<Report>)
    ensures r.Some? <==> loads(text).Some? && loads(text).value.Object?
  {
    match loads(text)
    case Some(Object(fields)) =>
      Some(Report(GetOrEmpty(fields, FINDINGS_KEY), GetOrEmpty(fields, RECOMMENDATIONS_KEY)))
    case _ => None
  }

  /** `'finding' in section.lower()` */
  predicate IsFinding(section: string) {
    Contains(Lower(section), FINDING_TOKEN)
  }

  /** The `elif` branch: only reached by sections that are not findings. */
  predicate IsRecommendation(section: string) {
    !IsFinding(section) && Contains(Lower(section), RECOMMENDATION_TOKEN)
  }

  /** `result.split('\n\n')` */
  function Sections(text: string): seq<string> {
    Split(text, SECTION_SEPARATOR)
  }

  /** The elements of `s` for which `keep` holds, in their original order. */
  function Filter(s: seq<string>, keep: string -> bool): seq<string> {
    if s == [] then []
    else
      var last := s[|s| - 1];
      Filter(s[..|s| - 1], keep) + (if keep(last) then [last] else [])
  }

  /** The sections appended to `findings`, in order. */
  function Findings(sections: seq<string>): seq<string> {
    Filter(sections, IsFinding)
  }

  /** The sections appended to `recommendations`, in order. */
  function Recommendations(sections: seq<string>): seq<string> {
    Filter(sections, IsRecommendation)
  }

  /** A section that matches neither test. */
  predicate IsDropped(section: string) {
    !IsFinding(section) && !IsRecommendation(section)
  }

  /** The sections that match neither test and are discarded. */
  function Dropped(sections: seq<string>): seq<string> {
    Filter(sections, IsDropped)
  }

  lemma {:induction false} FilterMembership(s: seq<string>, keep: string -> bool)
    ensures forall x :: x in Filter(s, keep) <==> x in s && keep(x)
  {
    if s != [] {
      var init := s[..|s| - 1];
      FilterMembership(init, keep);
      assert s == init + [s[|s| - 1]];
    }
  }

  /** Filtering a non-empty sequence adds its last element to what the prefix gives, when kept. */
  lemma FilterStep(s: seq<string>, keep: string -> bool)
    requires s != []
    ensures multiset(Filter(s, keep)) ==
      multiset(Filter(s[..|s| - 1], keep)) + (if keep(s[|s| - 1]) then multiset{s[|s| - 1]} else multiset{})
  {
  }

  lemma {:induction false} FilterSplitsInThree(s: seq<string>, p: string -> bool, q: string -> bool, r: string -> bool)
    requires forall x :: (p(x) ==> !q(x) && !r(x)) && (q(x) ==> !r(x)) && (p(x) || q(x) || r(x))
    ensures multiset(Filter(s, p)) + multiset(Filter(s, q)) + multiset(Filter(s, r)) == multiset(s)
  {
    if s != [] {
      var init, last := s[..|s| - 1], s[|s| - 1];
      FilterSplitsInThree(init, p, q, r);
      assert s == init + [last];
      assert multiset(s) == multiset(init) + multiset{last};
      FilterStep(s, p);
      FilterStep(s, q);
      FilterStep(s, r);
    }
  }

  lemma {:induction false} FilterInOrder(s: seq<string>, keep: string -> bool) returns (picked: seq<nat>)
    ensures PickedInOrder(Filter(s, keep), s, picked)
    ensures forall k :: 0 <= k < |s| ==> (keep(s[k]) <==> k in picked)
  {
    if s == [] {
      picked := [];
    } else {
      var n := |s| - 1;
      var init := s[..n];
      var p := FilterInOrder(init, keep);
      assert s == init + [s[n]];
      if keep(s[n]) {
        assert Filter(s, keep) == Filter(init, keep) + [s[n]];
        picked := p + [n];
        PickedExtend(Filter(init, keep), init, p, s[n], true);
      } else {
        assert Filter(s, keep) == Filter(init, keep);
        picked := p;
        PickedExtend(Filter(init, keep), init, p, s[n], false);
      }
      forall k | 0 <= k < |s| ensures keep(s[k]) <==> k in picked {
        if k < n {
          assert s[k] == init[k];
        }
      }
    }
  }

  /** Appending one element to the sequence keeps the picked positions valid, and may pick it. */
  lemma PickedExtend(sub: seq<string>, init: seq<string>, picked: seq<nat>, x: string, pick: bool)
    requires PickedInOrder(sub, init, picked)
    ensures pick ==> PickedInOrder(sub + [x], init + [x], picked + [|init|])
    ensures !pick ==> PickedInOrder(sub, init + [x], picked)
    ensures forall k :: k in picked ==> k < |init|
  {
    assert forall i :: 0 <= i < |picked| ==> (init + [x])[picked[i]] == init[picked[i]];
  }

  /** The heuristic tier. */
  function Heuristic(text: string): Report {
    Report(StringList(Findings(Sections(text))), StringList(Recommendations(Sections(text))))
  }

  /** What the formatting block of `run_analysis` returns. */
  function Formatted(result: CrewOutput, loads: string -> Option<Json>): Report {
    match result
    case OtherOutput => EMPTY_REPORT
    case TextOutput(text) =>
      match Structured(text, loads)
      case Some(report) => report
      case None => Heuristic(text)
  }

  /**
    The formatting block, statement by statement: start from two empty
    lists, try the JSON tier, otherwise walk the sections and append.
   */
  method FormatResult(result: CrewOutput, loads: string -> Option<Json>) returns (report: Report)
    ensures report == Formatted(result, loads)
    ensures result.OtherOutput? ==> report == EMPTY_REPORT
    ensures result.TextOutput? && loads(result.text).Some? && loads(result.text).value.Object? ==>
      var fields := loads(result.text).value.fields;
      report == Report(GetOrEmpty(fields, FINDINGS_KEY), GetOrEmpty(fields, RECOMMENDATIONS_KEY))
    ensures result.TextOutput? && !(loads(result.text).Some? && loads(result.text).value.Object?) ==>
      var sections := Split(result.text, SECTION_SEPARATOR);
      report == Report(StringList(Findings(sections)), StringList(Recommendations(sections)))
  {
    report := EMPTY_REPORT;
    if result.TextOutput? {
      var parsed := loads(result.text);
      if parsed.Some? && parsed.value.Object? {
        var fields := parsed.value.fields;
        report := Report(GetOrEmpty(fields, FINDINGS_KEY), GetOrEmpty(fields, RECOMMENDATIONS_KEY));
      } else {
        var sections := Split(result.text, SECTION_SEPARATOR);
        var findings: seq<string> := [];
        var recommendations: seq<string> := [];
        for k := 0 to |sections|
          invariant findings == Findings(sections[..k])
          invariant recommendations == Recommendations(sections[..k])
        {
          var section := sections[k];
          assert sections[..k + 1][..k] == sections[..k];
          var lowered := Lower(section);
          if Contains(lowered, FINDING_TOKEN) {
            findings := findings + [section];
          } else if Contains(lowered, RECOMMENDATION_TOKEN) {
            recommendations := recommendations + [section];
          }
        }
        assert sections[..|sections|] == sections;
        report := Report(StringList(findings), StringList(recommendations));
      }
    }
  }

  /** `picked` lists, in increasing order, the indices in `sections` of the entries of `sub`. */
  ghost predicate PickedInOrder(sub: seq<string>, sections: seq<string>, picked: seq<nat>) {
    && |picked| == |sub|
    && (forall i :: 0 <= i < |picked| ==> picked[i] < |sections| && sub[i] == sections[picked[i]])
    && (forall i, j :: 0 <= i < j < |picked| ==> picked[i] < picked[j])
  }

  /**
    Both directions of the classification: a section is among the findings
    exactly when it is a section whose lower-case form contains "finding";
    among the recommendations exactly when it contains "recommendation" but
    not "finding". No section is in both lists.
   */
  lemma ClassifiedMembership(sections: seq<string>)
    ensures forall x :: x in Findings(sections) <==> x in sections && IsFinding(x)
    ensures forall x :: x in Recommendations(sections) <==>
      x in sections && !IsFinding(x) && Contains(Lower(x), RECOMMENDATION_TOKEN)
    ensures forall x :: !(x in Findings(sections) && x in Recommendations(sections))
  {
    FilterMembership(sections, IsFinding);
    FilterMembership(sections, IsRecommendation);
  }

  /**
    Nothing lost or duplicated: findings, recommendations and discarded
    sections together are exactly the sections, so at most as many entries
    as sections end up in the report.
   */
  lemma Partition(sections: seq<string>)
    ensures multiset(Findings(sections)) + multiset(Recommendations(sections)) + multiset(Dropped(sections))
      == multiset(sections)
    ensures |Findings(sections)| + |Recommendations(sections)| <= |sections|
  {
    FilterSplitsInThree(sections, IsFinding, IsRecommendation, IsDropped);
    var f, r, d := Findings(sections), Recommendations(sections), Dropped(sections);
    assert |multiset(f) + multiset(r) + multiset(d)| == |f| + |r| + |d|;
    assert |multiset(sections)| == |sections|;
  }

  /**
    `findings` is the in-order subsequence of the sections at exactly the
    positions whose section is a finding.
   */
  lemma FindingsInOrder(sections: seq<string>) returns (picked: seq<nat>)
    ensures PickedInOrder(Findings(sections), sections, picked)
    ensures forall k :: 0 <= k < |sections| ==> (IsFinding(sections[k]) <==> k in picked)
  {
    picked := FilterInOrder(sections, IsFinding);
  }

  /**
    `recommendations` is the in-order subsequence of the sections at exactly
    the positions whose section mentions "recommendation" but not "finding".
   */
  lemma RecommendationsInOrder(sections: seq<string>) returns (picked: seq<nat>)
    ensures PickedInOrder(Recommendations(sections), sections, picked)
    ensures forall k :: 0 <= k < |sections| ==>
      (!IsFinding(sections[k]) && Contains(Lower(sections[k]), RECOMMENDATION_TOKEN) <==> k in picked)
  {
    picked := FilterInOrder(sections, IsRecommendation);
  }

  /** The heuristic tier never loses text: re-joining its sections gives back the result string. */
  lemma SectionsRejoin(text: string)
    ensures Join(Sections(text), SECTION_SEPARATOR) == text
  {
    JoinSplit(text, SECTION_SEPARATOR);
  }

  /** A section is a finding exactly when it holds "finding" in any mix of cases. */
  lemma FindingInAnyCase(section: string)
    ensures IsFinding(section) <==> exists j: nat :: MatchesAnyCaseAt(section, FINDING_TOKEN, j)
  {
    ContainsIgnoringCase(section, FINDING_TOKEN);
  }

  /**
    A section is a recommendation exactly when it holds "recommendation" in
    any mix of cases and does not hold "finding" in any case.
   */
  lemma RecommendationInAnyCase(section: string)
    ensures IsRecommendation(section) <==>
      && !(exists j: nat :: MatchesAnyCaseAt(section, FINDING_TOKEN, j))
      && (exists j: nat :: MatchesAnyCaseAt(section, RECOMMENDATION_TOKEN, j))
  {
    ContainsIgnoringCase(section, FINDING_TOKEN);
    ContainsIgnoringCase(section, RECOMMENDATION_TOKEN);
  }

  /**
    Three newlines in a row: the cut is at the first two, so the first
    section is empty and the second holds the remaining newline.
   */
  lemma ThreeNewlines(text: string)
    requires text == "\n\n\n"
    ensures Sections(text) == ["", "\n"]
  {
    var parts := ["", "\n"];
    assert Join(parts, SECTION_SEPARATOR) == text;
    assert "" + SECTION_SEPARATOR[..1] == "\n";
    SplitUnique(text, SECTION_SEPARATOR, parts);
  }

  lemma KeyFindingIsFinding(section: string)
    requires section == "Key finding: churn rose."
    ensures IsFinding(section)
  {
    var lowered := Lower(section);
    LowerAppend("K", "ey finding: churn rose.");
    LowerOfLower("ey finding: churn rose.");
    assert lowered == "key " + FINDING_TOKEN + ": churn rose.";
    ContainsWitness(lowered, FINDING_TOKEN, 4);
  }

  lemma NeitherTokenIn(lowered: string)
    requires lowered == "we recommend adding alerts."
    ensures !Contains(lowered, FINDING_TOKEN) && !Contains(lowered, RECOMMENDATION_TOKEN)
  {
    AbsentFirstChar(lowered, FINDING_TOKEN);
    // a match at j would put the token's 't' (index 10) at j + 10, inside this 't'-free stretch
    var window := lowered[10..24];
    assert window == "nd adding aler";
    assert 't' !in window;
    forall j: nat | j + 14 <= |lowered| ensures !OccursAt(lowered, RECOMMENDATION_TOKEN, j) {
      assert lowered[j..j + 14][10] == lowered[j + 10] == window[j];
    }
  }

  lemma RecommendOnlyIsDropped(section: string)
    requires section == "We recommend adding alerts."
    ensures IsDropped(section)
  {
    LowerAppend("W", "e recommend adding alerts.");
    LowerOfLower("e recommend adding alerts.");
    NeitherTokenIn(Lower(section));
  }

  /**
    The two-section text "Key finding: churn rose." / "We recommend adding
    alerts.": when it does not parse as JSON, the first section becomes the
    only finding and the second is discarded, because "recommend" alone is
    not the substring "recommendation".
   */
  lemma RecommendWithoutTokenIsDropped(first: string, second: string, loads: string -> Option<Json>)
    requires first == "Key finding: churn rose." && second == "We recommend adding alerts."
    requires loads(first + SECTION_SEPARATOR + second).None?
    ensures Formatted(TextOutput(first + SECTION_SEPARATOR + second), loads)
      == Report(StringList([first]), StringList([]))
  {
    ExampleSections(first, second);
    KeyFindingIsFinding(first);
    RecommendOnlyIsDropped(second);
    FilterPair(first, second, IsFinding);
    FilterPair(first, second, IsRecommendation);
  }

  lemma ExampleSections(first: string, second: string)
    requires first == "Key finding: churn rose." && second == "We recommend adding alerts."
    ensures Sections(first + SECTION_SEPARATOR + second) == [first, second]
  {
    AbsentFirstChar(second, SECTION_SEPARATOR);
    SplitAround(first, SECTION_SEPARATOR, second);
  }

  lemma FilterPair(a: string, b: string, keep: string -> bool)
    ensures Filter([a, b], keep) == (if keep(a) then [a] else []) + (if keep(b) then [b] else [])
  {
    assert [a, b][..1] == [a] && [a][..0] == [];
    assert Filter([a], keep) == (if keep(a) then [a] else []);
  }
}
