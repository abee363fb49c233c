/** Summary composition: the paragraph simplifier (`_simplify_text`), the study-type
    cascades, the section split of structured abstracts, the Chinese narrative
    (`generate_chinese_summary`) and the per-article card (`generate_article_summary`).
    Section patterns are parameters: a search over the abstract yielding capture
    group 1, or `None`. */
module Summary {
  import opened Options
  import opened Text
  import opened Tables
  import opened Records
  import opened Trends
  import opened PicoExtraction

  // ---------------------------------------------------------------- simplifier

  /** `_simplify_text(text)` with its default `max_length` of 300. */
  function Simplify(text: string): string {
    var c := Collapse(text);
    if |c| > 300 then
      var cut := LastIndexBefore(c, '.', 300);
      if cut > 150 then c[..cut + 1] else c[..300] + "..."
    else c
  }

  /** Whitespace is collapsed first; a collapsed text of at most 300 characters is
      returned as it is; a longer one is cut after the last '.' before index 300 when
      that '.' lies past the midpoint (index 151 or later), giving 152 to 300
      characters, and is otherwise cut to 300 characters followed by "...". */
  lemma SimplifyCases(text: string)
    ensures var c := Collapse(text); var r := Simplify(text);
      (|c| <= 300 ==> r == c)
      && (|c| > 300 && (exists j :: 151 <= j < 300 && c[j] == '.') ==>
            152 <= |r| <= 300 && r == c[..|r|] && r[|r| - 1] == '.'
            && forall j :: |r| <= j < 300 ==> c[j] != '.')
      && (|c| > 300 && (forall j :: 151 <= j < 300 ==> c[j] != '.') ==> r == c[..300] + "...")
  {
    var c := Collapse(text);
    if |c| > 300 {
      var cut := LastIndexBefore(c, '.', 300);
      assert Simplify(text) == if cut > 150 then c[..cut + 1] else c[..300] + "...";
      if exists j :: 151 <= j < 300 && c[j] == '.' {
        var j :| 151 <= j < 300 && c[j] == '.';
        assert cut >= j;
      }
    }
  }

  /** The simplified text has no leading or trailing whitespace, no whitespace run and
      no whitespace but single blanks, and is at most 303 characters long. */
  lemma SimplifyShape(text: string)
    ensures var r := Simplify(text);
      NoEdgeSpace(r) && NoSpaceRun(r) && OnlyBlanks(r) && |r| <= 303
  {
    var c := Collapse(text);
    CollapseShape(text);
    if |c| > 300 {
      var cut := LastIndexBefore(c, '.', 300);
      if cut > 150 {
        SliceShape(c, 0, cut + 1);
        assert c[0..cut + 1] == c[..cut + 1];
      } else {
        SliceShape(c, 0, 300);
        assert c[0..300] == c[..300];
        DotsShape(c[..300]);
      }
    }
  }

  /** Appending "..." to a text keeps it free of whitespace runs and non-blank
      whitespace, and leaves it ending in a non-whitespace character. */
  lemma DotsShape(p: string)
    requires NoSpaceRun(p) && OnlyBlanks(p)
    ensures NoSpaceRun(p + "...") && OnlyBlanks(p + "...") && !IsSpace((p + "...")[|p| + 2])
  {
    var r := p + "...";
    forall i | 0 <= i < |r| - 1 ensures !(IsSpace(r[i]) && IsSpace(r[i + 1])) {
      if i + 1 < |p| {
        assert r[i] == p[i] && r[i + 1] == p[i + 1];
      } else {
        assert r[i + 1] == '.';
      }
    }
    forall i | 0 <= i < |r| ensures IsSpace(r[i]) ==> r[i] == ' ' {
      if i < |p| {
        assert r[i] == p[i];
      }
    }
  }

  lemma CollapseFixesNormal(s: string)
    requires NoEdgeSpace(s) && NoSpaceRun(s) && OnlyBlanks(s)
    ensures Collapse(s) == s
  {
    SqueezeFixesNormal(s);
    assert TrimStart(s) == s;
    assert TrimEnd(s) == s;
  }

  /** A simplified text of at most 300 characters is left as it is by a second pass
      (only the "..." form, 303 characters long, is cut again). */
  lemma SimplifyStable(text: string)
    requires |Simplify(text)| <= 300
    ensures Simplify(Simplify(text)) == Simplify(text)
  {
    SimplifyShape(text);
    CollapseFixesNormal(Simplify(text));
  }

  // ---------------------------------------------------------------- study type

  datatype StudyType = RandomizedTrial | MetaAnalysis | SystematicReview | Cohort | CaseControl | Unclassified

  /** `any(needle in pt for pt in pub_types)`. */
  predicate AnyContains(pubTypes: seq<string>, needle: string) {
    exists i :: 0 <= i < |pubTypes| && Contains(pubTypes[i], needle)
  }

  /** The priority cascade, with the two needles tested against the lower-cased abstract. */
  function Classify(pubTypes: seq<string>, abstractText: string, cohortNeedle: string, caseControlNeedle: string): StudyType {
    if AnyContains(pubTypes, "Randomized Controlled Trial") then RandomizedTrial
    else if AnyContains(pubTypes, "Meta-Analysis") then MetaAnalysis
    else if AnyContains(pubTypes, "Systematic Review") then SystematicReview
    else if Contains(Lower(abstractText), cohortNeedle) then Cohort
    else if Contains(Lower(abstractText), caseControlNeedle) then CaseControl
    else Unclassified
  }

  /** The five tests of the cascade, in priority order, and the type each one selects. */
  function Rules(pubTypes: seq<string>, abstractText: string, cohortNeedle: string, caseControlNeedle: string): seq<bool> {
    [AnyContains(pubTypes, "Randomized Controlled Trial"), AnyContains(pubTypes, "Meta-Analysis"),
     AnyContains(pubTypes, "Systematic Review"), Contains(Lower(abstractText), cohortNeedle),
     Contains(Lower(abstractText), caseControlNeedle)]
  }

  const Ranked: seq<StudyType> := [RandomizedTrial, MetaAnalysis, SystematicReview, Cohort, CaseControl]

  /** Strict priority: the type of the first test that holds, the default when none does. */
  lemma ClassifyFirstRule(pubTypes: seq<string>, abstractText: string, cn: string, ccn: string, i: nat)
    requires i < 5
    ensures var rules := Rules(pubTypes, abstractText, cn, ccn);
      (Classify(pubTypes, abstractText, cn, ccn) == Ranked[i] <==> rules[i] && forall j :: 0 <= j < i ==> !rules[j])
      && (Classify(pubTypes, abstractText, cn, ccn) == Unclassified <==> forall j :: 0 <= j < 5 ==> !rules[j])
  {
    var rules := Rules(pubTypes, abstractText, cn, ccn);
    assert forall j :: 0 <= j < 5 ==> rules[j] == [rules[0], rules[1], rules[2], rules[3], rules[4]][j];
  }

  /** The classification of `generate_chinese_summary`, and (with the corrected
      lower-case needles) of the article card. */
  function StudyTypeOf(pubTypes: seq<string>, abstractText: string): StudyType {
    Classify(pubTypes, abstractText, "cohort", "case-control")
  }

  /** The card's cascade as written: capitalised needles against the lower-cased abstract. */
  function CardStudyTypeAsWritten(pubTypes: seq<string>, abstractText: string): StudyType {
    Classify(pubTypes, abstractText, "Cohort", "Case-Control")
  }

  /** As written, the card never reports a cohort or case-control study: a lower-cased
      text cannot contain a needle with a capital letter. */
  lemma CardStudyTypeNeverCohort(pubTypes: seq<string>, abstractText: string)
    ensures CardStudyTypeAsWritten(pubTypes, abstractText) != Cohort
    ensures CardStudyTypeAsWritten(pubTypes, abstractText) != CaseControl
  {
    LowerMissesUpper(abstractText, "Cohort", 0);
    LowerMissesUpper(abstractText, "Case-Control", 0);
  }

  /** An abstract that describes a cohort: the card as written leaves it unclassified,
      the narrative and the corrected card call it a cohort study. */
  lemma CardStudyTypeCounterexample()
    ensures CardStudyTypeAsWritten([], "A cohort of adults") == Unclassified
    ensures StudyTypeOf([], "A cohort of adults") == Cohort
  {
    var low := Lower("A cohort of adults");
    assert low[2..8] == "cohort";
    assert OccursAt(low, "cohort", 2);
    CardStudyTypeNeverCohort([], "A cohort of adults");
  }

  /** The card's cascade as written differs from the corrected one only where the
      corrected one finds a cohort or case-control study: there it falls through to
      the unclassified default. */
  lemma CardStudyTypeDrops(pubTypes: seq<string>, abstractText: string)
    ensures var fixed := StudyTypeOf(pubTypes, abstractText);
      CardStudyTypeAsWritten(pubTypes, abstractText)
      == (if fixed == Cohort || fixed == CaseControl then Unclassified else fixed)
  {
    CardStudyTypeNeverCohort(pubTypes, abstractText);
  }

  /** The opening of the narrative (`study_type` in `generate_chinese_summary`). */
  function NarrativeLabel(t: StudyType): string {
    match t
    case RandomizedTrial => "本隨機對照試驗"
    case MetaAnalysis => "本統合分析"
    case SystematicReview => "本系統性回顧"
    case Cohort => "本世代研究"
    case CaseControl => "本病例對照研究"
    case Unclassified => "本研究"
  }

  /** The card's `研究類型` value. */
  function CardLabel(t: StudyType): string {
    match t
    case RandomizedTrial => "隨機對照試驗"
    case MetaAnalysis => "統合分析"
    case SystematicReview => "系統性回顧"
    case Cohort => "世代研究"
    case CaseControl => "病例對照研究"
    case Unclassified => "研究"
  }

  // ---------------------------------------------------------------- sections

  /** A section pattern (search yielding capture group 1) and the section's name. */
  type SectionPattern = (string -> Option<string>, string)

  function SectionNames(pats: seq<SectionPattern>): seq<string> {
    seq(|pats|, i requires 0 <= i < |pats| => pats[i].1)
  }

  /** `match.group(1).strip()`, cut to `limit` characters when there is one. */
  function SectionValue(capture: string, limit: Option<nat>): (r: string)
    ensures limit.Some? ==> |r| <= limit.value
  {
    match limit
    case None => Strip(capture)
    case Some(n) => Take(Strip(capture), n)
  }

  /** What one pattern contributes: its section value when it matches. */
  function SectionEntry(p: SectionPattern, abstractText: string, limit: Option<nat>): Option<string> {
    match p.0(abstractText)
    case None => None
    case Some(g) => Some(SectionValue(g, limit))
  }

  /** Each pattern's name with what it contributes, in pattern order. */
  function Found(pats: seq<SectionPattern>, abstractText: string, limit: Option<nat>): (r: seq<(string, Option<string>)>)
    ensures |r| == |pats|
  {
    seq(|pats|, i requires 0 <= i < |pats| => (pats[i].1, SectionEntry(pats[i], abstractText, limit)))
  }

  /** The dictionary the loop fills: `sections[name] = value` for every match, in order. */
  function Fill(found: seq<(string, Option<string>)>): seq<(string, string)> {
    if found == [] then []
    else
      var prev := Fill(found[..|found| - 1]);
      var last := found[|found| - 1];
      match last.1
      case None => prev
      case Some(v) => Put(prev, last.0, v)
  }

  /** The `sections` dictionary after the loop over the section patterns. */
  function Sections(pats: seq<SectionPattern>, abstractText: string, limit: Option<nat>): (r: seq<(string, string)>)
    ensures forall k :: Get(r, k).Some? && limit.Some? ==> |Get(r, k).value| <= limit.value
  {
    var found := Found(pats, abstractText, limit);
    if limit.Some? then FillBound(found, limit.value); Fill(found) else Fill(found)
  }

  /** Values no longer than `n` fill a dictionary whose values are no longer than `n`. */
  lemma {:induction false} FillBound(found: seq<(string, Option<string>)>, n: nat)
    requires forall j :: 0 <= j < |found| && found[j].1.Some? ==> |found[j].1.value| <= n
    ensures forall k :: Get(Fill(found), k).Some? ==> |Get(Fill(found), k).value| <= n
  {
    if found != [] {
      var init := found[..|found| - 1];
      assert forall j :: 0 <= j < |init| ==> init[j] == found[j];
      FillBound(init, n);
    }
  }

  /** With distinct names, each name holds what its own entry contributes. */
  lemma {:induction false} FillLookup(found: seq<(string, Option<string>)>, i: nat)
    requires DistinctKeys(found) && i < |found|
    ensures Get(Fill(found), found[i].0) == found[i].1
  {
    var n := |found| - 1;
    var init := found[..n];
    if i < n {
      assert Keys(found)[i] != Keys(found)[n];
      assert init[i] == found[i];
      assert DistinctKeys(init) by {
        forall a, b | 0 <= a < b < |init| ensures Keys(init)[a] != Keys(init)[b] {
          assert Keys(init)[a] == Keys(found)[a] && Keys(init)[b] == Keys(found)[b];
        }
      }
      FillLookup(init, i);
    } else {
      forall j | 0 <= j < n ensures init[j].0 != found[n].0 {
        assert Keys(found)[j] != Keys(found)[n];
      }
      FillAbsent(init, found[n].0);
    }
  }

  /** A name no entry carries is never present. */
  lemma {:induction false} FillAbsent(found: seq<(string, Option<string>)>, name: string)
    requires forall j :: 0 <= j < |found| ==> found[j].0 != name
    ensures Get(Fill(found), name).None?
  {
    if found != [] {
      var init := found[..|found| - 1];
      assert forall j :: 0 <= j < |init| ==> init[j] == found[j];
      FillAbsent(init, name);
    }
  }

  /** With distinct section names, a section is present exactly when its pattern
      matched, holding that pattern's stripped (and cut) capture. */
  lemma SectionLookup(pats: seq<SectionPattern>, abstractText: string, limit: Option<nat>, i: nat)
    requires Distinct(SectionNames(pats)) && i < |pats|
    ensures Get(Sections(pats, abstractText, limit), pats[i].1) == SectionEntry(pats[i], abstractText, limit)
  {
    var found := Found(pats, abstractText, limit);
    forall a, b | 0 <= a < b < |found| ensures Keys(found)[a] != Keys(found)[b] {
      assert SectionNames(pats)[a] != SectionNames(pats)[b];
    }
    FillLookup(found, i);
  }

  /** Names of no pattern are never present. */
  lemma SectionAbsent(pats: seq<SectionPattern>, abstractText: string, limit: Option<nat>, name: string)
    requires forall j :: 0 <= j < |pats| ==> pats[j].1 != name
    ensures Get(Sections(pats, abstractText, limit), name).None?
  {
    FillAbsent(Found(pats, abstractText, limit), name);
  }

  /** The section loop shared by both summaries. */
  method SplitSections(pats: seq<SectionPattern>, abstractText: string, limit: Option<nat>)
    returns (sections: seq<(string, string)>)
    ensures sections == Sections(pats, abstractText, limit)
  {
    ghost var found := Found(pats, abstractText, limit);
    sections := [];
    var i := 0;
    while i < |pats|
      invariant 0 <= i <= |pats|
      invariant sections == Fill(found[..i])
    {
      var entry := SectionEntry(pats[i], abstractText, limit);
      assert found[..i + 1][..i] == found[..i];
      assert found[..i + 1][i] == (pats[i].1, entry);
      if entry.Some? {
        sections := Put(sections, pats[i].1, entry.value);
      }
      i := i + 1;
    }
    assert found[..i] == found;
  }

  // ---------------------------------------------------------------- narrative

  /** A paragraph for section `name` when present. */
  function Paragraph(sections: seq<(string, string)>, name: string, heading: string): seq<string> {
    match Get(sections, name)
    case None => []
    case Some(v) => [heading + Simplify(v)]
  }

  /** `summary_parts`: purpose (or else background), methods, results, conclusion. */
  function NarrativeParts(sections: seq<(string, string)>, lead: string): seq<string> {
    Opening(sections, lead) + Paragraph(sections, "方法", "【研究方法】")
      + Paragraph(sections, "結果", "【主要結果】") + Paragraph(sections, "結論", "【結論】")
  }

  /** The purpose paragraph, or else the background paragraph. */
  function Opening(sections: seq<(string, string)>, lead: string): seq<string> {
    match Get(sections, "目的")
    case Some(v) => ["【研究目的】" + lead + "旨在探討" + Simplify(v)]
    case None => Paragraph(sections, "背景", "【研究背景】")
  }

  /** The five names the narrative reads. */
  predicate HasNarrativeSection(sections: seq<(string, string)>) {
    Get(sections, "目的").Some? || Get(sections, "背景").Some? || Get(sections, "方法").Some?
    || Get(sections, "結果").Some? || Get(sections, "結論").Some?
  }

  /** What `generate_chinese_summary` returns. */
  function Narrative(a: Article, pats: seq<SectionPattern>): string {
    var parts := NarrativeParts(Sections(pats, a.abstractText, None), NarrativeLabel(StudyTypeOf(a.pubTypes, a.abstractText)));
    if parts != [] then Join(parts, "\n\n") else "【摘要】" + Simplify(Take(a.abstractText, 800))
  }

  /** One paragraph per section the narrative reads, in the order purpose (or else
      background), methods, results, conclusion, each the heading followed by the
      simplified section; joined by blank lines, or, when there is none, the simplified
      first 800 characters. */
  lemma NarrativeShape(a: Article, pats: seq<SectionPattern>)
    ensures var sections := Sections(pats, a.abstractText, None);
      var lead := NarrativeLabel(StudyTypeOf(a.pubTypes, a.abstractText));
      var parts := NarrativeParts(sections, lead);
      var o := if Get(sections, "目的").Some? || Get(sections, "背景").Some? then 1 else 0;
      var m := if Get(sections, "方法").Some? then 1 else 0;
      var r := if Get(sections, "結果").Some? then 1 else 0;
      var c := if Get(sections, "結論").Some? then 1 else 0;
      |parts| == o + m + r + c && |parts| <= 4
      && (parts == [] <==> !HasNarrativeSection(sections))
      && (parts != [] ==> Narrative(a, pats) == Join(parts, "\n\n"))
      && (parts == [] ==> Narrative(a, pats) == "【摘要】" + Simplify(Take(a.abstractText, 800)))
      && (Get(sections, "目的").Some? ==> parts[0] == "【研究目的】" + lead + "旨在探討" + Simplify(Get(sections, "目的").value))
      && (Get(sections, "目的").None? && Get(sections, "背景").Some? ==> parts[0] == "【研究背景】" + Simplify(Get(sections, "背景").value))
      && (Get(sections, "方法").Some? ==> parts[o] == "【研究方法】" + Simplify(Get(sections, "方法").value))
      && (Get(sections, "結果").Some? ==> parts[o + m] == "【主要結果】" + Simplify(Get(sections, "結果").value))
      && (Get(sections, "結論").Some? ==> parts[o + m + r] == "【結論】" + Simplify(Get(sections, "結論").value))
  {
    PartsShape(Sections(pats, a.abstractText, None), NarrativeLabel(StudyTypeOf(a.pubTypes, a.abstractText)));
  }

  /** The paragraphs for any section table and study-type lead. */
  lemma PartsShape(sections: seq<(string, string)>, lead: string)
    ensures var parts := NarrativeParts(sections, lead);
      var o := if Get(sections, "目的").Some? || Get(sections, "背景").Some? then 1 else 0;
      var m := if Get(sections, "方法").Some? then 1 else 0;
      var r := if Get(sections, "結果").Some? then 1 else 0;
      var c := if Get(sections, "結論").Some? then 1 else 0;
      |parts| == o + m + r + c
      && (Get(sections, "目的").Some? ==> parts[0] == "【研究目的】" + lead + "旨在探討" + Simplify(Get(sections, "目的").value))
      && (Get(sections, "目的").None? && Get(sections, "背景").Some? ==> parts[0] == "【研究背景】" + Simplify(Get(sections, "背景").value))
      && (Get(sections, "方法").Some? ==> parts[o] == "【研究方法】" + Simplify(Get(sections, "方法").value))
      && (Get(sections, "結果").Some? ==> parts[o + m] == "【主要結果】" + Simplify(Get(sections, "結果").value))
      && (Get(sections, "結論").Some? ==> parts[o + m + r] == "【結論】" + Simplify(Get(sections, "結論").value))
  {
    var w := Opening(sections, lead);
    var x := Paragraph(sections, "方法", "【研究方法】");
    var y := Paragraph(sections, "結果", "【主要結果】");
    var z := Paragraph(sections, "結論", "【結論】");
    assert NarrativeParts(sections, lead) == w + x + y + z;
    OpeningOf(sections, lead);
    ParagraphOf(sections, "方法", "【研究方法】");
    ParagraphOf(sections, "結果", "【主要結果】");
    ParagraphOf(sections, "結論", "【結論】");
    FourParts(w, x, y, z);
  }

  lemma ParagraphOf(sections: seq<(string, string)>, name: string, heading: string)
    ensures |Paragraph(sections, name, heading)| == if Get(sections, name).Some? then 1 else 0
    ensures Get(sections, name).Some? ==> Paragraph(sections, name, heading)[0] == heading + Simplify(Get(sections, name).value)
  {
  }

  lemma OpeningOf(sections: seq<(string, string)>, lead: string)
    ensures |Opening(sections, lead)| == if Get(sections, "目的").Some? || Get(sections, "背景").Some? then 1 else 0
    ensures Get(sections, "目的").Some? ==> Opening(sections, lead)[0] == "【研究目的】" + lead + "旨在探討" + Simplify(Get(sections, "目的").value)
    ensures Get(sections, "目的").None? && Get(sections, "背景").Some? ==>
      Opening(sections, lead)[0] == "【研究背景】" + Simplify(Get(sections, "背景").value)
  {
    ParagraphOf(sections, "背景", "【研究背景】");
  }

  /** Four runs of at most one paragraph each: where each run's paragraph lands. */
  lemma FourParts(w: seq<string>, x: seq<string>, y: seq<string>, z: seq<string>)
    requires |w| <= 1 && |x| <= 1 && |y| <= 1 && |z| <= 1
    ensures var p := w + x + y + z;
      |p| == |w| + |x| + |y| + |z|
      && (w != [] ==> p[0] == w[0])
      && (x != [] ==> p[|w|] == x[0])
      && (y != [] ==> p[|w| + |x|] == y[0])
      && (z != [] ==> p[|w| + |x| + |y|] == z[0])
  {
  }

  /** `generate_chinese_summary`. */
  method GenerateChineseSummary(a: Article, pats: seq<SectionPattern>) returns (s: string)
    ensures s == Narrative(a, pats)
  {
    var lead := NarrativeLabel(StudyTypeOf(a.pubTypes, a.abstractText));
    var sections := SplitSections(pats, a.abstractText, None);
    var parts: seq<string> := [];
    var purpose := Get(sections, "目的");
    if purpose.Some? {
      parts := parts + ["【研究目的】" + lead + "旨在探討" + Simplify(purpose.value)];
    } else {
      var background := Get(sections, "背景");
      if background.Some? {
        parts := parts + ["【研究背景】" + Simplify(background.value)];
      }
    }
    assert parts == Opening(sections, lead);
    var methods := Get(sections, "方法");
    if methods.Some? {
      parts := parts + ["【研究方法】" + Simplify(methods.value)];
    }
    assert parts == Opening(sections, lead) + Paragraph(sections, "方法", "【研究方法】");
    var results := Get(sections, "結果");
    if results.Some? {
      parts := parts + ["【主要結果】" + Simplify(results.value)];
    }
    assert parts == Opening(sections, lead) + Paragraph(sections, "方法", "【研究方法】")
      + Paragraph(sections, "結果", "【主要結果】");
    var conclusion := Get(sections, "結論");
    if conclusion.Some? {
      parts := parts + ["【結論】" + Simplify(conclusion.value)];
    }
    assert parts == NarrativeParts(sections, lead);
    if |parts| > 0 {
      s := Join(parts, "\n\n");
    } else {
      s := "【摘要】" + Simplify(Take(a.abstractText, 800));
    }
  }

  // ---------------------------------------------------------------- article card

  /** The tags of one taxonomy category that the article mentions, in keyword order. */
  function CategoryTags(cat: string, kws: seq<string>, a: Article): (r: seq<string>)
    ensures |r| <= |kws|
  {
    if kws == [] then []
    else CategoryTags(cat, kws[..|kws| - 1], a) + (if Mentions(a, kws[|kws| - 1]) then [cat + ": " + kws[|kws| - 1]] else [])
  }

  /** All of `related_trends` before its cut to five. */
  function TrendTags(tax: Taxonomy, a: Article): seq<string> {
    if tax == [] then [] else TrendTags(tax[..|tax| - 1], a) + CategoryTags(tax[|tax| - 1].0, tax[|tax| - 1].1, a)
  }

  lemma {:induction false} CategoryTagsMembers(cat: string, kws: seq<string>, a: Article, x: string)
    ensures x in CategoryTags(cat, kws, a) <==> exists k :: 0 <= k < |kws| && Mentions(a, kws[k]) && x == cat + ": " + kws[k]
  {
    if kws != [] {
      var init := kws[..|kws| - 1];
      CategoryTagsMembers(cat, init, a, x);
      assert forall k :: 0 <= k < |init| ==> init[k] == kws[k];
    }
  }

  /** A tag "category: keyword" is produced exactly for the taxonomy keywords the
      article mentions (the same test `analyze_trends` counts). */
  lemma {:induction false} TrendTagsMembers(tax: Taxonomy, a: Article, x: string)
    ensures x in TrendTags(tax, a) <==>
      exists i, k :: 0 <= i < |tax| && 0 <= k < |tax[i].1| && Mentions(a, tax[i].1[k]) && x == tax[i].0 + ": " + tax[i].1[k]
  {
    if tax != [] {
      var n := |tax| - 1;
      var init := tax[..n];
      TrendTagsMembers(init, a, x);
      CategoryTagsMembers(tax[n].0, tax[n].1, a, x);
      assert forall i :: 0 <= i < n ==> init[i] == tax[i];
      if exists i, k :: 0 <= i < |tax| && 0 <= k < |tax[i].1| && Mentions(a, tax[i].1[k]) && x == tax[i].0 + ": " + tax[i].1[k] {
        var i, k :| 0 <= i < |tax| && 0 <= k < |tax[i].1| && Mentions(a, tax[i].1[k]) && x == tax[i].0 + ": " + tax[i].1[k];
        if i < n {
          assert init[i] == tax[i];
        }
      }
    }
  }

  /** The card `generate_article_summary` returns. */
  datatype ArticleCard = ArticleCard(
    pmid: string,
    title: string,
    journal: string,
    pubDate: string,
    studyType: string,
    pico: Pico,
    chineseSummary: string,
    structured: seq<(string, string)>,
    relatedTrends: seq<string>,
    keywords: seq<string>,
    meshTerms: seq<string>,
    isHighImpact: bool,
    pubmedUrl: string,
    doi: string)

  /** The patterns each part of the card uses. */
  datatype CardPatterns = CardPatterns(card: seq<SectionPattern>, narrative: seq<SectionPattern>, pico: Patterns)

  /** `結構化摘要`: the sections cut to 500, or else the first 1000 characters of the abstract. */
  function Structured(pats: seq<SectionPattern>, abstractText: string): seq<(string, string)> {
    var sections := Sections(pats, abstractText, Some(500));
    if sections != [] then sections else [("完整摘要", Take(abstractText, 1000))]
  }

  /** What `generate_article_summary` returns (with the corrected study-type cascade). */
  function CardOf(a: Article, pats: CardPatterns, tax: Taxonomy): ArticleCard {
    ArticleCard(
      a.pmid, a.title, a.journal, a.pubDate,
      CardLabel(StudyTypeOf(a.pubTypes, a.abstractText)),
      PicoOf(a, pats.pico),
      Narrative(a, pats.narrative),
      Structured(pats.card, a.abstractText),
      Take(TrendTags(tax, a), 5),
      Take(a.keywords, 10),
      Take(a.meshTerms, 10),
      a.isHighImpact, a.pubmedUrl, a.doi)
  }

  /** The card `generate_article_summary` returns as written, with the capitalised
      needles of its study-type cascade. */
  function CardAsWritten(a: Article, pats: CardPatterns, tax: Taxonomy): ArticleCard {
    CardOf(a, pats, tax).(studyType := CardLabel(CardStudyTypeAsWritten(a.pubTypes, a.abstractText)))
  }

  /** The card as written and the corrected card agree except when the corrected
      cascade finds a cohort or case-control study; the card as written then says
      "研究", the unclassified label. */
  lemma CardAsWrittenDiffers(a: Article, pats: CardPatterns, tax: Taxonomy)
    ensures var fixed := StudyTypeOf(a.pubTypes, a.abstractText);
      (CardAsWritten(a, pats, tax) == CardOf(a, pats, tax) <==> fixed != Cohort && fixed != CaseControl)
      && (CardAsWritten(a, pats, tax) != CardOf(a, pats, tax) ==> CardAsWritten(a, pats, tax).studyType == "研究")
  {
    var fixed := StudyTypeOf(a.pubTypes, a.abstractText);
    var written := CardStudyTypeAsWritten(a.pubTypes, a.abstractText);
    CardStudyTypeDrops(a.pubTypes, a.abstractText);
    var card := CardOf(a, pats, tax);
    assert card.studyType == CardLabel(fixed);
    assert CardAsWritten(a, pats, tax) == card.(studyType := CardLabel(written));
    if fixed == Cohort || fixed == CaseControl {
      assert CardLabel(written) == "研究" != CardLabel(fixed);
    } else {
      assert written == fixed;
    }
  }

  /** The card's lists are cut to 5, 10 and 10 entries, each a prefix of the full
      list. */
  lemma CardLists(a: Article, pats: CardPatterns, tax: Taxonomy)
    ensures var card := CardOf(a, pats, tax);
      |card.relatedTrends| <= 5 && card.relatedTrends <= TrendTags(tax, a)
      && |card.keywords| <= 10 && card.keywords <= a.keywords
      && |card.meshTerms| <= 10 && card.meshTerms <= a.meshTerms
  {
    var card := CardOf(a, pats, tax);
    assert card.relatedTrends == Take(TrendTags(tax, a), 5);
    assert card.keywords == Take(a.keywords, 10);
    assert card.meshTerms == Take(a.meshTerms, 10);
  }

  /** The structured abstract is never empty; its section values hold at most 500
      characters, and the whole-abstract fallback at most 1000. */
  lemma StructuredBounds(pats: seq<SectionPattern>, abstractText: string)
    ensures var st := Structured(pats, abstractText);
      st != []
      && (forall k :: Get(st, k).Some? ==> |Get(st, k).value| <= 1000)
      && (Sections(pats, abstractText, Some(500)) != [] ==>
            forall k :: Get(st, k).Some? ==> |Get(st, k).value| <= 500)
      && (Sections(pats, abstractText, Some(500)) == [] ==>
            Get(st, "完整摘要") == Some(Take(abstractText, 1000)))
  {
    var st := Structured(pats, abstractText);
    if Sections(pats, abstractText, Some(500)) == [] {
      forall k | Get(st, k).Some? ensures |Get(st, k).value| <= 1000 {
        assert st == [("完整摘要", Take(abstractText, 1000))];
      }
    }
  }

  /** The `related_trends` loop: every taxonomy keyword the article mentions, tagged
      with its category. */
  method RelatedTrends(tax: Taxonomy, a: Article) returns (tags: seq<string>)
    ensures tags == TrendTags(tax, a)
  {
    var text := Lower(a.title + " " + a.abstractText);
    tags := [];
    var i := 0;
    while i < |tax|
      invariant 0 <= i <= |tax|
      invariant tags == TrendTags(tax[..i], a)
    {
      var cat := tax[i].0;
      var kws := tax[i].1;
      ghost var before := tags;
      var k := 0;
      while k < |kws|
        invariant 0 <= k <= |kws|
        invariant tags == before + CategoryTags(cat, kws[..k], a)
      {
        assert kws[..k + 1][..k] == kws[..k];
        if Contains(text, Lower(kws[k])) {
          tags := tags + [cat + ": " + kws[k]];
        }
        k := k + 1;
      }
      assert kws[..k] == kws;
      assert tax[..i + 1][..i] == tax[..i];
      i := i + 1;
    }
    assert tax[..i] == tax;
  }

  /** `generate_article_summary`. */
  method GenerateArticleSummary(a: Article, pats: CardPatterns, tax: Taxonomy) returns (card: ArticleCard)
    ensures card == CardOf(a, pats, tax)
  {
    var sections := SplitSections(pats.card, a.abstractText, Some(500));
    var studyType := CardLabel(StudyTypeOf(a.pubTypes, a.abstractText));
    var related := RelatedTrends(tax, a);
    var pico := ExtractPico(a, pats.pico);
    var narrative := GenerateChineseSummary(a, pats.narrative);
    var structured := if sections != [] then sections else [("完整摘要", Take(a.abstractText, 1000))];
    card := ArticleCard(
      a.pmid, a.title, a.journal, a.pubDate, studyType, pico, narrative, structured,
      Take(related, 5), Take(a.keywords, 10), Take(a.meshTerms, 10),
      a.isHighImpact, a.pubmedUrl, a.doi);
  }
}
