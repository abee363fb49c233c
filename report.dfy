/** Report assembly: the featured-article selection and the weekly summary
    (`ResearchAnalyzer.generate_weekly_summary`), and its key findings
    (`_generate_key_findings`). */
module Report {
  import opened Options
  import opened Text
  import opened Sorting
  import opened Tables
  import opened Records
  import opened Trends
  import opened Summary
  import opened Ideas

  // ---------------------------------------------------------------- featured articles

  /** Python's `<` on strings: lexicographic by code point, a proper prefix first. */
  predicate StrLess(a: string, b: string) {
    if a == [] then b != []
    else if b == [] then false
    else if a[0] != b[0] then a[0] < b[0]
    else StrLess(a[1..], b[1..])
  }

  lemma {:induction false} StrLessIrreflexive(a: string)
    ensures !StrLess(a, a)
  {
    if a != [] {
      StrLessIrreflexive(a[1..]);
    }
  }

  lemma {:induction false} StrLessTransitive(a: string, b: string, c: string)
    requires StrLess(a, b) && StrLess(b, c)
    ensures StrLess(a, c)
  {
    if a != [] && b != [] && c != [] && a[0] == b[0] && b[0] == c[0] {
      StrLessTransitive(a[1..], b[1..], c[1..]);
    }
  }

  lemma {:induction false} StrLessTotal(a: string, b: string)
    ensures a == b || StrLess(a, b) || StrLess(b, a)
  {
    if a != [] && b != [] && a[0] == b[0] {
      StrLessTotal(a[1..], b[1..]);
      if a[1..] == b[1..] {
        assert a == [a[0]] + a[1..] && b == [b[0]] + b[1..];
      }
    }
  }

  /** The sort key `(is_high_impact, pub_date)`. */
  function FeatureKey(a: Article): (bool, string) {
    (a.isHighImpact, a.pubDate)
  }

  /** Python's `<` on `(bool, str)` tuples: `False < True`, then the dates. */
  predicate FeatureBelow(x: (bool, string), y: (bool, string)) {
    (!x.0 && y.0) || (x.0 == y.0 && StrLess(x.1, y.1))
  }

  lemma FeatureBelowIsStrictTotalOrder()
    ensures StrictTotalOrder(FeatureBelow)
  {
    forall a: (bool, string) ensures !FeatureBelow(a, a) {
      StrLessIrreflexive(a.1);
    }
    forall a: (bool, string), b: (bool, string), c: (bool, string) | FeatureBelow(a, b) && FeatureBelow(b, c)
      ensures FeatureBelow(a, c)
    {
      if a.0 == b.0 && b.0 == c.0 {
        StrLessTransitive(a.1, b.1, c.1);
      }
    }
    forall a: (bool, string), b: (bool, string) ensures a == b || FeatureBelow(a, b) || FeatureBelow(b, a) {
      StrLessTotal(a.1, b.1);
    }
  }

  /** `sorted(all_articles, key=..., reverse=True)`. */
  function ByFeature(arts: seq<Article>): seq<Article> {
    SortDesc(arts, FeatureKey, FeatureBelow)
  }

  /** The featured articles: the first ten of the sorted list. */
  function Featured(arts: seq<Article>): seq<Article> {
    Take(ByFeature(arts), 10)
  }

  /** Ten articles (all of them when there are fewer), drawn from the input; every
      high-impact article comes before every other, dates descend among articles of
      equal impact, no article left out ranks above one kept, and articles with equal
      keys keep their input order. */
  lemma FeaturedSpec(arts: seq<Article>)
    ensures var f := Featured(arts); var s := ByFeature(arts);
      |f| == (if |arts| <= 10 then |arts| else 10)
      && multiset(f) <= multiset(arts)
      && f <= s
      && (forall i, j :: 0 <= i < j < |f| && f[j].isHighImpact ==> f[i].isHighImpact)
      && (forall i, j :: 0 <= i < j < |f| && f[i].isHighImpact == f[j].isHighImpact ==> !StrLess(f[i].pubDate, f[j].pubDate))
      && (forall i, j :: 0 <= i < |f| <= j < |s| && s[j].isHighImpact ==> f[i].isHighImpact)
      && (forall i, j :: 0 <= i < |f| <= j < |s| && s[j].isHighImpact == f[i].isHighImpact ==> !StrLess(f[i].pubDate, s[j].pubDate))
      && (forall k :: WithKey(s, FeatureKey, k) == WithKey(arts, FeatureKey, k))
  {
    var s := ByFeature(arts);
    var f := Featured(arts);
    ByFeatureOrder(arts);
    assert s == f + s[|f|..];
    assert multiset(s) == multiset(f) + multiset(s[|f|..]);
    assert forall i :: 0 <= i < |f| ==> f[i] == s[i];
  }

  /** The sorted list puts high-impact articles first, then runs by date, descending,
      and keeps the input order of articles with equal keys. */
  lemma ByFeatureOrder(arts: seq<Article>)
    ensures var s := ByFeature(arts);
      (forall i, j :: 0 <= i < j < |s| && s[j].isHighImpact ==> s[i].isHighImpact)
      && (forall i, j :: 0 <= i < j < |s| && s[i].isHighImpact == s[j].isHighImpact ==> !StrLess(s[i].pubDate, s[j].pubDate))
      && (forall k :: WithKey(s, FeatureKey, k) == WithKey(arts, FeatureKey, k))
  {
    var s := ByFeature(arts);
    FeatureBelowIsStrictTotalOrder();
    SortDescSorted(arts, FeatureKey, FeatureBelow);
    forall k ensures WithKey(s, FeatureKey, k) == WithKey(arts, FeatureKey, k) {
      SortDescStable(arts, FeatureKey, FeatureBelow, k);
    }
    forall i, j | 0 <= i < j < |s|
      ensures s[j].isHighImpact ==> s[i].isHighImpact
      ensures s[i].isHighImpact == s[j].isHighImpact ==> !StrLess(s[i].pubDate, s[j].pubDate)
    {
      assert !FeatureBelow(FeatureKey(s[i]), FeatureKey(s[j]));
    }
  }

  /** When some article is high-impact, the first featured article is one. */
  lemma FeaturedLeadsWithHighImpact(arts: seq<Article>, a: Article)
    requires a in arts && a.isHighImpact
    ensures Featured(arts) != [] && Featured(arts)[0].isHighImpact
  {
    FeaturedSpec(arts);
    var s := ByFeature(arts);
    assert a in multiset(s);
    var j :| 0 <= j < |s| && s[j] == a;
    if j == 0 {
      assert Featured(arts)[0] == s[0];
    }
  }

  // ---------------------------------------------------------------- key findings

  /** A finding sentence, by the data it reports. */
  datatype Finding =
    | HotTopicsFinding(topics: seq<(string, nat)>)
    | HighImpactFinding(count: nat, journals: seq<string>)
    | EvidenceFinding(rct: nat, meta: nat)

  /** The distinct journals of a list of articles, in order of first appearance. */
  function DistinctJournals(arts: seq<Article>): (r: seq<string>)
    ensures Distinct(r)
    ensures forall x :: x in r <==> exists a :: a in arts && a.journal == x
  {
    if arts == [] then []
    else
      var init := arts[..|arts| - 1];
      var last := arts[|arts| - 1];
      var prev := DistinctJournals(init);
      assert forall a :: a in arts <==> a in init || a == last;
      if last.journal in prev then prev else prev + [last.journal]
  }

  function PubTypesOf(t: Option<TrendSnapshot>): seq<(string, nat)> {
    match t
    case None => []
    case Some(s) => s.pubTypes
  }

  /** `d.get(k, 0)`. */
  function CountOr0(d: seq<(string, nat)>, k: string): nat {
    match Get(d, k)
    case None => 0
    case Some(n) => n
  }

  /** The hot-topics finding: the three leading hot topics, when there are any. */
  function HotPart(t: Option<TrendSnapshot>): seq<Finding> {
    var hot := Take(HotTopicsOf(t), 3);
    if hot != [] then [HotTopicsFinding(hot)] else []
  }

  /** The high-impact finding: how many articles are high-impact and three of their
      journals, when there are any. */
  function JournalPart(arts: seq<Article>): seq<Finding> {
    var hi := HighImpactArticles(arts);
    if hi != [] then [HighImpactFinding(|hi|, Take(DistinctJournals(hi), 3))] else []
  }

  function RctCount(t: Option<TrendSnapshot>): nat {
    CountOr0(PubTypesOf(t), "Randomized Controlled Trial")
  }

  function MetaCount(t: Option<TrendSnapshot>): nat {
    CountOr0(PubTypesOf(t), "Meta-Analysis")
  }

  /** The evidence finding: randomized trials and meta-analyses, when either occurs. */
  function EvidencePart(t: Option<TrendSnapshot>): seq<Finding> {
    if RctCount(t) != 0 || MetaCount(t) != 0 then [EvidenceFinding(RctCount(t), MetaCount(t))] else []
  }

  /** The findings `_generate_key_findings` reports, from the articles and their trend
      snapshot. */
  function KeyFindings(arts: seq<Article>, t: Option<TrendSnapshot>): seq<Finding> {
    HotPart(t) + JournalPart(arts) + EvidencePart(t)
  }

  /** At most three findings, in the order hot topics, high-impact journals, evidence:
      the first present exactly when there are hot topics, naming the leading three;
      the second exactly when some article is high-impact, right after the first; the last exactly when the
      publication-type table counts a randomized trial or a meta-analysis. */
  lemma KeyFindingsSpec(arts: seq<Article>, t: Option<TrendSnapshot>)
    ensures var fs := KeyFindings(arts, t);
      |fs| <= 3
      && |fs| == (if HotTopicsOf(t) != [] then 1 else 0) + (if HighImpactCount(arts) > 0 then 1 else 0)
                 + (if RctCount(t) != 0 || MetaCount(t) != 0 then 1 else 0)
      && (HotTopicsOf(t) != [] ==> fs[0] == HotTopicsFinding(Take(HotTopicsOf(t), 3)))
      && (HighImpactCount(arts) > 0 <==> exists f :: f in fs && f.HighImpactFinding?)
      && (HighImpactCount(arts) > 0 ==>
            fs[if HotTopicsOf(t) != [] then 1 else 0]
            == HighImpactFinding(HighImpactCount(arts), Take(DistinctJournals(HighImpactArticles(arts)), 3)))
      && ((RctCount(t) != 0 || MetaCount(t) != 0) <==> fs != [] && fs[|fs| - 1] == EvidenceFinding(RctCount(t), MetaCount(t)))
  {
    var hot := HotTopicsOf(t) != [];
    var high := HighImpactCount(arts) > 0;
    var ev := RctCount(t) != 0 || MetaCount(t) != 0;
    var hi := HighImpactArticles(arts);
    assert high <==> hi != [];
    FindingsLayout(hot, high, ev, HotTopicsFinding(Take(HotTopicsOf(t), 3)),
      HighImpactFinding(|hi|, Take(DistinctJournals(hi), 3)), EvidenceFinding(RctCount(t), MetaCount(t)));
  }

  /** Three optional findings of three different kinds, in this order: their number is
      the number present, the first leads when present, the second follows it and is
      the only one of its kind, and the last closes the list exactly when present. */
  lemma FindingsLayout(hot: bool, high: bool, ev: bool, hf: Finding, jf: Finding, ef: Finding)
    requires hf.HotTopicsFinding? && jf.HighImpactFinding? && ef.EvidenceFinding?
    ensures var fs := (if hot then [hf] else []) + (if high then [jf] else []) + (if ev then [ef] else []);
      |fs| == (if hot then 1 else 0) + (if high then 1 else 0) + (if ev then 1 else 0)
      && (hot ==> fs[0] == hf)
      && (high <==> exists f :: f in fs && f.HighImpactFinding?)
      && (high ==> fs[if hot then 1 else 0] == jf)
      && (ev <==> fs != [] && fs[|fs| - 1] == ef)
  {
    var fs := (if hot then [hf] else []) + (if high then [jf] else []) + (if ev then [ef] else []);
    if high {
      assert jf in fs;
    }
  }

  /** The hot-topics finding names one to three topics, the leading hot topics. */
  lemma HotFindingSpec(arts: seq<Article>, t: Option<TrendSnapshot>)
    ensures forall f :: f in KeyFindings(arts, t) && f.HotTopicsFinding? ==>
      1 <= |f.topics| <= 3 && f.topics <= HotTopicsOf(t)
  {
    forall f | f in KeyFindings(arts, t) && f.HotTopicsFinding?
      ensures 1 <= |f.topics| <= 3 && f.topics <= HotTopicsOf(t)
    {
      assert f in HotPart(t);
    }
  }

  /** The high-impact finding counts every high-impact article and names at most three
      distinct journals, each the journal of a high-impact article. */
  lemma JournalFindingSpec(arts: seq<Article>, t: Option<TrendSnapshot>)
    ensures forall f :: f in KeyFindings(arts, t) && f.HighImpactFinding? ==>
      f.count == HighImpactCount(arts) && |f.journals| <= 3 && Distinct(f.journals)
      && forall x :: x in f.journals ==> exists a :: a in arts && a.isHighImpact && a.journal == x
  {
    var hi := HighImpactArticles(arts);
    var js := DistinctJournals(hi);
    var shown := Take(js, 3);
    assert Distinct(shown) by {
      forall i, j | 0 <= i < j < |shown| ensures shown[i] != shown[j] {
        assert shown[i] == js[i] && shown[j] == js[j];
      }
    }
    forall x | x in shown
      ensures exists a :: a in arts && a.isHighImpact && a.journal == x
    {
      var k :| 0 <= k < |shown| && shown[k] == x;
      assert js[k] == x;
      assert x in js;
      var a :| a in hi && a.journal == x;
    }
    forall f | f in KeyFindings(arts, t) && f.HighImpactFinding?
      ensures f == HighImpactFinding(|hi|, shown)
    {
      assert f in JournalPart(arts);
    }
  }

  /** One finding as the sentence the report shows. */
  function Render(f: Finding): string {
    match f
    case HotTopicsFinding(topics) =>
      "本週熱門研究主題: " + Join(seq(|topics|, i requires 0 <= i < |topics| => topics[i].0 + " (" + NatToString(topics[i].1) + "篇)"), ", ")
    case HighImpactFinding(count, journals) =>
      "高影響力期刊發表 " + NatToString(count) + " 篇，包括: " + Join(journals, ", ")
    case EvidenceFinding(rct, meta) =>
      "高品質證據: " + NatToString(rct) + " 篇 RCT, " + NatToString(meta) + " 篇統合分析"
  }

  function RenderAll(fs: seq<Finding>): seq<string> {
    seq(|fs|, i requires 0 <= i < |fs| => Render(fs[i]))
  }

  lemma RenderAllAppend(a: seq<Finding>, b: seq<Finding>)
    ensures RenderAll(a + b) == RenderAll(a) + RenderAll(b)
  {
  }

  /** `_generate_key_findings`. */
  method GenerateKeyFindings(arts: seq<Article>, t: Option<TrendSnapshot>) returns (findings: seq<string>)
    ensures findings == RenderAll(KeyFindings(arts, t))
  {
    findings := [];
    var hot := Take(HotTopicsOf(t), 3);
    if hot != [] {
      findings := findings + [Render(HotTopicsFinding(hot))];
    }
    assert findings == RenderAll(HotPart(t)) by { RenderOne(HotPart(t)); }
    ghost var first := findings;
    var hi := HighImpactArticles(arts);
    if hi != [] {
      var journals := Take(DistinctJournals(hi), 3);
      findings := findings + [Render(HighImpactFinding(|hi|, journals))];
    }
    assert findings == first + RenderAll(JournalPart(arts)) by { RenderOne(JournalPart(arts)); }
    ghost var second := findings;
    var rct := RctCount(t);
    var meta := MetaCount(t);
    if rct != 0 || meta != 0 {
      findings := findings + [Render(EvidenceFinding(rct, meta))];
    }
    assert findings == second + RenderAll(EvidencePart(t)) by { RenderOne(EvidencePart(t)); }
    KeyFindingsRendered(arts, t);
  }

  lemma RenderOne(fs: seq<Finding>)
    requires |fs| <= 1
    ensures RenderAll(fs) == if fs == [] then [] else [Render(fs[0])]
  {
  }

  /** The rendered findings are the three parts' sentences, in order. */
  lemma KeyFindingsRendered(arts: seq<Article>, t: Option<TrendSnapshot>)
    ensures RenderAll(KeyFindings(arts, t)) == RenderAll(HotPart(t)) + RenderAll(JournalPart(arts)) + RenderAll(EvidencePart(t))
  {
    RenderAllAppend(HotPart(t), JournalPart(arts));
    RenderAllAppend(HotPart(t) + JournalPart(arts), EvidencePart(t));
  }

  // ---------------------------------------------------------------- weekly summary

  /** `報告週期`: the first category's search window, or "N/A" for an empty record set. */
  function Period(data: RecordSet): string {
    if data == [] then "N/A" else "過去 " + IntToString(data[0].daysBack) + " 天"
  }

  /** The weekly summary without its timestamp. */
  datatype WeeklySummary = WeeklySummary(
    period: string,
    total: nat,
    highImpact: nat,
    findings: seq<string>,
    perCategory: seq<(string, CategoryStats)>,
    hotTopics: seq<(string, nat)>,
    keywordStats: seq<(string, seq<(string, nat)>)>,
    journals: seq<(string, nat)>,
    pubTypes: seq<(string, nat)>,
    featured: seq<ArticleCard>,
    ideas: seq<Idea>,
    meshTerms: seq<(string, nat)>)

  /** One card per article, in order. */
  function Cards(arts: seq<Article>, pats: CardPatterns, tax: Taxonomy): (r: seq<ArticleCard>)
    ensures |r| == |arts|
  {
    if arts == [] then [] else Cards(arts[..|arts| - 1], pats, tax) + [CardOf(arts[|arts| - 1], pats, tax)]
  }

  lemma {:induction false} CardsAt(arts: seq<Article>, pats: CardPatterns, tax: Taxonomy, i: nat)
    requires i < |arts|
    ensures Cards(arts, pats, tax)[i] == CardOf(arts[i], pats, tax)
  {
    if i < |arts| - 1 {
      CardsAt(arts[..|arts| - 1], pats, tax, i);
    }
  }

  /** The summary built from the trend snapshot `t` of `data` and the ideas `ideas`;
      an empty snapshot reads as zero counts and empty tables. */
  function WeeklyFrom(data: RecordSet, t: Option<TrendSnapshot>, ideas: seq<Idea>, pats: CardPatterns, tax: Taxonomy): WeeklySummary {
    var arts := Flattened(data);
    match t
    case None =>
      WeeklySummary(Period(data), 0, 0, RenderAll(KeyFindings(arts, t)), [], [], [], [], [],
        Cards(Featured(arts), pats, tax), ideas, [])
    case Some(s) =>
      WeeklySummary(Period(data), s.total, s.highImpact, RenderAll(KeyFindings(arts, t)), s.perCategory,
        Take(s.hotTopics, 10), s.keywordStats, s.journals, s.pubTypes,
        Cards(Featured(arts), pats, tax), ideas, s.meshTerms)
  }

  /** What `generate_weekly_summary` returns. */
  function Weekly(data: RecordSet, pats: CardPatterns, tax: Taxonomy): WeeklySummary {
    WeeklyFrom(data, Snapshot(data, tax), IdeasFrom(Snapshot(data, tax), data), pats, tax)
  }

  /** The summary counts every article and at most three findings; with no articles
      the counts are zero and there are no findings or category rows. */
  lemma WeeklyCounts(data: RecordSet, pats: CardPatterns, tax: Taxonomy)
    ensures var w := Weekly(data, pats, tax); var n := TotalArticles(data);
      w.total == n && w.highImpact <= w.total && |w.findings| <= 3
      && (n == 0 ==> w.findings == [] && w.perCategory == [] && w.hotTopics == [])
      && (data == [] ==> w.period == "N/A")
  {
    var t := Snapshot(data, tax);
    var arts := Flattened(data);
    SnapshotTotals(data, tax);
    FlattenedLength(data);
    KeyFindingsSpec(arts, t);
    if TotalArticles(data) == 0 {
      assert arts == [];
      assert HighImpactArticles(arts) == [];
    }
  }

  /** The summary features min(10, total) articles, each as the card of the article in
      the same place of the featured list, and at most ten hot topics. */
  lemma WeeklyFeatured(data: RecordSet, pats: CardPatterns, tax: Taxonomy)
    ensures var w := Weekly(data, pats, tax); var n := TotalArticles(data);
      |w.featured| == (if n <= 10 then n else 10)
      && (forall i :: 0 <= i < |w.featured| ==> w.featured[i] == CardOf(Featured(Flattened(data))[i], pats, tax))
      && |w.hotTopics| <= 10
  {
    var f := Featured(Flattened(data));
    FlattenedLength(data);
    FeaturedSpec(Flattened(data));
    forall i | 0 <= i < |f| ensures Cards(f, pats, tax)[i] == CardOf(f[i], pats, tax) {
      CardsAt(f, pats, tax, i);
    }
  }

  /** The featured-article loop: one card per featured article, in order. */
  method FeaturedCards(featured: seq<Article>, pats: CardPatterns, tax: Taxonomy) returns (cards: seq<ArticleCard>)
    ensures cards == Cards(featured, pats, tax)
  {
    cards := [];
    var i := 0;
    while i < |featured|
      invariant 0 <= i <= |featured|
      invariant cards == Cards(featured[..i], pats, tax)
    {
      var card := GenerateArticleSummary(featured[i], pats, tax);
      assert featured[..i + 1][..i] == featured[..i];
      cards := cards + [card];
      i := i + 1;
    }
    assert featured[..i] == featured;
  }

  /** `generate_weekly_summary`. */
  method GenerateWeeklySummary(data: RecordSet, pats: CardPatterns, tax: Taxonomy) returns (w: WeeklySummary)
    ensures w == Weekly(data, pats, tax)
  {
    var trends := AnalyzeTrends(data, tax);
    var all := GetAllArticles(data);
    var ideas := GenerateResearchIdeas(data, tax);
    var featured := Featured(all);
    var cards := FeaturedCards(featured, pats, tax);
    var findings := GenerateKeyFindings(all, trends);
    w := Assemble(data, trends, findings, cards, ideas);
  }

  /** The result dictionary, filled from the trend snapshot with its defaults. */
  method Assemble(data: RecordSet, t: Option<TrendSnapshot>, findings: seq<string>, cards: seq<ArticleCard>, ideas: seq<Idea>)
    returns (w: WeeklySummary)
    ensures t.None? ==> w == WeeklySummary(Period(data), 0, 0, findings, [], [], [], [], [], cards, ideas, [])
    ensures t.Some? ==> w == WeeklySummary(Period(data), t.value.total, t.value.highImpact, findings, t.value.perCategory,
      Take(t.value.hotTopics, 10), t.value.keywordStats, t.value.journals, t.value.pubTypes, cards, ideas, t.value.meshTerms)
  {
    var period := if data == [] then "N/A" else "過去 " + IntToString(data[0].daysBack) + " 天";
    if t.None? {
      w := WeeklySummary(period, 0, 0, findings, [], [], [], [], [], cards, ideas, []);
    } else {
      var s := t.value;
      w := WeeklySummary(period, s.total, s.highImpact, findings, s.perCategory, Take(s.hotTopics, 10),
        s.keywordStats, s.journals, s.pubTypes, cards, ideas, s.meshTerms);
    }
  }
}
