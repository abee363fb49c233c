/** The trend aggregator (`ResearchAnalyzer.analyze_trends`): keyword hits per
    taxonomy category, merged hot topics, journal / publication-type / MeSH
    frequency tables and per-category statistics. */
module Trends {
  import opened Options
  import opened Text
  import opened Sorting
  import opened Tables
  import opened Records

  /** The keyword taxonomy (`TREND_KEYWORDS`): taxonomy category and its literal
      keywords, in dictionary order. */
  type Taxonomy = seq<(string, seq<string>)>

  /** A taxonomy as a Python dictionary of lists can hold it without repeats:
      distinct category names, and no keyword listed twice under one category. */
  predicate ValidTaxonomy(tax: Taxonomy) {
    DistinctKeys(tax) && forall i :: 0 <= i < |tax| ==> Distinct(tax[i].1)
  }

  /** `keyword_counts`: taxonomy category, then keyword, then count; both levels in
      first-insertion order. */
  type KeywordCounts = seq<(string, Counter)>

  /** The lower-cased "title abstract" text that keywords are searched in. */
  function SearchText(a: Article): string {
    Lower(a.title + " " + a.abstractText)
  }

  /** `keyword.lower() in text`. */
  predicate Mentions(a: Article, kw: string) {
    Contains(SearchText(a), Lower(kw))
  }

  /** Number of articles that mention `kw`. */
  function Hits(arts: seq<Article>, kw: string): (n: nat)
    ensures n <= |arts|
  {
    if arts == [] then 0 else Hits(arts[..|arts| - 1], kw) + (if Mentions(arts[|arts| - 1], kw) then 1 else 0)
  }

  /** `keyword_counts[cat][kw]`, 0 when either key is absent. */
  function KwCount(kc: KeywordCounts, cat: string, kw: string): nat {
    match Get(kc, cat)
    case None => 0
    case Some(c) => Count(c, kw)
  }

  /** Distinct categories, and in each category distinct keywords with positive counts. */
  ghost predicate WellFormed(kc: KeywordCounts) {
    DistinctKeys(kc) &&
    forall cat :: Get(kc, cat).Some? ==> DistinctKeys(Get(kc, cat).value) && Positive(Get(kc, cat).value)
  }

  /** `keyword_counts[cat][kw] += 1` on the nested `defaultdict`s. */
  function Bump(kc: KeywordCounts, cat: string, kw: string): KeywordCounts {
    var inner := match Get(kc, cat) case None => [] case Some(c) => c;
    Put(kc, cat, Add(inner, kw, 1))
  }

  /** A bump adds one to its own (category, keyword) count and to nothing else, and
      keeps the table well formed. */
  lemma BumpEffect(kc: KeywordCounts, cat: string, kw: string)
    ensures forall c, k :: KwCount(Bump(kc, cat, kw), c, k) == KwCount(kc, c, k) + (if c == cat && k == kw then 1 else 0)
    ensures WellFormed(kc) ==> WellFormed(Bump(kc, cat, kw))
  {
    var inner := match Get(kc, cat) case None => [] case Some(c) => c;
    var added := Add(inner, kw, 1);
    var r := Put(kc, cat, added);
    assert r == Bump(kc, cat, kw);
    forall c, k ensures KwCount(r, c, k) == KwCount(kc, c, k) + (if c == cat && k == kw then 1 else 0) {
      if c == cat {
        assert Get(r, c) == Some(added);
      } else {
        assert Get(r, c) == Get(kc, c);
      }
    }
    if WellFormed(kc) {
      AddDistinct(inner, kw, 1);
      PutDistinct(kc, cat, added);
      forall c | Get(r, c).Some? ensures DistinctKeys(Get(r, c).value) && Positive(Get(r, c).value) {
        if c != cat {
          assert Get(r, c) == Get(kc, c);
        }
      }
    }
  }

  /** One article's pass over the keywords `kws` of taxonomy category `cat`. */
  function CountKeywords(kc: KeywordCounts, cat: string, kws: seq<string>, a: Article): KeywordCounts {
    if kws == [] then kc
    else
      var prev := CountKeywords(kc, cat, kws[..|kws| - 1], a);
      if Mentions(a, kws[|kws| - 1]) then Bump(prev, cat, kws[|kws| - 1]) else prev
  }

  /** One article's pass over the taxonomy. */
  function CountCategories(kc: KeywordCounts, tax: Taxonomy, a: Article): KeywordCounts {
    if tax == [] then kc
    else CountKeywords(CountCategories(kc, tax[..|tax| - 1], a), tax[|tax| - 1].0, tax[|tax| - 1].1, a)
  }

  /** `keyword_counts` after the loop over all articles. */
  function CountArticles(tax: Taxonomy, arts: seq<Article>): KeywordCounts {
    if arts == [] then [] else CountCategories(CountArticles(tax, arts[..|arts| - 1]), tax, arts[|arts| - 1])
  }

  lemma {:induction false} CountKeywordsWellFormed(kc: KeywordCounts, cat: string, kws: seq<string>, a: Article)
    requires WellFormed(kc)
    ensures WellFormed(CountKeywords(kc, cat, kws, a))
  {
    if kws != [] {
      CountKeywordsWellFormed(kc, cat, kws[..|kws| - 1], a);
      BumpEffect(CountKeywords(kc, cat, kws[..|kws| - 1], a), cat, kws[|kws| - 1]);
    }
  }

  lemma {:induction false} CountCategoriesWellFormed(kc: KeywordCounts, tax: Taxonomy, a: Article)
    requires WellFormed(kc)
    ensures WellFormed(CountCategories(kc, tax, a))
  {
    if tax != [] {
      CountCategoriesWellFormed(kc, tax[..|tax| - 1], a);
      CountKeywordsWellFormed(CountCategories(kc, tax[..|tax| - 1], a), tax[|tax| - 1].0, tax[|tax| - 1].1, a);
    }
  }

  /** The keyword table has distinct categories, and each category's counter has
      distinct keywords with positive counts. */
  lemma {:induction false} CountArticlesWellFormed(tax: Taxonomy, arts: seq<Article>)
    ensures WellFormed(CountArticles(tax, arts))
  {
    if arts != [] {
      CountArticlesWellFormed(tax, arts[..|arts| - 1]);
      CountCategoriesWellFormed(CountArticles(tax, arts[..|arts| - 1]), tax, arts[|arts| - 1]);
    }
  }

  /** How many times `kw` is listed under category `cat` in the taxonomy. */
  function Multiplicity(tax: Taxonomy, cat: string, kw: string): nat {
    if tax == [] then 0
    else
      var last := tax[|tax| - 1];
      Multiplicity(tax[..|tax| - 1], cat, kw) + (if last.0 == cat then multiset(last.1)[kw] else 0)
  }

  /** `kw` is one of the keywords of taxonomy category `cat`. */
  predicate Listed(tax: Taxonomy, cat: string, kw: string) {
    exists i :: 0 <= i < |tax| && tax[i].0 == cat && kw in tax[i].1
  }

  lemma {:induction false} CountKeywordsEffect(kc: KeywordCounts, cat: string, kws: seq<string>, a: Article, c: string, k: string)
    ensures KwCount(CountKeywords(kc, cat, kws, a), c, k)
         == KwCount(kc, c, k) + (if c == cat && Mentions(a, k) then multiset(kws)[k] else 0)
  {
    if kws != [] {
      var init := kws[..|kws| - 1];
      assert kws == init + [kws[|kws| - 1]];
      CountKeywordsEffect(kc, cat, init, a, c, k);
      BumpEffect(CountKeywords(kc, cat, init, a), cat, kws[|kws| - 1]);
    }
  }

  lemma {:induction false} CountCategoriesEffect(kc: KeywordCounts, tax: Taxonomy, a: Article, c: string, k: string)
    ensures KwCount(CountCategories(kc, tax, a), c, k)
         == KwCount(kc, c, k) + (if Mentions(a, k) then Multiplicity(tax, c, k) else 0)
  {
    if tax != [] {
      CountCategoriesEffect(kc, tax[..|tax| - 1], a, c, k);
      CountKeywordsEffect(CountCategories(kc, tax[..|tax| - 1], a), tax[|tax| - 1].0, tax[|tax| - 1].1, a, c, k);
    }
  }

  /** Every article adds the keyword's multiplicity once, however often the text repeats it. */
  lemma {:induction false} CountArticlesEffect(tax: Taxonomy, arts: seq<Article>, c: string, k: string)
    ensures KwCount(CountArticles(tax, arts), c, k) == Multiplicity(tax, c, k) * Hits(arts, k)
  {
    if arts != [] {
      var init := arts[..|arts| - 1];
      var last := arts[|arts| - 1];
      var m := Multiplicity(tax, c, k);
      var h := Hits(init, k);
      CountArticlesEffect(tax, init, c, k);
      CountCategoriesEffect(CountArticles(tax, init), tax, last, c, k);
      assert KwCount(CountArticles(tax, arts), c, k) == m * h + (if Mentions(last, k) then m else 0);
      assert Hits(arts, k) == h + (if Mentions(last, k) then 1 else 0);
      MulStep(m, h);
    }
  }

  lemma MulStep(m: nat, h: nat)
    ensures m * (h + 1) == m * h + m
  {
  }

  lemma {:induction false} MultiplicityOfValid(tax: Taxonomy, cat: string, kw: string)
    requires ValidTaxonomy(tax)
    ensures Multiplicity(tax, cat, kw) == if Listed(tax, cat, kw) then 1 else 0
  {
    if tax != [] {
      var init := tax[..|tax| - 1];
      var last := tax[|tax| - 1];
      assert ValidTaxonomy(init) by {
        forall a, b | 0 <= a < b < |init| ensures Keys(init)[a] != Keys(init)[b] {
          assert Keys(init)[a] == Keys(tax)[a] && Keys(init)[b] == Keys(tax)[b];
        }
      }
      MultiplicityOfValid(init, cat, kw);
      if last.0 == cat {
        DistinctOnce(last.1, kw);
        forall i | 0 <= i < |init| ensures init[i].0 != cat {
          assert Keys(tax)[i] != Keys(tax)[|tax| - 1];
        }
        assert !Listed(init, cat, kw);
      }
      if Listed(tax, cat, kw) && !(last.0 == cat && kw in last.1) {
        var i :| 0 <= i < |tax| && tax[i].0 == cat && kw in tax[i].1;
        assert i < |init| && init[i] == tax[i];
      }
    }
  }

  lemma {:induction false} DistinctOnce(s: seq<string>, x: string)
    requires Distinct(s)
    ensures multiset(s)[x] == if x in s then 1 else 0
  {
    if s != [] {
      assert s == [s[0]] + s[1..];
      assert Distinct(s[1..]);
      assert s[0] !in s[1..];
      DistinctOnce(s[1..], x);
    }
  }

  /** `keyword_counts[cat][kw]` is the number of articles whose lower-cased
      "title abstract" contains the lower-cased keyword, for every keyword of the
      taxonomy; keywords outside the category are never counted under it. */
  lemma KeywordCountIsHits(tax: Taxonomy, arts: seq<Article>, cat: string, kw: string)
    requires ValidTaxonomy(tax)
    ensures KwCount(CountArticles(tax, arts), cat, kw) == if Listed(tax, cat, kw) then Hits(arts, kw) else 0
  {
    CountArticlesEffect(tax, arts, cat, kw);
    MultiplicityOfValid(tax, cat, kw);
  }

  /** `trends["趨勢關鍵詞統計"]`: each category's keyword counter sorted by count, descending. */
  function KeywordStats(kc: KeywordCounts): seq<(string, seq<(string, nat)>)> {
    seq(|kc|, i requires 0 <= i < |kc| => (kc[i].0, ByCountDesc(kc[i].1)))
  }

  /** A keyword appears in its category's statistics exactly when some article mentions
      it, with the number of such articles; each list runs by count, descending, with
      equal counts in the order the keywords were first counted. */
  lemma KeywordStatsEntries(tax: Taxonomy, arts: seq<Article>, i: nat, kw: string, n: nat)
    requires ValidTaxonomy(tax) && i < |KeywordStats(CountArticles(tax, arts))|
    ensures var stats := KeywordStats(CountArticles(tax, arts))[i];
      ((kw, n) in stats.1 <==> Listed(tax, stats.0, kw) && n == Hits(arts, kw) && n >= 1)
      && (forall p, q :: 0 <= p < q < |stats.1| ==> stats.1[p].1 >= stats.1[q].1)
      && (forall v :: WithKey(stats.1, ByCount, v) == WithKey(CountArticles(tax, arts)[i].1, ByCount, v))
  {
    var kc := CountArticles(tax, arts);
    CountArticlesWellFormed(tax, arts);
    var c := kc[i].1;
    GetAt(kc, i);
    CounterEntry(c, kw, n);
    KeywordCountIsHits(tax, arts, kc[i].0, kw);
    assert (kw, n) in ByCountDesc(c) <==> (kw, n) in c by {
      assert multiset(ByCountDesc(c)) == multiset(c);
      assert (kw, n) in ByCountDesc(c) <==> (kw, n) in multiset(ByCountDesc(c));
    }
    MostCommonSpec(c, |c|);
  }

  /** `all_keyword_counts`: every category's counter added into one `Counter`. */
  function MergeAll(kc: KeywordCounts): (r: Counter)
    ensures DistinctKeys(r)
    ensures (forall i :: 0 <= i < |kc| ==> Positive(kc[i].1)) ==> Positive(r)
  {
    if kc == [] then [] else Update(MergeAll(kc[..|kc| - 1]), kc[|kc| - 1].1)
  }

  /** Every inner counter of a well-formed table has distinct keys and positive counts. */
  lemma WellFormedEntries(kc: KeywordCounts)
    requires WellFormed(kc)
    ensures forall i :: 0 <= i < |kc| ==> DistinctKeys(kc[i].1) && Positive(kc[i].1)
  {
    forall i | 0 <= i < |kc|
      ensures DistinctKeys(kc[i].1) && Positive(kc[i].1)
    {
      GetAt(kc, i);
    }
  }

  /** The sum of `kw`'s counts over all categories. */
  function SumCounts(kc: KeywordCounts, kw: string): nat {
    if kc == [] then 0 else SumCounts(kc[..|kc| - 1], kw) + Count(kc[|kc| - 1].1, kw)
  }

  lemma {:induction false} MergeAllCounts(kc: KeywordCounts, kw: string)
    ensures Count(MergeAll(kc), kw) == SumCounts(kc, kw)
  {
    if kc != [] {
      MergeAllCounts(kc[..|kc| - 1], kw);
      UpdateCounts(MergeAll(kc[..|kc| - 1]), kc[|kc| - 1].1, kw);
    }
  }

  /** `trends["熱門主題"]`: the 20 most common keywords over all categories. */
  function HotTopics(kc: KeywordCounts): seq<(string, nat)> {
    MostCommon(MergeAll(kc), 20)
  }

  /** At most 20 hot topics, counts non-increasing, each count the sum of that
      keyword's counts across the taxonomy categories. */
  lemma HotTopicsSpec(tax: Taxonomy, arts: seq<Article>)
    ensures var hot := HotTopics(CountArticles(tax, arts));
      |hot| <= 20
      && (forall p, q :: 0 <= p < q < |hot| ==> hot[p].1 >= hot[q].1)
      && (forall p :: 0 <= p < |hot| ==> hot[p].1 >= 1 && hot[p].1 == SumCounts(CountArticles(tax, arts), hot[p].0))
  {
    var kc := CountArticles(tax, arts);
    var m := MergeAll(kc);
    var hot := HotTopics(kc);
    MostCommonSpec(m, 20);
    CountArticlesWellFormed(tax, arts);
    WellFormedEntries(kc);
    forall p | 0 <= p < |hot|
      ensures hot[p].1 >= 1 && hot[p].1 == SumCounts(kc, hot[p].0)
    {
      assert hot[p] in multiset(m);
      CounterEntry(m, hot[p].0, hot[p].1);
      MergeAllCounts(kc, hot[p].0);
    }
  }

  /** The journal of every article, in order. */
  function Journals(arts: seq<Article>): seq<string> {
    seq(|arts|, i requires 0 <= i < |arts| => arts[i].journal)
  }

  /** The publication types of every article, concatenated in order. */
  function AllPubTypes(arts: seq<Article>): seq<string> {
    if arts == [] then [] else AllPubTypes(arts[..|arts| - 1]) + arts[|arts| - 1].pubTypes
  }

  /** The MeSH terms of every article, concatenated in order. */
  function AllMeshTerms(arts: seq<Article>): seq<string> {
    if arts == [] then [] else AllMeshTerms(arts[..|arts| - 1]) + arts[|arts| - 1].meshTerms
  }

  /** A frequency table capped at `cap` entries: at most `cap` entries, counts
      non-increasing, each entry's count the number of occurrences of its key. */
  lemma FrequencyTable(xs: seq<string>, cap: nat)
    ensures var t := MostCommon(Tally([], xs), cap);
      |t| <= cap
      && (forall p, q :: 0 <= p < q < |t| ==> t[p].1 >= t[q].1)
      && (forall p :: 0 <= p < |t| ==> t[p].1 >= 1 && t[p].1 == multiset(xs)[t[p].0])
  {
    var c := Tally([], xs);
    var t := MostCommon(c, cap);
    MostCommonSpec(c, cap);
    forall p | 0 <= p < |t|
      ensures t[p].1 >= 1 && t[p].1 == multiset(xs)[t[p].0]
    {
      assert t[p] in multiset(c);
      CounterEntry(c, t[p].0, t[p].1);
      TallyCounts([], xs, t[p].0);
    }
  }

  /** Statistics of one category (`trends["按類別統計"][name]`). */
  datatype CategoryStats = CategoryStats(count: nat, highImpact: nat, topJournals: seq<(string, nat)>)

  function StatsOf(arts: seq<Article>): CategoryStats {
    CategoryStats(|arts|, HighImpactCount(arts), MostCommon(Tally([], Journals(arts)), 5))
  }

  /** The per-category table, keyed by display name; a repeated display name
      overwrites the earlier entry in place. */
  function PerCategory(data: RecordSet): seq<(string, CategoryStats)> {
    if data == [] then []
    else Put(PerCategory(data[..|data| - 1]), data[|data| - 1].name, StatsOf(data[|data| - 1].articles))
  }

  function Names(data: RecordSet): seq<string> {
    seq(|data|, i requires 0 <= i < |data| => data[i].name)
  }

  /** One row per category: display name and statistics of its own articles. */
  function StatsRows(data: RecordSet): (t: seq<(string, CategoryStats)>)
    ensures |t| == |data|
  {
    if data == [] then []
    else StatsRows(data[..|data| - 1]) + [(data[|data| - 1].name, StatsOf(data[|data| - 1].articles))]
  }

  /** Row `i` belongs to category `i`. */
  lemma {:induction false} StatsRowsAt(data: RecordSet, i: nat)
    requires i < |data|
    ensures StatsRows(data)[i] == (data[i].name, StatsOf(data[i].articles))
  {
    if i < |data| - 1 {
      StatsRowsAt(data[..|data| - 1], i);
    }
  }

  lemma StatsRowsKeys(data: RecordSet)
    ensures Keys(StatsRows(data)) == Names(data)
  {
    forall i | 0 <= i < |data| ensures Keys(StatsRows(data))[i] == Names(data)[i] {
      StatsRowsAt(data, i);
    }
  }

  lemma DistinctPrefix(s: seq<string>, n: nat)
    requires Distinct(s) && n <= |s|
    ensures Distinct(s[..n])
  {
    forall a, b | 0 <= a < b < n ensures s[..n][a] != s[..n][b] {
      assert s[..n][a] == s[a] && s[..n][b] == s[b];
    }
  }

  /** With distinct display names the table has one entry per category, in order,
      each computed from that category's own article list only. */
  lemma {:induction false} PerCategoryTable(data: RecordSet)
    requires Distinct(Names(data))
    ensures PerCategory(data) == StatsRows(data)
  {
    if data != [] {
      var n := |data| - 1;
      var init := data[..n];
      assert Names(init) == Names(data)[..n];
      DistinctPrefix(Names(data), n);
      PerCategoryTable(init);
      var t := StatsRows(init);
      StatsRowsKeys(init);
      assert data[n].name !in Keys(t) by {
        assert Keys(t) == Names(data)[..n];
        assert Names(data)[n] == data[n].name;
        assert forall i :: 0 <= i < n ==> Names(data)[i] != Names(data)[n];
      }
      PutAppends(t, data[n].name, StatsOf(data[n].articles));
    }
  }

  lemma {:induction false} PutAppends<V>(d: seq<(string, V)>, k: string, v: V)
    requires k !in Keys(d)
    ensures Put(d, k, v) == d + [(k, v)]
  {
    if d != [] {
      assert Keys(d) == [d[0].0] + Keys(d[1..]);
      PutAppends(d[1..], k, v);
      assert d == [d[0]] + d[1..];
    }
  }

  /** Sum of the `count` fields of a per-category table. */
  function SumStatCounts(t: seq<(string, CategoryStats)>): nat {
    if t == [] then 0 else SumStatCounts(t[..|t| - 1]) + t[|t| - 1].1.count
  }

  /** With distinct display names, the per-category counts add up to the total. */
  lemma {:induction false} PerCategorySum(data: RecordSet)
    requires Distinct(Names(data))
    ensures SumStatCounts(PerCategory(data)) == TotalArticles(data) == |Flattened(data)|
  {
    PerCategoryTable(data);
    FlattenedLength(data);
    SumOfTable(data);
  }

  lemma {:induction false} SumOfTable(data: RecordSet)
    ensures SumStatCounts(StatsRows(data)) == TotalArticles(data)
  {
    if data != [] {
      var init := data[..|data| - 1];
      SumOfTable(init);
      assert StatsRows(data)[..|data| - 1] == StatsRows(init);
    }
  }

  /** The trend snapshot (`analyze_trends`' result without its timestamp). */
  datatype TrendSnapshot = TrendSnapshot(
    total: nat,
    highImpact: nat,
    keywordStats: seq<(string, seq<(string, nat)>)>,
    hotTopics: seq<(string, nat)>,
    journals: seq<(string, nat)>,
    pubTypes: seq<(string, nat)>,
    meshTerms: seq<(string, nat)>,
    perCategory: seq<(string, CategoryStats)>)

  /** What `analyze_trends` returns: `None` for the empty dictionary it returns
      when there are no articles. */
  function Snapshot(data: RecordSet, tax: Taxonomy): Option<TrendSnapshot> {
    var arts := Flattened(data);
    if arts == [] then None
    else
      var kc := CountArticles(tax, arts);
      Some(TrendSnapshot(
        |arts|, HighImpactCount(arts), KeywordStats(kc), HotTopics(kc),
        MostCommon(Tally([], Journals(arts)), 15),
        MostCommon(Tally([], AllPubTypes(arts)), 10),
        MostCommon(Tally([], AllMeshTerms(arts)), 30),
        PerCategory(data)))
  }

  /** No articles gives the empty result; otherwise the total is the sum of the
      category list lengths and the high-impact count is at most the total. */
  lemma SnapshotTotals(data: RecordSet, tax: Taxonomy)
    ensures Snapshot(data, tax).None? <==> TotalArticles(data) == 0
    ensures Snapshot(data, tax).Some? ==>
      Snapshot(data, tax).value.total == TotalArticles(data)
      && Snapshot(data, tax).value.highImpact <= Snapshot(data, tax).value.total
  {
    FlattenedLength(data);
  }

  /** The keyword loop of `analyze_trends`: for each article, each taxonomy category
      and each keyword, one more hit when the text mentions the keyword. */
  method CountTrendKeywords(arts: seq<Article>, tax: Taxonomy) returns (kc: KeywordCounts)
    ensures kc == CountArticles(tax, arts)
  {
    kc := [];
    var i := 0;
    while i < |arts|
      invariant 0 <= i <= |arts|
      invariant kc == CountArticles(tax, arts[..i])
    {
      kc := ArticlePass(kc, tax, arts[i]);
      assert arts[..i + 1][..i] == arts[..i];
      i := i + 1;
    }
    assert arts[..i] == arts;
  }

  /** The loop over the taxonomy categories for one article. */
  method ArticlePass(start: KeywordCounts, tax: Taxonomy, a: Article) returns (kc: KeywordCounts)
    ensures kc == CountCategories(start, tax, a)
  {
    kc := start;
    var j := 0;
    while j < |tax|
      invariant 0 <= j <= |tax|
      invariant kc == CountCategories(start, tax[..j], a)
    {
      kc := KeywordPass(kc, tax[j].0, tax[j].1, a);
      assert tax[..j + 1][..j] == tax[..j];
      j := j + 1;
    }
    assert tax[..j] == tax;
  }

  /** The loop over one category's keywords for one article. */
  method KeywordPass(start: KeywordCounts, cat: string, kws: seq<string>, a: Article) returns (kc: KeywordCounts)
    ensures kc == CountKeywords(start, cat, kws, a)
  {
    kc := start;
    var m := 0;
    while m < |kws|
      invariant 0 <= m <= |kws|
      invariant kc == CountKeywords(start, cat, kws[..m], a)
    {
      if Mentions(a, kws[m]) {
        kc := Bump(kc, cat, kws[m]);
      }
      assert kws[..m + 1][..m] == kws[..m];
      m := m + 1;
    }
    assert kws[..m] == kws;
  }

  /** `for kws in keyword_counts.values(): all_keyword_counts.update(kws)`. */
  method MergeCounts(kc: KeywordCounts) returns (all: Counter)
    ensures all == MergeAll(kc)
  {
    all := [];
    var i := 0;
    while i < |kc|
      invariant 0 <= i <= |kc|
      invariant all == MergeAll(kc[..i])
    {
      all := Update(all, kc[i].1);
      assert kc[..i + 1][..i] == kc[..i];
      i := i + 1;
    }
    assert kc[..i] == kc;
  }

  /** The publication-type loop: one more per type of every article. */
  method CountPubTypes(arts: seq<Article>) returns (c: Counter)
    ensures c == Tally([], AllPubTypes(arts))
  {
    c := [];
    var i := 0;
    while i < |arts|
      invariant 0 <= i <= |arts|
      invariant c == Tally([], AllPubTypes(arts[..i]))
    {
      var pts := arts[i].pubTypes;
      ghost var before := AllPubTypes(arts[..i]);
      var j := 0;
      while j < |pts|
        invariant 0 <= j <= |pts|
        invariant c == Tally(Tally([], before), pts[..j])
      {
        assert pts[..j + 1][..j] == pts[..j];
        c := Add(c, pts[j], 1);
        j := j + 1;
      }
      assert pts[..j] == pts;
      TallyAppend([], before, pts);
      assert arts[..i + 1][..i] == arts[..i];
      i := i + 1;
    }
    assert arts[..i] == arts;
  }

  /** The MeSH loop: `mesh_counts.update(article["mesh_terms"])` for every article. */
  method CountMeshTerms(arts: seq<Article>) returns (c: Counter)
    ensures c == Tally([], AllMeshTerms(arts))
  {
    c := [];
    var i := 0;
    while i < |arts|
      invariant 0 <= i <= |arts|
      invariant c == Tally([], AllMeshTerms(arts[..i]))
    {
      TallyAppend([], AllMeshTerms(arts[..i]), arts[i].meshTerms);
      c := Tally(c, arts[i].meshTerms);
      assert arts[..i + 1][..i] == arts[..i];
      i := i + 1;
    }
    assert arts[..i] == arts;
  }

  /** The per-category loop over the record set. */
  method CategoryTable(data: RecordSet) returns (table: seq<(string, CategoryStats)>)
    ensures table == PerCategory(data)
  {
    table := [];
    var i := 0;
    while i < |data|
      invariant 0 <= i <= |data|
      invariant table == PerCategory(data[..i])
    {
      var arts := data[i].articles;
      table := Put(table, data[i].name, CategoryStats(|arts|, HighImpactCount(arts), MostCommon(Tally([], Journals(arts)), 5)));
      assert data[..i + 1][..i] == data[..i];
      i := i + 1;
    }
    assert data[..i] == data;
  }

  /** `analyze_trends`. */
  method AnalyzeTrends(data: RecordSet, tax: Taxonomy) returns (t: Option<TrendSnapshot>)
    ensures t == Snapshot(data, tax)
    ensures t.None? <==> TotalArticles(data) == 0
    ensures t.Some? ==> t.value.total == TotalArticles(data) && t.value.highImpact <= t.value.total
  {
    SnapshotTotals(data, tax);
    var arts := GetAllArticles(data);
    if |arts| == 0 {
      return None;
    }
    var kc := CountTrendKeywords(arts, tax);
    var merged := MergeCounts(kc);
    var pubTypes := CountPubTypes(arts);
    var mesh := CountMeshTerms(arts);
    var table := CategoryTable(data);
    t := Some(TrendSnapshot(
      |arts|, HighImpactCount(arts), KeywordStats(kc), MostCommon(merged, 20),
      MostCommon(Tally([], Journals(arts)), 15),
      MostCommon(pubTypes, 10),
      MostCommon(mesh, 30),
      table));
  }
}
