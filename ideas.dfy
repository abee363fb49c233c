/** Research-idea generation (`ResearchAnalyzer.generate_research_ideas`): a fixed-order
    list of suggestion records built from the trend snapshot and the articles. The
    free-text body of each suggestion is not modelled; the values it is filled from are. */
module Ideas {
  import opened Options
  import opened Text
  import opened Tables
  import opened Records
  import opened Trends

  datatype IdeaKind = HotTopicIdea | GapIdea | CrossDomainIdea | MethodIdea | HighImpactIdea

  /** One suggestion: its kind (`類型`), keyword (`關鍵詞`), frequency (`頻率`, where the
      record has one), the taxonomy category named in a gap idea, the number of
      high-impact articles and their titles (`相關文章`), and the suggested design. */
  datatype Idea = Idea(
    kind: IdeaKind,
    keyword: string,
    frequency: Option<nat>,
    category: string,
    articleCount: nat,
    titles: seq<string>,
    design: string)

  function HotIdea(topic: (string, nat)): Idea {
    Idea(HotTopicIdea, topic.0, Some(topic.1), "", 0, [], "觀察性研究 / 回顧性分析")
  }

  /** A gap idea from an `all_keywords` entry: keyword, then (count, category). */
  function GapIdeaOf(entry: (string, (nat, string))): Idea {
    Idea(GapIdea, entry.0, Some(entry.1.0), entry.1.1, 0, [], "系統性回顧 / 前瞻性研究")
  }

  const CrossDomain: Idea := Idea(CrossDomainIdea, "兒童腎臟學 + 成人腎臟學", None, "", 0, [], "長期追蹤世代研究")

  const MethodIdeas: seq<Idea> := [
    Idea(MethodIdea, "AI/機器學習", None, "", 0, [], "回顧性資料分析 + 模型開發"),
    Idea(MethodIdea, "真實世界數據", None, "", 0, [], "真實世界研究 (RWE)")]

  /** `all_keywords`: every keyword of the keyword statistics with its count and
      category; a keyword seen under a later category takes that category's entry. */
  function AllKeywords(stats: seq<(string, seq<(string, nat)>)>): seq<(string, (nat, string))> {
    if stats == [] then []
    else
      var last := stats[|stats| - 1];
      PutEach(AllKeywords(stats[..|stats| - 1]), last.0, last.1)
  }

  /** `all_keywords[kw] = {...}` for each keyword of one category, in order. */
  function PutEach(acc: seq<(string, (nat, string))>, cat: string, kws: seq<(string, nat)>): seq<(string, (nat, string))> {
    if kws == [] then acc
    else
      var last := kws[|kws| - 1];
      Put(PutEach(acc, cat, kws[..|kws| - 1]), last.0, (last.1, cat))
  }

  lemma {:induction false} PutEachEntries(acc: seq<(string, (nat, string))>, cat: string, kws: seq<(string, nat)>, kw: string)
    ensures match Get(PutEach(acc, cat, kws), kw)
      case None => Get(acc, kw).None?
      case Some(e) => Get(acc, kw) == Some(e) || (e.1 == cat && (kw, e.0) in kws)
  {
    if kws != [] {
      var init := kws[..|kws| - 1];
      PutEachEntries(acc, cat, init, kw);
      assert forall x :: x in init ==> x in kws;
    }
  }

  /** Each entry of `all_keywords` records a (keyword, count) pair that is listed under
      the recorded category in the keyword statistics. */
  lemma {:induction false} AllKeywordsEntries(stats: seq<(string, seq<(string, nat)>)>, kw: string)
    ensures Get(AllKeywords(stats), kw).Some? ==>
      var e := Get(AllKeywords(stats), kw).value;
      exists i :: 0 <= i < |stats| && stats[i].0 == e.1 && (kw, e.0) in stats[i].1
  {
    if stats != [] {
      var n := |stats| - 1;
      var init := stats[..n];
      AllKeywordsEntries(init, kw);
      PutEachEntries(AllKeywords(init), stats[n].0, stats[n].1, kw);
      if Get(AllKeywords(stats), kw).Some? {
        var e := Get(AllKeywords(stats), kw).value;
        if Get(AllKeywords(init), kw) == Some(e) {
          var i :| 0 <= i < |init| && init[i].0 == e.1 && (kw, e.0) in init[i].1;
          assert stats[i] == init[i];
        } else {
          assert stats[n].0 == e.1 && (kw, e.0) in stats[n].1;
        }
      }
    }
  }

  /** Putting the keywords of one category leaves the entries of other keywords as
      they were, and never drops a keyword. */
  lemma {:induction false} PutEachKeeps(acc: seq<(string, (nat, string))>, cat: string, kws: seq<(string, nat)>, kw: string)
    ensures (forall j :: 0 <= j < |kws| ==> kws[j].0 != kw) ==> Get(PutEach(acc, cat, kws), kw) == Get(acc, kw)
    ensures Get(acc, kw).Some? ==> Get(PutEach(acc, cat, kws), kw).Some?
  {
    if kws != [] {
      var init := kws[..|kws| - 1];
      PutEachKeeps(acc, cat, init, kw);
      assert forall j :: 0 <= j < |init| ==> init[j] == kws[j];
    }
  }

  /** A keyword listed at index `j` of a category, and not again after it, is entered
      with that count and category. */
  lemma {:induction false} PutEachLast(acc: seq<(string, (nat, string))>, cat: string, kws: seq<(string, nat)>, j: nat)
    requires j < |kws|
    requires forall j' :: j < j' < |kws| ==> kws[j'].0 != kws[j].0
    ensures Get(PutEach(acc, cat, kws), kws[j].0) == Some((kws[j].1, cat))
  {
    var n := |kws| - 1;
    if j < n {
      var init := kws[..n];
      assert init[j] == kws[j];
      assert forall j' :: j < j' < |init| ==> init[j'] == kws[j'];
      PutEachLast(acc, cat, init, j);
      assert kws[n].0 != kws[j].0;
    }
  }

  /** Putting the keywords of one category enters each of them. */
  lemma {:induction false} PutEachHas(acc: seq<(string, (nat, string))>, cat: string, kws: seq<(string, nat)>, p: (string, nat))
    requires p in kws
    ensures Get(PutEach(acc, cat, kws), p.0).Some?
  {
    var n := |kws| - 1;
    if kws[n].0 != p.0 {
      var init := kws[..n];
      assert p in init by {
        var j :| 0 <= j < |kws| && kws[j] == p;
        assert j < n && init[j] == p;
      }
      PutEachHas(acc, cat, init, p);
    }
  }

  /** Every keyword listed under some category has an entry in `all_keywords`. */
  lemma {:induction false} AllKeywordsComplete(stats: seq<(string, seq<(string, nat)>)>, i: nat, p: (string, nat))
    requires i < |stats| && p in stats[i].1
    ensures Get(AllKeywords(stats), p.0).Some?
  {
    var n := |stats| - 1;
    var init := stats[..n];
    assert AllKeywords(stats) == PutEach(AllKeywords(init), stats[n].0, stats[n].1);
    if i == n {
      PutEachHas(AllKeywords(init), stats[n].0, stats[n].1, p);
    } else {
      assert init[i] == stats[i];
      AllKeywordsComplete(init, i, p);
      PutEachKeeps(AllKeywords(init), stats[n].0, stats[n].1, p.0);
    }
  }

  /** A keyword takes the entry of its last listing: the latest category listing it,
      and within that category its last occurrence. */
  lemma {:induction false} AllKeywordsLastWins(stats: seq<(string, seq<(string, nat)>)>, i: nat, j: nat)
    requires i < |stats| && j < |stats[i].1|
    requires forall j' :: j < j' < |stats[i].1| ==> stats[i].1[j'].0 != stats[i].1[j].0
    requires forall i', j' :: i < i' < |stats| && 0 <= j' < |stats[i'].1| ==> stats[i'].1[j'].0 != stats[i].1[j].0
    ensures Get(AllKeywords(stats), stats[i].1[j].0) == Some((stats[i].1[j].1, stats[i].0))
  {
    var n := |stats| - 1;
    var init := stats[..n];
    if i == n {
      PutEachLast(AllKeywords(init), stats[n].0, stats[n].1, j);
    } else {
      assert init[i] == stats[i];
      assert forall i' :: i < i' < |init| ==> init[i'] == stats[i'];
      AllKeywordsLastWins(init, i, j);
      assert forall j' :: 0 <= j' < |stats[n].1| ==> stats[n].1[j'].0 != stats[i].1[j].0;
      PutEachKeeps(AllKeywords(init), stats[n].0, stats[n].1, stats[i].1[j].0);
    }
  }

  /** `low_count_keywords`: the entries whose count lies in [1, 3], in order. */
  function LowCount(all: seq<(string, (nat, string))>): (r: seq<(string, (nat, string))>)
    ensures forall x :: x in r <==> x in all && 1 <= x.1.0 <= 3
  {
    if all == [] then []
    else
      var rest := LowCount(all[1..]);
      assert forall x :: x in all <==> x == all[0] || x in all[1..];
      if 1 <= all[0].1.0 <= 3 then [all[0]] + rest else rest
  }

  /** The low-count filter keeps the order of `all_keywords`: filtering a concatenation
      filters each part and concatenates the results. */
  lemma {:induction false} LowCountAppend(a: seq<(string, (nat, string))>, b: seq<(string, (nat, string))>)
    ensures LowCount(a + b) == LowCount(a) + LowCount(b)
  {
    if a == [] {
      assert a + b == b;
    } else {
      assert (a + b)[0] == a[0];
      assert (a + b)[1..] == a[1..] + b;
      LowCountAppend(a[1..], b);
    }
  }

  /** The categories whose article list is non-empty. */
  function CategoriesWithArticles(data: RecordSet): nat {
    if data == [] then 0
    else CategoriesWithArticles(data[..|data| - 1]) + (if data[|data| - 1].articles != [] then 1 else 0)
  }

  /** `[a for a in all_articles if a.get("is_high_impact")]`. */
  function HighImpactArticles(arts: seq<Article>): (r: seq<Article>)
    ensures |r| == HighImpactCount(arts)
    ensures forall a :: a in r <==> a in arts && a.isHighImpact
  {
    if arts == [] then []
    else
      var init := arts[..|arts| - 1];
      var rest := HighImpactArticles(init);
      assert forall a :: a in arts <==> a in init || a == arts[|arts| - 1];
      rest + (if arts[|arts| - 1].isHighImpact then [arts[|arts| - 1]] else [])
  }

  /** The filter keeps the article order: filtering a concatenation concatenates the
      filtered parts. */
  lemma {:induction false} HighImpactArticlesAppend(a: seq<Article>, b: seq<Article>)
    ensures HighImpactArticles(a + b) == HighImpactArticles(a) + HighImpactArticles(b)
  {
    if b == [] {
      assert a + b == a;
    } else {
      var init := b[..|b| - 1];
      var last := b[|b| - 1];
      var t := if last.isHighImpact then [last] else [];
      assert b == init + [last];
      assert a + b == (a + init) + [last];
      calc {
        HighImpactArticles(a + b);
        { HighImpactArticlesSnoc(a + init, last); }
        HighImpactArticles(a + init) + t;
        { HighImpactArticlesAppend(a, init); }
        (HighImpactArticles(a) + HighImpactArticles(init)) + t;
        HighImpactArticles(a) + (HighImpactArticles(init) + t);
        { HighImpactArticlesSnoc(init, last); }
        HighImpactArticles(a) + HighImpactArticles(b);
      }
    }
  }

  lemma HighImpactArticlesSnoc(xs: seq<Article>, x: Article)
    ensures HighImpactArticles(xs + [x]) == HighImpactArticles(xs) + (if x.isHighImpact then [x] else [])
  {
    assert (xs + [x])[..|xs|] == xs;
  }

  /** The titles of the first three high-impact articles, each cut to 50 characters. */
  function ShortTitles(hi: seq<Article>): (r: seq<string>)
    ensures |r| == |Take(hi, 3)|
  {
    var first := Take(hi, 3);
    seq(|first|, i requires 0 <= i < |first| => Take(first[i].title, 50))
  }

  /** The idea inspired by the high-impact articles, if there are any. */
  function HighImpactIdeas(arts: seq<Article>): (r: seq<Idea>)
    ensures forall x :: x in r ==> x.kind == HighImpactIdea
  {
    var hi := HighImpactArticles(arts);
    if hi == [] then []
    else [Idea(HighImpactIdea, "重要發現複製與延伸", None, "", |hi|, ShortTitles(hi), "驗證性研究 / 機轉研究")]
  }

  function HotTopicsOf(t: Option<TrendSnapshot>): seq<(string, nat)> {
    match t
    case None => []
    case Some(s) => s.hotTopics
  }

  function KeywordStatsOf(t: Option<TrendSnapshot>): seq<(string, seq<(string, nat)>)> {
    match t
    case None => []
    case Some(s) => s.keywordStats
  }

  function HotIdeas(hot: seq<(string, nat)>): (r: seq<Idea>)
    ensures |r| == |hot|
    ensures forall x :: x in r ==> x.kind == HotTopicIdea
  {
    seq(|hot|, i requires 0 <= i < |hot| => HotIdea(hot[i]))
  }

  function GapIdeas(low: seq<(string, (nat, string))>): (r: seq<Idea>)
    ensures |r| == |low|
  {
    seq(|low|, i requires 0 <= i < |low| => GapIdeaOf(low[i]))
  }

  /** The ideas after the gap ideas: cross-domain, methodological, high-impact. */
  function LaterIdeas(data: RecordSet): (r: seq<Idea>)
    ensures forall x :: x in r ==> x.kind != GapIdea
  {
    var cross: seq<Idea> := if CategoriesWithArticles(data) >= 2 then [CrossDomain] else [];
    var hi := HighImpactIdeas(Flattened(data));
    assert forall x :: x in cross + MethodIdeas ==> x.kind != GapIdea;
    cross + MethodIdeas + hi
  }

  /** What `generate_research_ideas` returns, from the trend snapshot `t` of `data`. */
  function IdeasFrom(t: Option<TrendSnapshot>, data: RecordSet): seq<Idea> {
    HotIdeas(Take(HotTopicsOf(t), 10)) + GapIdeas(Take(LowCount(AllKeywords(KeywordStatsOf(t))), 5)) + LaterIdeas(data)
  }

  /** `k` copies of kind `x`. */
  function Repeat(x: IdeaKind, k: nat): (r: seq<IdeaKind>)
    ensures |r| == k && forall i :: 0 <= i < k ==> r[i] == x
  {
    seq(k, i requires 0 <= i < k => x)
  }

  function Kinds(ideas: seq<Idea>): seq<IdeaKind> {
    seq(|ideas|, i requires 0 <= i < |ideas| => ideas[i].kind)
  }

  lemma KindsAppend(a: seq<Idea>, b: seq<Idea>)
    ensures Kinds(a + b) == Kinds(a) + Kinds(b)
  {
  }

  /** The list runs, in this order: one idea per hot topic up to 10, one gap idea per
      low-count keyword up to 5,
      one cross-domain idea exactly when at least two categories have articles, the
      two method ideas, and one high-impact idea exactly when some article is high-impact. */
  lemma IdeasLayout(t: Option<TrendSnapshot>, data: RecordSet)
    ensures var low := LowCount(AllKeywords(KeywordStatsOf(t)));
            Kinds(IdeasFrom(t, data)) ==
                          Repeat(HotTopicIdea, |Take(HotTopicsOf(t), 10)|)
                          + Repeat(GapIdea, if |low| <= 5 then |low| else 5)
                          + (Repeat(CrossDomainIdea, if CategoriesWithArticles(data) >= 2 then 1 else 0)
                             + Repeat(MethodIdea, 2)
                             + Repeat(HighImpactIdea, if HighImpactCount(Flattened(data)) > 0 then 1 else 0))
  {
    var h := HotIdeas(Take(HotTopicsOf(t), 10));
    var gs := GapIdeas(Take(LowCount(AllKeywords(KeywordStatsOf(t))), 5));
    var later := LaterIdeas(data);
    assert IdeasFrom(t, data) == h + gs + later;
    KindsAppend(h, gs);
    KindsAppend(h + gs, later);
    assert Kinds(h) == Repeat(HotTopicIdea, |Take(HotTopicsOf(t), 10)|) by { KindsRepeat(h, HotTopicIdea); }
    assert Kinds(gs) == Repeat(GapIdea, |gs|) by { KindsRepeat(gs, GapIdea); }
    LaterKinds(data);
  }

  lemma LaterKinds(data: RecordSet)
    ensures Kinds(LaterIdeas(data)) ==
      Repeat(CrossDomainIdea, if CategoriesWithArticles(data) >= 2 then 1 else 0)
      + Repeat(MethodIdea, 2)
      + Repeat(HighImpactIdea, if HighImpactCount(Flattened(data)) > 0 then 1 else 0)
  {
    var hi := HighImpactIdeas(Flattened(data));
    HighImpactIdeaContent(Flattened(data));
    KindsOfLater(CategoriesWithArticles(data) >= 2, HighImpactCount(Flattened(data)) > 0, hi);
  }

  /** The kinds of the later ideas, given whether the cross-domain idea is there and
      the high-impact ideas. */
  lemma KindsOfLater(cross: bool, anyHigh: bool, hi: seq<Idea>)
    requires |hi| == (if anyHigh then 1 else 0)
    requires forall i :: 0 <= i < |hi| ==> hi[i].kind == HighImpactIdea
    ensures Kinds((if cross then [CrossDomain] else []) + MethodIdeas + hi) ==
      Repeat(CrossDomainIdea, if cross then 1 else 0) + Repeat(MethodIdea, 2) + Repeat(HighImpactIdea, if anyHigh then 1 else 0)
  {
    var c: seq<Idea> := if cross then [CrossDomain] else [];
    KindsAppend(c, MethodIdeas);
    KindsAppend(c + MethodIdeas, hi);
    assert Kinds(c) == Repeat(CrossDomainIdea, |c|) by { KindsRepeat(c, CrossDomainIdea); }
    assert Kinds(MethodIdeas) == Repeat(MethodIdea, 2) by { KindsRepeat(MethodIdeas, MethodIdea); }
    assert Kinds(hi) == Repeat(HighImpactIdea, |hi|) by { KindsRepeat(hi, HighImpactIdea); }
  }

  /** A run of ideas of one kind has that kind repeated as its kinds. */
  lemma KindsRepeat(xs: seq<Idea>, k: IdeaKind)
    requires forall i :: 0 <= i < |xs| ==> xs[i].kind == k
    ensures Kinds(xs) == Repeat(k, |xs|)
  {
  }

  /** The first ideas carry the first ten hot topics and their counts, in order. */
  lemma HotIdeasContent(t: Option<TrendSnapshot>, data: RecordSet)
    ensures var ideas := IdeasFrom(t, data);
      var hot := Take(HotTopicsOf(t), 10);
      |hot| <= |ideas|
      && forall i :: 0 <= i < |hot| ==> ideas[i].kind == HotTopicIdea && ideas[i].keyword == hot[i].0 && ideas[i].frequency == Some(hot[i].1)
  {
    var hot := Take(HotTopicsOf(t), 10);
    var g := GapIdeas(Take(LowCount(AllKeywords(KeywordStatsOf(t))), 5));
    var l := LaterIdeas(data);
    assert IdeasFrom(t, data) == HotIdeas(hot) + g + l;
    HotPrefix(hot, g, l);
  }

  lemma HotPrefix(hot: seq<(string, nat)>, g: seq<Idea>, l: seq<Idea>)
    ensures forall i :: 0 <= i < |hot| ==> (HotIdeas(hot) + g + l)[i] == HotIdea(hot[i])
  {
  }

  /** A gap idea is sound for the keyword statistics `stats`: its count lies between 1
      and 3, and its category lists its keyword with that count. */
  predicate GapSound(stats: seq<(string, seq<(string, nat)>)>, idea: Idea) {
    idea.frequency.Some? && 1 <= idea.frequency.value <= 3
    && exists j :: 0 <= j < |stats| && stats[j].0 == idea.category && (idea.keyword, idea.frequency.value) in stats[j].1
  }

  /** Right after the hot-topic ideas come the gap ideas of the first five low-count
      entries of `all_keywords`, in that order; every gap idea is sound for the
      snapshot's keyword statistics. */
  lemma GapIdeasContent(t: Option<TrendSnapshot>, data: RecordSet)
    ensures var ideas := IdeasFrom(t, data);
      var h := |Take(HotTopicsOf(t), 10)|;
      var all := LowCount(AllKeywords(KeywordStatsOf(t)));
      var n := if |all| <= 5 then |all| else 5;
      h + n <= |ideas| && forall k :: 0 <= k < n ==> ideas[h + k] == GapIdeaOf(all[k])
    ensures forall idea :: idea in IdeasFrom(t, data) && idea.kind == GapIdea ==> GapSound(KeywordStatsOf(t), idea)
  {
    GapRun(Take(HotTopicsOf(t), 10), LowCount(AllKeywords(KeywordStatsOf(t))), LaterIdeas(data));
    GapIdeasSound(t, data);
  }

  /** After the hot-topic ideas, the gap ideas of the first five low-count entries. */
  lemma GapRun(hot: seq<(string, nat)>, low: seq<(string, (nat, string))>, later: seq<Idea>)
    ensures var ideas := HotIdeas(hot) + GapIdeas(Take(low, 5)) + later;
      var n := if |low| <= 5 then |low| else 5;
      |hot| + n <= |ideas| && forall k :: 0 <= k < n ==> ideas[|hot| + k] == GapIdeaOf(low[k])
  {
    var gs := GapIdeas(Take(low, 5));
    GapAt(HotIdeas(hot), gs, later);
    assert forall k :: 0 <= k < |gs| ==> gs[k] == GapIdeaOf(low[k]);
  }

  lemma GapIdeasSound(t: Option<TrendSnapshot>, data: RecordSet)
    ensures forall idea :: idea in IdeasFrom(t, data) && idea.kind == GapIdea ==> GapSound(KeywordStatsOf(t), idea)
  {
    var stats := KeywordStatsOf(t);
    var low := Take(LowCount(AllKeywords(stats)), 5);
    var h := HotIdeas(Take(HotTopicsOf(t), 10));
    var gs := GapIdeas(low);
    assert IdeasFrom(t, data) == h + gs + LaterIdeas(data);
    forall idea | idea in IdeasFrom(t, data) && idea.kind == GapIdea
      ensures GapSound(stats, idea)
    {
      assert idea in gs;
      var k :| 0 <= k < |gs| && gs[k] == idea;
      assert low[k] in LowCount(AllKeywords(stats));
      GapIdeaSound(stats, low[k]);
    }
  }

  lemma GapAt(h: seq<Idea>, g: seq<Idea>, l: seq<Idea>)
    ensures forall k :: 0 <= k < |g| ==> (h + g + l)[|h| + k] == g[k]
  {
  }

  lemma GapIdeaSound(stats: seq<(string, seq<(string, nat)>)>, e: (string, (nat, string)))
    requires e in LowCount(AllKeywords(stats))
    ensures 1 <= e.1.0 <= 3
    ensures exists j :: 0 <= j < |stats| && stats[j].0 == e.1.1 && (e.0, e.1.0) in stats[j].1
  {
    var all := AllKeywords(stats);
    AllKeywordsDistinct(stats);
    DistinctKeysAt(all, e);
    AllKeywordsEntries(stats, e.0);
  }

  /** The high-impact idea counts every high-impact article and names the titles of
      the first three of them (all of them when there are fewer), in article order,
      each cut to 50 characters. */
  lemma HighImpactIdeaContent(arts: seq<Article>)
    ensures |HighImpactIdeas(arts)| == if HighImpactCount(arts) > 0 then 1 else 0
    ensures forall idea :: idea in HighImpactIdeas(arts) ==>
      idea.articleCount == HighImpactCount(arts)
      && |idea.titles| == (if HighImpactCount(arts) < 3 then HighImpactCount(arts) else 3)
      && forall k :: 0 <= k < |idea.titles| ==>
           idea.titles[k] == Take(HighImpactArticles(arts)[k].title, 50)
           && |idea.titles[k]| <= 50 && exists a :: a in arts && a.isHighImpact && idea.titles[k] == Take(a.title, 50)
  {
    var hi := HighImpactArticles(arts);
    if hi != [] {
      var titles := ShortTitles(hi);
      forall k | 0 <= k < |titles|
        ensures titles[k] == Take(hi[k].title, 50)
        ensures |titles[k]| <= 50 && exists a :: a in arts && a.isHighImpact && titles[k] == Take(a.title, 50)
      {
        assert Take(hi, 3)[k] == hi[k];
        assert hi[k] in hi;
      }
    }
  }

  /** A pair of a table with distinct keys is what looking up its key finds. */
  lemma DistinctKeysAt<V>(d: seq<(string, V)>, e: (string, V))
    requires e in d
    ensures Get(d, e.0).Some?
    ensures DistinctKeys(d) ==> Get(d, e.0) == Some(e.1)
  {
    var i :| 0 <= i < |d| && d[i] == e;
    assert Keys(d)[i] == e.0;
    if DistinctKeys(d) {
      GetAt(d, i);
    }
  }

  lemma {:induction false} PutEachDistinct(acc: seq<(string, (nat, string))>, cat: string, kws: seq<(string, nat)>)
    requires DistinctKeys(acc)
    ensures DistinctKeys(PutEach(acc, cat, kws))
  {
    if kws != [] {
      var last := kws[|kws| - 1];
      PutEachDistinct(acc, cat, kws[..|kws| - 1]);
      PutDistinct(PutEach(acc, cat, kws[..|kws| - 1]), last.0, (last.1, cat));
    }
  }

  lemma {:induction false} AllKeywordsDistinct(stats: seq<(string, seq<(string, nat)>)>)
    ensures DistinctKeys(AllKeywords(stats))
  {
    if stats != [] {
      AllKeywordsDistinct(stats[..|stats| - 1]);
      PutEachDistinct(AllKeywords(stats[..|stats| - 1]), stats[|stats| - 1].0, stats[|stats| - 1].1);
    }
  }

  /** `generate_research_ideas`. */
  method GenerateResearchIdeas(data: RecordSet, tax: Taxonomy) returns (ideas: seq<Idea>)
    ensures ideas == IdeasFrom(Snapshot(data, tax), data)
  {
    var trends := AnalyzeTrends(data, tax);
    var all := GetAllArticles(data);
    var hot := Take(HotTopicsOf(trends), 10);
    ideas := AppendHotIdeas(hot);
    var allKeywords := CollectKeywords(KeywordStatsOf(trends));
    var low := Take(LowCount(allKeywords), 5);
    ideas := AppendGapIdeas(ideas, low);
    ideas := AppendLaterIdeas(ideas, data, all);
  }

  /** The cross-domain, methodological and high-impact ideas, appended in that order. */
  method AppendLaterIdeas(start: seq<Idea>, data: RecordSet, all: seq<Article>) returns (ideas: seq<Idea>)
    requires all == Flattened(data)
    ensures ideas == start + LaterIdeas(data)
  {
    var cross: seq<Idea> := [];
    if CategoriesWithArticles(data) >= 2 {
      cross := [CrossDomain];
    }
    var hi := HighImpactArticles(all);
    var inspired: seq<Idea> := [];
    if |hi| > 0 {
      inspired := [Idea(HighImpactIdea, "重要發現複製與延伸", None, "", |hi|, ShortTitles(hi), "驗證性研究 / 機轉研究")];
    }
    assert inspired == HighImpactIdeas(all);
    ideas := start + (cross + MethodIdeas + inspired);
  }

  /** The hot-topic loop: one idea per topic, appended in order to the empty list. */
  method AppendHotIdeas(hot: seq<(string, nat)>) returns (ideas: seq<Idea>)
    ensures ideas == HotIdeas(hot)
  {
    ideas := [];
    var i := 0;
    while i < |hot|
      invariant 0 <= i <= |hot|
      invariant ideas == HotIdeas(hot[..i])
    {
      assert HotIdeas(hot[..i + 1]) == HotIdeas(hot[..i]) + [HotIdea(hot[i])];
      ideas := ideas + [HotIdea(hot[i])];
      i := i + 1;
    }
    assert hot[..i] == hot;
  }

  /** The gap loop: one idea per low-count keyword, appended in order. */
  method AppendGapIdeas(start: seq<Idea>, low: seq<(string, (nat, string))>) returns (ideas: seq<Idea>)
    ensures ideas == start + GapIdeas(low)
  {
    ideas := start;
    var i := 0;
    while i < |low|
      invariant 0 <= i <= |low|
      invariant ideas == start + GapIdeas(low[..i])
    {
      assert GapIdeas(low[..i + 1]) == GapIdeas(low[..i]) + [GapIdeaOf(low[i])];
      ideas := ideas + [GapIdeaOf(low[i])];
      i := i + 1;
    }
    assert low[..i] == low;
  }

  /** The nested loop filling `all_keywords`. */
  method CollectKeywords(stats: seq<(string, seq<(string, nat)>)>) returns (all: seq<(string, (nat, string))>)
    ensures all == AllKeywords(stats)
  {
    all := [];
    var i := 0;
    while i < |stats|
      invariant 0 <= i <= |stats|
      invariant all == AllKeywords(stats[..i])
    {
      var cat := stats[i].0;
      var kws := stats[i].1;
      ghost var before := all;
      var k := 0;
      while k < |kws|
        invariant 0 <= k <= |kws|
        invariant all == PutEach(before, cat, kws[..k])
      {
        assert kws[..k + 1][..k] == kws[..k];
        all := Put(all, kws[k].0, (kws[k].1, cat));
        k := k + 1;
      }
      assert kws[..k] == kws;
      assert stats[..i + 1][..i] == stats[..i];
      i := i + 1;
    }
    assert stats[..i] == stats;
  }
}
