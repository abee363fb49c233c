/** The bibliographic records the analyzer consumes and their flattening
    (`ResearchAnalyzer.get_all_articles`). */
module Records {

  /** One record as the fetcher produces it; `category` and `categoryName` are the
      tags that flattening writes into it. */
  datatype Article = Article(
    pmid: string,
    title: string,
    abstractText: string,
    journal: string,
    pubDate: string,
    pubTypes: seq<string>,
    keywords: seq<string>,
    meshTerms: seq<string>,
    doi: string,
    pubmedUrl: string,
    isHighImpact: bool,
    category: string,
    categoryName: string)

  /** One entry of the record set: category id, display name, search window and articles. */
  datatype Category = Category(id: string, name: string, daysBack: int, articles: seq<Article>)

  /** The record set, in the order of the source dictionary. */
  type RecordSet = seq<Category>

  function Tag(a: Article, c: Category): Article {
    a.(category := c.id, categoryName := c.name)
  }

  /** The articles of one category, each tagged with the category. */
  function Tagged(c: Category): (r: seq<Article>)
    ensures |r| == |c.articles|
  {
    seq(|c.articles|, k requires 0 <= k < |c.articles| => Tag(c.articles[k], c))
  }

  /** All articles, category by category, in order. */
  function Flattened(data: RecordSet): seq<Article> {
    if data == [] then [] else Flattened(data[..|data| - 1]) + Tagged(data[|data| - 1])
  }

  /** The sum of the per-category article counts. */
  function TotalArticles(data: RecordSet): nat {
    if data == [] then 0 else TotalArticles(data[..|data| - 1]) + |data[|data| - 1].articles|
  }

  /** Number of high-impact articles in a list. */
  function HighImpactCount(arts: seq<Article>): (n: nat)
    ensures n <= |arts|
  {
    if arts == [] then 0 else HighImpactCount(arts[..|arts| - 1]) + (if arts[|arts| - 1].isHighImpact then 1 else 0)
  }

  /** The flattened list is as long as all category lists together. */
  lemma {:induction false} FlattenedLength(data: RecordSet)
    ensures |Flattened(data)| == TotalArticles(data)
  {
    if data != [] {
      FlattenedLength(data[..|data| - 1]);
    }
  }

  /** An article is in the flattened list exactly when it is some category's article
      tagged with that category. */
  lemma {:induction false} FlattenedMembers(data: RecordSet, x: Article)
    ensures x in Flattened(data) <==>
      exists i, j :: 0 <= i < |data| && 0 <= j < |data[i].articles| && x == Tag(data[i].articles[j], data[i])
  {
    if data != [] {
      var init := data[..|data| - 1];
      var last := data[|data| - 1];
      FlattenedMembers(init, x);
      if x in Flattened(data) {
        if x in Tagged(last) {
          var j :| 0 <= j < |Tagged(last)| && Tagged(last)[j] == x;
          assert x == Tag(data[|data| - 1].articles[j], data[|data| - 1]);
        } else {
          assert x in Flattened(init);
          var i, j :| 0 <= i < |init| && 0 <= j < |init[i].articles| && x == Tag(init[i].articles[j], init[i]);
          assert init[i] == data[i];
        }
      }
      if exists i, j :: 0 <= i < |data| && 0 <= j < |data[i].articles| && x == Tag(data[i].articles[j], data[i]) {
        var i, j :| 0 <= i < |data| && 0 <= j < |data[i].articles| && x == Tag(data[i].articles[j], data[i]);
        if i == |data| - 1 {
          assert Tagged(last)[j] == x;
        } else {
          assert init[i] == data[i];
        }
      }
    }
  }

  /** `get_all_articles`: walks the categories in order and appends each article,
      tagged with its category id and display name. */
  method GetAllArticles(data: RecordSet) returns (all: seq<Article>)
    ensures all == Flattened(data)
  {
    all := [];
    var i := 0;
    while i < |data|
      invariant 0 <= i <= |data|
      invariant all == Flattened(data[..i])
    {
      var c := data[i];
      var j := 0;
      while j < |c.articles|
        invariant 0 <= j <= |c.articles|
        invariant all == Flattened(data[..i]) + Tagged(c)[..j]
      {
        all := all + [Tag(c.articles[j], c)];
        assert Tagged(c)[..j + 1] == Tagged(c)[..j] + [Tag(c.articles[j], c)];
        j := j + 1;
      }
      assert data[..i + 1][..i] == data[..i];
      assert Tagged(c)[..j] == Tagged(c);
      i := i + 1;
    }
    assert data[..i] == data;
  }
}
