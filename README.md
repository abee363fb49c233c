# Research analyzer, modelled in Dafny

This project models the analysis engine of a weekly literature-digest tool for
nephrology research: the class `ResearchAnalyzer` in `research_analyzer.py`. The
engine takes a record set, which is an ordered mapping from a category id to its
display name, its search window in days and its PubMed articles. From it the engine:

- flattens the record set into one tagged article list (`get_all_articles`);
- aggregates trends (`analyze_trends`):
  - keyword hits against a taxonomy of trend keywords;
  - hot topics;
  - journal, publication-type and MeSH frequency tables;
  - per-category statistics;
- extracts a PICO record (population, intervention, comparison, outcome) from each
  abstract with ordered pattern cascades (`extract_pico`);
- composes a Chinese narrative summary and a per-article card (`generate_chinese_summary`,
  `_simplify_text`, `generate_article_summary`);
- proposes research ideas (`generate_research_ideas`);
- assembles the weekly summary with its featured articles and key findings
  (`generate_weekly_summary`, `_generate_key_findings`).

How the model is organised:

- **Imperative parts stay imperative.** Where the source works with loops that append
  or increment, the model has a `method` with a loop. Each such method is proved
  equal to a function that states what it computes. The properties are then proved about those
  functions as lemmas.
- **Pure parts are functions.** The paragraph simplifier, the study-type cascades and
  the featured-article sort are pure functions.
- **Dictionaries and counters are ordered association lists.** Python `dict`,
  `defaultdict(int)` and `Counter` values become lists of (key, value) pairs. Keys are
  distinct, appear in first-insertion order, and an update keeps an existing key in its
  place (module `Tables`).
- **Regular expressions are parameters.** Each one is a search function that returns
  the match or `None`. The cascades, trimming, truncation and fallbacks around them are
  concrete.
- **The keyword taxonomy is a parameter.** `TREND_KEYWORDS` is a sequence of
  (category, keywords) pairs.

Modules:

| module | what it holds |
|---|---|
| `Text` (text.dfy) | `str.isspace`, ASCII `lower`, `in`, `strip`, slicing, `re.sub(r'\s+', ' ', s)`, `rfind`, `join`, `str(n)` |
| `Sorting` (sorting.dfy) | `sorted(..., reverse=True)`: a stable insertion sort into descending key order |
| `Options`, `Tables` (tables.dfy) | `Option`, dictionaries, counters, `update`, `most_common` |
| `Records` (records.dfy) | articles, categories, flattening |
| `Trends` (trends.dfy) | `analyze_trends` |
| `PicoExtraction` (pico.dfy) | `extract_pico` |
| `Summary` (summary.dfy) | `_simplify_text`, study types, section split, `generate_chinese_summary`, `generate_article_summary` |
| `Ideas` (ideas.dfy) | `generate_research_ideas` |
| `Report` (report.dfy) | featured articles, `_generate_key_findings`, `generate_weekly_summary` |

## Model

| member | source | states |
|---|---|---|
| Records.GetAllArticles | research_analyzer.py:36-44 | the nested loop appends every article of every category, in order, tagged with its category id and display name; the result is the flattened list |
| Records.FlattenedLength | research_analyzer.py:36-44 | the flattened list is as long as all category article lists together |
| Records.FlattenedMembers | research_analyzer.py:36-44 | an article is in the flattened list exactly when it is some category's article tagged with that category |
| Trends.KeywordCountIsHits | research_analyzer.py:70-76 | the count for a keyword under its category is the number of articles whose lower-cased "title abstract" contains the lower-cased keyword, so each article adds at most one; a keyword not listed under a category is never counted there |
| Trends.BumpEffect | research_analyzer.py:76 | `keyword_counts[cat][kw] += 1` raises that one count by one, leaves every other count alone and keeps the nested table well formed (distinct keys, positive counts) |
| Trends.CountArticlesWellFormed | research_analyzer.py:70-76 | the keyword table built by the loop always has distinct category keys, distinct keyword keys and positive counts |
| Trends.CountTrendKeywords | research_analyzer.py:71-76 | the triple loop over articles, categories and keywords computes `CountArticles`, the keyword table whose counts `KeywordCountIsHits` characterises |
| Trends.KeywordStatsEntries | research_analyzer.py:78-81 | a (keyword, n) pair is in a category's statistics exactly when the keyword is listed there, n articles mention it and n is at least 1; each list runs by count, descending, and keywords with equal counts keep their first-counted order |
| Trends.HotTopicsSpec | research_analyzer.py:83-87 | at most 20 hot topics, with non-increasing counts; each count is at least 1 and is the sum of that keyword's counts over all categories |
| Trends.MergeCounts | research_analyzer.py:84-86 | the loop of `Counter.update` calls yields `MergeAll`, whose counts `MergeAllCounts` gives |
| Trends.MergeAllCounts | research_analyzer.py:84-86 | the merged counter's count for a keyword is the sum of that keyword's counts over the categories |
| Trends.FrequencyTable | research_analyzer.py:89-104 | a table capped at `cap` entries (15 journals, 10 publication types, 30 MeSH terms) has at most `cap` entries with non-increasing counts; each count is at least 1 and equals the number of occurrences of its key |
| Trends.CountPubTypes | research_analyzer.py:94-97 | the nested increment loop tallies every publication type of every article |
| Trends.CountMeshTerms | research_analyzer.py:101-103 | the `update` loop tallies every MeSH term of every article |
| Trends.CategoryTable | research_analyzer.py:107-113 | the per-category loop fills `PerCategory`, keyed by display name |
| Trends.PerCategoryTable | research_analyzer.py:106-113 | with distinct display names, the table has one row per category, in order; each row is computed from that category's own article list only |
| Trends.PerCategorySum | research_analyzer.py:106-113 | with distinct display names, the per-category article counts add up to the total article count |
| Trends.SnapshotTotals | research_analyzer.py:53-59 | the result is empty exactly when there are no articles; otherwise the total is the sum of the category list lengths and the high-impact count is at most the total |
| Trends.AnalyzeTrends | research_analyzer.py:46-115 | returns `Snapshot`: empty exactly when there are no articles, and otherwise with the total and the bounded high-impact count |
| Tables.MostCommonSpec | research_analyzer.py:87 | `most_common(n)` keeps min(n, size) entries taken from the counter, with non-increasing counts; no left-out entry has a larger count than a kept one; ties keep insertion order |
| Tables.TallyCounts | research_analyzer.py:90 | a counter built from a list counts each key as often as it occurs in the list |
| Tables.UpdateCounts | research_analyzer.py:86 | `c.update(d)` adds the counts key by key |
| Tables.CounterEntry | research_analyzer.py:87 | in a counter with distinct keys and positive counts, (k, n) is an entry exactly when n is at least 1 and k's count is n |
| Tables.PutKeys | research_analyzer.py:109 | assigning to an existing key keeps the key order; a new key is appended |
| Tables.AddKeys | research_analyzer.py:97 | incrementing an existing key keeps the key order; a new key is appended |
| Tables.Put | research_analyzer.py:109 | after `d[k] = v`, the key `k` holds `v` and every other key holds what it held |
| Tables.Add | research_analyzer.py:97 | `c[k] += n` raises k's count by n and no other count |
| Sorting.SortDescSorted | research_analyzer.py:486-490 | the sort leaves no element with a strictly greater key after a smaller one, given a strict total order on keys |
| Sorting.SortDescStable | research_analyzer.py:486-490 | elements with equal keys keep their relative input order |
| PicoExtraction.CascadeFirstWins | research_analyzer.py:150-154 | the cascade reports pattern i exactly when pattern i matches and no earlier one does; it reports nothing exactly when no pattern matches |
| PicoExtraction.FirstMatch | research_analyzer.py:150-154 | the loop with `break` finds the first matching pattern and its match, as `Cascade` (and so `CascadeFirstWins`) describes |
| PicoExtraction.EmptyCaptureStops | research_analyzer.py:170-181 | a match whose capture strips to nothing still ends the cascade: the field stays empty even when a later pattern would match |
| PicoExtraction.Clip | research_analyzer.py:153 | a field value is a prefix of the stripped capture, at most 200 characters long, and the whole stripped capture when that fits |
| PicoExtraction.PicoShape | research_analyzer.py:150-203 | intervention, comparison and outcome have at most 200 characters; a non-empty regex population is kept as it is; an empty one is replaced, and the result is non-empty exactly when some MeSH term contains a disease word |
| PicoExtraction.FallbackTerms | research_analyzer.py:197-203 | the fallback population is "患有 " + the first one or two disease terms in MeSH order, joined by ", ", + " 的病人"; each named term is a MeSH term containing a disease word |
| PicoExtraction.DiseaseTerms | research_analyzer.py:200-201 | the disease terms are exactly the MeSH terms whose lower-cased form contains one of the eight disease words |
| PicoExtraction.DiseaseTermsAppend | research_analyzer.py:200-201 | the filter keeps the MeSH order and repeats: filtering a concatenation concatenates the filtered parts |
| PicoExtraction.ExtractPico | research_analyzer.py:117-205 | the four cascades and the MeSH fallback compute `PicoOf`; all four fields are always present |
| Text.CollapseShape | research_analyzer.py:279 | after `re.sub(r'\s+', ' ', text).strip()` there is no whitespace at either end, no two whitespace characters side by side, and no whitespace except single blanks |
| Text.CollapseKeepsText | research_analyzer.py:279 | collapsing changes only whitespace: every other character survives, in order |
| Text.CollapseIdempotent | research_analyzer.py:279 | collapsing twice is the same as collapsing once |
| Text.LastIndexBefore | research_analyzer.py:283 | `rfind('.', 0, end)` is -1 or an index before `end` holding '.', with no '.' after it before `end` |
| Text.LowerMissesUpper | research_analyzer.py:327-330 | a lower-cased text never contains a needle that has an upper-case letter |
| Summary.SimplifyCases | research_analyzer.py:276-288 | a collapsed text of at most 300 characters is returned as it is; a longer one with a '.' at index 151 to 299 is cut after the last such '.', giving 152 to 300 characters; otherwise the first 300 characters are followed by "..." |
| Summary.SimplifyShape | research_analyzer.py:276-288 | the simplified text has no whitespace at either end, no whitespace runs and no whitespace but single blanks, and at most 303 characters |
| Summary.SimplifyStable | research_analyzer.py:276-288 | a simplified text of at most 300 characters is a fixed point of simplification |
| Summary.ClassifyFirstRule | research_analyzer.py:222-232 | strict priority: the study type is that of the first test that holds (RCT, meta-analysis, systematic review, "cohort", "case-control"), and the default exactly when none holds |
| Summary.CardStudyTypeNeverCohort | research_analyzer.py:327-330 | as written, the card's cascade never reports a cohort or a case-control study |
| Summary.CardStudyTypeCounterexample | research_analyzer.py:327-330 | for the abstract "A cohort of adults", the card as written leaves the type unclassified, while the narrative's cascade calls it a cohort study |
| Summary.CardStudyTypeDrops | research_analyzer.py:320-330 | the card's cascade as written gives the corrected cascade's type, except that a cohort or case-control result becomes the unclassified default |
| Summary.SectionLookup | research_analyzer.py:244-247 | with distinct section names, a section is present exactly when its pattern matched, and it holds that pattern's stripped capture (cut to 500 for the card) |
| Summary.SectionAbsent | research_analyzer.py:244-247 | a name that no pattern carries is never present |
| Summary.Sections | research_analyzer.py:313-316 | with a limit, every section value is at most that long |
| Summary.SplitSections | research_analyzer.py:244-247 | the section loop fills `Sections`, described by `SectionLookup` and `SectionAbsent` |
| Summary.NarrativeShape | research_analyzer.py:250-274 | one paragraph for the purpose or else the background, then one each for methods, results and conclusion when present, in that order; each is its heading followed by the simplified section, and the purpose paragraph also states the study type; the paragraphs are joined by blank lines; there are none exactly when no section the narrative reads was found, and then the narrative is "【摘要】" + the simplified first 800 characters |
| Summary.GenerateChineseSummary | research_analyzer.py:207-274 | the appends build `Narrative`, described by `NarrativeShape` |
| Summary.TrendTagsMembers | research_analyzer.py:333-338 | a "category: keyword" tag is produced exactly for the taxonomy keywords the article mentions |
| Summary.RelatedTrends | research_analyzer.py:333-338 | the nested loop builds `TrendTags`, in taxonomy order |
| Summary.CardLists | research_analyzer.py:355-357 | the related trends, keywords and MeSH terms on the card are prefixes of the full lists, with at most 5, 10 and 10 entries |
| Summary.StructuredBounds | research_analyzer.py:354 | the structured abstract is never empty; section values have at most 500 characters; without sections it is {"完整摘要": the first 1000 characters} |
| Summary.CardAsWrittenDiffers | research_analyzer.py:290-361 | the card as written equals the corrected card exactly when the corrected cascade finds neither a cohort nor a case-control study; otherwise only its 研究類型 differs, and it says "研究" |
| Summary.GenerateArticleSummary | research_analyzer.py:290-361 | returns `CardOf`, with the corrected study-type cascade |
| Ideas.AllKeywordsEntries | research_analyzer.py:393-397 | each entry of `all_keywords` is a (keyword, count) pair listed under the recorded category in the keyword statistics |
| Ideas.AllKeywordsDistinct | research_analyzer.py:393-397 | `all_keywords` has one entry per keyword |
| Ideas.AllKeywordsComplete | research_analyzer.py:393-397 | every keyword listed under any category has an entry in `all_keywords` |
| Ideas.AllKeywordsLastWins | research_analyzer.py:393-397 | a keyword's entry is its last listing: the count and name of the latest category listing it, as the later assignment overwrites the earlier one |
| Ideas.LowCount | research_analyzer.py:401-404 | the low-count entries are exactly those with a count from 1 to 3 |
| Ideas.LowCountAppend | research_analyzer.py:401-404 | the filter keeps the order of `all_keywords`: filtering a concatenation concatenates the filtered parts |
| Ideas.IdeasLayout | research_analyzer.py:373-472 | in order: one hot-topic idea for each of the first ten hot topics; exactly min(5, number of low-count entries) gap ideas; one cross-domain idea exactly when at least two categories have articles; the two method ideas; one high-impact idea exactly when some article is high-impact |
| Ideas.HotIdeasContent | research_analyzer.py:375-387 | the first ideas carry the first ten hot topics and their counts, in order |
| Ideas.GapIdeasContent | research_analyzer.py:389-416 | right after the hot-topic ideas, the k-th gap idea is built from the k-th low-count entry of `all_keywords`, for the first min(5, n) of them; every gap idea has a count from 1 to 3, and its category lists its keyword with that count |
| Ideas.HighImpactIdeaContent | research_analyzer.py:457-470 | the high-impact idea exists exactly when some article is high-impact; it counts every high-impact article and names the titles of the first min(3, n) high-impact articles, in article order, each cut to 50 characters |
| Ideas.HighImpactArticles | research_analyzer.py:458 | the high-impact articles are exactly the articles flagged high-impact; there are as many as the high-impact count |
| Ideas.HighImpactArticlesAppend | research_analyzer.py:458 | the filter keeps the article order and repeats: filtering a concatenation concatenates the filtered parts |
| Ideas.GenerateResearchIdeas | research_analyzer.py:363-472 | the appends build `IdeasFrom`, from the trend snapshot of the record set |
| Report.FeaturedSpec | research_analyzer.py:486-490 | min(10, n) articles drawn from the input; every high-impact article comes before every other; among equal impact, dates are non-increasing; no article left out outranks a kept one, by impact or, at equal impact, by date; equal keys keep input order |
| Report.FeaturedLeadsWithHighImpact | research_analyzer.py:486-490 | when some article is high-impact, the first featured article is high-impact |
| Report.FeatureBelowIsStrictTotalOrder | research_analyzer.py:488 | Python's tuple order on (is_high_impact, pub_date) is a strict total order |
| Report.DistinctJournals | research_analyzer.py:536 | the journal list has no repeats and holds exactly the journals of the given articles |
| Report.KeyFindingsSpec | research_analyzer.py:523-546 | at most three findings, in the order hot topics, journals, evidence: the first exactly when there are hot topics (it names the leading three), the second exactly when some article is high-impact, placed right after the first and carrying the high-impact count and three of their distinct journals, the last exactly when an RCT or meta-analysis is counted |
| Report.HotFindingSpec | research_analyzer.py:527-530 | the hot-topics finding names one to three topics, a prefix of the hot topics |
| Report.JournalFindingSpec | research_analyzer.py:533-537 | the high-impact finding counts every high-impact article and names at most three distinct journals, each the journal of a high-impact article |
| Report.GenerateKeyFindings | research_analyzer.py:523-546 | the appends produce the rendered sentences of `KeyFindings`, in order |
| Report.WeeklyCounts | research_analyzer.py:474-521 | the summary counts every article and has at most three findings; with no articles the counts are zero and there are no findings, category rows or hot topics; an empty record set has period "N/A" |
| Report.WeeklyFeatured | research_analyzer.py:484-490 | the summary features min(10, total) cards, each the card of the article in the same place of the featured list; at most ten hot topics |
| Report.FeaturedCards | research_analyzer.py:510-513 | the comprehension builds one card per featured article, in order |
| Report.GenerateWeeklySummary | research_analyzer.py:474-521 | returns `Weekly`, built from the trend snapshot, the ideas, the featured cards and the key findings |

## Left out

- File and clock code: `load_articles`, `save_summary`, `save_trends` and `main` read and write JSON files. The `分析日期` and `報告日期` fields hold `datetime.now()`. None of these is modelled: the summaries carry no timestamp.
- The regular-expression engine. Every pattern is a parameter: a search returning the match (or capture group 1), or `None`. What each of the source's patterns matches is not modelled. The pattern lists are in the source at research_analyzer.py:143-189, 236-241 and 305-310.
- `str.lower()` is modelled on ASCII letters only; other characters are left as they are. The keyword hits, the disease-word test and the study-type needles use only ASCII needles.
- Dictionary `.get` defaults for missing article keys (`.get("title", "")` and the like) are not modelled. The category-level defaults `data.get("articles", [])` and `data.get("name", category)` (research_analyzer.py:40, 42, 108-109) are not modelled either: a category is a record that always has its article list and display name. The fetcher always writes every key (pubmed_fetcher.py:302-308), so an article is a record with all fields present. The `.get` defaults on the trend dictionary are modelled: an empty snapshot reads as zero counts and empty tables.
- Records.GetAllArticles: the source writes the two tags into the caller's article dictionaries in place, so the record set itself changes. The model returns tagged copies and does not capture that aliasing.
- Ideas.Idea: the free-text body (`想法`) of each suggestion is not modelled. The values it is filled from are (keyword, count, category, article count, titles), as is the suggested design.
- Summary.GenerateArticleSummary, Summary.CardOf, Report.GenerateWeeklySummary: the card uses the corrected study-type cascade (see Findings), so for an abstract in which the corrected cascade finds a cohort or case-control study the card says "世代研究" or "病例對照研究" where the source says "研究". `Summary.CardAsWritten` is the card as written, and `Summary.CardAsWrittenDiffers` states that this is its only difference. `Report.Weekly` and `Report.GenerateWeeklySummary` build their featured cards with `CardOf` and inherit the same difference.
- Report.JournalFindingSpec: the source takes the first three journals of a `set`, whose order depends on string hashing. The model takes the first three distinct journals in article order. The contract states only what the source guarantees: at most three distinct journals, each from a high-impact article.
- Trends.PerCategoryTable, Trends.PerCategorySum: these assume distinct display names. With a repeated name, the later category overwrites the earlier row in place; `Trends.PerCategory` models that case, but no lemma states it.
- Summary.SectionLookup: this assumes distinct section names, as both pattern lists in the source have. A repeated name would keep the last match, and no lemma states that case.
- Summary.SimplifyCases: `cut_point > max_length * 0.5` compares an integer with the float 150.0, which is the same test as `cut_point > 150`. Only the default `max_length` of 300 is modelled, because every call uses it.
- Python's hash-based `set`, `defaultdict` factories and `dict` views are replaced by the association lists of `Tables`. Insertion order matches the source's.
- Report.Period: `days_back` is read from the first category, as in the source. The `.get('days_back', 7)` default is not modelled, because the fetcher always writes that key.

## Findings

| source | as written | input that shows it | evidently intended | confidence | as-written member | corrected member |
|---|---|---|---|---|---|---|
| research_analyzer.py:327-330 | the card's cohort and case-control tests look for "Cohort" and "Case-Control", which contain capitals, in `abstract.lower()`, so they can never succeed | an article with no publication types and the abstract "A cohort of adults": the card says "研究" | the lower-case needles "cohort" and "case-control", as `generate_chinese_summary` uses at lines 229-232, so the card says "世代研究" | high; not executed | Summary.CardStudyTypeAsWritten, Summary.CardStudyTypeNeverCohort, Summary.CardStudyTypeCounterexample, Summary.CardStudyTypeDrops, Summary.CardAsWrittenDiffers | Summary.StudyTypeOf (used by Summary.CardOf), Summary.ClassifyFirstRule |
