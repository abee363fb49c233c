/** PICO extraction (`ResearchAnalyzer.extract_pico`): for each of the four fields an
    ordered list of pattern searches is tried and the first success wins; the capture
    is stripped and cut to 200 characters, and the population falls back to the
    article's disease MeSH terms. Each regular expression is a parameter: a search
    over the text that yields the match, or `None`. */
module PicoExtraction {
  import opened Options
  import opened Text
  import opened Records

  /** A successful `re.search`: the whole match and capture group 1, `None` when the
      pattern has no group that took part in the match (`match.lastindex` is `None`). */
  datatype Match = Match(whole: string, group1: Option<string>)

  /** The four pattern lists, in their source order. */
  datatype Patterns = Patterns(
    population: seq<string -> Option<Match>>,
    intervention: seq<string -> Option<Match>>,
    comparison: seq<string -> Option<Match>>,
    outcome: seq<string -> Option<Match>>)

  /** The result dictionary: all four keys are always present. */
  datatype Pico = Pico(population: string, intervention: string, comparison: string, outcome: string)

  /** The first pattern of `ss` that matches `text`, with its match. */
  function Cascade(ss: seq<string -> Option<Match>>, text: string): Option<(nat, Match)> {
    if ss == [] then None
    else match ss[0](text)
      case Some(m) => Some((0, m))
      case None =>
        match Cascade(ss[1..], text)
        case None => None
        case Some(r) => Some((r.0 + 1, r.1))
  }

  /** First match wins: the cascade reports pattern `i` exactly when it matches and no
      earlier pattern does, and reports nothing exactly when no pattern matches. */
  lemma {:induction false} CascadeFirstWins(ss: seq<string -> Option<Match>>, text: string, i: nat, m: Match)
    ensures Cascade(ss, text) == Some((i, m)) <==>
      i < |ss| && ss[i](text) == Some(m) && forall j :: 0 <= j < i ==> ss[j](text).None?
    ensures Cascade(ss, text).None? <==> forall j :: 0 <= j < |ss| ==> ss[j](text).None?
  {
    if ss != [] {
      if i > 0 {
        CascadeFirstWins(ss[1..], text, i - 1, m);
        if ss[0](text).None? && i < |ss| && ss[i](text) == Some(m) && forall j :: 0 <= j < i ==> ss[j](text).None? {
          forall j | 0 <= j < i - 1 ensures ss[1..][j](text).None? {
            assert ss[1..][j] == ss[j + 1];
          }
        }
      } else {
        CascadeFirstWins(ss[1..], text, 0, m);
      }
      forall j | 0 <= j < |ss[1..]| ensures ss[1..][j] == ss[j + 1] { }
    }
  }

  /** `match.group(1).strip()[:200]`. */
  function Clip(capture: string): (r: string)
    ensures |r| <= 200 && r <= Strip(capture)
    ensures |Strip(capture)| <= 200 ==> r == Strip(capture)
  {
    Take(Strip(capture), 200)
  }

  /** The text a match contributes: group 1 when it took part, else the whole match. */
  function Capture(m: Match): string {
    match m.group1
    case Some(g) => g
    case None => m.whole
  }

  /** The value a field's cascade leaves in the dictionary: empty when nothing matches. */
  function Field(ss: seq<string -> Option<Match>>, text: string): (r: string)
    ensures |r| <= 200
  {
    match Cascade(ss, text)
    case None => ""
    case Some(hit) => Clip(Capture(hit.1))
  }

  /** The eight disease substrings the MeSH fallback looks for. */
  const DiseaseWords: seq<string> := ["disease", "syndrome", "disorder", "injury", "failure", "nephro", "kidney", "renal"]

  predicate IsDiseaseTerm(m: string) {
    exists k :: 0 <= k < |DiseaseWords| && Contains(Lower(m), DiseaseWords[k])
  }

  /** The MeSH terms naming a disease, in their original order. */
  function DiseaseTerms(mesh: seq<string>): (r: seq<string>)
    ensures |r| <= |mesh|
    ensures forall x :: x in r <==> x in mesh && IsDiseaseTerm(x)
  {
    if mesh == [] then []
    else
      var rest := DiseaseTerms(mesh[1..]);
      assert forall x :: x in mesh <==> x == mesh[0] || x in mesh[1..];
      if IsDiseaseTerm(mesh[0]) then [mesh[0]] + rest else rest
  }

  /** The filter keeps the MeSH order: filtering a concatenation concatenates the
      filtered parts. */
  lemma {:induction false} DiseaseTermsAppend(a: seq<string>, b: seq<string>)
    ensures DiseaseTerms(a + b) == DiseaseTerms(a) + DiseaseTerms(b)
  {
    if a == [] {
      assert a + b == b;
    } else {
      assert (a + b)[0] == a[0];
      assert (a + b)[1..] == a[1..] + b;
      DiseaseTermsAppend(a[1..], b);
    }
  }

  /** The fallback population: "患有 <at most two disease terms> 的病人", or empty. */
  function Fallback(mesh: seq<string>): string {
    var dt := DiseaseTerms(mesh);
    if dt == [] then "" else "患有 " + Join(Take(dt, 2), ", ") + " 的病人"
  }

  /** What `extract_pico` returns for an article. */
  function PicoOf(a: Article, pats: Patterns): Pico {
    var text := a.title + " " + a.abstractText;
    var p := Field(pats.population, text);
    Pico(
      if p == "" then Fallback(a.meshTerms) else p,
      Field(pats.intervention, text),
      Field(pats.comparison, text),
      Field(pats.outcome, text))
  }

  /** The regex fields are the stripped capture of the first matching pattern cut to
      200 characters, or empty; the population falls back to the MeSH terms only
      when its regex value is empty, and then is non-empty exactly when some MeSH
      term contains a disease word, naming at most two of them. */
  lemma PicoShape(a: Article, pats: Patterns)
    ensures var text := a.title + " " + a.abstractText;
      var p := PicoOf(a, pats);
      |p.intervention| <= 200 && |p.comparison| <= 200 && |p.outcome| <= 200
      && (Field(pats.population, text) != "" ==> p.population == Field(pats.population, text))
      && (Field(pats.population, text) == "" ==>
            (p.population != "" <==> exists m :: m in a.meshTerms && IsDiseaseTerm(m)))
  {
    var dt := DiseaseTerms(a.meshTerms);
    if exists m :: m in a.meshTerms && IsDiseaseTerm(m) {
      var m :| m in a.meshTerms && IsDiseaseTerm(m);
      assert m in dt;
      assert |Fallback(a.meshTerms)| > 0;
    }
    if dt != [] {
      assert dt[0] in dt;
    }
  }

  /** The fallback names at most two disease terms, the first two in MeSH order. */
  lemma FallbackTerms(mesh: seq<string>)
    ensures var dt := DiseaseTerms(mesh);
      Fallback(mesh) == if dt == [] then ""
        else if |dt| == 1 then "患有 " + dt[0] + " 的病人"
        else "患有 " + (dt[0] + ", " + dt[1]) + " 的病人"
    ensures forall x :: x in DiseaseTerms(mesh) ==> x in mesh && IsDiseaseTerm(x)
  {
    var dt := DiseaseTerms(mesh);
    if |dt| == 1 {
      FallbackOne(mesh);
    } else if |dt| >= 2 {
      FallbackTwo(mesh);
    }
  }

  lemma FallbackOne(mesh: seq<string>)
    requires |DiseaseTerms(mesh)| == 1
    ensures Fallback(mesh) == "患有 " + DiseaseTerms(mesh)[0] + " 的病人"
  {
    var dt := DiseaseTerms(mesh);
    assert Take(dt, 2) == [dt[0]];
  }

  lemma FallbackTwo(mesh: seq<string>)
    requires |DiseaseTerms(mesh)| >= 2
    ensures Fallback(mesh) == "患有 " + (DiseaseTerms(mesh)[0] + ", " + DiseaseTerms(mesh)[1]) + " 的病人"
  {
    var dt := DiseaseTerms(mesh);
    assert Take(dt, 2) == [dt[0], dt[1]];
    JoinPair(dt[0], dt[1], ", ");
    assert Join(Take(dt, 2), ", ") == dt[0] + ", " + dt[1];
  }

  lemma JoinPair(x: string, y: string, sep: string)
    ensures Join([x, y], sep) == x + sep + y
  {
    assert [x, y][1..] == [y];
  }

  /** A match whose capture strips to nothing still ends the cascade: the field stays
      empty even when a later pattern would have matched (the second comparison
      pattern, whose group may be empty). */
  lemma EmptyCaptureStops(ss: seq<string -> Option<Match>>, text: string, i: nat, m: Match)
    requires i < |ss| && ss[i](text) == Some(m) && forall j :: 0 <= j < i ==> ss[j](text).None?
    requires Strip(Capture(m)) == ""
    ensures Field(ss, text) == ""
  {
    CascadeFirstWins(ss, text, i, m);
  }

  /** The loop over one pattern list: search in order, stop at the first success. */
  method FirstMatch(ss: seq<string -> Option<Match>>, text: string) returns (found: Option<(nat, Match)>)
    ensures found == Cascade(ss, text)
  {
    found := None;
    var i := 0;
    while i < |ss|
      invariant 0 <= i <= |ss|
      invariant forall j :: 0 <= j < i ==> ss[j](text).None?
    {
      var r := ss[i](text);
      if r.Some? {
        found := Some((i, r.value));
        CascadeFirstWins(ss, text, i, r.value);
        return;
      }
      i := i + 1;
    }
    CascadeFirstWins(ss, text, 0, Match("", None));
  }

  /** `extract_pico`. */
  method ExtractPico(a: Article, pats: Patterns) returns (p: Pico)
    ensures p == PicoOf(a, pats)
  {
    var text := a.title + " " + a.abstractText;
    var fields: seq<string> := [];
    var lists := [pats.population, pats.intervention, pats.comparison, pats.outcome];
    var k := 0;
    while k < 4
      invariant 0 <= k <= 4 && |fields| == k
      invariant forall j :: 0 <= j < k ==> fields[j] == Field(lists[j], text)
    {
      var hit := FirstMatch(lists[k], text);
      var value := "";
      if hit.Some? {
        value := Clip(Capture(hit.value.1));
      }
      fields := fields + [value];
      k := k + 1;
    }
    var population := fields[0];
    if population == "" && a.meshTerms != [] {
      var dt := DiseaseTerms(a.meshTerms);
      if dt != [] {
        population := "患有 " + Join(Take(dt, 2), ", ") + " 的病人";
      }
    }
    p := Pico(population, fields[1], fields[2], fields[3]);
  }
}
