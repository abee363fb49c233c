/** Character and string helpers: the Python built-ins the analyzer leans on
    (`str.isspace`, `str.lower`, `in`, `strip`, slicing, `re.sub(r'\s+', ' ', s)`,
    `rfind` and `join`), written out over `seq<char>`. */
module Text {

  /** Python's `str.isspace()`; `\s` in a str pattern matches the same characters. */
  predicate IsSpace(c: char) {
    c == ' ' || '\t' <= c <= '\r' || '\U{1C}' <= c <= '\U{1F}' || c == '\U{85}' || c == '\U{A0}'
    || c == '\U{1680}' || '\U{2000}' <= c <= '\U{200A}' || c == '\U{2028}' || c == '\U{2029}'
    || c == '\U{202F}' || c == '\U{205F}' || c == '\U{3000}'
  }

  predicate IsUpper(c: char) { 'A' <= c <= 'Z' }

  /** Case mapping of `str.lower()`, restricted to ASCII letters. */
  function LowerChar(c: char): char {
    if IsUpper(c) then (c as int - 'A' as int + 'a' as int) as char else c
  }

  function Lower(s: string): string {
    seq(|s|, i requires 0 <= i < |s| => LowerChar(s[i]))
  }

  /** `needle` occurs in `text` at index `i`. */
  predicate OccursAt(text: string, needle: string, i: int) {
    0 <= i && i + |needle| <= |text| && text[i..i + |needle|] == needle
  }

  /** Python's `needle in text`. */
  predicate Contains(text: string, needle: string) {
    exists i :: 0 <= i <= |text| - |needle| && OccursAt(text, needle, i)
  }

  /** A lower-cased text never contains a needle that has an upper-case letter. */
  lemma LowerMissesUpper(s: string, needle: string, k: nat)
    requires k < |needle| && IsUpper(needle[k])
    ensures !Contains(Lower(s), needle)
  {
    var t := Lower(s);
    forall i | 0 <= i <= |t| - |needle|
      ensures !OccursAt(t, needle, i)
    {
      assert !IsUpper(t[i + k]);
      assert t[i..i + |needle|][k] != needle[k];
    }
  }

  /** Python's `s[:n]`, on strings and lists alike. */
  function Take<T>(s: seq<T>, n: nat): (r: seq<T>)
    ensures |r| <= n && r <= s
    ensures |s| <= n ==> r == s
    ensures |s| > n ==> |r| == n
  {
    if |s| <= n then s else s[..n]
  }

  /** Drops leading whitespace (`lstrip()`); also how a `\s+` run is consumed. */
  function TrimStart(s: string): (r: string)
    ensures |r| <= |s| && r == s[|s| - |r|..]
    ensures r == [] || !IsSpace(r[0])
    ensures s != [] && IsSpace(s[0]) ==> |r| < |s|
  {
    if s != [] && IsSpace(s[0]) then TrimStart(s[1..]) else s
  }

  /** Drops trailing whitespace (`rstrip()`). */
  function TrimEnd(s: string): (r: string)
    ensures |r| <= |s| && r == s[..|r|]
    ensures r == [] || !IsSpace(r[|r| - 1])
  {
    if s != [] && IsSpace(s[|s| - 1]) then TrimEnd(s[..|s| - 1]) else s
  }

  /** Python's `strip()`. */
  function Strip(s: string): string {
    TrimEnd(TrimStart(s))
  }

  predicate NoEdgeSpace(s: string) {
    s == [] || (!IsSpace(s[0]) && !IsSpace(s[|s| - 1]))
  }

  predicate NoSpaceRun(s: string) {
    forall i :: 0 <= i < |s| - 1 ==> !(IsSpace(s[i]) && IsSpace(s[i + 1]))
  }

  /** The only whitespace character left is the blank. */
  predicate OnlyBlanks(s: string) {
    forall i :: 0 <= i < |s| ==> IsSpace(s[i]) ==> s[i] == ' '
  }

  /** The non-whitespace characters of `s`, in order. */
  function NonSpace(s: string): string {
    if s == [] then [] else (if IsSpace(s[0]) then [] else [s[0]]) + NonSpace(s[1..])
  }

  lemma {:induction false} NonSpaceAppend(a: string, b: string)
    ensures NonSpace(a + b) == NonSpace(a) + NonSpace(b)
  {
    if a != [] {
      assert (a + b)[0] == a[0] && (a + b)[1..] == a[1..] + b;
      NonSpaceAppend(a[1..], b);
    } else {
      assert a + b == b;
    }
  }

  lemma {:induction false} StripKeepsText(s: string)
    ensures NonSpace(Strip(s)) == NonSpace(s)
  {
    TrimStartKeepsText(s);
    TrimEndKeepsText(TrimStart(s));
  }

  lemma {:induction false} TrimStartKeepsText(s: string)
    ensures NonSpace(TrimStart(s)) == NonSpace(s)
  {
    if s != [] && IsSpace(s[0]) {
      TrimStartKeepsText(s[1..]);
    }
  }

  lemma {:induction false} TrimEndKeepsText(s: string)
    ensures NonSpace(TrimEnd(s)) == NonSpace(s)
    decreases |s|
  {
    if s != [] && IsSpace(s[|s| - 1]) {
      var init := s[..|s| - 1];
      assert s == init + [s[|s| - 1]];
      NonSpaceAppend(init, [s[|s| - 1]]);
      TrimEndKeepsText(init);
    }
  }

  /** `re.sub(r'\s+', ' ', s)`: every maximal run of whitespace becomes one blank. */
  function SqueezeSpace(s: string): string
    decreases |s|
  {
    if s == [] then []
    else if IsSpace(s[0]) then [' '] + SqueezeSpace(TrimStart(s))
    else [s[0]] + SqueezeSpace(s[1..])
  }

  /** `re.sub(r'\s+', ' ', s).strip()`: the normalisation step of the paragraph simplifier. */
  function Collapse(s: string): string {
    Strip(SqueezeSpace(s))
  }

  /** Squeezing leaves no two whitespace characters side by side, only blanks,
      and starts with whitespace exactly when the input does. */
  lemma {:induction false} SqueezeShape(s: string)
    ensures NoSpaceRun(SqueezeSpace(s)) && OnlyBlanks(SqueezeSpace(s))
    ensures s == [] <==> SqueezeSpace(s) == []
    ensures s != [] ==> (IsSpace(SqueezeSpace(s)[0]) <==> IsSpace(s[0]))
    decreases |s|
  {
    if s != [] {
      var rest := if IsSpace(s[0]) then TrimStart(s) else s[1..];
      SqueezeShape(rest);
      var r := SqueezeSpace(s);
      assert r[1..] == SqueezeSpace(rest);
      if IsSpace(s[0]) {
        assert rest == [] || !IsSpace(rest[0]);
      }
      forall i | 0 <= i < |r| - 1
        ensures !(IsSpace(r[i]) && IsSpace(r[i + 1]))
      {
        if i > 0 {
          assert r[i] == SqueezeSpace(rest)[i - 1];
        }
      }
    }
  }

  lemma {:induction false} SqueezeKeepsText(s: string)
    ensures NonSpace(SqueezeSpace(s)) == NonSpace(s)
    decreases |s|
  {
    if s != [] {
      if IsSpace(s[0]) {
        SqueezeKeepsText(TrimStart(s));
        TrimStartKeepsText(s);
        NonSpaceAppend([' '], SqueezeSpace(TrimStart(s)));
      } else {
        SqueezeKeepsText(s[1..]);
        NonSpaceAppend([s[0]], SqueezeSpace(s[1..]));
      }
    }
  }

  /** The collapsed text has no leading or trailing whitespace, no whitespace run,
      and no whitespace other than single blanks. */
  lemma CollapseShape(s: string)
    ensures NoEdgeSpace(Collapse(s)) && NoSpaceRun(Collapse(s)) && OnlyBlanks(Collapse(s))
  {
    SqueezeShape(s);
    StripShape(SqueezeSpace(s));
  }

  /** Stripping a text without whitespace runs or non-blank whitespace leaves it with
      no whitespace at either end either. */
  lemma StripShape(q: string)
    requires NoSpaceRun(q) && OnlyBlanks(q)
    ensures NoEdgeSpace(Strip(q)) && NoSpaceRun(Strip(q)) && OnlyBlanks(Strip(q))
  {
    var t := TrimStart(q);
    assert t == q[|q| - |t|..|q|];
    SliceShape(q, |q| - |t|, |q|);
    assert TrimEnd(t) == t[0..|TrimEnd(t)|];
    SliceShape(t, 0, |TrimEnd(t)|);
    StripEdges(q);
  }

  /** A stripped text has no whitespace at either end. */
  lemma StripEdges(q: string)
    ensures NoEdgeSpace(Strip(q))
  {
    var t := TrimStart(q);
    var r := TrimEnd(t);
    if r != [] {
      assert r[0] == t[0];
    }
  }

  /** A slice of a text without whitespace runs or non-blank whitespace has neither. */
  lemma SliceShape(q: string, a: nat, b: nat)
    requires a <= b <= |q| && NoSpaceRun(q) && OnlyBlanks(q)
    ensures NoSpaceRun(q[a..b]) && OnlyBlanks(q[a..b])
  {
    var r := q[a..b];
    forall i | 0 <= i < |r| - 1 ensures !(IsSpace(r[i]) && IsSpace(r[i + 1])) {
      assert r[i] == q[a + i] && r[i + 1] == q[a + i + 1];
    }
    forall i | 0 <= i < |r| ensures IsSpace(r[i]) ==> r[i] == ' ' {
      assert r[i] == q[a + i];
    }
  }

  /** Collapsing changes whitespace only: every other character survives, in order. */
  lemma CollapseKeepsText(s: string)
    ensures NonSpace(Collapse(s)) == NonSpace(s)
  {
    SqueezeKeepsText(s);
    StripKeepsText(SqueezeSpace(s));
  }

  lemma {:induction false} SqueezeFixesNormal(s: string)
    requires NoSpaceRun(s) && OnlyBlanks(s)
    ensures SqueezeSpace(s) == s
    decreases |s|
  {
    if s != [] {
      assert NoSpaceRun(s[1..]) && OnlyBlanks(s[1..]) by {
        forall i | 0 <= i < |s[1..]| - 1
          ensures !(IsSpace(s[1..][i]) && IsSpace(s[1..][i + 1]))
        {
          assert s[1..][i] == s[i + 1];
        }
      }
      if IsSpace(s[0]) {
        assert |s| > 1 ==> !IsSpace(s[1]);
        assert TrimStart(s) == s[1..];
      }
      SqueezeFixesNormal(s[1..]);
    }
  }

  /** Collapsing is idempotent. */
  lemma CollapseIdempotent(s: string)
    ensures Collapse(Collapse(s)) == Collapse(s)
  {
    var c := Collapse(s);
    CollapseShape(s);
    SqueezeFixesNormal(c);
    assert TrimStart(c) == c;
    assert TrimEnd(c) == c;
  }

  /** Python's `s.rfind(c, 0, end)`: the last index before `end` holding `c`, or -1. */
  function LastIndexBefore(s: string, c: char, end: nat): (r: int)
    requires end <= |s|
    ensures -1 <= r < end
    ensures r >= 0 ==> s[r] == c
    ensures forall j :: r < j < end ==> s[j] != c
  {
    if end == 0 then -1
    else if s[end - 1] == c then end - 1
    else LastIndexBefore(s, c, end - 1)
  }

  /** Python's `str(n)` for a natural number: its decimal digits. */
  function NatToString(n: nat): (r: string)
    ensures r != [] && forall i :: 0 <= i < |r| ==> '0' <= r[i] <= '9'
  {
    var digit := ['0' + (n % 10) as char];
    if n < 10 then digit else NatToString(n / 10) + digit
  }

  /** Python's `str(n)` for an integer. */
  function IntToString(n: int): string {
    if n < 0 then "-" + NatToString(-n) else NatToString(n)
  }

  /** Python's `sep.join(parts)`. */
  function Join(parts: seq<string>, sep: string): string {
    if parts == [] then []
    else if |parts| == 1 then parts[0]
    else parts[0] + sep + Join(parts[1..], sep)
  }
}
