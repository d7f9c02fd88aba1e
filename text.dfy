/** The cleaning applied to the problem statement before it is sent to the reasoning agent:
    Python's `problem.rstrip(',').strip()`. */
module Text {

  /** The characters for which Python's `str.isspace()` holds; `str.strip()` with no argument
      removes exactly these. */
  const Whitespace: set<char> := {
    '\t', '\n', '\U{000B}', '\U{000C}', '\r',
    '\U{001C}', '\U{001D}', '\U{001E}', '\U{001F}', ' ',
    '\U{0085}', '\U{00A0}', '\U{1680}',
    '\U{2000}', '\U{2001}', '\U{2002}', '\U{2003}', '\U{2004}', '\U{2005}',
    '\U{2006}', '\U{2007}', '\U{2008}', '\U{2009}', '\U{200A}',
    '\U{2028}', '\U{2029}', '\U{202F}', '\U{205F}', '\U{3000}'
  }

  /** `s.rstrip(cs)`: characters of `cs` removed from the end. */
  function RStrip(s: string, cs: set<char>): string {
    if s != [] && s[|s| - 1] in cs then RStrip(s[..|s| - 1], cs) else s
  }

  /** `s.lstrip(cs)`: characters of `cs` removed from the start. */
  function LStrip(s: string, cs: set<char>): string {
    if s != [] && s[0] in cs then LStrip(s[1..], cs) else s
  }

  /** `s.rstrip(cs)` is the longest prefix of `s` that does not end in a character of `cs`:
      only characters of `cs` were cut off, and the one before them is not in `cs`. */
  lemma {:induction false} RStripSpec(s: string, cs: set<char>)
    ensures |RStrip(s, cs)| <= |s| && RStrip(s, cs) == s[..|RStrip(s, cs)|]
    ensures forall t :: |RStrip(s, cs)| <= t < |s| ==> s[t] in cs
    ensures RStrip(s, cs) == [] || s[|RStrip(s, cs)| - 1] !in cs
  {
    if s != [] && s[|s| - 1] in cs {
      var s' := s[..|s| - 1];
      RStripSpec(s', cs);
      var n := |RStrip(s', cs)|;
      assert RStrip(s, cs) == RStrip(s', cs);
      assert s'[..n] == s[..n];
      forall t | n <= t < |s| ensures s[t] in cs {
        if t < |s| - 1 { assert s[t] == s'[t]; }
      }
      if n > 0 { assert s[n - 1] == s'[n - 1]; }
    } else {
      assert s[..|s|] == s;
    }
  }

  /** `s.lstrip(cs)` is the longest suffix of `s` that does not start with a character of
      `cs`: only characters of `cs` were cut off, and the one after them is not in `cs`. */
  lemma {:induction false} LStripSpec(s: string, cs: set<char>)
    ensures |LStrip(s, cs)| <= |s| && LStrip(s, cs) == s[|s| - |LStrip(s, cs)|..]
    ensures forall t :: 0 <= t < |s| - |LStrip(s, cs)| ==> s[t] in cs
    ensures LStrip(s, cs) == [] || s[|s| - |LStrip(s, cs)|] !in cs
  {
    if s != [] && s[0] in cs {
      var s' := s[1..];
      LStripSpec(s', cs);
      var n := |LStrip(s', cs)|;
      assert LStrip(s, cs) == LStrip(s', cs);
      assert s'[|s'| - n..] == s[|s| - n..];
      forall t | 0 <= t < |s| - n ensures s[t] in cs {
        if t > 0 { assert s[t] == s'[t - 1]; }
      }
      if n > 0 { assert s[|s| - n] == s'[|s'| - n]; }
    } else {
      assert s[0..] == s;
    }
  }

  /** `s.strip(cs)`: characters of `cs` removed from both ends. */
  function Strip(s: string, cs: set<char>): string {
    RStrip(LStrip(s, cs), cs)
  }


  /** `r` is `p[i..j]`, where `p[k..]` is the run of trailing commas of `p`, and only
      characters of `ws` lie in `p[..i]` and in `p[j..k]`. */
  ghost predicate TrimmedAt(p: string, r: string, ws: set<char>, i: nat, j: nat, k: nat) {
    && i <= j <= k <= |p|
    && r == p[i..j]
    && (forall t :: 0 <= t < i ==> p[t] in ws)
    && (forall t :: j <= t < k ==> p[t] in ws)
    && (forall t :: k <= t < |p| ==> p[t] == ',')
    && (k == 0 || p[k - 1] != ',')
  }

  /** `r` neither starts nor ends with a character of `ws`. */
  predicate Tight(r: string, ws: set<char>) {
    r == [] || (r[0] !in ws && r[|r| - 1] !in ws)
  }

  /** The cleaned problem statement (run.py:116): trailing commas removed, then surrounding
      whitespace. It is a contiguous piece of the input, obtained by cutting off the trailing
      commas and then whitespace on both sides, and it has no surrounding whitespace. */
  function TrimProblem(problem: string): (r: string)
    ensures exists i: nat, j: nat, k: nat :: TrimmedAt(problem, r, Whitespace, i, j, k)
    ensures Tight(r, Whitespace)
  {
    CutShape(problem, Whitespace);
    Strip(RStrip(problem, {','}), Whitespace)
  }

  /** Any tight piece cut from `p` as described is the trimmed problem: the description
      determines `TrimProblem` uniquely. */
  lemma TrimProblemUnique(p: string, r: string, i: nat, j: nat, k: nat)
    requires TrimmedAt(p, r, Whitespace, i, j, k) && Tight(r, Whitespace)
    ensures r == TrimProblem(p)
  {
    CutUnique(p, r, Whitespace, i, j, k);
  }

  lemma {:induction false} CutShape(p: string, ws: set<char>)
    ensures exists i: nat, j: nat, k: nat :: TrimmedAt(p, Strip(RStrip(p, {','}), ws), ws, i, j, k)
    ensures Tight(Strip(RStrip(p, {','}), ws), ws)
  {
    CommaCut(p);
    CutShapeFrom(p, RStrip(p, {','}), ws);
  }

  /** Whitespace stripped from `p` with its trailing commas `c` cut off leaves a tight piece
      as `TrimmedAt` describes. */
  lemma {:induction false} CutShapeFrom(p: string, c: string, ws: set<char>)
    requires |c| <= |p| && c == p[..|c|]
    requires forall t :: |c| <= t < |p| ==> p[t] == ','
    requires c == [] || p[|c| - 1] != ','
    ensures exists i: nat, j: nat, k: nat :: TrimmedAt(p, Strip(c, ws), ws, i, j, k)
    ensures Tight(Strip(c, ws), ws)
  {
    var i, j := WsCut(c, ws);
    var r := Strip(c, ws);
    var k := |c|;
    assert r == p[i..j];
    forall t | 0 <= t < i ensures p[t] in ws { assert p[t] == c[t]; }
    forall t | j <= t < k ensures p[t] in ws { assert p[t] == c[t]; }
    assert TrimmedAt(p, r, ws, i, j, k);
  }

  /** `p.rstrip(',')` is `p` without its run of trailing commas. */
  lemma {:induction false} CommaCut(p: string)
    ensures |RStrip(p, {','})| <= |p| && RStrip(p, {','}) == p[..|RStrip(p, {','})|]
    ensures forall t :: |RStrip(p, {','})| <= t < |p| ==> p[t] == ','
    ensures RStrip(p, {','}) == [] || p[|RStrip(p, {','})| - 1] != ','
  {
    RStripSpec(p, {','});
    var n := |RStrip(p, {','})|;
    forall t | n <= t < |p| ensures p[t] == ',' { assert p[t] in {','}; }
  }

  /** `c.strip(ws)` is a tight piece `c[i..j]` with only characters of `ws` around it. */
  lemma {:induction false} WsCut(c: string, ws: set<char>) returns (i: nat, j: nat)
    ensures i <= j <= |c| && Strip(c, ws) == c[i..j]
    ensures forall t :: 0 <= t < i ==> c[t] in ws
    ensures forall t :: j <= t < |c| ==> c[t] in ws
    ensures Tight(Strip(c, ws), ws)
  {
    var l := LStrip(c, ws);
    LStripSpec(c, ws);
    var r := RStrip(l, ws);
    RStripSpec(l, ws);
    i := |c| - |l|;
    j := i + |r|;
    assert l == c[i..];
    assert r == c[i..j];
    forall t | j <= t < |c| ensures c[t] in ws { assert c[t] == l[t - i]; }
    if r != [] {
      assert r[0] == l[0];
    }
  }

  lemma {:induction false} CutUnique(p: string, r: string, ws: set<char>, i: nat, j: nat, k: nat)
    requires TrimmedAt(p, r, ws, i, j, k) && Tight(r, ws)
    ensures r == Strip(RStrip(p, {','}), ws)
  {
    RStripLength(p, {','}, k);
    var c := RStrip(p, {','});
    RStripSpec(p, {','});
    assert c == p[..k];
    if r == [] {
      CutUniqueEmpty(c, ws, k);
    } else {
      CutUniqueNonEmpty(c, r, ws, i, j);
    }
  }

  /** An all-`ws` string strips to nothing. */
  lemma {:induction false} CutUniqueEmpty(c: string, ws: set<char>, k: nat)
    requires k == |c|
    requires forall t :: 0 <= t < k ==> c[t] in ws
    ensures Strip(c, ws) == []
  {
    LStripLength(c, ws, k);
    RStripSpec(LStrip(c, ws), ws);
  }

  /** A non-empty tight piece `c[i..j]` with only `ws` around it is what stripping `c` leaves. */
  lemma {:induction false} CutUniqueNonEmpty(c: string, r: string, ws: set<char>, i: nat, j: nat)
    requires i < j <= |c| && r == c[i..j]
    requires forall t :: 0 <= t < i ==> c[t] in ws
    requires forall t :: j <= t < |c| ==> c[t] in ws
    requires r[0] !in ws && r[|r| - 1] !in ws
    ensures Strip(c, ws) == r
  {
    assert c[i] == r[0];
    LStripLength(c, ws, i);
    var l := LStrip(c, ws);
    LStripSpec(c, ws);
    assert l == c[i..];
    assert forall t :: j - i <= t < |l| ==> l[t] in ws by {
      forall t | j - i <= t < |l| ensures l[t] in ws { assert l[t] == c[t + i]; }
    }
    assert l[j - i - 1] == r[|r| - 1];
    RStripLength(l, ws, j - i);
    RStripSpec(l, ws);
    assert RStrip(l, ws) == l[..j - i] == r;
  }

  /** Where `s.rstrip(cs)` stops is determined: at the one position after which only
      characters of `cs` follow and before which one that is not in `cs` stands. */
  lemma {:induction false} RStripLength(s: string, cs: set<char>, n: nat)
    requires n <= |s|
    requires forall t :: n <= t < |s| ==> s[t] in cs
    requires n == 0 || s[n - 1] !in cs
    ensures |RStrip(s, cs)| == n
  {
    RStripSpec(s, cs);
  }

  /** Where `s.lstrip(cs)` stops is determined likewise, from the left. */
  lemma {:induction false} LStripLength(s: string, cs: set<char>, n: nat)
    requires n <= |s|
    requires forall t :: 0 <= t < n ==> s[t] in cs
    requires n == |s| || s[n] !in cs
    ensures |LStrip(s, cs)| == |s| - n
  {
    LStripSpec(s, cs);
  }

  /** A problem with no surrounding whitespace and no trailing comma is sent unchanged. */
  lemma TrimProblemFixedPoint(p: string)
    requires Tight(p, Whitespace) && (p == [] || p[|p| - 1] != ',')
    ensures TrimProblem(p) == p
  {
    assert p[0..|p|] == p;
    TrimProblemUnique(p, p, 0, |p|, |p|);
  }

  /** Trailing commas go first: `"a,,"` becomes `"a"`. */
  lemma TrimProblemDropsTrailingCommas()
    ensures TrimProblem("a,,") == "a"
  {
    TrimProblemUnique("a,,", "a", 0, 1, 1);
  }

  /** Whitespace goes after the commas, so in `"a, "` the comma is not trailing when commas
      are removed and it survives: the result is `"a,"`. */
  lemma TrimProblemKeepsCommaBeforeSpace()
    ensures TrimProblem("a, ") == "a,"
  {
    TrimProblemUnique("a, ", "a,", 0, 2, 3);
  }

  /** Leading whitespace and a trailing comma both go. */
  lemma TrimProblemExample()
    ensures TrimProblem("  What is 1+1?,") == "What is 1+1?"
  {
    TrimProblemUnique("  What is 1+1?,", "What is 1+1?", 2, 14, 14);
  }
}
