/** NATS subjects and the two hand-written wildcard scanners.

    A subject is a string of tokens separated by dots; as a pattern, the token "*" stands for any
    one token and a final ">" for one or more tokens (NATS documentation, "Subject-Based
    Messaging", section "Wildcards"). */
module Subjects {

  /** Index of the first dot at or after `start`, or the length. */
  function TokenEnd(s: string, start: nat): (e: nat)
    requires start <= |s|
    ensures start <= e <= |s|
    ensures forall i :: start <= i < e ==> s[i] != '.'
    ensures e < |s| ==> s[e] == '.'
    decreases |s| - start
  {
    if start == |s| || s[start] == '.' then start else TokenEnd(s, start + 1)
  }

  /** The tokens from `start` on. */
  function TokensFrom(s: string, start: nat): (ts: seq<string>)
    requires start <= |s|
    ensures ts != []
    decreases |s| - start
  {
    var e := TokenEnd(s, start);
    if e == |s| then [s[start..e]] else [s[start..e]] + TokensFrom(s, e + 1)
  }

  /** The tokens of a string; "a." has the tokens "a" and "". */
  function Tokens(s: string): (ts: seq<string>)
    ensures ts != []
  {
    TokensFrom(s, 0)
  }

  /** The tokens from `start` on, not counting an empty one at the very end. */
  function LiveFrom(s: string, start: nat): seq<string>
    requires start <= |s|
    decreases |s| - start
  {
    if start == |s| then [] else
    var e := TokenEnd(s, start);
    if e == |s| then [s[start..e]] else [s[start..e]] + LiveFrom(s, e + 1)
  }

  function LiveTokens(s: string): seq<string> {
    LiveFrom(s, 0)
  }

  /** The reference matcher on token lists. */
  predicate TokenMatch(p: seq<string>, s: seq<string>) {
    if p == [] then s == []
    else if p[0] == ">" then s != []
    else s != [] && (p[0] == "*" || p[0] == s[0]) && TokenMatch(p[1..], s[1..])
  }

  /** What subjectPatternCovers computes on any two strings: like the reference matcher, except
      that a subject which ends in a dot (or is empty) counts as used up there. */
  predicate ScanTokens(p: seq<string>, s: seq<string>)
    requires p != [] && s != []
  {
    if p[0] == ">" then s != [""]
    else if s == [""] || (p[0] != "*" && p[0] != s[0]) then false
    else if |p| == 1 || |s| == 1 then |p| == 1 && |s| == 1
    else ScanTokens(p[1..], s[1..])
  }

  predicate Covers(pattern: string, subject: string) {
    pattern == subject || ScanTokens(Tokens(pattern), Tokens(subject))
  }

  /** The inner loop of both scanners: the end of the token that starts at `start`. */
  method ScanToken(s: string, start: nat) returns (end: nat)
    requires start <= |s|
    ensures end == TokenEnd(s, start)
  {
    end := start;
    while end < |s| && s[end] != '.'
      invariant start <= end <= |s|
      invariant TokenEnd(s, start) == TokenEnd(s, end)
    {
      end := end + 1;
    }
  }

  lemma FirstToken(s: string, start: nat)
    requires start <= |s|
    ensures
      var ts, e := TokensFrom(s, start), TokenEnd(s, start);
      && ts[0] == s[start..e]
      && (if e == |s| then |ts| == 1 else |ts| > 1 && ts[1..] == TokensFrom(s, e + 1))
      && (ts == [""] <==> start == |s|)
  {
  }

  /** The scan by index, from the given token starts on. */
  predicate ScanFrom(pattern: string, ps: nat, subject: string, ss: nat)
    requires ps <= |pattern| && ss <= |subject|
    decreases |pattern| - ps
  {
    var pe, se := TokenEnd(pattern, ps), TokenEnd(subject, ss);
    if pattern[ps..pe] == ">" then ss < |subject|
    else if ss == |subject| || (pattern[ps..pe] != "*" && pattern[ps..pe] != subject[ss..se]) then false
    else if pe == |pattern| || se == |subject| then pe == |pattern| && se == |subject|
    else ScanFrom(pattern, pe + 1, subject, se + 1)
  }

  lemma {:induction false} ScanFromIsScan(pattern: string, ps: nat, subject: string, ss: nat)
    requires ps <= |pattern| && ss <= |subject|
    ensures ScanFrom(pattern, ps, subject, ss) == ScanTokens(TokensFrom(pattern, ps), TokensFrom(subject, ss))
    decreases |pattern| - ps
  {
    var pe, se := TokenEnd(pattern, ps), TokenEnd(subject, ss);
    FirstToken(pattern, ps);
    FirstToken(subject, ss);
    if pe < |pattern| && se < |subject| {
      ScanFromIsScan(pattern, pe + 1, subject, se + 1);
    }
  }

  /** The scanner's loop over the two token starts. */
  method ScanSubjects(pattern: string, subject: string) returns (r: bool)
    ensures r == ScanFrom(pattern, 0, subject, 0)
  {
    var patternStart, subjectStart := 0, 0;
    while true
      invariant 0 <= patternStart <= |pattern| && 0 <= subjectStart <= |subject|
      invariant ScanFrom(pattern, 0, subject, 0) == ScanFrom(pattern, patternStart, subject, subjectStart)
      decreases |pattern| - patternStart
    {
      var patternEnd := ScanToken(pattern, patternStart);
      var subjectEnd := ScanToken(subject, subjectStart);
      var patternToken := pattern[patternStart..patternEnd];
      if patternToken == ">" {
        return subjectStart < |subject|;
      }
      if subjectStart >= |subject| || (patternToken != "*" && patternToken != subject[subjectStart..subjectEnd]) {
        return false;
      }
      if patternEnd == |pattern| || subjectEnd == |subject| {
        return patternEnd == |pattern| && subjectEnd == |subject|;
      }
      patternStart := patternEnd + 1;
      subjectStart := subjectEnd + 1;
    }
  }

  method SubjectPatternCovers(pattern: string, subject: string) returns (r: bool)
    ensures r == Covers(pattern, subject)
  {
    if pattern == subject {
      return true;
    }
    r := ScanSubjects(pattern, subject);
    ScanFromIsScan(pattern, 0, subject, 0);
  }

  predicate NameMatches(name: string, pattern: string) {
    pattern == "" || pattern == ">" || TokenMatch(LiveTokens(pattern), LiveTokens(name))
  }

  /** One round of the object-name scan. */
  lemma MatchRound(pattern: string, pi: nat, name: string, ni: nat)
    requires pi < |pattern| && ni <= |name|
    ensures
      var pe := TokenEnd(pattern, pi);
      TokenMatch(LiveFrom(pattern, pi), LiveFrom(name, ni)) ==
        if pattern[pi..pe] == ">" then ni < |name|
        else if ni == |name| then false
        else
          var ne := TokenEnd(name, ni);
          && (pattern[pi..pe] == "*" || pattern[pi..pe] == name[ni..ne])
          && TokenMatch(LiveFrom(pattern, NextToken(pattern, pe)), LiveFrom(name, NextToken(name, ne)))
  {
    FirstLive(pattern, pi);
    if ni < |name| {
      FirstLive(name, ni);
    }
  }

  function NextToken(s: string, end: nat): (next: nat)
    requires end <= |s|
    ensures next <= |s|
  {
    if end < |s| then end + 1 else |s|
  }

  lemma FirstLive(s: string, start: nat)
    requires start < |s|
    ensures
      var ts, e := LiveFrom(s, start), TokenEnd(s, start);
      ts != [] && ts[0] == s[start..e] && ts[1..] == LiveFrom(s, NextToken(s, e))
  {
  }

  method ObjectNameMatches(name: string, pattern: string) returns (r: bool)
    ensures r == NameMatches(name, pattern)
  {
    if pattern == "" || pattern == ">" {
      return true;
    }
    ghost var matches := NameMatches(name, pattern);
    var nIdx, pIdx := 0, 0;
    var nLen, pLen := |name|, |pattern|;
    while pIdx < pLen
      invariant 0 <= pIdx <= pLen && 0 <= nIdx <= nLen
      invariant matches == TokenMatch(LiveFrom(pattern, pIdx), LiveFrom(name, nIdx))
    {
      MatchRound(pattern, pIdx, name, nIdx);
      var pEnd := ScanToken(pattern, pIdx);
      var pToken := pattern[pIdx..pEnd];
      if pToken == ">" {
        return nIdx < nLen;
      }
      if nIdx >= nLen {
        return false;
      }
      var nEnd := ScanToken(name, nIdx);
      var nToken := name[nIdx..nEnd];
      if pToken != "*" && pToken != nToken {
        return false;
      }
      pIdx, nIdx := NextToken(pattern, pEnd), NextToken(name, nEnd);
    }
    return nIdx == nLen && pIdx == pLen;
  }

  // ---------------------------------------------------------------------------------------
  // Well-formed subjects: both scanners are the reference matcher

  predicate WellFormed(ts: seq<string>) {
    ts != [] && forall i :: 0 <= i < |ts| ==> ts[i] != ""
  }

  lemma {:induction false} ScanIsMatch(p: seq<string>, s: seq<string>)
    requires WellFormed(p) && WellFormed(s)
    ensures ScanTokens(p, s) == TokenMatch(p, s)
    decreases |p|
  {
    assert s[0] != "";
    if |p| > 1 && |s| > 1 {
      ScanIsMatch(p[1..], s[1..]);
    }
  }

  lemma {:induction false} MatchReflexive(p: seq<string>)
    ensures TokenMatch(p, p)
    decreases |p|
  {
    if p != [] {
      MatchReflexive(p[1..]);
    }
  }

  lemma {:induction false} LiveIsAll(s: string, start: nat)
    requires start <= |s| && WellFormed(TokensFrom(s, start))
    ensures LiveFrom(s, start) == TokensFrom(s, start)
    decreases |s| - start
  {
    var e := TokenEnd(s, start);
    assert TokensFrom(s, start)[0] == s[start..e];
    if e < |s| {
      assert TokensFrom(s, start)[1..] == TokensFrom(s, e + 1);
      LiveIsAll(s, e + 1);
    }
  }

  /** An object binding without a pattern, or with a bare ">", takes every name, the empty one too. */
  lemma CatchAll(name: string)
    ensures NameMatches(name, "") && NameMatches(name, ">")
  {
  }

  /** On well-formed strings both scanners equal the reference matcher, and hence each other. */
  lemma ScannersAgree(pattern: string, subject: string)
    requires WellFormed(Tokens(pattern)) && WellFormed(Tokens(subject))
    ensures Covers(pattern, subject) == TokenMatch(Tokens(pattern), Tokens(subject))
    ensures NameMatches(subject, pattern) == TokenMatch(Tokens(pattern), Tokens(subject))
  {
    ScanIsMatch(Tokens(pattern), Tokens(subject));
    MatchReflexive(Tokens(pattern));
    LiveIsAll(pattern, 0);
    LiveIsAll(subject, 0);
    if pattern == ">" {
      assert Tokens(pattern) == [">"];
    }
  }

  // ---------------------------------------------------------------------------------------
  // Coverage is language inclusion

  /** A pattern: well formed, and ">" only as its last token. */
  predicate IsPattern(ts: seq<string>) {
    WellFormed(ts) && forall i :: 0 <= i < |ts| - 1 ==> ts[i] != ">"
  }

  /** A subject a message can carry: no wildcards. */
  predicate IsLiteral(ts: seq<string>) {
    WellFormed(ts) && forall i :: 0 <= i < |ts| ==> ts[i] != "*" && ts[i] != ">"
  }

  predicate EndsOpen(ts: seq<string>) {
    ts != [] && ts[|ts| - 1] == ">"
  }

  /** Every literal subject that `request` matches is matched by `pattern`. */
  ghost predicate Included(pattern: string, request: string) {
    forall s: string :: IsLiteral(Tokens(s)) && TokenMatch(Tokens(request), Tokens(s))
      ==> TokenMatch(Tokens(pattern), Tokens(s))
  }

  /** Soundness on tokens. */
  lemma {:induction false} MatchTransitive(p: seq<string>, r: seq<string>, s: seq<string>)
    requires (p == [] || IsPattern(p)) && (r == [] || IsPattern(r))
    requires EndsOpen(r) ==> EndsOpen(p)
    requires TokenMatch(p, r) && TokenMatch(r, s)
    ensures TokenMatch(p, s)
    decreases |p|
  {
    if p != [] && p[0] != ">" {
      if r[0] != ">" {
        MatchTransitive(p[1..], r[1..], s[1..]);
      }
    }
  }

  function TotalLength(ts: seq<string>): nat {
    if ts == [] then 0 else |ts[0]| + TotalLength(ts[1..])
  }

  /** A token longer than every token of the list. */
  function FreshToken(ts: seq<string>): (x: string)
    ensures |x| >= 2 && forall i :: 0 <= i < |x| ==> x[i] == 'x'
  {
    seq(TotalLength(ts) + 2, _ => 'x')
  }

  lemma {:induction false} TokenBelowTotal(ts: seq<string>, i: nat)
    requires i < |ts|
    ensures |ts[i]| <= TotalLength(ts)
    decreases i
  {
    if i > 0 {
      TokenBelowTotal(ts[1..], i - 1);
    }
  }

  /** The request with `x` for each wildcard, and `extra` more tokens for a final ">". */
  function Instance(r: seq<string>, x: string, extra: nat): (s: seq<string>)
    ensures |s| == |r| + (if EndsOpen(r) then extra else 0)
  {
    if r == [] then []
    else if r == [">"] then [x] + seq(extra, _ => x)
    else [if r[0] == "*" || r[0] == ">" then x else r[0]] + Instance(r[1..], x, extra)
  }

  lemma {:induction false} InstanceMatches(r: seq<string>, x: string, extra: nat)
    requires r == [] || IsPattern(r)
    requires x != "" && x != "*" && x != ">"
    ensures TokenMatch(r, Instance(r, x, extra))
    ensures r != [] ==> IsLiteral(Instance(r, x, extra))
    ensures forall t :: t in Instance(r, x, extra) ==> t == x || t in r
    decreases |r|
  {
    if r != [] && r != [">"] {
      InstanceMatches(r[1..], x, extra);
    }
  }

  /** A pattern that matches the fresh instance of a request covers the request. */
  lemma {:induction false} MatchFreshInstance(p: seq<string>, r: seq<string>, x: string)
    requires (r == [] || IsPattern(r)) && x !in p
    requires TokenMatch(p, Instance(r, x, 0))
    ensures TokenMatch(p, r)
    decreases |p|
  {
    if p != [] && p[0] != ">" {
      if r == [">"] {
        assert Instance(r, x, 0)[1..] == r[1..];
      } else {
        assert Instance(r, x, 0)[1..] == Instance(r[1..], x, 0);
        MatchFreshInstance(p[1..], r[1..], x);
      }
    }
  }

  lemma {:induction false} ClosedPatternLength(p: seq<string>, s: seq<string>)
    requires (p == [] || IsPattern(p)) && !EndsOpen(p) && TokenMatch(p, s)
    ensures |p| == |s|
    decreases |p|
  {
    if p != [] {
      ClosedPatternLength(p[1..], s[1..]);
    }
  }

  function Join(ts: seq<string>): string
    requires ts != []
  {
    if |ts| == 1 then ts[0] else ts[0] + "." + Join(ts[1..])
  }

  predicate Dotless(ts: seq<string>) {
    forall i :: 0 <= i < |ts| ==> '.' !in ts[i]
  }

  lemma {:induction false} TokenEndShift(s: string, k: nat, b: string, i: nat)
    requires k <= |s| && b == s[k..] && i <= |b|
    ensures TokenEnd(s, k + i) == k + TokenEnd(b, i)
    decreases |b| - i
  {
    if i < |b| && b[i] != '.' {
      TokenEndShift(s, k, b, i + 1);
    }
  }

  lemma SuffixSlice(s: string, k: nat, b: string, i: nat, e: nat)
    requires k <= |s| && b == s[k..] && i <= e <= |b|
    ensures s[k + i..k + e] == b[i..e]
  {
  }

  /** The tokens of a suffix are tokens of the whole. */
  lemma {:induction false} TokensShift(s: string, k: nat, b: string, i: nat)
    requires k <= |s| && b == s[k..] && i <= |b|
    ensures TokensFrom(s, k + i) == TokensFrom(b, i)
    decreases |b| - i
  {
    var e := TokenEnd(b, i);
    TokenEndShift(s, k, b, i);
    SuffixSlice(s, k, b, i, e);
    if e < |b| {
      TokensShift(s, k, b, e + 1);
    }
  }

  lemma {:induction false} FirstDot(s: string, start: nat, end: nat)
    requires start <= end <= |s| && (end < |s| ==> s[end] == '.')
    requires forall i :: start <= i < end ==> s[i] != '.'
    ensures TokenEnd(s, start) == end
    decreases end - start
  {
    if start < end {
      FirstDot(s, start + 1, end);
    }
  }

  lemma TokensOfHead(t: string, rest: string)
    requires forall i :: 0 <= i < |t| ==> t[i] != '.'
    ensures Tokens(t + "." + rest) == [t] + Tokens(rest)
  {
    var s := t + "." + rest;
    FirstDot(s, 0, |t|);
    assert s[0..|t|] == t;
    TokensShift(s, |t| + 1, rest, 0);
  }

  /** Splitting undoes joining. */
  lemma {:induction false} TokensOfJoin(ts: seq<string>)
    requires ts != [] && Dotless(ts)
    ensures Tokens(Join(ts)) == ts
    decreases |ts|
  {
    if |ts| == 1 {
      FirstDot(ts[0], 0, |ts[0]|);
      assert ts[0][0..|ts[0]|] == ts[0];
    } else {
      TokensOfJoin(ts[1..]);
      TokensOfHead(ts[0], Join(ts[1..]));
    }
  }

  lemma {:induction false} TokensDotless(s: string, start: nat)
    requires start <= |s|
    ensures Dotless(TokensFrom(s, start))
    decreases |s| - start
  {
    var e := TokenEnd(s, start);
    if e < |s| {
      TokensDotless(s, e + 1);
    }
  }

  /** An instance of a request, as a string a message can carry. */
  lemma InstanceSubject(request: string, x: string, extra: nat) returns (s: string)
    requires IsPattern(Tokens(request)) && |x| >= 2 && '.' !in x
    ensures IsLiteral(Tokens(s)) && TokenMatch(Tokens(request), Tokens(s))
    ensures Tokens(s) == Instance(Tokens(request), x, extra)
  {
    var r := Tokens(request);
    InstanceMatches(r, x, extra);
    TokensDotless(request, 0);
    var i := Instance(r, x, extra);
    forall k | 0 <= k < |i| ensures '.' !in i[k] {
      assert i[k] in i;
    }
    TokensOfJoin(i);
    s := Join(i);
  }

  /** subjectPatternCovers decides inclusion of the matched subjects, in both directions, for every
      pattern and every request, with one exception that shows in the last tokens: a request that
      ends in ">" must not be answered by a pattern that does not. */
  lemma CoverageIsInclusion(pattern: string, request: string)
    requires IsPattern(Tokens(pattern)) && IsPattern(Tokens(request))
    ensures Included(pattern, request) <==>
      Covers(pattern, request) && (EndsOpen(Tokens(request)) ==> EndsOpen(Tokens(pattern)))
  {
    var p, r := Tokens(pattern), Tokens(request);
    ScannersAgree(pattern, request);
    if Included(pattern, request) {
      var x := FreshToken(p);
      forall i | 0 <= i < |p| ensures p[i] != x {
        TokenBelowTotal(p, i);
      }
      var s0 := InstanceSubject(request, x, 0);
      MatchFreshInstance(p, r, x);
      if EndsOpen(r) && !EndsOpen(p) {
        var s1 := InstanceSubject(request, x, 1);
        ClosedPatternLength(p, Tokens(s0));
        ClosedPatternLength(p, Tokens(s1));
        assert false;
      }
    } else if Covers(pattern, request) && (EndsOpen(r) ==> EndsOpen(p)) {
      forall s: string | IsLiteral(Tokens(s)) && TokenMatch(r, Tokens(s)) ensures TokenMatch(p, Tokens(s)) {
        MatchTransitive(p, r, Tokens(s));
      }
    }
  }

  /** The exception is real: "*" accepts the request token ">". */
  lemma StarCoversTail()
    ensures IsPattern(Tokens("a.*")) && IsPattern(Tokens("a.>"))
    ensures Covers("a.*", "a.>") && !Included("a.*", "a.>")
  {
    assert Join(["a", "*"]) == "a.*" && Join(["a", ">"]) == "a.>";
    TokensOfJoin(["a", "*"]);
    TokensOfJoin(["a", ">"]);
    assert TokenMatch(["*"], [">"]);
    ScannersAgree("a.*", "a.>");
    CoverageIsInclusion("a.*", "a.>");
  }
}
