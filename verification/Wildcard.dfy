/** MatchWildcard of internal/domain/model.go: a greedy matcher that backtracks to its last star. */
module Wildcard {
  import opened Text

  const STAR := '*'

  // ---------------------------------------------------------------- what a pattern means

  function Stars(pattern: string): nat {
    if pattern == "" then 0 else (if pattern[0] == STAR then 1 else 0) + Stars(pattern[1..])
  }

  /** The pattern with a string in the place of each star. */
  function Fill(pattern: string, words: seq<string>): string
    requires |words| == Stars(pattern)
  {
    if pattern == "" then ""
    else if pattern[0] == STAR then words[0] + Fill(pattern[1..], words[1..])
    else [pattern[0]] + Fill(pattern[1..], words)
  }

  predicate FilledBy(pattern: string, input: string, words: seq<string>) {
    |words| == Stars(pattern) && input == Fill(pattern, words)
  }

  /** The input consists of the literal pieces of the pattern with any string for each star. */
  ghost predicate Fits(pattern: string, input: string) {
    exists words :: FilledBy(pattern, input, words)
  }

  // ---------------------------------------------------------------- the loop

  /** From some point of the loop on; `star` is -1 before the first star. */
  predicate Scan(p: string, s: string, pi: nat, si: nat, star: int, from: nat)
    requires pi <= |p| && from <= si <= |s| && -1 <= star < pi
    decreases |s| - from, |p| - pi + |s| - si
  {
    if si == |s| then forall k :: pi <= k < |p| ==> p[k] == STAR
    else if pi < |p| && p[pi] == s[si] then Scan(p, s, pi + 1, si + 1, star, from)
    else if pi < |p| && p[pi] == STAR then Scan(p, s, pi + 1, si, pi, si)
    else if star != -1 then Scan(p, s, star + 1, from + 1, star, from + 1)
    else false
  }

  predicate Matches(pattern: string, input: string) {
    var p, s := Trim(pattern), Trim(input);
    if p == "" then false else if p == "*" then true else Scan(p, s, 0, 0, -1, 0)
  }

  method MatchWildcard(pattern: string, input: string) returns (matched: bool)
    ensures matched == Matches(pattern, input)
  {
    var p := Trim(pattern);
    var s := Trim(input);
    if p == "" {
      return false;
    }
    if p == "*" {
      return true;
    }
    var pi, si := 0, 0;
    var starIdx := -1;
    var matchIdx := 0;
    while si < |s|
      invariant pi <= |p| && matchIdx <= si <= |s| && -1 <= starIdx < pi
      invariant Scan(p, s, pi, si, starIdx, matchIdx) == Scan(p, s, 0, 0, -1, 0)
      decreases |s| - matchIdx, |p| - pi + |s| - si
    {
      if pi < |p| && p[pi] == s[si] {
        pi := pi + 1;
        si := si + 1;
        continue;
      }
      if pi < |p| && p[pi] == STAR {
        starIdx := pi;
        matchIdx := si;
        pi := pi + 1;
        continue;
      }
      if starIdx != -1 {
        pi := starIdx + 1;
        matchIdx := matchIdx + 1;
        si := matchIdx;
        continue;
      }
      return false;
    }
    ghost var end := pi;
    while pi < |p| && p[pi] == STAR
      invariant end <= pi <= |p| && forall k :: end <= k < pi ==> p[k] == STAR
    {
      pi := pi + 1;
    }
    return pi == |p|;
  }

  // ---------------------------------------------------------------- fitting, position by position

  /** What remains of the pattern from `i` on fits what remains of the input from `j` on. */
  ghost predicate FitsAt(p: string, s: string, i: nat, j: nat)
    requires i <= |p| && j <= |s|
    decreases |p| - i, 0
  {
    if i == |p| then j == |s|
    else if p[i] == STAR then FitsFrom(p, s, i + 1, j)
    else j < |s| && p[i] == s[j] && FitsAt(p, s, i + 1, j + 1)
  }

  /** It fits at `j` or further on. */
  ghost predicate FitsFrom(p: string, s: string, i: nat, j: nat)
    requires i <= |p| && j <= |s|
    decreases |p| - i, 1
  {
    exists k :: j <= k <= |s| && FitsAt(p, s, i, k)
  }

  lemma {:induction false} FillFits(p: string, s: string, i: nat, j: nat, words: seq<string>)
    requires i <= |p| && j <= |s| && FilledBy(p[i..], s[j..], words)
    ensures FitsAt(p, s, i, j)
    decreases |p| - i
  {
    if i < |p| {
      assert p[i..][1..] == p[i + 1..] && p[i..][0] == p[i];
      if p[i] == STAR {
        var k := j + |words[0]|;
        assert s[k..] == s[j..][|words[0]|..] == Fill(p[i + 1..], words[1..]);
        FillFits(p, s, i + 1, k, words[1..]);
      } else {
        assert s[j..][1..] == s[j + 1..] && s[j..][0] == s[j];
        FillFits(p, s, i + 1, j + 1, words);
      }
    }
  }

  lemma {:induction false} FitsFill(p: string, s: string, i: nat, j: nat) returns (words: seq<string>)
    requires i <= |p| && j <= |s| && FitsAt(p, s, i, j)
    ensures FilledBy(p[i..], s[j..], words)
    decreases |p| - i
  {
    if i == |p| {
      words := [];
    } else {
      assert p[i..][1..] == p[i + 1..] && p[i..][0] == p[i];
      if p[i] == STAR {
        var k :| j <= k <= |s| && FitsAt(p, s, i + 1, k);
        var rest := FitsFill(p, s, i + 1, k);
        words := [s[j..k]] + rest;
        assert words[1..] == rest && s[j..] == s[j..k] + s[k..];
      } else {
        words := FitsFill(p, s, i + 1, j + 1);
        assert s[j..] == [s[j]] + s[j + 1..];
      }
    }
  }

  lemma {:induction false} FitsAtStart(p: string, s: string)
    ensures Fits(p, s) <==> FitsAt(p, s, 0, 0)
  {
    assert p[0..] == p && s[0..] == s;
    if Fits(p, s) {
      var words :| FilledBy(p, s, words);
      FillFits(p, s, 0, 0, words);
    }
    if FitsAt(p, s, 0, 0) {
      var words := FitsFill(p, s, 0, 0);
    }
  }

  lemma {:induction false} StarsFitNothing(p: string, s: string, i: nat)
    requires i <= |p|
    ensures FitsAt(p, s, i, |s|) <==> forall k :: i <= k < |p| ==> p[k] == STAR
    decreases |p| - i
  {
    if i < |p| {
      StarsFitNothing(p, s, i + 1);
    }
  }

  /** A star may stand for what comes before `k` as well. */
  lemma {:induction false} StarAbsorbs(p: string, s: string, i: nat, j: nat, k: nat)
    requires i < |p| && p[i] == STAR && j <= k <= |s| && FitsAt(p, s, i + 1, k)
    ensures FitsAt(p, s, i, j)
  {
  }

  // ---------------------------------------------------------------- a match is a fit

  /** Whatever fits from here fits from the start; and from the last star on at any later point. */
  ghost predicate Leads(p: string, s: string, pi: nat, si: nat, star: int, from: nat)
    requires pi <= |p| && from <= si <= |s| && -1 <= star < pi
  {
    && (FitsAt(p, s, pi, si) ==> FitsAt(p, s, 0, 0))
    && (star >= 0 && FitsFrom(p, s, star + 1, from) ==> FitsAt(p, s, 0, 0))
  }

  lemma {:induction false} ScanSound(p: string, s: string, pi: nat, si: nat, star: int, from: nat)
    requires pi <= |p| && from <= si <= |s| && -1 <= star < pi
    requires Leads(p, s, pi, si, star, from) && Scan(p, s, pi, si, star, from)
    ensures FitsAt(p, s, 0, 0)
    decreases |s| - from, |p| - pi + |s| - si
  {
    if si == |s| {
      StarsFitNothing(p, s, pi);
    } else if pi < |p| && p[pi] == s[si] {
      assert FitsAt(p, s, pi + 1, si + 1) ==> FitsAt(p, s, pi, si);
      ScanSound(p, s, pi + 1, si + 1, star, from);
    } else if pi < |p| && p[pi] == STAR {
      assert FitsFrom(p, s, pi + 1, si) ==> FitsAt(p, s, pi, si);
      ScanSound(p, s, pi + 1, si, pi, si);
    } else {
      ScanSound(p, s, star + 1, from + 1, star, from + 1);
    }
  }

  // ---------------------------------------------------------------- a fit is a match, if no star is taken for a letter

  /** What the loop has still to find out. */
  ghost predicate Open(p: string, s: string, pi: nat, si: nat, star: int, from: nat)
    requires pi <= |p| && from <= si <= |s| && -1 <= star < pi
  {
    if star == -1 then FitsAt(p, s, pi, si) else FitsFrom(p, s, star + 1, from)
  }

  /** Since the last star letters were matched with themselves. */
  predicate Literal(p: string, s: string, pi: nat, si: nat, star: int, from: nat)
    requires pi <= |p| && from <= si <= |s| && -1 <= star < pi
  {
    star >= 0 ==>
      && pi - (star + 1) == si - from
      && p[star + 1..pi] == s[from..si] && STAR !in p[star + 1..pi]
  }

  /** Letters of the pattern must be found one by one. */
  lemma {:induction false} LettersFit(p: string, s: string, i: nat, j: nat, n: nat)
    requires i + n <= |p| && j <= |s| && FitsAt(p, s, i, j) && STAR !in p[i..i + n]
    ensures j + n <= |s| && FitsAt(p, s, i + n, j + n)
    decreases n
  {
    if n > 0 {
      assert p[i..i + n] == [p[i]] + p[i + 1..i + n];
      LettersFit(p, s, i + 1, j + 1, n - 1);
    }
  }

  lemma {:induction false} LettersExtend(p: string, s: string, i: nat, j: nat, n: nat)
    requires i + n <= |p| && j + n <= |s| && FitsAt(p, s, i + n, j + n)
    requires p[i..i + n] == s[j..j + n] && STAR !in p[i..i + n]
    ensures FitsAt(p, s, i, j)
    decreases n
  {
    if n > 0 {
      assert p[i..i + n] == [p[i]] + p[i + 1..i + n];
      assert s[j..j + n] == [s[j]] + s[j + 1..j + n];
      assert p[i..i + n][0] == s[j..j + n][0] && p[i..i + n][1..] == s[j..j + n][1..];
      LettersExtend(p, s, i + 1, j + 1, n - 1);
    }
  }

  lemma {:induction false} StarForward(p: string, s: string, pi: nat, si: nat, star: int, from: nat)
    requires pi < |p| && from <= si <= |s| && 0 <= star < pi && p[pi] == STAR
    requires Literal(p, s, pi, si, star, from) && FitsFrom(p, s, star + 1, from)
    ensures FitsFrom(p, s, pi + 1, si)
  {
    var n := si - from;
    var k :| from <= k <= |s| && FitsAt(p, s, star + 1, k);
    LettersFit(p, s, star + 1, k, n);
    assert FitsAt(p, s, pi, k + n);
    var k' :| k + n <= k' <= |s| && FitsAt(p, s, pi + 1, k');
    hide FitsAt;
    assert si <= k';
  }

  lemma {:induction false} StarBackward(p: string, s: string, pi: nat, si: nat, star: int, from: nat)
    requires pi < |p| && from <= si <= |s| && 0 <= star < pi && p[pi] == STAR
    requires Literal(p, s, pi, si, star, from) && FitsFrom(p, s, pi + 1, si)
    ensures FitsFrom(p, s, star + 1, from)
  {
    assert FitsAt(p, s, pi, si);
    hide FitsAt;
    LettersExtend(p, s, star + 1, from, si - from);
  }

  /** A later star takes over from the last one. */
  lemma {:induction false} StarStep(p: string, s: string, pi: nat, si: nat, star: int, from: nat)
    requires pi < |p| && from <= si <= |s| && -1 <= star < pi && p[pi] == STAR
    requires Literal(p, s, pi, si, star, from)
    ensures Open(p, s, pi, si, star, from) <==> Open(p, s, pi + 1, si, pi, si)
  {
    hide FitsFrom;
    if star >= 0 {
      hide FitsAt, Literal;
      if FitsFrom(p, s, star + 1, from) {
        StarForward(p, s, pi, si, star, from);
      }
      if FitsFrom(p, s, pi + 1, si) {
        StarBackward(p, s, pi, si, star, from);
      }
    }
  }

  /** What does not fit at the first place left is looked for further on. */
  lemma {:induction false} BackStep(p: string, s: string, pi: nat, si: nat, star: int, from: nat)
    requires pi <= |p| && from <= si < |s| && 0 <= star < pi
    requires pi < |p| ==> p[pi] != s[si] && p[pi] != STAR
    requires Literal(p, s, pi, si, star, from)
    ensures Open(p, s, pi, si, star, from) <==> Open(p, s, star + 1, from + 1, star, from + 1)
  {
    if Open(p, s, pi, si, star, from) {
      var k :| from <= k <= |s| && FitsAt(p, s, star + 1, k);
      if k == from {
        LettersFit(p, s, star + 1, k, si - from);
      }
      assert from + 1 <= k;
    }
  }

  lemma {:induction false} EndStep(p: string, s: string, pi: nat, star: int, from: nat)
    requires pi <= |p| && from <= |s| && -1 <= star < pi
    requires Literal(p, s, pi, |s|, star, from)
    ensures Open(p, s, pi, |s|, star, from) <==> forall k :: pi <= k < |p| ==> p[k] == STAR
  {
    StarsFitNothing(p, s, pi);
    if star >= 0 {
      var n := |s| - from;
      if Open(p, s, pi, |s|, star, from) {
        var k :| from <= k <= |s| && FitsAt(p, s, star + 1, k);
        LettersFit(p, s, star + 1, k, n);
        assert k == from;
      }
      if FitsAt(p, s, pi, |s|) {
        LettersExtend(p, s, star + 1, from, n);
      }
    }
  }

  lemma {:induction false} ScanExact(p: string, s: string, pi: nat, si: nat, star: int, from: nat)
    requires pi <= |p| && from <= si <= |s| && -1 <= star < pi
    requires STAR !in p || STAR !in s
    requires Literal(p, s, pi, si, star, from)
    ensures Scan(p, s, pi, si, star, from) <==> Open(p, s, pi, si, star, from)
    decreases |s| - from, |p| - pi + |s| - si
  {
    if si == |s| {
      EndStep(p, s, pi, star, from);
    } else if pi < |p| && p[pi] == s[si] {
      assert p[pi] in p && s[si] in s;
      assert star >= 0 ==> p[star + 1..pi + 1] == p[star + 1..pi] + [p[pi]] && s[from..si + 1] == s[from..si] + [s[si]];
      ScanExact(p, s, pi + 1, si + 1, star, from);
    } else if pi < |p| && p[pi] == STAR {
      StarStep(p, s, pi, si, star, from);
      ScanExact(p, s, pi + 1, si, pi, si);
    } else if star != -1 {
      BackStep(p, s, pi, si, star, from);
      ScanExact(p, s, star + 1, from + 1, star, from + 1);
    }
  }

  // ---------------------------------------------------------------- when the matcher is right

  lemma {:induction false} LoneStarFits(s: string)
    ensures Fits("*", s)
  {
    assert "*"[1..] == "" && s + "" == s;
    assert FilledBy("*", s, [s]);
  }

  /** On every input a match is a fit. */
  lemma {:induction false} MatchesFit(pattern: string, input: string)
    requires Matches(pattern, input)
    ensures Trim(pattern) != "" && Fits(Trim(pattern), Trim(input))
  {
    hide Trim, Fits;
    var p, s := Trim(pattern), Trim(input);
    if p == "*" {
      LoneStarFits(s);
    } else {
      ScanSound(p, s, 0, 0, -1, 0);
      FitsAtStart(p, s);
    }
  }

  /** On an input without a star, or with a pattern without one, the matcher is right. */
  lemma {:induction false} MatchesExactly(pattern: string, input: string)
    requires STAR !in Trim(pattern) || STAR !in Trim(input)
    ensures Matches(pattern, input) <==> Trim(pattern) != "" && Fits(Trim(pattern), Trim(input))
  {
    hide Trim, Fits;
    var p, s := Trim(pattern), Trim(input);
    if p == "*" {
      LoneStarFits(s);
    } else if p != "" {
      ScanExact(p, s, 0, 0, -1, 0);
      FitsAtStart(p, s);
    }
  }

  // ---------------------------------------------------------------- and when it is wrong

  /** A letter other than the one given. */
  function OtherLetter(w: string): char {
    if w != "" && w[0] == 'x' then 'y' else 'x'
  }

  /** The pattern `before*after` with a literal star and a letter for its last star: the matcher
      takes the star of the input for the star of the pattern, and has nothing to go back to. */
  function Trap(before: string, after: string): string {
    before + "*" + [OtherLetter(after)] + after
  }

  lemma {:induction false} ScanMeetsItself(p: string, s: string, i: nat, n: nat)
    requires i <= n <= |p| && n <= |s| && p[..n] == s[..n]
    ensures Scan(p, s, i, i, -1, 0) == Scan(p, s, n, n, -1, 0)
    decreases n - i
  {
    if i < n {
      assert p[..n][i] == s[..n][i];
      ScanMeetsItself(p, s, i + 1, n);
    }
  }

  lemma {:induction false} FitsItself(p: string, s: string, i: nat, n: nat)
    requires i <= n <= |p| && n <= |s| && p[..n] == s[..n] && FitsAt(p, s, n, n)
    ensures FitsAt(p, s, i, i)
    decreases n - i
  {
    if i < n {
      assert p[..n][i] == s[..n][i];
      FitsItself(p, s, i + 1, n);
      if p[i] == STAR {
        StarAbsorbs(p, s, i, i, i + 1);
      }
    }
  }

  lemma {:induction false} SuffixFits(p: string, s: string, i: nat, j: nat)
    requires i <= |p| && j <= |s| && p[i..] == s[j..] && STAR !in p[i..]
    ensures FitsAt(p, s, i, j)
    decreases |p| - i
  {
    if i < |p| {
      assert p[i..][0] == s[j..][0] && p[i] in p[i..];
      assert p[i..][1..] == p[i + 1..] && s[j..][1..] == s[j + 1..];
      SuffixFits(p, s, i + 1, j + 1);
    }
  }

  lemma {:induction false} TrapFails(before: string, after: string)
    requires STAR !in after
    ensures var p, s := before + "*" + after, Trap(before, after);
            Fits(p, s) && !Scan(p, s, 0, 0, -1, 0)
  {
    var p, s, n := before + "*" + after, Trap(before, after), |before|;
    assert p[..n + 1] == s[..n + 1];
    ScanMeetsItself(p, s, 0, n + 1);
    assert s[n + 1] == OtherLetter(after);
    assert n + 1 < |p| ==> p[n + 1] == after[0] && after[0] in after;
    assert p[n + 1..] == after == s[n + 2..];
    SuffixFits(p, s, n + 1, n + 2);
    StarAbsorbs(p, s, n, n, n + 2);
    assert p[..n] == s[..n];
    FitsItself(p, s, 0, n);
    FitsAtStart(p, s);
  }

  /** The star and the letter stop trimming where the star did. */
  lemma {:induction false} TrapTrimmed(before: string, after: string)
    requires Trimmed(before + "*" + after)
    ensures Trimmed(Trap(before, after))
  {
    var p, s, n := before + "*" + after, Trap(before, after), |before|;
    assert forall k :: 0 <= k <= n ==> s[k] == p[k];
    assert s[n] == STAR && s[n + 1] == OtherLetter(after);
  }

  /** The last star of a pattern. */
  lemma {:induction false} LastStar(p: string) returns (before: string, after: string)
    requires STAR in p
    ensures p == before + "*" + after && STAR !in after
    decreases |p|
  {
    var n := |p| - 1;
    assert p == p[..n] + [p[n]];
    if p[n] == STAR {
      before, after := p[..n], "";
    } else {
      before, after := LastStar(p[..n]);
      after := after + [p[n]];
    }
  }

  /** For every pattern with a star, other than `*` itself, the matcher rejects an input that fits. */
  lemma {:induction false} WrongInput(pattern: string) returns (input: string)
    requires STAR in Trim(pattern) && Trim(pattern) != "*"
    ensures !Matches(pattern, input) && Fits(Trim(pattern), Trim(input))
  {
    var before, after := LastStar(Trim(pattern));
    input := Trap(before, after);
    hide Trap, Fits, Scan;
    TrimTrimmed(pattern);
    TrapTrimmed(before, after);
    TrimmedStays(input);
    TrapFails(before, after);
  }

  /** The inputs on which the matcher is right. */
  ghost predicate Right(pattern: string, input: string) {
    Matches(pattern, input) <==> Fits(Trim(pattern), Trim(input))
  }

  /** A pattern is matched rightly on every input exactly when it has no star, or is nothing but
      one. */
  lemma {:induction false} RightExactly(pattern: string)
    requires Trim(pattern) != ""
    ensures (forall input :: Right(pattern, input)) <==> Trim(pattern) == "*" || STAR !in Trim(pattern)
  {
    hide Trim, Fits, Matches;
    var p := Trim(pattern);
    if p == "*" {
      forall input ensures Right(pattern, input) {
        LoneStarFits(Trim(input));
        LoneStarMatches(pattern, input);
      }
    } else if STAR !in p {
      forall input ensures Right(pattern, input) {
        MatchesExactly(pattern, input);
      }
    } else {
      var input := WrongInput(pattern);
      assert !Right(pattern, input);
    }
  }

  lemma {:induction false} LoneStarMatches(pattern: string, input: string)
    requires Trim(pattern) == "*"
    ensures Matches(pattern, input)
  {
  }
}
