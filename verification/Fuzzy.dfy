/**
 * The fuzzy matcher (`fuzzy.ts`). Scores are reals, so the tenth per position is exact here.
 * Lower-casing is a parameter; everything below it works on lower-cased text.
 */
module Fuzzy {

  datatype Match = Match(matches: bool, score: real)

  // ----- characters -----

  /** What `\s` matches. */
  predicate IsSpace(c: char) {
    c in " \t\n\r\U{000B}\U{000C}\U{00A0}\U{1680}\U{2028}\U{2029}\U{202F}\U{205F}\U{3000}\U{FEFF}" || '\U{2000}' <= c <= '\U{200A}'
  }

  predicate IsBreak(c: char) {
    IsSpace(c) || c in "-_./:"
  }

  predicate AllLetters(s: string) {
    forall k :: 0 <= k < |s| ==> 'a' <= s[k] <= 'z'
  }

  predicate AllDigits(s: string) {
    forall k :: 0 <= k < |s| ==> '0' <= s[k] <= '9'
  }

  // ----- what a match is -----

  /** The query's characters stand in the text at these positions, in order. */
  predicate Embeds(q: string, text: string, at: seq<nat>) {
    && |at| == |q|
    && (forall k :: 0 <= k < |at| ==> at[k] < |text| && text[at[k]] == q[k])
    && (forall j, k :: 0 <= j < k < |at| ==> at[j] < at[k])
  }

  ghost predicate Subsequence(q: string, text: string) {
    exists at :: Embeds(q, text, at)
  }

  /** The positions the scan takes: each time the first place where the next character occurs. */
  function Greedy(q: string, text: string): (at: seq<nat>)
    ensures |at| <= |q| && Embeds(q[..|at|], text, at)
  {
    if |text| == 0 then []
    else
      var before, last := Greedy(q, text[..|text| - 1]), |text| - 1;
      if |before| < |q| && text[last] == q[|before|] then before + [last] else before
  }

  /** No embedding of any part of the query is anywhere to the left of the scan's, nor longer. */
  lemma {:induction false} GreedyIsLeftmost(q: string, text: string, n: nat, at: seq<nat>)
    requires n <= |q| && Embeds(q[..n], text, at)
    ensures n <= |Greedy(q, text)|
    ensures forall k :: 0 <= k < n ==> Greedy(q, text)[k] <= at[k]
  {
    hide Greedy;
    if n > 0 {
      assert at[n - 1] < |text| && text[at[n - 1]] == q[n - 1];
      var last := |text| - 1;
      GreedyUnfolds(q, text);
      if at[n - 1] < last {
        assert forall k :: 0 <= k < n ==> at[k] <= at[n - 1];
        GreedyIsLeftmost(q, text[..last], n, at);
      } else {
        EmbedsButLast(q, text, n, at);
        GreedyIsLeftmost(q, text[..last], n - 1, at[..n - 1]);
      }
    }
  }

  lemma GreedyUnfolds(q: string, text: string)
    requires |text| > 0
    ensures var last := |text| - 1;
            var before := Greedy(q, text[..last]);
            Greedy(q, text) == if |before| < |q| && text[last] == q[|before|] then before + [last] else before
  {
  }

  lemma EmbedsButLast(q: string, text: string, n: nat, at: seq<nat>)
    requires 0 < n <= |q| && Embeds(q[..n], text, at) && at[n - 1] == |text| - 1
    ensures Embeds(q[..n - 1], text[..|text| - 1], at[..n - 1])
  {
  }

  /** The greedy scan is complete: it finds the whole query exactly when there is a way to find it. */
  lemma GreedyIsComplete(q: string, text: string)
    ensures |Greedy(q, text)| == |q| <==> Subsequence(q, text)
  {
    if |Greedy(q, text)| == |q| {
      assert q[..|q|] == q;
      assert Embeds(q, text, Greedy(q, text));
    }
    if Subsequence(q, text) {
      var at :| Embeds(q, text, at);
      assert q[..|q|] == q;
      GreedyIsLeftmost(q, text, |q|, at);
    }
  }

  // ----- what a match is worth -----

  datatype Tally = Tally(score: real, run: nat)

  /** Runs earn more with every character, gaps and late positions cost, word starts earn. */
  function Worth(text: string, at: seq<nat>): Tally {
    if |at| == 0 then Tally(0.0, 0)
    else Plus(text, Worth(text, at[..|at| - 1]), Last(at[..|at| - 1]), at[|at| - 1])
  }

  function Last(at: seq<nat>): int {
    if |at| == 0 then -1 else at[|at| - 1]
  }

  /** One more character, at `i`, when the last one was at `last`, or there was none. */
  function Plus(text: string, before: Tally, last: int, i: nat): Tally {
    var run := if last == i - 1 then before.run + 1 else 0;
    var gap := if run > 0 || last < 0 then 0 else i - last - 1;
    var start := i == 0 || (i <= |text| && IsBreak(text[i - 1]));
    Tally(before.score - (5 * run) as real + (2 * gap) as real - (if start then 10.0 else 0.0) + i as real * 0.1, run)
  }

  /** The verdict on one form of the query. */
  function Verdict(q: string, text: string): Match {
    var at := Greedy(q, text);
    if |q| == 0 then Match(true, 0.0)
    else if |at| < |q| then Match(false, 0.0)
    else Match(true, Worth(text, at).score - if q == text then 100.0 else 0.0)
  }

  /** Position `k` directly follows the one before it; the first one does when it is the start of the text. */
  predicate Adjacent(at: seq<nat>, k: nat)
    requires k < |at|
  {
    if k == 0 then at[0] == 0 else at[k] == at[k - 1] + 1
  }

  /** The run counts the positions at the end that directly follow one another. */
  lemma {:induction false} RunIsAdjacency(text: string, at: seq<nat>)
    requires |at| > 0
    ensures var n, r := |at|, Worth(text, at).run;
            && r <= n
            && (forall k :: n - r <= k < n ==> Adjacent(at, k))
            && (r < n ==> !Adjacent(at, n - 1 - r))
  {
    var front := at[..|at| - 1];
    if |front| > 0 {
      RunIsAdjacency(text, front);
      assert forall k :: 0 <= k < |front| ==> Adjacent(front, k) == Adjacent(at, k);
    }
  }

  /**
   * What the last position adds: five off for each position of its run, two for each character skipped,
   * ten off at the start of a word, and a tenth for each place it lies into the text.
   */
  lemma LastPositionAdds(text: string, at: seq<nat>)
    requires |at| > 0 && at[|at| - 1] < |text|
    ensures var front := at[..|at| - 1];
            var i: int := at[|at| - 1];
            var skipped := if |front| == 0 || Adjacent(at, |front|) then 0 else i - front[|front| - 1] - 1;
            Worth(text, at).score == Worth(text, front).score - 5.0 * Worth(text, at).run as real + 2.0 * skipped as real
                                     - (if i == 0 || IsBreak(text[i - 1]) then 10.0 else 0.0) + 0.1 * i as real
  {
  }

  /** The first `n` places. */
  function FirstPlaces(n: nat): (at: seq<nat>)
    ensures |at| == n && forall k :: 0 <= k < n ==> at[k] == k
  {
    seq(n, k requires 0 <= k < n => k)
  }

  lemma {:induction false} FirstPlacesRun(q: string, n: nat)
    ensures Worth(q, FirstPlaces(n)).run == n
  {
    if n > 0 {
      FirstPlacesRun(q, n - 1);
      assert FirstPlaces(n)[..n - 1] == FirstPlaces(n - 1);
    }
  }

  /** What the next position adds at the very start of a text, the least that any position adds. */
  function BestStep(q: string, n: nat): real
    requires n < |q|
  {
    0.1 * n as real - 5.0 * (n + 1) as real - if n == 0 || IsBreak(q[n - 1]) then 10.0 else 0.0
  }

  lemma StartAddsBest(q: string, n: nat)
    requires n < |q|
    ensures Worth(q, FirstPlaces(n + 1)).score == Worth(q[..n], FirstPlaces(n)).score + BestStep(q, n)
  {
    hide Worth, Plus, IsBreak;
    var best := FirstPlaces(n + 1);
    assert best[..n] == FirstPlaces(n);
    WorthOfPrefix(q, FirstPlaces(n), n);
    FirstPlacesRun(q, n + 1);
    LastPositionAdds(q, best);
  }

  lemma NoneAddsLess(q: string, text: string, at: seq<nat>)
    requires |q| > 0 && Embeds(q, text, at)
    ensures var n := |q| - 1; Worth(text, at).score >= Worth(text, at[..n]).score + BestStep(q, n)
  {
    hide Worth, Plus, IsBreak;
    var n := |q| - 1;
    LastPositionAdds(text, at);
    PositionsGrow(at, n + 1);
    RunIsAdjacency(text, at);
    var run := Worth(text, at).run;
    if Adjacent(at, n) {
      assert n > 0 ==> text[at[n] - 1] == q[n - 1];
    } else {
      assert run == 0;
    }
  }

  /** No way of finding a query in a text is worth more than finding it at the very start of itself. */
  lemma {:induction false} NothingBeatsTheStart(q: string, text: string, at: seq<nat>)
    requires Embeds(q, text, at)
    ensures Worth(q, FirstPlaces(|q|)).score <= Worth(text, at).score
  {
    hide Worth, Plus, IsBreak, BestStep;
    var n := |q| - 1;
    if n < 0 {
      NothingIsWorthNothing(q, text);
    } else {
      EmbedsFront(q, text, at);
      NothingBeatsTheStart(q[..n], text, at[..n]);
      StartAddsBest(q, n);
      hide Embeds;
      NoneAddsLess(q, text, at);
    }
  }

  lemma NothingIsWorthNothing(q: string, text: string)
    ensures Worth(q, FirstPlaces(0)) == Worth(text, []) && FirstPlaces(0) == []
  {
  }

  lemma EmbedsFront(q: string, text: string, at: seq<nat>)
    requires |q| > 0 && Embeds(q, text, at)
    ensures Embeds(q[..|q| - 1], text, at[..|q| - 1])
  {
  }

  /** Only the text up to the last position matters. */
  lemma {:induction false} WorthOfPrefix(text: string, at: seq<nat>, n: nat)
    requires n <= |text| && forall k :: 0 <= k < |at| ==> at[k] < n
    ensures Worth(text[..n], at) == Worth(text, at)
  {
    if |at| > 0 {
      WorthOfPrefix(text, at[..|at| - 1], n);
    }
  }

  lemma EmbedsInItself(q: string)
    ensures Embeds(q, q, FirstPlaces(|q|))
  {
  }

  lemma EmbedsNoFurtherLeft(q: string, text: string, at: seq<nat>, k: nat)
    requires Embeds(q, text, at) && k < |q|
    ensures |at| == |q| && at[k] >= k
  {
    PositionsGrow(at, k + 1);
  }

  lemma NotLeftOfTheStart(q: string, at: seq<nat>)
    requires Embeds(q, q, at) && |at| == |q| && forall k :: 0 <= k < |at| ==> at[k] <= k
    ensures at == FirstPlaces(|q|)
  {
    hide Embeds;
    forall k | 0 <= k < |q|
      ensures at[k] == k
    {
      EmbedsNoFurtherLeft(q, q, at, k);
    }
  }

  /** In itself a query is found at the first places. */
  lemma GreedyOfItself(q: string)
    ensures Greedy(q, q) == FirstPlaces(|q|)
  {
    hide Greedy, Embeds;
    var at := Greedy(q, q);
    EmbedsInItself(q);
    assert q[..|q|] == q;
    GreedyIsLeftmost(q, q, |q|, FirstPlaces(|q|));
    assert q[..|at|] == q;
    NotLeftOfTheStart(q, at);
  }

  /** A text that is the query itself scores better than any other by at least a hundred. */
  lemma ExactMatchIsBest(q: string, text: string)
    requires q != "" && text != q && Verdict(q, text).matches
    ensures Verdict(q, q).matches && Verdict(q, q).score + 100.0 <= Verdict(q, text).score
  {
    hide Worth, Greedy, Embeds, FirstPlaces;
    GreedyOfItself(q);
    assert q[..|q|] == q;
    NothingBeatsTheStart(q, text, Greedy(q, text));
  }

  lemma ShortTextHasNoMatch(q: string, text: string)
    requires |q| > |text|
    ensures |Greedy(q, text)| < |q|
  {
    var at := Greedy(q, text);
    PositionsGrow(at, |at|);
  }

  lemma {:induction false} PositionsGrow(at: seq<nat>, n: nat)
    requires n <= |at| && forall j, k :: 0 <= j < k < |at| ==> at[j] < at[k]
    ensures n > 0 ==> at[n - 1] >= n - 1
  {
    if n > 1 {
      PositionsGrow(at, n - 1);
    }
  }

  /** `matchQuery`. */
  method MatchQuery(q: string, text: string) returns (m: Match)
    ensures m == Verdict(q, text)
  {
    hide Greedy, Worth, Embeds, Last, IsBreak;
    if |q| == 0 {
      return Match(true, 0.0);
    }
    if |q| > |text| {
      ShortTextHasNoMatch(q, text);
      return Match(false, 0.0);
    }
    GreedyOfNothing(q, text);
    var queryIndex, score, lastMatchIndex, consecutiveMatches := 0, 0.0, -1, 0;
    var i := 0;
    while i < |text| && queryIndex < |q|
      invariant i <= |text| && queryIndex <= |q|
      invariant queryIndex == |Greedy(q, text[..i])|
      invariant lastMatchIndex == Last(Greedy(q, text[..i]))
      invariant Worth(text, Greedy(q, text[..i])) == Tally(score, consecutiveMatches)
    {
      GreedyStep(q, text, i);
      if text[i] == q[queryIndex] {
        ghost var before := Tally(score, consecutiveMatches);
        var isWordBoundary := i == 0 || IsBreak(text[i - 1]);
        if lastMatchIndex == i - 1 {
          consecutiveMatches := consecutiveMatches + 1;
          score := score - (consecutiveMatches * 5) as real;
        } else {
          consecutiveMatches := 0;
          if lastMatchIndex >= 0 {
            score := score + ((i - lastMatchIndex - 1) * 2) as real;
          }
        }
        if isWordBoundary {
          score := score - 10.0;
        }
        score := score + i as real * 0.1;
        assert Tally(score, consecutiveMatches) == Plus(text, before, lastMatchIndex, i);
        lastMatchIndex := i;
        queryIndex := queryIndex + 1;
      }
      i := i + 1;
    }
    GreedyStops(q, text, i);
    if queryIndex < |q| {
      return Match(false, 0.0);
    }
    if q == text {
      score := score - 100.0;
    }
    return Match(true, score);
  }

  lemma GreedyOfNothing(q: string, text: string)
    ensures Greedy(q, text[..0]) == [] && Last([]) == -1 && Worth(text, []) == Tally(0.0, 0)
  {
  }

  lemma GreedyStep(q: string, text: string, i: nat)
    requires i < |text| && |Greedy(q, text[..i])| < |q|
    ensures var at := Greedy(q, text[..i]);
            if text[i] == q[|at|] then
              && Greedy(q, text[..i + 1]) == at + [i]
              && Worth(text, at + [i]) == Plus(text, Worth(text, at), Last(at), i)
              && Last(at + [i]) == i
            else Greedy(q, text[..i + 1]) == at
  {
    assert text[..i + 1][..i] == text[..i];
    var at := Greedy(q, text[..i]);
    assert (at + [i])[..|at|] == at;
  }

  /** Once the query is found the rest of the text does not matter. */
  lemma {:induction false} GreedyStops(q: string, text: string, i: nat)
    requires i <= |text| && (i == |text| || |Greedy(q, text[..i])| == |q|)
    ensures Greedy(q, text) == Greedy(q, text[..i])
  {
    if i == |text| {
      assert text[..i] == text;
    } else {
      assert text[..|text| - 1][..i] == text[..i];
      GreedyStops(q, text[..|text| - 1], i);
    }
  }

  // ----- letters and digits swapped -----

  /** The length of the longest prefix of lower-case letters, or of digits. */
  function Prefix(s: string, digits: bool): (n: nat)
    ensures n <= |s|
    ensures if digits then AllDigits(s[..n]) else AllLetters(s[..n])
    ensures n < |s| ==> if digits then !('0' <= s[n] <= '9') else !('a' <= s[n] <= 'z')
  {
    if |s| > 0 && (if digits then '0' <= s[0] <= '9' else 'a' <= s[0] <= 'z') then 1 + Prefix(s[1..], digits) else 0
  }

  /** The query with its letters and digits exchanged, or nothing when it has no such form. */
  function Swapped(q: string): string {
    var l, d := Prefix(q, false), Prefix(q, true);
    if 0 < l < |q| && AllDigits(q[l..]) then q[l..] + q[..l]
    else if 0 < d < |q| && AllLetters(q[d..]) then q[d..] + q[..d]
    else ""
  }

  /** Both parts are there and stand in one of the two orders. */
  ghost predicate HasForm(q: string, letters: string, digits: string) {
    && |letters| > 0 && |digits| > 0 && AllLetters(letters) && AllDigits(digits)
    && (q == letters + digits || q == digits + letters)
  }

  /** The two forms are each other's swap, and nothing else has one. */
  lemma SwapsTheTwoForms(q: string)
    ensures Swapped(q) != "" <==> exists letters, digits :: HasForm(q, letters, digits)
    ensures forall letters, digits :: HasForm(q, letters, digits) ==>
              Swapped(q) == if q == letters + digits then digits + letters else letters + digits
    ensures Swapped(q) != "" ==> Swapped(Swapped(q)) == q
  {
    hide Swapped;
    forall letters: string, digits: string | HasForm(q, letters, digits)
      ensures Swapped(q) == if q == letters + digits then digits + letters else letters + digits
    {
      SwapsAForm(q, letters, digits);
    }
    if Swapped(q) != "" {
      var letters, digits := TakesForm(q);
      SwapsAForm(q, letters, digits);
      SwapsAForm(Swapped(q), letters, digits);
    }
  }

  lemma TakesForm(q: string) returns (letters: string, digits: string)
    requires Swapped(q) != ""
    ensures HasForm(q, letters, digits)
  {
    hide Prefix, AllLetters, AllDigits;
    var l, d := Prefix(q, false), Prefix(q, true);
    assert q == q[..l] + q[l..] && q == q[..d] + q[d..];
    if 0 < l < |q| && AllDigits(q[l..]) {
      letters, digits := q[..l], q[l..];
    } else {
      letters, digits := q[d..], q[..d];
    }
  }

  lemma SwapsAForm(q: string, letters: string, digits: string)
    requires HasForm(q, letters, digits)
    ensures Swapped(q) == if q == letters + digits then digits + letters else letters + digits
    ensures HasForm(Swapped(q), letters, digits)
  {
    if q == letters + digits {
      assert q[|letters|] == digits[0] && q[..|letters|] == letters && q[|letters|..] == digits;
      PrefixIs(q, false, |letters|);
    } else {
      assert q[|digits|] == letters[0] && q[0] == digits[0] && q[..|digits|] == digits && q[|digits|..] == letters;
      PrefixIs(q, true, |digits|);
      PrefixIs(q, false, 0);
    }
  }

  lemma {:induction false} PrefixIs(s: string, digits: bool, n: nat)
    requires n < |s|
    requires if digits then AllDigits(s[..n]) && !('0' <= s[n] <= '9') else AllLetters(s[..n]) && !('a' <= s[n] <= 'z')
    ensures Prefix(s, digits) == n
  {
    if n > 0 {
      assert s[0] == s[..n][0];
      assert s[1..][..n - 1] == s[..n][1..];
      PrefixIs(s[1..], digits, n - 1);
    }
  }

  /** What `fuzzyMatch` answers for a lower-cased query and text. */
  function Judged(q: string, text: string): Match {
    var primary := Verdict(q, text);
    var swapped := Swapped(q);
    if primary.matches || |swapped| == 0 then primary
    else if Verdict(swapped, text).matches then Match(true, Verdict(swapped, text).score + 5.0)
    else primary
  }

  /** The query or its swap is a subsequence of the text. */
  ghost predicate Occurs(q: string, text: string) {
    Subsequence(q, text) || (|Swapped(q)| > 0 && Subsequence(Swapped(q), text))
  }

  /** Sound and complete: a match exactly when the query or its swap is a subsequence of the text. */
  lemma MatchesSubsequences(q: string, text: string)
    ensures Judged(q, text).matches <==> Occurs(q, text)
    ensures !Judged(q, text).matches ==> Judged(q, text).score == 0.0
  {
    GreedyIsComplete(q, text);
    GreedyIsComplete(Swapped(q), text);
    if |q| == 0 {
      assert Embeds(q, text, []);
    }
  }

  /** The query itself decides the score where it occurs; its swap costs five more and counts only where the query does not occur. */
  lemma ScoreOfTheFormFound(q: string, text: string)
    ensures Subsequence(q, text) ==> Judged(q, text).score == Verdict(q, text).score
    ensures !Subsequence(q, text) && |Swapped(q)| > 0 && Subsequence(Swapped(q), text) ==>
              Judged(q, text).score == Verdict(Swapped(q), text).score + 5.0
  {
    hide Worth, Swapped;
    GreedyIsComplete(q, text);
    GreedyIsComplete(Swapped(q), text);
  }

  /** The order of letters and digits does not decide whether there is a match. */
  lemma SwapMatchesToo(q: string, text: string)
    requires Swapped(q) != ""
    ensures Judged(Swapped(q), text).matches <==> Judged(q, text).matches
  {
    SwapsTheTwoForms(q);
    MatchesSubsequences(q, text);
    MatchesSubsequences(Swapped(q), text);
  }

  /** `fuzzyMatch`. */
  method FuzzyMatch(lower: string -> string, query: string, text: string) returns (m: Match)
    ensures m == Judged(lower(query), lower(text))
  {
    var queryLower, textLower := lower(query), lower(text);
    var primary := MatchQuery(queryLower, textLower);
    if primary.matches {
      return primary;
    }
    var swappedQuery := Swapped(queryLower);
    if |swappedQuery| == 0 {
      return primary;
    }
    var swapped := MatchQuery(swappedQuery, textLower);
    if !swapped.matches {
      return primary;
    }
    return Match(true, swapped.score + 5.0);
  }

  // ----- the words of a query -----

  function WordLength(s: string): (n: nat)
    ensures n <= |s| && (|s| > 0 && !IsSpace(s[0]) ==> n > 0)
    ensures forall k :: 0 <= k < n ==> !IsSpace(s[k])
    ensures n < |s| ==> IsSpace(s[n])
  {
    if |s| == 0 || IsSpace(s[0]) then 0 else 1 + WordLength(s[1..])
  }

  /** `query.trim().split(/\s+/)` without empty pieces: the longest runs of characters that are no spaces. */
  function Tokens(query: string): seq<string>
    decreases |query|
  {
    if |query| == 0 then []
    else if IsSpace(query[0]) then Tokens(query[1..])
    else [query[..WordLength(query)]] + Tokens(query[WordLength(query)..])
  }

  function Joined(words: seq<string>): string {
    if |words| == 0 then "" else words[0] + Joined(words[1..])
  }

  function NoSpaces(s: string): string {
    if |s| == 0 then "" else if IsSpace(s[0]) then NoSpaces(s[1..]) else [s[0]] + NoSpaces(s[1..])
  }

  lemma {:induction false} NoSpacesAfterWord(s: string, n: nat)
    requires n <= |s| && forall k :: 0 <= k < n ==> !IsSpace(s[k])
    ensures NoSpaces(s) == s[..n] + NoSpaces(s[n..])
  {
    if n > 0 {
      NoSpacesAfterWord(s[1..], n - 1);
      assert s[1..][n - 1..] == s[n..];
      assert s[..n] == [s[0]] + s[1..][..n - 1];
    }
  }

  /** The tokens are non-empty, hold no space, and together hold everything else. */
  lemma {:induction false} TokensAreTheWords(query: string)
    ensures forall k :: 0 <= k < |Tokens(query)| ==> |Tokens(query)[k]| > 0 && forall c :: c in Tokens(query)[k] ==> !IsSpace(c)
    ensures Joined(Tokens(query)) == NoSpaces(query)
    decreases |query|
  {
    if |query| > 0 {
      if IsSpace(query[0]) {
        TokensAreTheWords(query[1..]);
      } else {
        var n := WordLength(query);
        TokensAreTheWords(query[n..]);
        NoSpacesAfterWord(query, n);
        assert Tokens(query)[1..] == Tokens(query[n..]);
      }
    }
  }

  // ----- filtering and sorting -----

  datatype Scored<T> = Scored(item: T, score: real)

  /** Whether every token matches, and the sum of the scores up to the first that does not. */
  function Overall(lower: string -> string, tokens: seq<string>, text: string): Match {
    if |tokens| == 0 then Match(true, 0.0)
    else
      var before := Overall(lower, tokens[..|tokens| - 1], text);
      var m := Judged(lower(tokens[|tokens| - 1]), lower(text));
      if before.matches && m.matches then Match(true, before.score + m.score) else Match(false, before.score)
  }

  lemma {:induction false} OverallMatchesAll(lower: string -> string, tokens: seq<string>, text: string)
    ensures Overall(lower, tokens, text).matches <==>
              forall k :: 0 <= k < |tokens| ==> Judged(lower(tokens[k]), lower(text)).matches
  {
    hide Judged;
    if |tokens| > 0 {
      assert forall k :: 0 <= k < |tokens| - 1 ==> tokens[..|tokens| - 1][k] == tokens[k];
      OverallMatchesAll(lower, tokens[..|tokens| - 1], text);
    }
  }

  /** The score of several tokens is the sum of theirs. */
  lemma {:induction false} OverallAddsUp(lower: string -> string, a: seq<string>, b: seq<string>, text: string)
    requires Overall(lower, a + b, text).matches
    ensures Overall(lower, a, text).matches && Overall(lower, b, text).matches
    ensures Overall(lower, a + b, text).score == Overall(lower, a, text).score + Overall(lower, b, text).score
    ensures |b| == 1 ==> Overall(lower, b, text) == Judged(lower(b[0]), lower(text))
  {
    hide Judged;
    if |b| == 0 {
      assert a + b == a;
    } else {
      assert (a + b)[..|a + b| - 1] == a + b[..|b| - 1];
      OverallAddsUp(lower, a, b[..|b| - 1], text);
    }
  }

  /** The items that match, in their order, with their scores. */
  function Hits<T>(lower: string -> string, items: seq<T>, tokens: seq<string>, getText: T -> string): seq<Scored<T>> {
    if |items| == 0 then []
    else
      var before := Hits(lower, items[..|items| - 1], tokens, getText);
      var m := Overall(lower, tokens, getText(items[|items| - 1]));
      if m.matches then before + [Scored(items[|items| - 1], m.score)] else before
  }

  predicate Sorted<T>(s: seq<Scored<T>>) {
    forall j, k :: 0 <= j < k < |s| ==> s[j].score <= s[k].score
  }

  /** The entries with one score, in their order. */
  function Tied<T>(s: seq<Scored<T>>, score: real): seq<Scored<T>> {
    if |s| == 0 then []
    else if s[|s| - 1].score == score then Tied(s[..|s| - 1], score) + [s[|s| - 1]]
    else Tied(s[..|s| - 1], score)
  }

  /** Best first, and ties stay in order. */
  ghost predicate StablySorted<T>(s: seq<Scored<T>>, r: seq<Scored<T>>) {
    Sorted(r) && forall score :: Tied(r, score) == Tied(s, score)
  }

  lemma {:induction false} TiedAppend<T>(a: seq<Scored<T>>, b: seq<Scored<T>>, score: real)
    ensures Tied(a + b, score) == Tied(a, score) + Tied(b, score)
  {
    if |b| == 0 {
      assert a + b == a;
    } else {
      TiedAppend(a, b[..|b| - 1], score);
      assert (a + b)[..|a + b| - 1] == a + b[..|b| - 1];
    }
  }

  lemma {:induction false} NoneTied<T>(s: seq<Scored<T>>, score: real)
    requires forall k :: 0 <= k < |s| ==> s[k].score != score
    ensures Tied(s, score) == []
  {
    if |s| > 0 {
      NoneTied(s[..|s| - 1], score);
    }
  }

  lemma {:induction false} SomeTied<T>(s: seq<Scored<T>>, k: nat)
    requires k < |s|
    ensures |Tied(s, s[k].score)| > 0
  {
    if k < |s| - 1 {
      SomeTied(s[..|s| - 1], k);
    }
  }

  /** There is only one stable sort, so it does not matter how the library's sort works. */
  lemma {:induction false} OneStableSort<T>(a: seq<Scored<T>>, b: seq<Scored<T>>)
    requires Sorted(a) && Sorted(b) && forall score :: Tied(a, score) == Tied(b, score)
    ensures a == b
  {
    if |a| == 0 && |b| == 0 {
    } else if |a| == 0 {
      SomeTied(b, 0);
    } else if |b| == 0 {
      SomeTied(a, 0);
    } else {
      var x, y := a[|a| - 1], b[|b| - 1];
      LastIsLargest(a, b);
      LastIsLargest(b, a);
      var a', b' := a[..|a| - 1], b[..|b| - 1];
      assert Tied(a, x.score) == Tied(a', x.score) + [x];
      assert Tied(b, x.score) == Tied(b', x.score) + [y];
      forall score: real
        ensures Tied(a', score) == Tied(b', score)
      {
        TiedButLast(a, b, score);
      }
      OneStableSort(a', b');
      assert x == Tied(a, x.score)[|Tied(a, x.score)| - 1];
      assert y == Tied(b, x.score)[|Tied(b, x.score)| - 1];
      assert a == a' + [x] && b == b' + [y];
    }
  }

  lemma TiedButLast<T>(a: seq<Scored<T>>, b: seq<Scored<T>>, score: real)
    requires |a| > 0 && |b| > 0 && a[|a| - 1].score == b[|b| - 1].score && Tied(a, score) == Tied(b, score)
    ensures Tied(a[..|a| - 1], score) == Tied(b[..|b| - 1], score)
  {
    if score == a[|a| - 1].score {
      assert Tied(a[..|a| - 1], score) == Tied(a, score)[..|Tied(a, score)| - 1];
      assert Tied(b[..|b| - 1], score) == Tied(b, score)[..|Tied(b, score)| - 1];
    }
  }

  lemma LastIsLargest<T>(a: seq<Scored<T>>, b: seq<Scored<T>>)
    requires |a| > 0 && |b| > 0 && Sorted(b) && forall score :: Tied(a, score) == Tied(b, score)
    ensures a[|a| - 1].score <= b[|b| - 1].score
  {
    var score := a[|a| - 1].score;
    SomeTied(a, |a| - 1);
    if score > b[|b| - 1].score {
      NoneTied(b, score);
    }
  }

  /** Put an entry after those that are as good, before those that are worse. */
  method Insert<T>(s: seq<Scored<T>>, x: Scored<T>) returns (r: seq<Scored<T>>)
    requires Sorted(s)
    ensures StablySorted(s + [x], r)
  {
    var k := |s|;
    while k > 0 && s[k - 1].score > x.score
      invariant 0 <= k <= |s|
      invariant forall j :: k <= j < |s| ==> s[j].score > x.score
    {
      k := k - 1;
    }
    r := s[..k] + [x] + s[k..];
    forall score: real
      ensures Tied(r, score) == Tied(s + [x], score)
    {
      InsertKeepsTies(s, k, x, score);
    }
  }

  lemma InsertKeepsTies<T>(s: seq<Scored<T>>, k: nat, x: Scored<T>, score: real)
    requires k <= |s| && forall j :: k <= j < |s| ==> s[j].score > x.score
    ensures Tied(s[..k] + [x] + s[k..], score) == Tied(s + [x], score)
  {
    TiedAppend(s[..k] + [x], s[k..], score);
    TiedAppend(s[..k], [x], score);
    TiedAppend(s[..k], s[k..], score);
    TiedAppend(s, [x], score);
    assert s == s[..k] + s[k..];
    if score == x.score {
      NoneTied(s[k..], score);
    } else {
      NoneTied([x], score);
    }
  }

  /** `results.sort((a, b) => a.score - b.score)`, a stable sort. */
  method SortByScore<T>(s: seq<Scored<T>>) returns (r: seq<Scored<T>>)
    ensures StablySorted(s, r)
  {
    r := [];
    for k := 0 to |s|
      invariant StablySorted(s[..k], r)
    {
      ghost var before := r;
      r := Insert(r, s[k]);
      assert s[..k + 1] == s[..k] + [s[k]];
      forall score: real
        ensures Tied(r, score) == Tied(s[..k + 1], score)
      {
        TiedAppend(before, [s[k]], score);
        TiedAppend(s[..k], [s[k]], score);
      }
    }
    assert s[..|s|] == s;
  }

  /** The inner loop of `fuzzyFilterScored`: it stops at the first token that does not match. */
  method Rate(lower: string -> string, tokens: seq<string>, text: string) returns (r: Match)
    ensures r == Overall(lower, tokens, text)
  {
    hide Judged;
    var totalScore, k := 0.0, 0;
    while k < |tokens|
      invariant k <= |tokens| && Overall(lower, tokens[..k], text) == Match(true, totalScore)
    {
      assert tokens[..k + 1][..k] == tokens[..k];
      var m := FuzzyMatch(lower, tokens[k], text);
      if !m.matches {
        OverallStops(lower, tokens, k + 1, text);
        return Match(false, totalScore);
      }
      totalScore := totalScore + m.score;
      k := k + 1;
    }
    assert tokens[..k] == tokens;
    return Match(true, totalScore);
  }

  /** `fuzzyFilterScored`. */
  method FuzzyFilterScored<T>(lower: string -> string, items: seq<T>, query: string, getText: T -> string)
    returns (results: seq<Scored<T>>)
    ensures |Tokens(query)| == 0 ==> results == seq(|items|, k requires 0 <= k < |items| => Scored(items[k], 0.0))
    ensures StablySorted(Hits(lower, items, Tokens(query), getText), results)
  {
    var tokens := Tokens(query);
    if |tokens| == 0 {
      results := seq(|items|, k requires 0 <= k < |items| => Scored(items[k], 0.0));
      EverythingHits(lower, items, getText);
      return;
    }
    hide Overall;
    results := [];
    for n := 0 to |items|
      invariant results == Hits(lower, items[..n], tokens, getText)
    {
      var text := getText(items[n]);
      var rating := Rate(lower, tokens, text);
      if rating.matches {
        results := results + [Scored(items[n], rating.score)];
      }
      assert items[..n + 1][..n] == items[..n];
    }
    assert items[..|items|] == items;
    results := SortByScore(results);
  }

  lemma {:induction false} OverallStops(lower: string -> string, tokens: seq<string>, k: nat, text: string)
    requires k <= |tokens| && !Overall(lower, tokens[..k], text).matches
    ensures Overall(lower, tokens, text) == Overall(lower, tokens[..k], text)
  {
    hide Judged;
    if k == |tokens| {
      assert tokens[..k] == tokens;
    } else {
      assert tokens[..|tokens| - 1][..k] == tokens[..k];
      OverallStops(lower, tokens[..|tokens| - 1], k, text);
    }
  }

  lemma {:induction false} EverythingHits<T>(lower: string -> string, items: seq<T>, getText: T -> string)
    ensures Hits(lower, items, [], getText) == seq(|items|, k requires 0 <= k < |items| => Scored(items[k], 0.0))
    ensures Sorted(Hits(lower, items, [], getText))
  {
    if |items| > 0 {
      EverythingHits(lower, items[..|items| - 1], getText);
    }
  }

  // ----- what the filter promises -----

  function ItemsOf<T>(s: seq<Scored<T>>): seq<T> {
    seq(|s|, k requires 0 <= k < |s| => s[k].item)
  }

  /** An item is kept exactly when every word of the query, or its swap, is a subsequence of its text. */
  ghost predicate Wanted(lower: string -> string, tokens: seq<string>, text: string) {
    forall k :: 0 <= k < |tokens| ==> Occurs(lower(tokens[k]), lower(text))
  }

  ghost function Chosen<T>(lower: string -> string, items: seq<T>, tokens: seq<string>, getText: T -> string): seq<T> {
    if |items| == 0 then []
    else
      var before, x := Chosen(lower, items[..|items| - 1], tokens, getText), items[|items| - 1];
      if Wanted(lower, tokens, getText(x)) then before + [x] else before
  }

  lemma {:induction false} HitsAreTheWanted<T>(lower: string -> string, items: seq<T>, tokens: seq<string>, getText: T -> string)
    ensures ItemsOf(Hits(lower, items, tokens, getText)) == Chosen(lower, items, tokens, getText)
  {
    if |items| > 0 {
      var x := items[|items| - 1];
      HitsAreTheWanted(lower, items[..|items| - 1], tokens, getText);
      OverallMatchesAll(lower, tokens, getText(x));
      forall k | 0 <= k < |tokens|
        ensures Judged(lower(tokens[k]), lower(getText(x))).matches <==> Occurs(lower(tokens[k]), lower(getText(x)))
      {
        MatchesSubsequences(lower(tokens[k]), lower(getText(x)));
      }
    }
  }

  /** `fuzzyFilter`: a blank query keeps everything as it is, which is also what the scored form keeps. */
  method FuzzyFilter<T>(lower: string -> string, items: seq<T>, query: string, getText: T -> string) returns (r: seq<T>)
    ensures exists s :: StablySorted(Hits(lower, items, Tokens(query), getText), s) && r == ItemsOf(s)
    ensures |NoSpaces(query)| == 0 ==> r == items
  {
    TokensAreTheWords(query);
    var s := FuzzyFilterScored(lower, items, query, getText);
    if |NoSpaces(query)| == 0 {
      BlankHasNoTokens(query);
      r := items;
      assert r == ItemsOf(s);
    } else {
      r := ItemsOf(s);
    }
  }

  lemma BlankHasNoTokens(query: string)
    ensures |Tokens(query)| == 0 <==> |NoSpaces(query)| == 0
  {
    TokensAreTheWords(query);
    if |Tokens(query)| > 0 {
      assert |Joined(Tokens(query))| >= |Tokens(query)[0]|;
    }
  }
}
