/** Fuzzy matching: a greedy scan that is complete, and a filter that keeps and sorts what matches. */
module Fuzzy {
  import opened Wrappers

  datatype Match = Match(matches: bool, score: real)

  /** `query` can be read off `text` from left to right, skipping characters. */
  predicate Subsequence(query: string, text: string) {
    query == [] || (text != []
        && (Subsequence(query, text[1..]) || (query[0] == text[0] && Subsequence(query[1..], text[1..]))))
  }

  /** An embedding shows a subsequence. */
  lemma {:induction false} SkipIsFine(query: string, text: string, k: nat)
    requires k <= |text| && Subsequence(query, text[k..])
    ensures Subsequence(query, text)
    decreases k
  {
    if k > 0 {
      assert text[k - 1..][1..] == text[k..];
      SkipIsFine(query, text, k - 1);
    } else {
      assert text[0..] == text;
    }
  }

  lemma {:induction false} TailIsSubsequence(query: string, text: string)
    requires query != [] && Subsequence(query, text)
    ensures Subsequence(query[1..], text)
  {
    if text != [] && Subsequence(query, text[1..]) {
      TailIsSubsequence(query, text[1..]);
    }
  }

  /** Taking the first occurrence of the first character never loses a match. */
  lemma {:induction false} FirstOccurrenceIsEnough(query: string, text: string, i: nat)
    requires query != [] && i < |text| && text[i] == query[0] && forall j :: 0 <= j < i ==> text[j] != query[0]
    ensures Subsequence(query, text) <==> Subsequence(query[1..], text[i + 1..])
    decreases i
  {
    if i == 0 {
      assert text[0..] == text;
      if Subsequence(query, text[1..]) { TailIsSubsequence(query, text[1..]); }
    } else {
      FirstOccurrenceIsEnough(query, text[1..], i - 1);
      assert text[1..][i..] == text[i + 1..];
    }
  }

  lemma {:induction false} AbsentCharacter(query: string, text: string)
    requires query != [] && query[0] !in text
    ensures !Subsequence(query, text)
  {
    if text != [] { AbsentCharacter(query, text[1..]); }
  }

  lemma {:induction false} ShorterText(query: string, text: string)
    requires Subsequence(query, text)
    ensures |query| <= |text|
  {
    if query != [] && text != [] {
      if Subsequence(query, text[1..]) { ShorterText(query, text[1..]); } else { ShorterText(query[1..], text[1..]); }
    }
  }

  // ---------------------------------------------------------------------------
  // One query
  // ---------------------------------------------------------------------------

  /** The first occurrence of a character at or after a position: String.indexOf. */
  function First(text: string, c: char, from: nat): (index: Option<nat>)
    requires from <= |text|
    ensures index.None? ==> c !in text[from..]
    ensures index.Some? ==> from <= index.value < |text| && text[index.value] == c && c !in text[from..index.value]
    decreases |text| - from
  {
    if from == |text| then None else if text[from] == c then Some(from) else First(text, c, from + 1)
  }

  predicate IsBoundary(c: char) {
    c in " -_./:" || 9 <= c as int <= 13
  }

  /**
   What one matched character contributes: consecutive matches and word starts are rewarded, gaps and late
   matches penalized.
   */
  function Step(text: string, last: int, run: nat, i: nat): real
    requires i < |text|
  {
    (if last + 1 == i then -(((run + 1) * 5) as real) else if last >= 0 then ((i - last - 1) * 2) as real else 0.0)
    + (if i == 0 || IsBoundary(text[i - 1]) then -10.0 else 0.0)
    + (i as real) / 10.0
  }

  /** The score of matching the rest of a query after a match at `last`, leftmost characters first. */
  function ScoreFrom(query: string, text: string, last: int, run: nat): Option<real>
    requires -1 <= last < |text|
    decreases |query|
  {
    if query == [] then Some(0.0)
    else
      var i := First(text, query[0], last + 1);
      if i.None? then None
      else
        var rest := ScoreFrom(query[1..], text, i.value, if last + 1 == i.value then run + 1 else 0);
        if rest.None? then None else Some(Step(text, last, run, i.value) + rest.value)
  }

  function MatchOf(query: string, text: string): Match {
    if query == "" then Match(true, 0.0)
    else if text == "" then Match(false, 0.0)
    else
      var score := ScoreFrom(query, text, -1, 0);
      if score.None? then Match(false, 0.0) else Match(true, score.value - if query == text then 100.0 else 0.0)
  }

  /** The greedy scan finds a match exactly if there is one. */
  lemma {:induction false} GreedyIsComplete(query: string, text: string, last: int, run: nat)
    requires -1 <= last < |text|
    ensures ScoreFrom(query, text, last, run).Some? <==> Subsequence(query, text[last + 1..])
    decreases |query|
  {
    if query != [] {
      var rest := text[last + 1..];
      var i := First(text, query[0], last + 1);
      if i.None? {
        AbsentCharacter(query, rest);
      } else {
        var k := i.value - (last + 1);
        assert rest[k] == query[0] && forall j :: 0 <= j < k ==> rest[j] == text[last + 1..i.value][j];
        FirstOccurrenceIsEnough(query, rest, k);
        assert rest[k + 1..] == text[i.value + 1..];
        GreedyIsComplete(query[1..], text, i.value, if last + 1 == i.value then run + 1 else 0);
      }
    }
  }

  lemma MatchIsSubsequence(query: string, text: string)
    ensures MatchOf(query, text).matches <==> Subsequence(query, text)
  {
    if query != "" && text != "" {
      GreedyIsComplete(query, text, -1, 0);
      assert text[0..] == text;
    }
  }

  // ---------------------------------------------------------------------------
  // What the score rewards
  // ---------------------------------------------------------------------------

  /** A matched character scores no better than the same one of an exact match. */
  lemma StepIsNoBetter(query: string, text: string, k: nat, last: int, run: nat, i: nat)
    requires k < |query| && i < |text| && k - 1 <= last < i && run <= k && (last >= 0 <==> k > 0)
    requires k > 0 ==> last < |text| && text[last] == query[k - 1]
    ensures Step(text, last, run, i) >= Step(query, k - 1, k, k)
  {
    hide IsBoundary;
    if last + 1 == i {
      assert (run + 1) * 5 <= (k + 1) * 5;
    } else {
      assert last >= 0 ==> ((i - last - 1) * 2) as real >= 2.0;
    }
    assert (i as real) / 10.0 >= (k as real) / 10.0;
  }

  /** Nor does the rest of the query. */
  lemma {:induction false} RestIsNoBetter(query: string, text: string, k: nat, last: int, run: nat)
    requires k <= |query| && k - 1 <= last < |text| && run <= k && (last >= 0 <==> k > 0)
    requires k > 0 ==> text[last] == query[k - 1]
    requires k <= |query| && ScoreFrom(query[k..], text, last, run).Some?
    ensures k - 1 < |query| && ScoreFrom(query[k..], query, k - 1, k).Some?
    ensures ScoreFrom(query[k..], text, last, run).value >= ScoreFrom(query[k..], query, k - 1, k).value
    decreases |query| - k
  {
    if k < |query| {
      var i := First(text, query[k], last + 1).value;
      assert query[k..][0] == query[k] && query[k..][1..] == query[k + 1..];
      assert First(query, query[k], k) == Some(k);
      StepIsNoBetter(query, text, k, last, run, i);
      RestIsNoBetter(query, text, k + 1, i, if last + 1 == i then run + 1 else 0);
      hide Step, First;
    }
  }

  /** The text that is the query itself ranks before every other one that matches it, by at least 100. */
  lemma ExactIsBest(query: string, text: string)
    requires query != "" && text != query && MatchOf(query, text).matches
    ensures MatchOf(query, query).matches && MatchOf(query, text).score >= MatchOf(query, query).score + 100.0
  {
    assert query[0..] == query;
    RestIsNoBetter(query, text, 0, -1, 0);
  }

  /** The score of a word that is its own text: 10 for its start, 5, 10, 15 and so on for its run, and 100. */
  lemma ExactScore(word: string)
    requires word != "" && forall c :: c in word ==> !IsBoundary(c)
    ensures var n := |word|;
            20.0 * MatchOf(word, word).score == (-2200 - 50 * n * (n + 1) + n * (n - 1)) as real
  {
    assert word[0..] == word;
    RunScore(word, 0);
  }

  lemma {:induction false} RunScore(word: string, k: nat)
    requires k <= |word| && word != "" && forall c :: c in word ==> !IsBoundary(c)
    ensures k - 1 < |word| && ScoreFrom(word[k..], word, k - 1, k).Some?
    ensures var n := |word|;
            20.0 * ScoreFrom(word[k..], word, k - 1, k).value ==
            (-50 * (n * (n + 1) - k * (k + 1)) + (n * (n - 1) - k * (k - 1)) - if k == 0 then 200 else 0) as real
    decreases |word| - k
  {
    if k < |word| {
      assert word[k..][0] == word[k] && word[k..][1..] == word[k + 1..];
      assert First(word, word[k], k) == Some(k);
      RunScore(word, k + 1);
      assert k > 0 ==> word[k - 1] in word;
      assert 20.0 * Step(word, k - 1, k, k) == (-100 * (k + 1) + 2 * k - if k == 0 then 200 else 0) as real;
      assert (k + 1) * (k + 2) == k * (k + 1) + 2 * (k + 1) && (k + 1) * k == k * (k - 1) + 2 * k;
      hide Step, First;
    } else {
      assert word[k..] == "";
    }
  }

  /** Where words start: after white space and - _ . / : but not within a run of letters and digits. */
  lemma WordStarts(c: char)
    ensures c in " \t\n\r-_./:" ==> IsBoundary(c)
    ensures 'a' <= c <= 'z' || '0' <= c <= '9' ==> !IsBoundary(c)
  {
  }

  /** What a word start is worth. */
  function Bonus(text: string, i: nat): real
    requires i < |text|
  {
    if i == 0 || IsBoundary(text[i - 1]) then -10.0 else 0.0
  }

  /** Two characters matched apart: each skipped one between them costs 2, and both cost a tenth of their place. */
  lemma GapScore(text: string, a: char, b: char, p: nat, q: nat)
    requires p + 1 < q < |text| && First(text, a, 0) == Some(p) && First(text, b, p + 1) == Some(q)
    ensures MatchOf([a, b], text) ==
            Match(true, (if p == 0 then -5.0 else 0.0) + Bonus(text, p) + Bonus(text, q)
                        + ((q - p - 1) * 2) as real + (p as real) / 10.0 + (q as real) / 10.0)
  {
    hide First, IsBoundary;
    assert [a, b][0] == a && [a, b][1..] == [b] && [b][0] == b && [b][1..] == "";
    var run := if p == 0 then 1 else 0;
    assert ScoreFrom("", text, q, 0) == Some(0.0);
    assert ScoreFrom([b], text, p, run) == Some(Step(text, p, run, q) + 0.0);
    assert ScoreFrom([a, b], text, -1, 0) == Some(Step(text, -1, 0, p) + (Step(text, p, run, q) + 0.0));
  }

  method MatchQuery(query: string, text: string) returns (r: Match)
    ensures r == MatchOf(query, text) && (r.matches <==> Subsequence(query, text))
  {
    MatchIsSubsequence(query, text);
    if |query| == 0 { return Match(true, 0.0); }
    if |query| > |text| {
      if Subsequence(query, text) { ShorterText(query, text); }
      return Match(false, 0.0);
    }
    var queryIndex, score := 0, 0.0;
    var last: int, run: nat := -1, 0;
    assert query[0..] == query;
    while queryIndex < |query|
      invariant 0 <= queryIndex <= |query| && -1 <= last < |text|
      invariant var all, rest := ScoreFrom(query, text, -1, 0), ScoreFrom(query[queryIndex..], text, last, run);
                if rest.None? then all.None? else all == Some(score + rest.value)
    {
      assert query[queryIndex..][1..] == query[queryIndex + 1..];
      var i := First(text, query[queryIndex], last + 1);
      if i.None? { return Match(false, 0.0); }
      score := score + Step(text, last, run, i.value);
      run := if last + 1 == i.value then run + 1 else 0;
      last, queryIndex := i.value, queryIndex + 1;
    }
    if query == text { score := score - 100.0; }
    r := Match(true, score);
  }

  // ---------------------------------------------------------------------------
  // Letters and digits swapped
  // ---------------------------------------------------------------------------

  predicate IsLetter(c: char) { 'a' <= c <= 'z' }

  predicate IsDigit(c: char) { '0' <= c <= '9' }

  predicate All(s: string, p: char -> bool) { forall c :: c in s ==> p(c) }

  /** How many characters at the start satisfy a predicate. */
  function Leading(s: string, p: char -> bool): (n: nat)
    ensures n <= |s| && All(s[..n], p) && (n < |s| ==> !p(s[n]))
  {
    if s == [] || !p(s[0]) then 0 else
      var n := Leading(s[1..], p);
      assert s[..n + 1] == [s[0]] + s[1..][..n];
      n + 1
  }

  /** The query with its letters and digits swapped if it consists of one run of each, and nothing otherwise. */
  function Swapped(q: string): string {
    var letters, digits := Leading(q, IsLetter), Leading(q, IsDigit);
    if 0 < letters < |q| && All(q[letters..], IsDigit) then q[letters..] + q[..letters]
    else if 0 < digits < |q| && All(q[digits..], IsLetter) then q[digits..] + q[..digits]
    else ""
  }

  lemma {:induction false} LeadingOf(a: string, b: string, p: char -> bool)
    requires All(a, p) && b != "" && !p(b[0])
    ensures Leading(a + b, p) == |a|
  {
    if a == "" {
      assert a + b == b;
    } else {
      assert a[0] in a && (a + b)[1..] == a[1..] + b;
      LeadingOf(a[1..], b, p);
    }
  }

  /** One run of letters and one of digits, in either order, are what it swaps; swapping twice gives the query back. */
  lemma SwapsRuns(letters: string, digits: string)
    requires letters != "" && digits != "" && All(letters, IsLetter) && All(digits, IsDigit)
    ensures Swapped(letters + digits) == digits + letters && Swapped(digits + letters) == letters + digits
  {
    assert digits[0] in digits && letters[0] in letters;
    LeadingOf(letters, digits, IsLetter);
    LeadingOf(digits, letters, IsDigit);
    assert (letters + digits)[..|letters|] == letters && (letters + digits)[|letters|..] == digits;
    assert (digits + letters)[..|digits|] == digits && (digits + letters)[|digits|..] == letters;
    assert !IsLetter((digits + letters)[0]);
  }

  lemma SwappedIsRuns(q: string) returns (letters: string, digits: string)
    requires Swapped(q) != ""
    ensures letters != "" && digits != "" && All(letters, IsLetter) && All(digits, IsDigit)
    ensures q == letters + digits || q == digits + letters
  {
    var n, m := Leading(q, IsLetter), Leading(q, IsDigit);
    if 0 < n < |q| && All(q[n..], IsDigit) {
      letters, digits := q[..n], q[n..];
    } else {
      letters, digits := q[m..], q[..m];
    }
  }

  function FuzzyMatchOf(query: string, text: string): Match {
    var primary, swapped := MatchOf(query, text), Swapped(query);
    if primary.matches || swapped == "" || !MatchOf(swapped, text).matches then primary
    else Match(true, MatchOf(swapped, text).score + 5.0)
  }

  /**
   fuzzyMatch, on a query and a text already in lower case: it matches exactly if the query or its swapped
   form is a subsequence.
   */
  method FuzzyMatch(query: string, text: string) returns (r: Match)
    ensures r == FuzzyMatchOf(query, text)
    ensures r.matches <==> Subsequence(query, text) || (Swapped(query) != "" && Subsequence(Swapped(query), text))
    ensures Subsequence(query, text) ==> r == MatchOf(query, text)
    ensures r.matches && !Subsequence(query, text) ==> r.score == MatchOf(Swapped(query), text).score + 5.0
  {
    var primary := MatchQuery(query, text);
    if primary.matches { return primary; }
    var swappedQuery := Swapped(query);
    if swappedQuery == "" { return primary; }
    var swapped := MatchQuery(swappedQuery, text);
    if !swapped.matches { return primary; }
    r := Match(true, swapped.score + 5.0);
  }

  // ---------------------------------------------------------------------------
  // The filter
  // ---------------------------------------------------------------------------

  predicate IsSeparator(c: char) { c == '/' || c == ' ' || 9 <= c as int <= 13 }

  predicate IsPlain(c: char) { !IsSeparator(c) }

  /** The maximal runs of characters that are neither white space nor slashes. */
  function Tokens(query: string): seq<string>
    decreases |query|
  {
    if query == "" then []
    else if IsSeparator(query[0]) then Tokens(query[1..])
    else
      var n := Leading(query, IsPlain);
      [query[..n]] + Tokens(query[n..])
  }

  lemma {:induction false} LeadingAll(s: string, p: char -> bool)
    requires All(s, p)
    ensures Leading(s, p) == |s|
  {
    if s != "" {
      assert s[0] in s;
      LeadingAll(s[1..], p);
    }
  }

  /** Some words with a character between any two. */
  function Spaced(words: seq<string>, c: char): string {
    if words == [] then "" else if |words| == 1 then words[0] else words[0] + [c] + Spaced(words[1..], c)
  }

  /** Neither white space nor a slash. */
  predicate IsWord(word: string) {
    word != "" && forall c :: c in word ==> c != '/' && c != ' ' && !(9 <= c as int <= 13)
  }

  /** The tokens of some words with a space, a slash or a line break between any two are the words. */
  lemma {:induction false} TokensOfWords(words: seq<string>, c: char)
    requires c in " /\t\n\r" && forall i :: 0 <= i < |words| ==> IsWord(words[i])
    ensures Tokens(Spaced(words, c)) == words
    decreases |words|
  {
    if |words| == 1 {
      var word := words[0];
      assert word[0] in word;
      LeadingAll(word, IsPlain);
      assert word[..|word|] == word && word[|word|..] == "" && words == [word];
    } else if |words| > 1 {
      var word, rest := words[0], Spaced(words[1..], c);
      assert word[0] in word;
      TokensOfWords(words[1..], c);
      var text := word + ([c] + rest);
      assert Spaced(words, c) == text;
      LeadingOf(word, [c] + rest, IsPlain);
      assert text[..|word|] == word && text[|word|..] == [c] + rest && ([c] + rest)[1..] == rest;
      assert words == [word] + words[1..];
    }
  }

  /** Separators around a query make no difference. */
  lemma {:induction false} TokensTrimmed(query: string, c: char)
    requires c in " /\t\n\r"
    ensures Tokens([c] + query) == Tokens(query)
  {
    assert ([c] + query)[1..] == query;
  }

  /** The total score of a text, if every token matches it. */
  function TotalScore(tokens: seq<string>, text: string): Option<real> {
    if tokens == [] then Some(0.0)
    else
      var before, m := TotalScore(tokens[..|tokens| - 1], text), FuzzyMatchOf(tokens[|tokens| - 1], text);
      if before.Some? && m.matches then Some(before.value + m.score) else None
  }

  lemma {:induction false} ScoredIffAllMatch(tokens: seq<string>, text: string)
    ensures TotalScore(tokens, text).Some? <==> forall i :: 0 <= i < |tokens| ==> FuzzyMatchOf(tokens[i], text).matches
  {
    hide FuzzyMatchOf;
    if tokens != [] {
      var front, last := tokens[..|tokens| - 1], |tokens| - 1;
      ScoredIffAllMatch(front, text);
      assert tokens[last] == tokens[|front|] && forall i :: 0 <= i < last ==> tokens[i] == front[i];
    }
  }

  /** The total is the sum of the scores: of those of two lists of tokens, and of a single token its own. */
  lemma {:induction false} TotalIsSum(a: seq<string>, b: seq<string>, text: string)
    ensures TotalScore(a + b, text) ==
            if TotalScore(a, text).Some? && TotalScore(b, text).Some?
            then Some(TotalScore(a, text).value + TotalScore(b, text).value) else None
    ensures |b| == 1 ==>
              TotalScore(b, text) ==
              if FuzzyMatchOf(b[0], text).matches then Some(FuzzyMatchOf(b[0], text).score) else None
    decreases |b|
  {
    hide FuzzyMatchOf;
    if b == [] {
      assert a + b == a;
    } else {
      var front := b[..|b| - 1];
      TotalIsSum(a, front, text);
      assert (a + b)[..|a + b| - 1] == a + front && (a + b)[|a + b| - 1] == b[|b| - 1];
      if |b| == 1 { assert TotalScore(front, text) == Some(0.0); }
    }
  }

  /** The items that match, by index, with their scores, in their original order. */
  function Kept(texts: seq<string>, tokens: seq<string>, count: nat): (kept: seq<(nat, real)>)
    requires count <= |texts|
    ensures forall k :: 0 <= k < |kept| ==> kept[k].0 < count && TotalScore(tokens, texts[kept[k].0]) == Some(kept[k].1)
    ensures forall k, l :: 0 <= k < l < |kept| ==> kept[k].0 < kept[l].0
    ensures forall i :: 0 <= i < count && TotalScore(tokens, texts[i]).Some? ==>
            (i, TotalScore(tokens, texts[i]).value) in kept
  {
    hide TotalScore;
    if count == 0 then []
    else
      var score := TotalScore(tokens, texts[count - 1]);
      Kept(texts, tokens, count - 1) + if score.Some? then [(count - 1, score.value)] else []
  }

  /** Sorted by score and, among equal scores, by original position. */
  predicate InOrder(a: (nat, real), b: (nat, real)) { a.1 < b.1 || (a.1 == b.1 && a.0 < b.0) }

  ghost predicate Sorted(results: seq<(nat, real)>) {
    forall k, l :: 0 <= k < l < |results| ==> InOrder(results[k], results[l])
  }

  lemma InsertedInOrder(sorted: seq<(nat, real)>, k: nat, next: (nat, real))
    requires Sorted(sorted) && k <= |sorted|
    requires forall l :: 0 <= l < k ==> InOrder(sorted[l], next)
    requires forall l :: k <= l < |sorted| ==> InOrder(next, sorted[l])
    ensures Sorted(sorted[..k] + [next] + sorted[k..])
    ensures multiset(sorted[..k] + [next] + sorted[k..]) == multiset(sorted) + multiset{next}
  {
    hide InOrder;
    assert sorted == sorted[..k] + sorted[k..];
  }

  /** Array.sort, which is stable: the next result goes behind all that do not score worse. */
  method Insert(sorted: seq<(nat, real)>, next: (nat, real)) returns (r: seq<(nat, real)>)
    requires Sorted(sorted) && forall k :: 0 <= k < |sorted| ==> sorted[k].0 < next.0
    ensures Sorted(r) && multiset(r) == multiset(sorted) + multiset{next}
  {
    var k := |sorted|;
    while k > 0 && sorted[k - 1].1 > next.1
      invariant 0 <= k <= |sorted| && forall l :: k <= l < |sorted| ==> sorted[l].1 > next.1
    {
      k := k - 1;
    }
    forall l | 0 <= l < k ensures InOrder(sorted[l], next) {
      if l < k - 1 { assert InOrder(sorted[l], sorted[k - 1]); }
    }
    InsertedInOrder(sorted, k, next);
    r := sorted[..k] + [next] + sorted[k..];
  }

  /** The inner loop of fuzzyFilter. */
  method ScoreItem(tokens: seq<string>, text: string) returns (total: Option<real>)
    ensures total == TotalScore(tokens, text)
  {
    var totalScore := 0.0;
    for j := 0 to |tokens|
      invariant TotalScore(tokens[..j], text) == Some(totalScore)
    {
      hide FuzzyMatchOf, Swapped, Subsequence;
      assert tokens[..j + 1][..j] == tokens[..j] && tokens[..j + 1][j] == tokens[j];
      var m := FuzzyMatch(tokens[j], text);
      if !m.matches {
        assert TotalScore(tokens, text) == None by { ScoredIffAllMatch(tokens, text); }
        return None;
      }
      totalScore := totalScore + m.score;
    }
    total := Some(totalScore);
    assert tokens[..|tokens|] == tokens;
    hide TotalScore, FuzzyMatchOf;
  }

  /**
   fuzzyFilter on the texts of some items: with at least one token, exactly the items that every token
   matches, ascending by total score and in their original order where scores are equal.
   */
  method FuzzyFilter(texts: seq<string>, query: string) returns (items: seq<nat>, ghost results: seq<(nat, real)>)
    ensures Tokens(query) == [] ==> items == seq(|texts|, i => i)
    ensures Tokens(query) != [] ==>
              && |items| == |results| && (forall k :: 0 <= k < |items| ==> items[k] == results[k].0)
              && Sorted(results) && multiset(results) == multiset(Kept(texts, Tokens(query), |texts|))
  {
    var tokens := Tokens(query);
    if tokens == [] {
      items, results := seq(|texts|, i => i), [];
      return;
    }
    var sorted: seq<(nat, real)> := [];
    for i := 0 to |texts|
      invariant Sorted(sorted) && multiset(sorted) == multiset(Kept(texts, tokens, i))
    {
      var total := ScoreItem(tokens, texts[i]);
      if total.Some? {
        EarlierOnly(texts, tokens, i, sorted);
        sorted := Insert(sorted, (i, total.value));
      }
    }
    results := sorted;
    items := seq(|sorted|, k requires 0 <= k < |sorted| => sorted[k].0);
  }

  lemma EarlierOnly(texts: seq<string>, tokens: seq<string>, i: nat, sorted: seq<(nat, real)>)
    requires i <= |texts| && multiset(sorted) == multiset(Kept(texts, tokens, i))
    ensures forall k :: 0 <= k < |sorted| ==> sorted[k].0 < i
  {
    forall k | 0 <= k < |sorted| ensures sorted[k].0 < i {
      assert sorted[k] in multiset(sorted);
      assert sorted[k] in Kept(texts, tokens, i);
    }
  }
}
