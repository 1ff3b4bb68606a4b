/** Tolerant text search: apps/api/monitube_api/fuzzy_search.py:70-121. Unicode normalisation and
    the word and term splitters are opaque functions. */
module FuzzySearch {
  import opened Common
  import opened JaroWinkler

  datatype Language = Language(normalize: string -> string, words: string -> seq<string>, terms: string -> seq<string>)

  type Field = (string, Option<string>)

  predicate At(text: string, part: string, k: int) {
    0 <= k <= |text| - |part| && text[k..k + |part|] == part
  }

  predicate Contains(text: string, part: string) {
    exists k | 0 <= k <= |text| - |part| :: At(text, part, k)
  }

  // ---- one query against one text --------------------------------------------------

  function WindowMin(query: string): nat {
    Max(1, |query| - 2)
  }

  function WindowMax(query: string, value: string): nat {
    if |value| <= |query| + 2 then |value| else |query| + 2
  }

  /** The strings a query is compared with: the words, every part of the value that is up to two characters
      shorter or longer than the query, and the whole value. */
  ghost predicate Candidate(language: Language, query: string, text: string, c: string) {
    var value := language.normalize(text);
    || (exists w | w in language.words(text) :: language.normalize(w) == c)
    || (Contains(value, c) && c != "" && |query| - 2 <= |c| <= |query| + 2)
    || c == value
  }

  function MaxScore(query: string, candidates: seq<string>): (score: real)
    ensures 0.0 <= score
  {
    if candidates == [] then 0.0
    else
      var n := |candidates| - 1;
      var rest := MaxScore(query, candidates[..n]);
      if candidates[n] == "" then rest
      else
        var last := Similarity(query, candidates[n]);
        if last > rest then last else rest
  }

  function Words(language: Language, words: seq<string>): seq<string> {
    seq(|words|, i requires 0 <= i < |words| => language.normalize(words[i]))
  }

  function Windows(value: string, size: nat): seq<string>
    requires size <= |value|
  {
    seq(|value| - size + 1, k requires 0 <= k < |value| - size + 1 => value[k..k + size])
  }

  function AllWindows(value: string, from: nat, end: nat): seq<string>
    requires end <= |value|
    decreases end + 1 - from
  {
    if from > end then [] else Windows(value, from) + AllWindows(value, from + 1, end)
  }

  function Candidates(language: Language, query: string, text: string): seq<string> {
    var value := language.normalize(text);
    Words(language, language.words(text)) + AllWindows(value, WindowMin(query), WindowMax(query, value)) + [value]
  }

  function TextSimilarity(language: Language, query: string, text: Option<string>): real {
    if text.None? || text.value == "" then 0.0
    else
      var q, v := language.normalize(query), language.normalize(text.value);
      if q == "" || v == "" then 0.0
      else if Contains(v, q) then 1.0
      else MaxScore(q, Candidates(language, q, text.value))
  }

  lemma {:induction false} MaxScoreIsMaximum(query: string, candidates: seq<string>)
    ensures forall c :: c in candidates && c != "" ==> Similarity(query, c) <= MaxScore(query, candidates)
    ensures MaxScore(query, candidates) == 0.0
            || exists c :: c in candidates && c != "" && Similarity(query, c) == MaxScore(query, candidates)
  {
    if candidates != [] {
      var n := |candidates| - 1;
      MaxScoreIsMaximum(query, candidates[..n]);
      assert candidates == candidates[..n] + [candidates[n]];
    }
  }

  lemma WindowsContent(value: string, size: nat, c: string)
    requires size <= |value|
    ensures c in Windows(value, size) <==> Contains(value, c) && |c| == size
  {
    if c in Windows(value, size) {
      var k :| 0 <= k < |Windows(value, size)| && Windows(value, size)[k] == c;
      assert At(value, c, k);
    }
    if |c| == size && Contains(value, c) {
      var k :| 0 <= k <= |value| - |c| && At(value, c, k);
      assert Windows(value, size)[k] == c;
    }
  }

  lemma {:induction false} AllWindowsContent(value: string, from: nat, end: nat, c: string)
    requires end <= |value|
    ensures c in AllWindows(value, from, end) <==> Contains(value, c) && from <= |c| <= end
    decreases end + 1 - from
  {
    if from > end {
      assert AllWindows(value, from, end) == [];
    } else {
      AllWindowsContent(value, from + 1, end, c);
      WindowsContent(value, from, c);
      assert c in AllWindows(value, from, end) <==> c in Windows(value, from) || c in AllWindows(value, from + 1, end);
    }
  }

  lemma WordsContent(language: Language, words: seq<string>, c: string)
    ensures c in Words(language, words) <==> exists w | w in words :: language.normalize(w) == c
  {
    if c in Words(language, words) {
      var i :| 0 <= i < |words| && Words(language, words)[i] == c;
      assert words[i] in words;
    }
    if exists w | w in words :: language.normalize(w) == c {
      var w :| w in words && language.normalize(w) == c;
      var i :| 0 <= i < |words| && words[i] == w;
      assert Words(language, words)[i] == c;
    }
  }

  lemma CandidatesAreExactly(language: Language, query: string, text: string, c: string)
    ensures c in Candidates(language, query, text) <==> Candidate(language, query, text, c)
  {
    var value, words := language.normalize(text), language.words(text);
    AllWindowsContent(value, WindowMin(query), WindowMax(query, value), c);
    WordsContent(language, words, c);
  }

  /** The score is in [0,1]; it is 1 exactly when the normalised query is part of the normalised
      text or equals one of its normalised words. */
  lemma TextSimilarityRange(language: Language, query: string, text: string)
    ensures var q, v := language.normalize(query), language.normalize(text);
            var score := TextSimilarity(language, query, Some(text));
            && 0.0 <= score <= 1.0
            && (score == 1.0 <==>
                text != "" && q != "" && v != "" &&
                (Contains(v, q) || exists w | w in language.words(text) :: language.normalize(w) == q))
  {
    var q, v := language.normalize(query), language.normalize(text);
    if text != "" && q != "" && v != "" && !Contains(v, q) {
      MaxScoreRange(q, Candidates(language, q, text));
      CandidatesAreExactly(language, q, text, q);
      if q == v {
        assert At(v, q, 0);
      }
    }
  }

  lemma MaxScoreRange(query: string, candidates: seq<string>)
    requires query != ""
    ensures 0.0 <= MaxScore(query, candidates) <= 1.0
    ensures MaxScore(query, candidates) == 1.0 <==> query in candidates
  {
    MaxScoreIsMaximum(query, candidates);
    forall c ensures 0.0 <= Similarity(query, c) <= 1.0 && (Similarity(query, c) == 1.0 <==> query == c) {
      SimilarityRange(query, c);
    }
  }

  /** Nothing is similar to a text that is missing or empty, or to a query of nothing. */
  lemma NothingScoresZero(language: Language, query: string, text: Option<string>)
    requires text.None? || text.value == "" || language.normalize(query) == "" || language.normalize(text.value) == ""
    ensures TextSimilarity(language, query, text) == 0.0
  {
  }

  /** A text scores no more than its best candidate. */
  lemma ScoreIsOfCandidate(language: Language, query: string, text: string)
    requires 0.0 < TextSimilarity(language, query, Some(text)) < 1.0
    ensures exists c :: Candidate(language, language.normalize(query), text, c)
              && Similarity(language.normalize(query), c) == TextSimilarity(language, query, Some(text))
  {
    var q := language.normalize(query);
    var candidates := Candidates(language, q, text);
    MaxScoreIsMaximum(q, candidates);
    var c :| c in candidates && c != "" && Similarity(q, c) == MaxScore(q, candidates);
    CandidatesAreExactly(language, q, text, c);
  }

  /** No candidate scores higher than the text: a typo inside a long comment is still found by
      the best of its short windows. */
  lemma BestCandidateWins(language: Language, query: string, text: string, c: string)
    requires text != "" && c != ""
    requires language.normalize(query) != "" && language.normalize(text) != ""
    requires Candidate(language, language.normalize(query), text, c)
    ensures Similarity(language.normalize(query), c) <= TextSimilarity(language, query, Some(text))
  {
    var q := language.normalize(query);
    CandidatesAreExactly(language, q, text, c);
    MaxScoreIsMaximum(q, Candidates(language, q, text));
    SimilarityRange(q, c);
  }

  method ComputeTextSimilarity(language: Language, query: string, text: Option<string>) returns (score: real)
    ensures score == TextSimilarity(language, query, text)
  {
    if text.None? || text.value == "" {
      return 0.0;
    }
    var q, v := language.normalize(query), language.normalize(text.value);
    if q == "" || v == "" {
      return 0.0;
    }
    if Contains(v, q) {
      return 1.0;
    }
    var candidates := CollectCandidates(language, q, text.value);
    score := BestOf(q, candidates);
  }

  method CollectCandidates(language: Language, query: string, text: string) returns (candidates: seq<string>)
    ensures candidates == Candidates(language, query, text)
  {
    var value := language.normalize(text);
    candidates := Words(language, language.words(text));
    var windowMin, windowMax := WindowMin(query), WindowMax(query, value);
    var size: int := windowMin;
    ghost var words := candidates;
    while size <= windowMax
      invariant windowMin <= size
      invariant candidates + AllWindows(value, size, windowMax) == words + AllWindows(value, windowMin, windowMax)
      decreases windowMax as int - size
    {
      candidates := candidates + Windows(value, size);
      size := size + 1;
    }
    candidates := candidates + [value];
  }

  method BestOf(query: string, candidates: seq<string>) returns (score: real)
    ensures score == MaxScore(query, candidates)
  {
    score := 0.0;
    for i := 0 to |candidates|
      invariant score == MaxScore(query, candidates[..i])
    {
      assert candidates[..i + 1][..i] == candidates[..i];
      if candidates[i] != "" {
        var s := JaroWinklerSimilarity(query, candidates[i]);
        if s > score {
          score := s;
        }
      }
    }
    assert candidates[..|candidates|] == candidates;
  }

  // ---- several terms against several fields ----------------------------------------

  function Terms(language: Language, query: string): (terms: seq<string>)
    ensures terms != []
  {
    if language.terms(query) != [] then language.terms(query) else [query]
  }

  /** The term's normal form is not empty and occurs in the normal form of some field. */
  predicate Present(language: Language, term: string, fields: seq<Field>) {
    && language.normalize(term) != ""
    && exists f | 0 <= f < |fields| ::
         && fields[f].1.Some? && fields[f].1.value != ""
         && Contains(language.normalize(fields[f].1.value), language.normalize(term))
  }

  predicate AllPresent(language: Language, terms: seq<string>, fields: seq<Field>) {
    forall t | 0 <= t < |terms| :: Present(language, terms[t], fields)
  }

  /** The best similarity of one term over all fields. */
  function Best(language: Language, term: string, fields: seq<Field>): real {
    if fields == [] then 0.0
    else
      var n := |fields| - 1;
      var rest, last := Best(language, term, fields[..n]), TextSimilarity(language, term, fields[n].1);
      if last > rest then last else rest
  }

  predicate Hit(language: Language, terms: seq<string>, field: Field, threshold: real) {
    exists t | 0 <= t < |terms| :: TextSimilarity(language, terms[t], field.1) >= threshold
  }

  function MatchedFields(language: Language, terms: seq<string>, fields: seq<Field>, threshold: real): seq<string> {
    if fields == [] then []
    else
      var n := |fields| - 1;
      MatchedFields(language, terms, fields[..n], threshold)
      + if Hit(language, terms, fields[n], threshold) then [fields[n].0] else []
  }

  function Bests(language: Language, terms: seq<string>, fields: seq<Field>): seq<real> {
    seq(|terms|, t requires 0 <= t < |terms| => Best(language, terms[t], fields))
  }

  function Sum(scores: seq<real>): real {
    if scores == [] then 0.0 else Sum(scores[..|scores| - 1]) + scores[|scores| - 1]
  }

  function Rank(language: Language, query: string, fields: seq<Field>, threshold: real): (real, seq<string>) {
    var terms := Terms(language, query);
    var bests := Bests(language, terms, fields);
    if |terms| > 1 && !AllPresent(language, terms, fields) then (0.0, [])
    else if exists t | 0 <= t < |bests| :: bests[t] < threshold then (0.0, [])
    else (Sum(bests) / |terms| as real, MatchedFields(language, terms, fields, threshold))
  }

  lemma {:induction false} BestIsMaximum(language: Language, term: string, fields: seq<Field>)
    ensures 0.0 <= Best(language, term, fields) <= 1.0
    ensures forall f :: 0 <= f < |fields| ==> TextSimilarity(language, term, fields[f].1) <= Best(language, term, fields)
    ensures Best(language, term, fields) == 0.0
            || exists f :: 0 <= f < |fields| && TextSimilarity(language, term, fields[f].1) == Best(language, term, fields)
  {
    if fields != [] {
      var n := |fields| - 1;
      BestIsMaximum(language, term, fields[..n]);
      if fields[n].1.Some? {
        TextSimilarityRange(language, term, fields[n].1.value);
      }
    }
  }

  lemma PresentMeansOne(language: Language, term: string, fields: seq<Field>) returns (f: nat)
    requires Present(language, term, fields)
    ensures f < |fields| && TextSimilarity(language, term, fields[f].1) == 1.0
    ensures Best(language, term, fields) == 1.0
  {
    f :| 0 <= f < |fields| && fields[f].1.Some? && fields[f].1.value != ""
         && Contains(language.normalize(fields[f].1.value), language.normalize(term));
    var value := language.normalize(fields[f].1.value);
    assert |value| >= |language.normalize(term)|;
    BestIsMaximum(language, term, fields);
  }

  lemma {:induction false} SumOfOnes(scores: seq<real>)
    requires forall t :: 0 <= t < |scores| ==> scores[t] == 1.0
    ensures Sum(scores) == |scores| as real
  {
    if scores != [] {
      SumOfOnes(scores[..|scores| - 1]);
    }
  }

  /** Some field of this name reaches the threshold for some term. */
  ghost predicate Listed(language: Language, terms: seq<string>, fields: seq<Field>, threshold: real, name: string) {
    exists f | 0 <= f < |fields| :: fields[f].0 == name && Hit(language, terms, fields[f], threshold)
  }

  lemma {:induction false} MatchedFieldsContent(language: Language, terms: seq<string>, fields: seq<Field>,
                                                threshold: real, name: string)
    ensures name in MatchedFields(language, terms, fields, threshold) <==>
            Listed(language, terms, fields, threshold, name)
  {
    if fields != [] {
      var n := |fields| - 1;
      MatchedFieldsContent(language, terms, fields[..n], threshold, name);
    }
  }

  /** A query of two or more terms scores exactly 1 with at least one field when every term is
      present somewhere, and 0 with no field otherwise; nothing in between. */
  lemma MultiTermAllOrNothing(language: Language, query: string, fields: seq<Field>, threshold: real)
    requires |Terms(language, query)| > 1 && threshold <= 1.0
    ensures var (score, matched) := Rank(language, query, fields, threshold);
            if AllPresent(language, Terms(language, query), fields)
            then score == 1.0 && matched != []
            else score == 0.0 && matched == []
  {
    var terms := Terms(language, query);
    if AllPresent(language, terms, fields) {
      PresentTermsScoreOne(language, terms, fields);
      Quotient(|terms|, |terms|);
      assert Rank(language, query, fields, threshold) == (1.0, MatchedFields(language, terms, fields, threshold));
      var f := PresentMeansOne(language, terms[0], fields);
      assert Hit(language, terms, fields[f], threshold);
      MatchedFieldsContent(language, terms, fields, threshold, fields[f].0);
    }
  }

  lemma PresentTermsScoreOne(language: Language, terms: seq<string>, fields: seq<Field>)
    requires AllPresent(language, terms, fields)
    ensures forall t :: 0 <= t < |terms| ==> Bests(language, terms, fields)[t] == 1.0
    ensures Sum(Bests(language, terms, fields)) == |terms| as real
  {
    forall t | 0 <= t < |terms| ensures Bests(language, terms, fields)[t] == 1.0 {
      var _ := PresentMeansOne(language, terms[t], fields);
    }
    SumOfOnes(Bests(language, terms, fields));
  }

  /** A single term scores its best field, and lists exactly the fields that reach the threshold. */
  lemma SingleTermRanksBestField(language: Language, query: string, fields: seq<Field>, threshold: real, name: string)
    requires |Terms(language, query)| == 1
    ensures var terms := Terms(language, query);
            var (score, matched) := Rank(language, query, fields, threshold);
            var best := Best(language, terms[0], fields);
            if best < threshold then score == 0.0 && matched == []
            else score == best && (name in matched <==> Listed(language, terms, fields, threshold, name))
  {
    var terms := Terms(language, query);
    var bests := Bests(language, terms, fields);
    MatchedFieldsContent(language, terms, fields, threshold, name);
    assert bests[0] == Best(language, terms[0], fields);
    SumOfOne(bests);
  }

  lemma SumOfOne(scores: seq<real>)
    requires |scores| == 1
    ensures Sum(scores) == scores[0]
  {
    assert scores[..0] == [];
  }

  /** Folds one field into the best score of every term, and reports whether the field is a hit. */
  method ScoreField(language: Language, terms: seq<string>, field: Field, threshold: real, before: seq<real>)
    returns (after: seq<real>, hit: bool)
    requires |before| == |terms|
    ensures |after| == |terms|
    ensures forall t :: 0 <= t < |terms| ==>
              after[t] == var s := TextSimilarity(language, terms[t], field.1); if s > before[t] then s else before[t]
    ensures hit == Hit(language, terms, field, threshold)
  {
    after, hit := before, false;
    for t := 0 to |terms|
      invariant |after| == |terms| && after[t..] == before[t..]
      invariant forall u :: 0 <= u < t ==>
        after[u] == var s := TextSimilarity(language, terms[u], field.1); if s > before[u] then s else before[u]
      invariant hit <==> exists u | 0 <= u < t :: TextSimilarity(language, terms[u], field.1) >= threshold
    {
      var similarity := ComputeTextSimilarity(language, terms[t], field.1);
      assert after[t] == before[t];
      if similarity > after[t] {
        after := after[t := similarity];
      }
      hit := hit || similarity >= threshold;
    }
  }

  method RankTextFields(language: Language, query: string, fields: seq<Field>, threshold: real)
    returns (score: real, matched: seq<string>)
    ensures (score, matched) == Rank(language, query, fields, threshold)
  {
    var terms := Terms(language, query);
    if |terms| > 1 && !AllPresent(language, terms, fields) {
      return 0.0, [];
    }
    var bestByTerm := seq(|terms|, _ => 0.0);
    matched := [];
    for f := 0 to |fields|
      invariant bestByTerm == Bests(language, terms, fields[..f])
      invariant matched == MatchedFields(language, terms, fields[..f], threshold)
    {
      assert fields[..f + 1][..f] == fields[..f];
      var after, hit := ScoreField(language, terms, fields[f], threshold, bestByTerm);
      assert after == Bests(language, terms, fields[..f + 1]);
      bestByTerm := after;
      if hit {
        matched := matched + [fields[f].0];
      }
    }
    assert fields[..|fields|] == fields;
    if exists t | 0 <= t < |bestByTerm| :: bestByTerm[t] < threshold {
      return 0.0, [];
    }
    score := Sum(bestByTerm) / |terms| as real;
  }
}
