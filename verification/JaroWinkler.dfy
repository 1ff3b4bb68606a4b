/** Jaro-Winkler similarity: apps/api/monitube_api/fuzzy_search.py:19-67, floats as reals. */
module JaroWinkler {
  import opened Common

  function MatchDistance(left: string, right: string): int {
    Max(|left|, |right|) / 2 - 1
  }

  function WindowStart(i: nat, distance: int): nat {
    Max(0, i - distance)
  }

  function WindowEnd(i: nat, distance: int, right: string): int {
    if i + distance + 1 <= |right| then i + distance + 1 else |right|
  }

  predicate Free(c: char, right: string, used: seq<bool>, k: int)
    requires |used| == |right|
  {
    0 <= k < |right| && !used[k] && right[k] == c
  }

  /** The first unused occurrence of c in right[from..end]. */
  function FirstFree(c: char, right: string, used: seq<bool>, from: nat, end: int): (k: Option<nat>)
    requires |used| == |right| && end <= |right|
    ensures k.None? ==> forall j :: from <= j < end ==> !Free(c, right, used, j)
    ensures k.Some? ==> from <= k.value < end && Free(c, right, used, k.value)
                        && forall j :: from <= j < k.value ==> !Free(c, right, used, j)
    decreases end - from
  {
    if from >= end then None
    else if Free(c, right, used, from) then Some(from)
    else FirstFree(c, right, used, from + 1, end)
  }

  function Falses(n: nat): seq<bool> {
    seq(n, _ => false)
  }

  /** Marks after the first i characters of left have each taken the first free equal
      character inside their window. */
  function Marks(left: string, right: string, i: nat): (m: (seq<bool>, seq<bool>))
    requires i <= |left|
    ensures |m.0| == |left| && |m.1| == |right|
    ensures forall k :: i <= k < |left| ==> !m.0[k]
    decreases 2 * i
  {
    if i == 0 then (Falses(|left|), Falses(|right|))
    else
      var (leftMarks, rightMarks) := Marks(left, right, i - 1);
      match Partner(left, right, i - 1)
      case None => (leftMarks, rightMarks)
      case Some(k) => (leftMarks[i - 1 := true], rightMarks[k := true])
  }

  /** The right index that left[i] is matched with. */
  function Partner(left: string, right: string, i: nat): (k: Option<nat>)
    requires i < |left|
    ensures k.Some? ==> k.value < |right|
    decreases 2 * i + 1
  {
    var d := MatchDistance(left, right);
    FirstFree(left[i], right, Marks(left, right, i).1, WindowStart(i, d), WindowEnd(i, d, right))
  }

  /** The marked characters, in order. */
  function Matched(s: string, marks: seq<bool>): string
    requires |s| == |marks|
  {
    if s == "" then ""
    else
      var n := |s| - 1;
      Matched(s[..n], marks[..n]) + if marks[n] then [s[n]] else []
  }

  function Mismatches(a: string, b: string): (n: nat)
    requires |a| == |b|
    ensures n <= |a|
  {
    if a == "" then 0
    else
      var n := |a| - 1;
      Mismatches(a[..n], b[..n]) + if a[n] != b[n] then 1 else 0
  }

  /** Length of the longest common prefix, at most four. */
  function CommonPrefix(left: string, right: string, from: nat): nat
    requires from <= 4
    decreases 4 - from
  {
    if from < 4 && from < |left| && from < |right| && left[from] == right[from]
    then CommonPrefix(left, right, from + 1) else from
  }

  function LeftMatched(left: string, right: string): string {
    Matched(left, Marks(left, right, |left|).0)
  }

  function RightMatched(left: string, right: string): string {
    Matched(right, Marks(left, right, |left|).1)
  }

  // ---- the greedy marks form a maximal matching ------------------------------------

  lemma {:induction false} MatchedSplit(s: string, marks: seq<bool>, k: nat)
    requires |s| == |marks| && k < |s|
    ensures Matched(s, marks) ==
            Matched(s[..k], marks[..k]) + (if marks[k] then [s[k]] else []) + Matched(s[k + 1..], marks[k + 1..])
  {
    var n := |s| - 1;
    if k < n {
      MatchedSplit(s[..n], marks[..n], k);
      assert s[..n][..k] == s[..k] && marks[..n][..k] == marks[..k];
      assert s[..n][k + 1..] == s[k + 1..][..n - k - 1];
      assert marks[..n][k + 1..] == marks[k + 1..][..n - k - 1];
    }
  }

  lemma MatchedUpdate(s: string, marks: seq<bool>, k: nat)
    requires |s| == |marks| && k < |s| && !marks[k]
    ensures multiset(Matched(s, marks[k := true])) == multiset(Matched(s, marks)) + multiset{s[k]}
  {
    var after := marks[k := true];
    MatchedSplit(s, marks, k);
    MatchedSplit(s, after, k);
    assert after[..k] == marks[..k] && after[k + 1..] == marks[k + 1..];
  }

  lemma {:induction false} MatchedNone(s: string, n: nat)
    requires |s| == n
    ensures Matched(s, Falses(n)) == ""
  {
    if n > 0 {
      MatchedNone(s[..n - 1], n - 1);
      assert Falses(n)[..n - 1] == Falses(n - 1);
    }
  }

  /** Both sides mark the same characters, so in particular equally many of them. */
  lemma SameCharacters(left: string, right: string, i: nat)
    requires i <= |left|
    ensures var m := Marks(left, right, i);
            && multiset(Matched(left, m.0)) == multiset(Matched(right, m.1))
            && |Matched(left, m.0)| == |Matched(right, m.1)|
  {
    SameBag(left, right, i);
    var m := Marks(left, right, i);
    assert |multiset(Matched(left, m.0))| == |multiset(Matched(right, m.1))|;
  }

  lemma {:induction false} SameBag(left: string, right: string, i: nat)
    requires i <= |left|
    ensures var m := Marks(left, right, i);
            multiset(Matched(left, m.0)) == multiset(Matched(right, m.1))
  {
    if i == 0 {
      MatchedNone(left, |left|);
      MatchedNone(right, |right|);
    } else {
      SameBag(left, right, i - 1);
      MarksStep(left, right, i - 1);
      PartnerIsFree(left, right, i - 1);
      var m, k := Marks(left, right, i - 1), Partner(left, right, i - 1);
      if k.Some? {
        BothMarked(left, right, m.0, m.1, i - 1, k.value);
      }
    }
  }

  lemma PartnerIsFree(left: string, right: string, i: nat)
    requires i < |left|
    ensures Partner(left, right, i).Some? ==>
              && right[Partner(left, right, i).value] == left[i]
              && !Marks(left, right, i).1[Partner(left, right, i).value]
  {
  }

  lemma BothMarked(left: string, right: string, lm: seq<bool>, rm: seq<bool>, i: nat, k: nat)
    requires |lm| == |left| && |rm| == |right| && i < |left| && k < |right| && !lm[i] && !rm[k] && left[i] == right[k]
    requires multiset(Matched(left, lm)) == multiset(Matched(right, rm))
    ensures multiset(Matched(left, lm[i := true])) == multiset(Matched(right, rm[k := true]))
  {
    MatchedUpdate(left, lm, i);
    MatchedUpdate(right, rm, k);
  }

  lemma MarksStep(left: string, right: string, i: nat)
    requires i < |left|
    ensures var m, next := Marks(left, right, i), Marks(left, right, i + 1);
            match Partner(left, right, i)
            case None => next == m
            case Some(k) => next.0 == m.0[i := true] && next.1 == m.1[k := true]
  {
  }

  lemma {:induction false} MarksGrow(left: string, right: string, i: nat, j: nat)
    requires i <= j <= |left|
    ensures forall k :: 0 <= k < |right| && Marks(left, right, i).1[k] ==> Marks(left, right, j).1[k]
    ensures forall k :: 0 <= k < i ==> Marks(left, right, i).0[k] == Marks(left, right, j).0[k]
    decreases j
  {
    if i < j {
      MarksGrow(left, right, i, j - 1);
    }
  }

  /** Every marked left character has a partner: equal, within the match distance, marked, and
      shared with no other left character. */
  lemma {:induction false} PartnersMatch(left: string, right: string, i: nat)
    requires i < |left|
    ensures Marks(left, right, |left|).0[i] <==> Partner(left, right, i).Some?
    ensures Partner(left, right, i).Some? ==>
              var k := Partner(left, right, i).value;
              && left[i] == right[k]
              && k - i <= MatchDistance(left, right) && i - k <= MatchDistance(left, right)
              && Marks(left, right, |left|).1[k]
              && forall j :: 0 <= j < i ==> Partner(left, right, j) != Some(k)
  {
    MarksGrow(left, right, i + 1, |left|);
    var p := Partner(left, right, i);
    if p.Some? {
      forall j | 0 <= j < i ensures Partner(left, right, j) != p {
        var q := Partner(left, right, j);
        if q.Some? {
          MarksGrow(left, right, j + 1, i);
          assert Marks(left, right, j + 1).1[q.value];
        }
      }
    }
  }

  /** Maximality: an unmarked left character has no equal unmarked right character in reach. */
  lemma MatchingIsMaximal(left: string, right: string, i: nat, k: nat)
    requires i < |left| && k < |right| && left[i] == right[k]
    requires k - i <= MatchDistance(left, right) && i - k <= MatchDistance(left, right)
    ensures Marks(left, right, |left|).0[i] || Marks(left, right, |left|).1[k]
  {
    PartnersMatch(left, right, i);
    MarksGrow(left, right, i, |left|);
    if Partner(left, right, i).None? {
      assert !Free(left[i], right, Marks(left, right, i).1, k);
    }
  }

  /** left[i] and right[k] are equal and within the match distance of each other. */
  predicate InReach(left: string, right: string, i: nat, k: nat) {
    && i < |left| && k < |right| && left[i] == right[k]
    && k - i <= MatchDistance(left, right) && i - k <= MatchDistance(left, right)
  }

  ghost predicate SomeInReach(left: string, right: string) {
    exists i: nat, k: nat :: InReach(left, right, i, k)
  }

  lemma {:induction false} MatchedIffMarked(s: string, marks: seq<bool>)
    requires |s| == |marks|
    ensures Matched(s, marks) != "" <==> exists i :: 0 <= i < |marks| && marks[i]
  {
    if s != "" {
      var n := |s| - 1;
      MatchedIffMarked(s[..n], marks[..n]);
      assert forall i :: 0 <= i < n ==> marks[..n][i] == marks[i];
      if i :| 0 <= i < |marks| && marks[i] {
        assert i == n || marks[..n][i];
      }
    }
  }

  /** Something is matched exactly when the strings have equal characters in reach. */
  lemma MatchedIffInReach(left: string, right: string)
    ensures LeftMatched(left, right) != "" <==> SomeInReach(left, right)
  {
    var m := Marks(left, right, |left|);
    MatchedIffMarked(left, m.0);
    MatchedIffMarked(right, m.1);
    SameCharacters(left, right, |left|);
    if LeftMatched(left, right) != "" {
      var i :| 0 <= i < |left| && m.0[i];
      PartnersMatch(left, right, i);
      assert InReach(left, right, i, Partner(left, right, i).value);
    } else if i: nat, k: nat :| InReach(left, right, i, k) {
      MatchingIsMaximal(left, right, i, k);
    }
  }

  // ---- the score -------------------------------------------------------------------

  /** The mean of the share of matched characters on either side and of those in place. */
  function Jaro(leftLength: nat, rightLength: nat, matches: nat, transpositions: nat): real
    requires leftLength > 0 && rightLength > 0 && matches > 0
  {
    (matches as real / leftLength as real + matches as real / rightLength as real
     + (matches as real - transpositions as real / 2.0) / matches as real) / 3.0
  }

  /** A common prefix moves the score a tenth of the way to 1 for each of its characters. */
  function Winkler(jaro: real, prefix: nat): real {
    jaro + prefix as real * 0.1 * (1.0 - jaro)
  }

  function Score(left: string, right: string, matches: nat, transpositions: nat, prefix: nat): real
    requires left != "" && right != "" && matches > 0
  {
    Winkler(Jaro(|left|, |right|, matches, transpositions), prefix)
  }

  function Similarity(left: string, right: string): real {
    if left == right then 1.0
    else if left == "" || right == "" || LeftMatched(left, right) == "" then 0.0
    else
      SameCharacters(left, right, |left|);
      Score(left, right, |LeftMatched(left, right)|,
            Mismatches(LeftMatched(left, right), RightMatched(left, right)), CommonPrefix(left, right, 0))
  }

  /** Multiplying by a positive number keeps the order. */
  lemma MulLess(a: real, b: real, c: real)
    requires c > 0.0 && a < b
    ensures a * c < b * c
  {
    assert (b - a) * c > 0.0;
  }

  /** How a quotient compares with a bound, decided by the product. */
  lemma QuotientCompare(q: real, bound: real, x: real, y: real)
    requires y > 0.0 && q * y == x
    ensures q < bound <==> x < bound * y
    ensures q > bound <==> x > bound * y
  {
    if q < bound {
      MulLess(q, bound, y);
    } else if q > bound {
      MulLess(bound, q, y);
    }
  }

  lemma Ratio(x: real, y: real)
    requires y > 0.0 && 0.0 <= x <= y
    ensures 0.0 <= x / y <= 1.0
    ensures x / y == 1.0 <==> x == y
    ensures 2.0 * x >= y ==> x / y >= 0.5
  {
    QuotientCompare(x / y, 0.0, x, y);
    QuotientCompare(x / y, 1.0, x, y);
    QuotientCompare(x / y, 0.5, x, y);
  }

  lemma Quotient(m: nat, n: nat)
    requires m <= n && n > 0
    ensures 0.0 <= m as real / n as real <= 1.0
    ensures m as real / n as real == 1.0 <==> m == n
  {
    Ratio(m as real, n as real);
  }

  lemma HalfQuotient(t: nat, m: nat)
    requires t <= m && m > 0
    ensures 0.5 <= (m as real - t as real / 2.0) / m as real <= 1.0
    ensures (m as real - t as real / 2.0) / m as real == 1.0 <==> t == 0
  {
    Ratio(m as real - t as real / 2.0, m as real);
  }

  lemma WinklerRange(jaro: real, prefix: nat)
    requires 0.0 <= jaro <= 1.0 && prefix <= 4
    ensures jaro <= Winkler(jaro, prefix) <= 1.0
    ensures Winkler(jaro, prefix) == 1.0 <==> jaro == 1.0
  {
    assert Winkler(jaro, 0) == jaro;
    assert Winkler(jaro, 1) == 0.9 * jaro + 0.1;
    assert Winkler(jaro, 2) == 0.8 * jaro + 0.2;
    assert Winkler(jaro, 3) == 0.7 * jaro + 0.3;
    assert Winkler(jaro, 4) == 0.6 * jaro + 0.4;
    assert prefix == 0 || prefix == 1 || prefix == 2 || prefix == 3 || prefix == 4;
  }

  lemma MeanRange(a: real, b: real, c: real)
    requires 0.0 <= a <= 1.0 && 0.0 <= b <= 1.0 && 0.5 <= c <= 1.0
    ensures 0.0 < (a + b + c) / 3.0 <= 1.0
    ensures (a + b + c) / 3.0 == 1.0 <==> a == 1.0 && b == 1.0 && c == 1.0
  {
  }

  lemma JaroRange(l: nat, r: nat, m: nat, t: nat)
    requires 0 < m <= l && m <= r && t <= m
    ensures 0.0 < Jaro(l, r, m, t) <= 1.0
    ensures Jaro(l, r, m, t) == 1.0 <==> m == l == r && t == 0
  {
    Quotient(m, l);
    Quotient(m, r);
    HalfQuotient(t, m);
    MeanRange(m as real / l as real, m as real / r as real, (m as real - t as real / 2.0) / m as real);
  }

  lemma ScoreRange(left: string, right: string, m: nat, t: nat, prefix: nat)
    requires left != "" && right != "" && 0 < m <= |left| && m <= |right| && t <= m && prefix <= 4
    ensures 0.0 < Score(left, right, m, t, prefix) <= 1.0
    ensures Score(left, right, m, t, prefix) == 1.0 <==> m == |left| == |right| && t == 0
  {
    JaroRange(|left|, |right|, m, t);
    WinklerRange(Jaro(|left|, |right|, m, t), prefix);
  }

  lemma {:induction false} MatchedBound(s: string, marks: seq<bool>)
    requires |s| == |marks|
    ensures |Matched(s, marks)| <= |s|
    ensures |Matched(s, marks)| == |s| ==> Matched(s, marks) == s
  {
    if s != "" {
      var n := |s| - 1;
      MatchedBound(s[..n], marks[..n]);
      assert s == s[..n] + [s[n]];
    }
  }

  lemma {:induction false} NoMismatches(a: string, b: string)
    requires |a| == |b| && Mismatches(a, b) == 0
    ensures a == b
  {
    if a != "" {
      var n := |a| - 1;
      NoMismatches(a[..n], b[..n]);
      assert a == a[..n] + [a[n]] && b == b[..n] + [b[n]];
    }
  }

  lemma {:induction false} PrefixAtMostFour(left: string, right: string, from: nat)
    requires from <= 4
    requires from <= |left| && from <= |right| && left[..from] == right[..from]
    ensures var p := CommonPrefix(left, right, from);
            && from <= p <= 4 && p <= |left| && p <= |right| && left[..p] == right[..p]
            && (p < 4 && p < |left| && p < |right| ==> left[p] != right[p])
    decreases 4 - from
  {
    if from < 4 && from < |left| && from < |right| && left[from] == right[from] {
      assert left[..from + 1] == left[..from] + [left[from]];
      assert right[..from + 1] == right[..from] + [right[from]];
      PrefixAtMostFour(left, right, from + 1);
    }
  }

  lemma SimilarityByMarks(left: string, right: string)
    ensures 0.0 <= Similarity(left, right) <= 1.0
    ensures Similarity(left, right) == 1.0 <==> left == right
    ensures Similarity(left, right) == 0.0 <==> left != right && LeftMatched(left, right) == ""
  {
    if left == "" {
      assert LeftMatched(left, right) == "";
    } else if right == "" {
      SameCharacters(left, right, |left|);
      assert RightMatched(left, right) == "";
    } else if left != right && LeftMatched(left, right) != "" {
      SameCharacters(left, right, |left|);
      var l, r := LeftMatched(left, right), RightMatched(left, right);
      MatchedBound(left, Marks(left, right, |left|).0);
      MatchedBound(right, Marks(left, right, |left|).1);
      PrefixAtMostFour(left, right, 0);
      ScoreRange(left, right, |l|, Mismatches(l, r), CommonPrefix(left, right, 0));
      if |l| == |left| == |right| && Mismatches(l, r) == 0 {
        NoMismatches(l, r);
      }
    }
  }

  /** For all strings the score lies in [0,1], is 1 exactly when the strings are equal, and is 0
      exactly when they differ and share no character within the match distance. */
  lemma SimilarityRange(left: string, right: string)
    ensures 0.0 <= Similarity(left, right) <= 1.0
    ensures Similarity(left, right) == 1.0 <==> left == right
    ensures Similarity(left, right) == 0.0 <==> left != right && !SomeInReach(left, right)
  {
    SimilarityByMarks(left, right);
    MatchedIffInReach(left, right);
  }

  /** Two characters are in reach when the steps between them, doubled, leave two characters of the longer
      string over. */
  lemma ReachIsHalf(left: string, right: string, i: nat, k: nat)
    requires i < |left| && k < |right| && left[i] == right[k]
    ensures InReach(left, right, i, k) <==>
            2 * (if i > k then i - k else k - i) + 2 <= Max(|left|, |right|)
  {
  }

  /** A common prefix of p characters takes away p tenths of what is missing to 1. */
  lemma PrefixClosesTenths(jaro: real, prefix: nat)
    ensures 1.0 - Winkler(jaro, prefix) == (1.0 - jaro) * (1.0 - prefix as real / 10.0)
  {
  }

  lemma MarksNext(left: string, right: string, i: nat, k: nat, m: (seq<bool>, seq<bool>))
    requires i < |left| && k < |right| && Marks(left, right, i) == m && !m.1[k]
    requires InReach(left, right, i, k) && forall j :: 0 <= j < k ==> m.1[j] || right[j] != left[i]
    ensures Marks(left, right, i + 1) == (m.0[i := true], m.1[k := true])
  {
    assert Free(left[i], right, m.1, k);
    assert Partner(left, right, i) == Some(k);
    MarksStep(left, right, i);
  }

  lemma {:induction false} EverythingMatched(s: string, marks: seq<bool>)
    requires |s| == |marks| && forall i :: 0 <= i < |marks| ==> marks[i]
    ensures Matched(s, marks) == s
  {
    if s != "" {
      var n := |s| - 1;
      EverythingMatched(s[..n], marks[..n]);
      assert s == s[..n] + [s[n]];
    }
  }

  ghost predicate AllMarked(marks: seq<bool>) {
    forall i :: 0 <= i < |marks| ==> marks[i]
  }

  ghost predicate FrontMarked(marks: seq<bool>, n: nat) {
    forall i :: 0 <= i < |marks| ==> (marks[i] <==> i < n)
  }

  lemma SwappedFront(l: string, r: string)
    requires |l| == |r| == 4 && l[0] == r[0] && l[1] == r[1] && l[0] != l[1]
    ensures FrontMarked(Marks(l, r, 2).0, 2) && FrontMarked(Marks(l, r, 2).1, 2)
  {
    MarksNext(l, r, 0, 0, Marks(l, r, 0));
    MarksNext(l, r, 1, 1, Marks(l, r, 1));
  }

  lemma SwappedMarks(l: string, r: string)
    requires |l| == |r| == 4 && l[0] == r[0] && l[1] == r[1] && l[2] == r[3] && l[3] == r[2]
    requires l[0] != l[1] && l[2] != l[3]
    ensures AllMarked(Marks(l, r, 4).0) && AllMarked(Marks(l, r, 4).1)
  {
    SwappedFront(l, r);
    var m2 := Marks(l, r, 2);
    MarksNext(l, r, 2, 3, m2);
    MarksNext(l, r, 3, 2, Marks(l, r, 3));
  }

  lemma SwappedMismatches(l: string, r: string)
    requires |l| == |r| == 4 && l[..2] == r[..2] && l[2] != r[2] && l[3] != r[3]
    ensures Mismatches(l, r) == 2
  {
    assert Mismatches(l[..0], r[..0]) == 0;
    assert l[..1] == l[..2][..1] && r[..1] == r[..2][..1] && l[..2][1] == r[..2][1];
    assert l[..1][..0] == [] && Mismatches(l[..1], r[..1]) == 0;
    assert Mismatches(l[..2], r[..2]) == 0;
    assert l[..3][..2] == l[..2] && r[..3][..2] == r[..2];
    assert Mismatches(l[..3], r[..3]) == 1;
  }

  /** One pair out of place among four matched characters, with the other two in front: the mean of 1, 1
      and 3/4, and then two tenths of the way to 1. */
  lemma SwappedPair()
    ensures Similarity("abcd", "abdc") == 14.0 / 15.0
  {
    var l, r := "abcd", "abdc";
    SwappedMarks(l, r);
    EverythingMatched(l, Marks(l, r, 4).0);
    EverythingMatched(r, Marks(l, r, 4).1);
    SwappedMismatches(l, r);
    assert CommonPrefix(l, r, 2) == 2;
    assert CommonPrefix(l, r, 0) == CommonPrefix(l, r, 1);
    SwappedScore();
  }

  lemma SwappedScore()
    ensures Winkler(Jaro(4, 4, 4, 2), 2) == 14.0 / 15.0
  {
    assert Jaro(4, 4, 4, 2) == 11.0 / 12.0;
  }

  // ---- the algorithm over boolean arrays -------------------------------------------

  /** The inner scan of one window, stopping at the first free equal character. */
  method FindFree(c: char, right: string, rightMatches: array<bool>, start: nat, end: int) returns (found: Option<nat>)
    requires rightMatches.Length == |right| && end <= |right|
    ensures found == FirstFree(c, right, rightMatches[..], start, end)
  {
    var k := start;
    while k < end
      invariant start <= k
      invariant FirstFree(c, right, rightMatches[..], start, end) == FirstFree(c, right, rightMatches[..], k, end)
    {
      if !rightMatches[k] && right[k] == c {
        return Some(k);
      }
      k := k + 1;
    }
    found := None;
  }

  /** One turn of the outer loop: left[i] takes the first free equal character in its window. */
  method MarkOne(left: string, right: string, leftMatches: array<bool>, rightMatches: array<bool>, i: nat)
    returns (matched: bool)
    requires leftMatches.Length == |left| && rightMatches.Length == |right| && leftMatches != rightMatches && i < |left|
    requires leftMatches[..] == Marks(left, right, i).0 && rightMatches[..] == Marks(left, right, i).1
    modifies leftMatches, rightMatches
    ensures leftMatches[..] == Marks(left, right, i + 1).0 && rightMatches[..] == Marks(left, right, i + 1).1
    ensures |Matched(left, leftMatches[..])| == |Matched(left, old(leftMatches[..]))| + if matched then 1 else 0
  {
    var distance := MatchDistance(left, right);
    ghost var lm, rm := leftMatches[..], rightMatches[..];
    MarksStep(left, right, i);
    var found := FindFree(left[i], right, rightMatches, WindowStart(i, distance), WindowEnd(i, distance, right));
    matched := found.Some?;
    if matched {
      MatchedLength(left, lm, i);
      leftMatches[i] := true;
      rightMatches[found.value] := true;
      assert leftMatches[..] == lm[i := true] && rightMatches[..] == rm[found.value := true];
    }
  }

  method MarkMatches(left: string, right: string, leftMatches: array<bool>, rightMatches: array<bool>)
    returns (matches: nat)
    requires leftMatches.Length == |left| && rightMatches.Length == |right| && leftMatches != rightMatches
    requires leftMatches[..] == Falses(|left|) && rightMatches[..] == Falses(|right|)
    modifies leftMatches, rightMatches
    ensures (leftMatches[..], rightMatches[..]) == Marks(left, right, |left|)
    ensures matches == |LeftMatched(left, right)|
  {
    matches := 0;
    MatchedNone(left, |left|);
    for i := 0 to |left|
      invariant leftMatches[..] == Marks(left, right, i).0 && rightMatches[..] == Marks(left, right, i).1
      invariant matches == |Matched(left, leftMatches[..])|
    {
      var matched := MarkOne(left, right, leftMatches, rightMatches, i);
      matches := matches + if matched then 1 else 0;
    }
  }

  lemma MatchedLength(s: string, marks: seq<bool>, k: nat)
    requires |s| == |marks| && k < |s| && !marks[k]
    ensures |Matched(s, marks[k := true])| == |Matched(s, marks)| + 1
  {
    MatchedUpdate(s, marks, k);
    assert |multiset(Matched(s, marks[k := true]))| == |multiset(Matched(s, marks))| + 1;
  }

  /** The two-pointer scan counts the positions at which the matched characters differ. The
      right pointer never leaves the right array, because both sides hold equally many marks. */
  method CountTranspositions(left: string, right: string, leftMatches: array<bool>, rightMatches: array<bool>)
    returns (transpositions: nat)
    requires leftMatches.Length == |left| && rightMatches.Length == |right|
    requires |Matched(left, leftMatches[..])| == |Matched(right, rightMatches[..])|
    ensures transpositions == Mismatches(Matched(left, leftMatches[..]), Matched(right, rightMatches[..]))
  {
    ghost var lm, rm := leftMatches[..], rightMatches[..];
    var k: nat;
    transpositions, k := CompareAll(left, right, leftMatches, rightMatches, lm, rm);
    AllCompared(left, lm, right, rm, k);
  }

  /** The marked characters among the first i. */
  function MatchedIn(s: string, marks: seq<bool>, i: nat): string
    requires |s| == |marks| && i <= |s|
  {
    Matched(s[..i], marks[..i])
  }

  lemma WholeIsMatched(s: string, marks: seq<bool>)
    requires |s| == |marks|
    ensures MatchedIn(s, marks, |s|) == Matched(s, marks)
  {
    assert s[..|s|] == s && marks[..|s|] == marks;
  }

  /** With as many marks on the right as on the left, the scan has seen them all. */
  lemma AllCompared(left: string, lm: seq<bool>, right: string, rm: seq<bool>, k: nat)
    requires |lm| == |left| && |rm| == |right| && k <= |right| && |Matched(left, lm)| == |Matched(right, rm)|
    requires |MatchedIn(left, lm, |left|)| == |MatchedIn(right, rm, k)|
    ensures MatchedIn(left, lm, |left|) == Matched(left, lm) && MatchedIn(right, rm, k) == Matched(right, rm)
  {
    WholeIsMatched(left, lm);
    MatchedPrefix(right, rm, k);
  }

  ghost predicate SameCount(left: string, lm: seq<bool>, i: nat, right: string, rm: seq<bool>, k: nat) {
    && |lm| == |left| && |rm| == |right| && i <= |left| && k <= |right|
    && |MatchedIn(left, lm, i)| == |MatchedIn(right, rm, k)|
  }

  method CompareAll(left: string, right: string, leftMatches: array<bool>, rightMatches: array<bool>,
                    ghost lm: seq<bool>, ghost rm: seq<bool>) returns (transpositions: nat, k: nat)
    requires lm == leftMatches[..] && rm == rightMatches[..] && |lm| == |left| && |rm| == |right|
    requires |Matched(left, lm)| == |Matched(right, rm)|
    ensures SameCount(left, lm, |left|, right, rm, k)
    ensures transpositions == Mismatches(MatchedIn(left, lm, |left|), MatchedIn(right, rm, k))
  {
    transpositions, k := 0, 0;
    for i := 0 to |left|
      invariant SameCount(left, lm, i, right, rm, k)
      invariant transpositions == Mismatches(MatchedIn(left, lm, i), MatchedIn(right, rm, k))
    {
      ghost var before := k;
      var marked := leftMatches[i];
      MatchedStep(left, lm, i);
      if marked {
        MatchedPrefix(left, lm, i + 1);
        k := SkipUnmarked(right, rightMatches, k, rm);
        var differs := left[i] != right[k];
        PairCompared(left, lm, i, right, rm, before, k);
        transpositions := transpositions + if differs then 1 else 0;
        k := k + 1;
      }
    }
  }

  /** A marked left character against the next marked right one. */
  lemma PairCompared(left: string, lm: seq<bool>, i: nat, right: string, rm: seq<bool>, from: nat, k: nat)
    requires i < |left| && from <= k < |right| && SameCount(left, lm, i, right, rm, from) && lm[i] && rm[k]
    requires MatchedIn(right, rm, k) == MatchedIn(right, rm, from)
    ensures SameCount(left, lm, i + 1, right, rm, k + 1)
    ensures Mismatches(MatchedIn(left, lm, i + 1), MatchedIn(right, rm, k + 1))
            == Mismatches(MatchedIn(left, lm, i), MatchedIn(right, rm, from)) + if left[i] != right[k] then 1 else 0
  {
    MatchedStep(left, lm, i);
    MatchedStep(right, rm, k);
    MismatchesStep(MatchedIn(left, lm, i), MatchedIn(right, rm, from), left[i], right[k]);
  }

  /** The inner scan: forward to the next marked character, which is there. */
  method SkipUnmarked(right: string, rightMatches: array<bool>, from: nat, ghost rm: seq<bool>) returns (k: nat)
    requires rightMatches.Length == |right| && from <= |right| && rm == rightMatches[..]
    requires |MatchedIn(right, rm, from)| < |Matched(right, rm)|
    ensures from <= k < |right| && rm[k]
    ensures MatchedIn(right, rm, k) == MatchedIn(right, rm, from)
  {
    k := from;
    MoreMarksAhead(right, rm, k);
    while !rightMatches[k]
      invariant from <= k < |right|
      invariant MatchedIn(right, rm, k) == MatchedIn(right, rm, from)
      decreases |right| - k
    {
      MatchedStep(right, rm, k);
      k := k + 1;
      MoreMarksAhead(right, rm, k);
    }
  }

  lemma MismatchesStep(a: string, b: string, x: char, y: char)
    requires |a| == |b|
    ensures Mismatches(a + [x], b + [y]) == Mismatches(a, b) + if x != y then 1 else 0
  {
    assert (a + [x])[..|a|] == a && (b + [y])[..|b|] == b;
  }

  lemma MoreMarksAhead(s: string, marks: seq<bool>, k: nat)
    requires |s| == |marks| && k <= |s| && |MatchedIn(s, marks, k)| < |Matched(s, marks)|
    ensures k < |s|
  {
    WholeIsMatched(s, marks);
  }

  lemma MatchedStep(s: string, marks: seq<bool>, i: nat)
    requires |s| == |marks| && i < |s|
    ensures MatchedIn(s, marks, i + 1) == if marks[i] then MatchedIn(s, marks, i) + [s[i]] else MatchedIn(s, marks, i)
  {
    assert s[..i + 1][..i] == s[..i] && marks[..i + 1][..i] == marks[..i];
  }

  lemma {:induction false} MatchedPrefix(s: string, marks: seq<bool>, i: nat)
    requires |s| == |marks| && i <= |s|
    ensures MatchedIn(s, marks, i) <= Matched(s, marks)
    decreases |s| - i
  {
    if i < |s| {
      MatchedStep(s, marks, i);
      MatchedPrefix(s, marks, i + 1);
    } else {
      WholeIsMatched(s, marks);
    }
  }

  method JaroWinklerSimilarity(left: string, right: string) returns (score: real)
    ensures score == Similarity(left, right)
    ensures 0.0 <= score <= 1.0
    ensures score == 1.0 <==> left == right
  {
    SimilarityRange(left, right);
    if left == right {
      return 1.0;
    }
    if left == "" || right == "" {
      return 0.0;
    }
    var leftMatches := new bool[|left|](_ => false);
    var rightMatches := new bool[|right|](_ => false);
    assert leftMatches[..] == Falses(|left|) && rightMatches[..] == Falses(|right|);
    var matches := MarkMatches(left, right, leftMatches, rightMatches);
    if matches == 0 {
      return 0.0;
    }
    SameCharacters(left, right, |left|);
    var transpositions := CountTranspositions(left, right, leftMatches, rightMatches);
    var prefix := 0;
    while prefix < |left| && prefix < |right| && left[prefix] == right[prefix] && prefix != 4
      invariant prefix <= 4
      invariant CommonPrefix(left, right, 0) == CommonPrefix(left, right, prefix)
      decreases 4 - prefix
    {
      prefix := prefix + 1;
    }
    score := Score(left, right, matches, transpositions, prefix);
  }
}
