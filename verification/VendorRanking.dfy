/** Vendor candidate retrieval: trigram similarity, scoring and the ranked shortlist. Scores are exact
    rationals here; Go rounds the one division to float64. */
module VendorRanking {
  import opened Wrappers
  import opened Text
  import opened VendorMatch
  import opened StableRanking

  const CANDIDATE_MIN_SCORE := 0.2

  function Gram(s: string, i: nat): string
    requires i + 3 <= |s|
  {
    s[i..i + 3]
  }

  function Trigrams(s: string): set<string> {
    if |s| < 3 then (if s == "" then {} else {s})
    else set i | 0 <= i <= |s| - 3 :: Gram(s, i)
  }

  method BuildTrigrams(s: string) returns (m: set<string>)
    ensures m == Trigrams(s)
  {
    m := {};
    if |s| < 3 {
      if s != "" {
        m := m + {s};
      }
      return;
    }
    var i := 0;
    while i + 3 <= |s|
      invariant 0 <= i <= |s| - 2
      invariant m == set j | 0 <= j < i :: Gram(s, j)
    {
      m := m + {Gram(s, i)};
      i := i + 1;
    }
  }

  /** Shared trigrams over all trigrams. */
  function Jaccard(ta: set<string>, tb: set<string>): real {
    var union := |ta| + |tb| - |ta * tb|;
    if union == 0 then 0.0 else |ta * tb| as real / union as real
  }

  /** How many trigrams of ta also occur in tb. */
  method CountShared(ta: set<string>, tb: set<string>) returns (inter: nat)
    ensures inter == |ta * tb|
  {
    inter := 0;
    var rest := ta;
    while rest != {}
      invariant rest <= ta
      invariant inter + |rest * tb| == |ta * tb|
    {
      var t :| t in rest;
      if t in tb {
        assert rest * tb == (rest - {t}) * tb + {t};
        inter := inter + 1;
      } else {
        assert rest * tb == (rest - {t}) * tb;
      }
      rest := rest - {t};
    }
  }

  method TrigramJaccard(a: string, b: string) returns (s: real)
    ensures s == Jaccard(Trigrams(a), Trigrams(b))
  {
    var ta := BuildTrigrams(a);
    var tb := BuildTrigrams(b);
    var inter := CountShared(ta, tb);
    var union := |ta| + |tb| - inter;
    if union == 0 {
      return 0.0;
    }
    return inter as real / union as real;
  }

  lemma Fraction(part: real, whole: real)
    requires 0.0 <= part <= whole && 0.0 < whole
    ensures 0.0 <= part / whole <= 1.0
  {
    assert part / whole * whole == part;
  }

  lemma JaccardRange(ta: set<string>, tb: set<string>)
    ensures 0.0 <= Jaccard(ta, tb) <= 1.0
  {
    var inter := ta * tb;
    assert ta == inter + (ta - inter) && tb == inter + (tb - inter);
    assert |ta| == |inter| + |ta - inter| && |tb| == |inter| + |tb - inter|;
    var union := |ta| + |tb| - |inter|;
    if union != 0 {
      Fraction(|inter| as real, union as real);
    }
  }

  function Max(x: real, y: real): real {
    if x >= y then x else y
  }

  /** Similarity of two already folded names. */
  function Similarity(a: string, b: string): real {
    if a == "" || b == "" then 0.0
    else if a == b then 1.0
    else if Contains(a, b) || Contains(b, a) then 0.8
    else Jaccard(Trigrams(a), Trigrams(b))
  }

  /** The stronger of the name similarity and the learned pattern. */
  function Score(queryNorm: string, c: VendorRef): real {
    var s := Similarity(queryNorm, Normalized(c.name));
    var pn := Normalized(c.matchPattern);
    if pn == "" then s
    else if Contains(queryNorm, pn) then Max(s, 0.9)
    else Max(s, Jaccard(Trigrams(queryNorm), Trigrams(pn)))
  }

  lemma ScoreRange(queryNorm: string, c: VendorRef)
    ensures 0.0 <= Score(queryNorm, c) <= 1.0
    ensures queryNorm != "" && Normalized(c.name) == queryNorm ==> Score(queryNorm, c) == 1.0
  {
    JaccardRange(Trigrams(queryNorm), Trigrams(Normalized(c.name)));
    JaccardRange(Trigrams(queryNorm), Trigrams(Normalized(c.matchPattern)));
  }

  /** p stands somewhere in s. */
  ghost predicate Occurs(p: string, s: string) {
    exists before, after: string :: s == before + p + after
  }

  /** The similarity of two folded names: 1 for equal names, 0.8 when one stands in the other, otherwise the
      share of common trigrams in all of theirs. */
  lemma SimilarityMeans(a: string, b: string)
    requires a != "" && b != ""
    ensures a == b ==> Similarity(a, b) == 1.0
    ensures a != b && (Occurs(a, b) || Occurs(b, a)) ==> Similarity(a, b) == 0.8
    ensures !Occurs(a, b) && !Occurs(b, a) ==> Similarity(a, b) == Jaccard(Trigrams(a), Trigrams(b))
    ensures Similarity(a, "") == 0.0 && Similarity("", b) == 0.0
  {
    ContainsMeans(a, b);
    ContainsMeans(b, a);
    assert a == b ==> a == "" + b + "";
  }

  /** Shared trigrams over all trigrams. */
  lemma JaccardMeans(ta: set<string>, tb: set<string>)
    requires ta != {}
    ensures Jaccard(ta, tb) * |ta + tb| as real == |ta * tb| as real
  {
    var t :| t in ta;
    assert t in ta + tb && |ta + tb| == |ta| + |tb| - |ta * tb|;
    Quotient(|ta * tb| as real, |ta + tb| as real);
  }

  lemma Quotient(x: real, y: real)
    requires y != 0.0
    ensures x / y * y == x
  {
  }

  /** The score: the name's similarity, raised to 0.9 by a learned pattern that stands in the query, and
      otherwise to the pattern's own share of trigrams. */
  lemma ScoreMeans(queryNorm: string, c: VendorRef)
    ensures var s, p, score := Similarity(queryNorm, Normalized(c.name)), Normalized(c.matchPattern),
        Score(queryNorm, c);
      && score >= s
      && (p == "" ==> score == s)
      && (p != "" && Occurs(p, queryNorm) ==> score >= 0.9 && score in {s, 0.9})
      && (p != "" && !Occurs(p, queryNorm) ==>
            var shared := Jaccard(Trigrams(queryNorm), Trigrams(p)); score >= shared && score in {s, shared})
  {
    ContainsMeans(queryNorm, Normalized(c.matchPattern));
  }

  /** The score of a candidate, as a function of the candidate. */
  function Scorer(qn: string): VendorRef -> real {
    c => Score(qn, c)
  }

  /** The candidates with real signal, in pool order. */
  function Relevant(score: VendorRef -> real, pool: seq<VendorRef>): seq<VendorRef> {
    if pool == [] then []
    else Relevant(score, pool[..|pool| - 1])
         + if score(pool[|pool| - 1]) >= CANDIDATE_MIN_SCORE then [pool[|pool| - 1]] else []
  }

  function Truncate(refs: seq<VendorRef>, limit: int): seq<VendorRef> {
    if limit > 0 && |refs| > limit then refs[..limit] else refs
  }

  function Shortlist(query: string, pool: seq<VendorRef>, limit: int): seq<VendorRef> {
    var qn := Normalized(query);
    if qn == "" then [] else Truncate(Ranked(Scorer(qn), Relevant(Scorer(qn), pool)), limit)
  }

  method RankVendorCandidates(query: string, candidates: seq<VendorRef>, limit: int) returns (out: seq<VendorRef>)
    ensures out == Shortlist(query, candidates, limit)
  {
    var qn := NormalizeVendorName(query);
    if qn == "" || candidates == [] {
      return [];
    }
    var ranked: seq<VendorRef> := [];
    for i := 0 to |candidates|
      invariant ranked == Relevant(Scorer(qn), candidates[..i])
    {
      assert candidates[..i + 1][..i] == candidates[..i];
      if Score(qn, candidates[i]) >= CANDIDATE_MIN_SCORE {
        ranked := ranked + [candidates[i]];
      }
    }
    assert candidates[..|candidates|] == candidates;
    ranked := Ranked(Scorer(qn), ranked);
    if limit > 0 && |ranked| > limit {
      ranked := ranked[..limit];
    }
    return ranked;
  }

  // ---- What the ranking promises ----

  lemma {:induction false} RelevantMembers(score: VendorRef -> real, pool: seq<VendorRef>)
    ensures forall c :: c in Relevant(score, pool) <==> c in pool && score(c) >= CANDIDATE_MIN_SCORE
  {
    if pool != [] {
      assert pool == pool[..|pool| - 1] + [pool[|pool| - 1]];
      RelevantMembers(score, pool[..|pool| - 1]);
    }
  }

  /** Cutting a ranking after n elements drops only what scores no higher. */
  lemma CutKeepsTheBest(score: VendorRef -> real, refs: seq<VendorRef>, kept: seq<VendorRef>, dropped: seq<VendorRef>)
    requires kept + dropped == Ranked(score, refs)
    ensures Descending(score, kept)
    ensures multiset(kept + dropped) == multiset(refs)
    ensures forall k, d :: k in kept && d in dropped ==> score(k) >= score(d)
    ensures forall v :: WithScore(score, kept + dropped, v) == WithScore(score, refs, v)
  {
    var ranked := kept + dropped;
    RankedSorts(score, refs);
    assert forall i :: 0 <= i < |kept| ==> kept[i] == ranked[i];
    assert forall i :: 0 <= i < |dropped| ==> dropped[i] == ranked[|kept| + i];
  }

  lemma SameMembers<T>(a: seq<T>, b: seq<T>, all: seq<T>)
    requires multiset(a + b) == multiset(all)
    ensures forall c :: c in a || c in b <==> c in all
  {
    forall c ensures c in a || c in b <==> c in all {
      assert c in a + b <==> c in multiset(a + b);
      assert c in all <==> c in multiset(all);
    }
  }

  /** The shortlist is sorted, keeps ties in pool order, and drops only what scores no higher than
      everything it keeps - and only when it is full. */
  lemma ShortlistKeepsTheBest(query: string, pool: seq<VendorRef>, limit: int) returns (dropped: seq<VendorRef>)
    requires Normalized(query) != ""
    ensures var score, kept := Scorer(Normalized(query)), Shortlist(query, pool, limit);
      && Descending(score, kept)
      && (forall c :: c in kept || c in dropped <==> c in pool && score(c) >= 0.2)
      && multiset(kept + dropped) == multiset(Relevant(score, pool))
      && (forall k, d :: k in kept && d in dropped ==> score(k) >= score(d))
      && (forall v :: WithScore(score, kept + dropped, v) == WithScore(score, Relevant(score, pool), v))
      && (dropped != [] ==> 0 < limit == |kept|)
  {
    var score := Scorer(Normalized(query));
    var refs, kept := Relevant(score, pool), Shortlist(query, pool, limit);
    dropped := Ranked(score, refs)[|kept|..];
    CutKeepsTheBest(score, refs, kept, dropped);
    SameMembers(kept, dropped, refs);
    RelevantMembers(score, pool);
  }

  /** A candidate whose learned pattern stands in the query is offered, unless the list is full of candidates
      that score as high as that. */
  lemma LearnedPatternIsOffered(query: string, pool: seq<VendorRef>, limit: int, c: VendorRef)
    requires c in pool && Normalized(c.matchPattern) != "" && Occurs(Normalized(c.matchPattern), Normalized(query))
    ensures var kept := Shortlist(query, pool, limit);
      c in kept || (0 < limit == |kept| && forall k :: k in kept ==> Score(Normalized(query), k) >= 0.9)
  {
    var qn := Normalized(query);
    assert qn != "";
    ScoreMeans(qn, c);
    var dropped := ShortlistKeepsTheBest(query, pool, limit);
    assert Scorer(qn)(c) >= 0.9;
    forall k | k in Shortlist(query, pool, limit) && c in dropped ensures Score(qn, k) >= 0.9 {
      assert Scorer(qn)(k) >= Scorer(qn)(c);
    }
  }

  lemma ShortlistIsFromPool(query: string, pool: seq<VendorRef>, limit: int)
    ensures forall c :: c in Shortlist(query, pool, limit) ==> c in pool
  {
    if Normalized(query) != "" {
      var _ := ShortlistKeepsTheBest(query, pool, limit);
    }
  }

  // ---- The shortlist against the full scan ----

  /** The two facts about scores that the exact pass depends on. */
  ghost predicate ExactScores(qn: string, score: VendorRef -> real) {
    && (forall c :: score(c) <= 1.0)
    && (forall c: VendorRef :: Normalized(c.name) == qn ==> score(c) == 1.0)
  }

  lemma ScorerIsExact(qn: string)
    requires qn != ""
    ensures ExactScores(qn, Scorer(qn))
    ensures forall c :: 0.0 <= Scorer(qn)(c) <= 1.0
  {
    forall c: VendorRef
      ensures 0.0 <= Score(qn, c) <= 1.0 && (Normalized(c.name) == qn ==> Score(qn, c) == 1.0)
    {
      ScoreRange(qn, c);
    }
  }

  /** The candidates that score 1, in pool order. */
  function Ones(score: VendorRef -> real, pool: seq<VendorRef>): seq<VendorRef> {
    if pool == [] then []
    else (if score(pool[0]) == 1.0 then [pool[0]] else []) + Ones(score, pool[1..])
  }

  /** How many candidates that score 1 stand before the first exact name match in the pool. */
  function Rivals(qn: string, score: VendorRef -> real, pool: seq<VendorRef>): nat {
    if pool == [] || Normalized(pool[0].name) == qn then 0
    else (if score(pool[0]) == 1.0 then 1 else 0) + Rivals(qn, score, pool[1..])
  }

  lemma {:induction false} OnesAppend(score: VendorRef -> real, s: seq<VendorRef>, c: VendorRef)
    ensures Ones(score, s + [c]) == Ones(score, s) + if score(c) == 1.0 then [c] else []
  {
    if s == [] {
      assert s + [c] == [c];
    } else {
      OnesAppend(score, s[1..], c);
      assert (s + [c])[0] == s[0] && (s + [c])[1..] == s[1..] + [c];
      assert Ones(score, s + [c]) == (if score(s[0]) == 1.0 then [s[0]] else []) + Ones(score, s[1..] + [c]);
    }
  }

  lemma {:induction false} OnesOfRelevant(score: VendorRef -> real, pool: seq<VendorRef>)
    ensures WithScore(score, Relevant(score, pool), 1.0) == Ones(score, pool)
  {
    if pool != [] {
      var init, last := pool[..|pool| - 1], pool[|pool| - 1];
      assert pool == init + [last];
      OnesOfRelevant(score, init);
      OnesAppend(score, init, last);
      WithScoreSnoc(score, Relevant(score, init), last, 1.0);
      if score(last) < CANDIDATE_MIN_SCORE {
        assert Relevant(score, pool) == Relevant(score, init);
      }
    }
  }

  /** Only candidates that score 1 decide an exact match, so the rest may be cut off. */
  lemma {:induction false} ExactWithinOnes(qn: string, score: VendorRef -> real, s: seq<VendorRef>, n: nat)
    requires qn != "" && ExactScores(qn, score) && n <= |s|
    requires forall i :: n <= i < |s| ==> score(s[i]) < 1.0
    ensures FirstExact(qn, s) == FirstExact(qn, s[..n])
  {
    if s != [] {
      if n == 0 {
        assert s[1..][..0] == s[..0];
        forall i | 0 <= i < |s| - 1 ensures score(s[1..][i]) < 1.0 {
          assert s[1..][i] == s[i + 1];
        }
        ExactWithinOnes(qn, score, s[1..], 0);
      } else {
        assert s[..n][1..] == s[1..][..n - 1];
        ExactWithinOnes(qn, score, s[1..], n - 1);
      }
    }
  }

  lemma {:induction false} ExactInPrefix(qn: string, score: VendorRef -> real, pool: seq<VendorRef>, m: nat)
    requires qn != "" && ExactScores(qn, score) && m <= |Ones(score, pool)|
    ensures FirstExact(qn, Ones(score, pool)[..m]) ==
            if Rivals(qn, score, pool) < m then FirstExact(qn, pool) else None
    ensures FirstExact(qn, pool).Some? ==> Rivals(qn, score, pool) < |Ones(score, pool)|
  {
    if pool != [] {
      var rest := pool[1..];
      if score(pool[0]) != 1.0 {
        assert Ones(score, pool) == Ones(score, rest);
        ExactInPrefix(qn, score, rest, m);
      } else {
        assert Ones(score, pool) == [pool[0]] + Ones(score, rest);
        var k := if m > 0 then m - 1 else 0;
        assert m > 0 ==> Ones(score, pool)[..m] == [pool[0]] + Ones(score, rest)[..k];
        ExactInPrefix(qn, score, rest, k);
      }
    }
  }

  /** How many of the leading elements survive the cut. */
  function Room(leading: nat, limit: int): (n: nat)
    ensures n <= leading
  {
    if 0 < limit < leading then limit else leading
  }

  lemma TruncateKeepsLead(ranked: seq<VendorRef>, lead: seq<VendorRef>, limit: int)
    requires lead <= ranked
    ensures var n, kept := Room(|lead|, limit), Truncate(ranked, limit);
      && kept <= ranked && n <= |kept| && kept[..n] == lead[..n]
      && (n < |kept| ==> n == |lead|)
  {
  }

  /** A truncated ranking starts with the candidates that score 1, as many as it has room for. */
  lemma RankingStartsWithOnes(score: VendorRef -> real, pool: seq<VendorRef>, limit: int)
    requires forall c :: score(c) <= 1.0
    ensures var n, kept := Room(|Ones(score, pool)|, limit), Truncate(Ranked(score, Relevant(score, pool)), limit);
      && n <= |kept| && kept[..n] == Ones(score, pool)[..n]
      && forall i :: n <= i < |kept| ==> score(kept[i]) < 1.0
  {
    var ranked := Ranked(score, Relevant(score, pool));
    var ones := Ones(score, pool);
    assert ones <= ranked && forall i :: |ones| <= i < |ranked| ==> score(ranked[i]) < 1.0 by {
      RankedSorts(score, Relevant(score, pool));
      TopScoreFirst(score, ranked, 1.0);
      OnesOfRelevant(score, pool);
    }
    TruncateKeepsLead(ranked, ones, limit);
  }

  /** The exact pass over the shortlist finds the vendor that the exact pass over the whole pool finds,
      exactly when fewer than limit candidates that score 1 stand before it. */
  lemma ShortlistAgreesWithFullScan(query: string, pool: seq<VendorRef>, limit: int)
    ensures ExactMatch(query, Shortlist(query, pool, limit)) == ExactMatch(query, pool) <==>
            ExactMatch(query, pool).None? || limit <= 0
            || Rivals(Normalized(query), Scorer(Normalized(query)), pool) < limit
  {
    var qn := Normalized(query);
    if qn != "" {
      var score, kept := Scorer(qn), Shortlist(query, pool, limit);
      ScorerIsExact(qn);
      var n := Room(|Ones(score, pool)|, limit);
      RankingStartsWithOnes(score, pool, limit);
      ExactWithinOnes(qn, score, kept, n);
      ExactInPrefix(qn, score, pool, n);
    }
  }

  /** In particular it agrees whenever at most limit candidates score 1. */
  lemma ShortlistAgreesWhenOnesFit(query: string, pool: seq<VendorRef>, limit: nat)
    requires |Ones(Scorer(Normalized(query)), pool)| <= limit
    ensures ExactMatch(query, Shortlist(query, pool, limit)) == ExactMatch(query, pool)
  {
    if Normalized(query) != "" {
      ScorerIsExact(Normalized(query));
      ExactInPrefix(Normalized(query), Scorer(Normalized(query)), pool, 0);
    }
    ShortlistAgreesWithFullScan(query, pool, limit);
  }
}
