/** sort.SliceStable by descending score, for any element type and any score. */
module StableRanking {
  /** Stable insertion: the newcomer goes behind its equals. */
  function Insert<T>(score: T -> real, ranked: seq<T>, c: T): seq<T> {
    if ranked == [] || score(ranked[|ranked| - 1]) >= score(c) then ranked + [c]
    else Insert(score, ranked[..|ranked| - 1], c) + [ranked[|ranked| - 1]]
  }

  function Ranked<T>(score: T -> real, s: seq<T>): seq<T> {
    if s == [] then []
    else Insert(score, Ranked(score, s[..|s| - 1]), s[|s| - 1])
  }

  ghost predicate Descending<T>(score: T -> real, s: seq<T>) {
    forall i, j :: 0 <= i < j < |s| ==> score(s[i]) >= score(s[j])
  }

  /** The elements of one score, in order. */
  function WithScore<T>(score: T -> real, s: seq<T>, v: real): seq<T> {
    if s == [] then []
    else WithScore(score, s[..|s| - 1], v) + if score(s[|s| - 1]) == v then [s[|s| - 1]] else []
  }

  lemma WithScoreSnoc<T>(score: T -> real, s: seq<T>, c: T, v: real)
    ensures WithScore(score, s + [c], v) == WithScore(score, s, v) + if score(c) == v then [c] else []
  {
    assert (s + [c])[..|s|] == s;
  }

  lemma {:induction false} InsertKeepsTies<T>(score: T -> real, ranked: seq<T>, c: T, v: real)
    requires Descending(score, ranked)
    ensures WithScore(score, Insert(score, ranked, c), v) ==
            WithScore(score, ranked, v) + if score(c) == v then [c] else []
  {
    if ranked == [] || score(ranked[|ranked| - 1]) >= score(c) {
      WithScoreSnoc(score, ranked, c, v);
    } else {
      var init, last := ranked[..|ranked| - 1], ranked[|ranked| - 1];
      InsertKeepsTies(score, init, c, v);
      WithScoreSnoc(score, Insert(score, init, c), last, v);
    }
  }

  lemma {:induction false} InsertPermutes<T>(score: T -> real, ranked: seq<T>, c: T)
    ensures multiset(Insert(score, ranked, c)) == multiset(ranked) + multiset{c}
  {
    if ranked != [] && score(ranked[|ranked| - 1]) < score(c) {
      assert ranked == ranked[..|ranked| - 1] + [ranked[|ranked| - 1]];
      InsertPermutes(score, ranked[..|ranked| - 1], c);
    }
  }

  lemma {:induction false} InsertSorts<T>(score: T -> real, ranked: seq<T>, c: T)
    requires Descending(score, ranked)
    ensures Descending(score, Insert(score, ranked, c))
    ensures forall x :: x in Insert(score, ranked, c) ==> x in ranked || x == c
  {
    if ranked != [] && score(ranked[|ranked| - 1]) < score(c) {
      var init, last := ranked[..|ranked| - 1], ranked[|ranked| - 1];
      InsertSorts(score, init, c);
      var inner := Insert(score, init, c);
      forall i | 0 <= i < |inner| ensures score(inner[i]) >= score(last) {
        assert inner[i] in inner;
      }
    }
  }

  /** Ranking is a stable permutation into descending score. */
  lemma {:induction false} RankedSorts<T>(score: T -> real, s: seq<T>)
    ensures Descending(score, Ranked(score, s))
    ensures multiset(Ranked(score, s)) == multiset(s)
    ensures forall v :: WithScore(score, Ranked(score, s), v) == WithScore(score, s, v)
  {
    if s != [] {
      var init, last := s[..|s| - 1], s[|s| - 1];
      assert s == init + [last];
      RankedSorts(score, init);
      InsertSorts(score, Ranked(score, init), last);
      InsertPermutes(score, Ranked(score, init), last);
      forall v ensures WithScore(score, Ranked(score, s), v) == WithScore(score, s, v) {
        InsertKeepsTies(score, Ranked(score, init), last, v);
      }
    }
  }

  /** When no score exceeds top, the elements scoring top lead a descending sequence. */
  lemma {:induction false} TopScoreFirst<T>(score: T -> real, s: seq<T>, top: real)
    requires Descending(score, s)
    requires forall c :: c in s ==> score(c) <= top
    ensures WithScore(score, s, top) <= s
    ensures forall i :: |WithScore(score, s, top)| <= i < |s| ==> score(s[i]) < top
  {
    if s != [] {
      var init, last := s[..|s| - 1], s[|s| - 1];
      assert s == init + [last];
      TopScoreFirst(score, init, top);
      var lead := WithScore(score, init, top);
      assert |lead| < |init| ==> score(last) <= score(s[|lead|]) < top;
    }
  }
}
