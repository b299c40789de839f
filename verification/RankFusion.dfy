/** Reciprocal rank fusion over a bounded working set (benchmarks/frozen_replay.py): the
    top of the bounded fusion is the top of the full one, ties included. */
module RankFusion {

  datatype Id = Id(name: string)

  ghost predicate Distinct(s: seq<Id>) {
    forall i, j | 0 <= i < j < |s| :: s[i] != s[j]
  }

  /** The rank of an id in a list, or the list's length. */
  function RankIn(s: seq<Id>, d: Id, from: nat): (r: nat)
    requires from <= |s|
    ensures from <= r <= |s|
    ensures r < |s| ==> s[r] == d
    ensures forall i | from <= i < r :: s[i] != d
    decreases |s| - from
  {
    if from == |s| || s[from] == d then from else RankIn(s, d, from + 1)
  }

  function Reciprocal(weight: real, k: nat, r: nat): real {
    weight / (k + r + 1) as real
  }

  /** One list's vote for an id: a reciprocal rank, or nothing. */
  function Vote(s: seq<Id>, d: Id, k: nat, weight: real): (v: real) {
    var r := RankIn(s, d, 0);
    if r < |s| then Reciprocal(weight, k, r) else 0.0
  }

  /** The fused score of an id. */
  function Score(dense: seq<Id>, lex: seq<Id>, k: nat, w: real, d: Id): (s: real) {
    Vote(dense, d, k, 1.0) + Vote(lex, d, k, w)
  }

  // ---- Python's stable descending sort -------------------------------------------------

  function Get(score: map<Id, real>, d: Id): real {
    if d in score then score[d] else 0.0
  }

  /** Where `x` belongs in a descending list: past every id that scores at least as much. */
  function Place(s: seq<Id>, x: Id, score: map<Id, real>, from: nat): (p: nat)
    requires from <= |s|
    ensures from <= p <= |s|
    decreases |s| - from
  {
    if from == |s| || Get(score, s[from]) < Get(score, x) then from else Place(s, x, score, from + 1)
  }

  function Insert(s: seq<Id>, x: Id, score: map<Id, real>): (r: seq<Id>)
    ensures |r| == |s| + 1
  {
    var p := Place(s, x, score, 0);
    s[..p] + [x] + s[p..]
  }

  /** The first `n` ids sorted by score, highest first, equal scores in their order. */
  function Sort(s: seq<Id>, n: nat, score: map<Id, real>): (r: seq<Id>)
    requires n <= |s|
    ensures |r| == n
  {
    if n == 0 then [] else Insert(Sort(s, n - 1, score), s[n-1], score)
  }

  ghost predicate Descending(s: seq<Id>, score: map<Id, real>) {
    forall i, j | 0 <= i < j < |s| :: Get(score, s[i]) >= Get(score, s[j])
  }

  lemma {:induction false} PlaceParts(s: seq<Id>, x: Id, score: map<Id, real>, from: nat)
    requires from <= |s|
    ensures var p := Place(s, x, score, from);
      && (forall i | from <= i < p :: Get(score, s[i]) >= Get(score, x))
      && (p < |s| ==> Get(score, s[p]) < Get(score, x))
    decreases |s| - from
  {
    if from < |s| && Get(score, s[from]) >= Get(score, x) {
      PlaceParts(s, x, score, from + 1);
    }
  }

  /** In a descending list `x` belongs before every id that scores less. */
  lemma {:induction false} PlaceDivides(s: seq<Id>, x: Id, score: map<Id, real>)
    requires Descending(s, score)
    ensures var p := Place(s, x, score, 0);
      && (forall i | 0 <= i < p :: Get(score, s[i]) >= Get(score, x))
      && (forall i | p <= i < |s| :: Get(score, s[i]) < Get(score, x))
  {
    PlaceParts(s, x, score, 0);
    var p := Place(s, x, score, 0);
    forall i | p <= i < |s| ensures Get(score, s[i]) < Get(score, x) {
      assert p < i ==> Get(score, s[p]) >= Get(score, s[i]);
    }
  }

  lemma {:induction false} Around(s: seq<Id>, x: Id, score: map<Id, real>) returns (head: seq<Id>, tail: seq<Id>)
    requires Descending(s, score)
    ensures s == head + tail && Insert(s, x, score) == (head + [x]) + tail
    ensures forall d | d in head :: Get(score, d) >= Get(score, x)
    ensures forall d | d in tail :: Get(score, d) < Get(score, x)
  {
    var p := Place(s, x, score, 0);
    PlaceDivides(s, x, score);
    head, tail := s[..p], s[p..];
  }

  lemma {:induction false} InsertKeeps(s: seq<Id>, x: Id, score: map<Id, real>)
    requires Descending(s, score)
    ensures Descending(Insert(s, x, score), score)
    ensures forall d :: d in Insert(s, x, score) <==> d in s || d == x
  {
    var head, tail := Around(s, x, score);
    Joined(head, x, tail, score);
  }

  lemma {:induction false} Joined(head: seq<Id>, x: Id, tail: seq<Id>, score: map<Id, real>)
    requires Descending(head + tail, score)
    requires forall d | d in head :: Get(score, d) >= Get(score, x)
    requires forall d | d in tail :: Get(score, d) < Get(score, x)
    ensures Descending((head + [x]) + tail, score)
  {
    var s, r := head + tail, (head + [x]) + tail;
    forall i, j | 0 <= i < j < |r| ensures Get(score, r[i]) >= Get(score, r[j]) {
      assert r[i] == if i < |head| then s[i] else if i == |head| then x else s[i-1];
      assert r[j] == if j < |head| then s[j] else if j == |head| then x else s[j-1];
      if i < |head| {
        assert s[i] in head;
      }
      if |head| < j {
        assert s[j-1] in tail;
      }
    }
  }

  lemma {:induction false} SortKeeps(s: seq<Id>, n: nat, score: map<Id, real>)
    requires n <= |s|
    ensures Descending(Sort(s, n, score), score)
    ensures forall d :: d in Sort(s, n, score) <==> d in s[..n]
  {
    if n > 0 {
      SortKeeps(s, n - 1, score);
      InsertKeeps(Sort(s, n - 1, score), s[n-1], score);
      assert s[..n] == s[..n-1] + [s[n-1]];
    }
  }

  // ---- sorting commutes with filtering ---------------------------------------------------

  /** Of the first `n` ids, those kept. */
  function Filter(s: seq<Id>, n: nat, keep: set<Id>): (r: seq<Id>)
    requires n <= |s|
    ensures |r| <= n
  {
    if n == 0 then []
    else if s[n-1] in keep then Filter(s, n - 1, keep) + [s[n-1]]
    else Filter(s, n - 1, keep)
  }

  lemma {:induction false} FilterHolds(s: seq<Id>, n: nat, keep: set<Id>)
    requires n <= |s|
    ensures forall d :: d in Filter(s, n, keep) <==> d in s[..n] && d in keep
  {
    if n > 0 {
      FilterHolds(s, n - 1, keep);
      assert s[..n] == s[..n-1] + [s[n-1]];
    }
  }

  lemma {:induction false} FilterPrefix(s: seq<Id>, t: seq<Id>, n: nat, keep: set<Id>)
    requires n <= |s| && s <= t
    ensures Filter(s, n, keep) == Filter(t, n, keep)
  {
    if n > 0 {
      FilterPrefix(s, t, n - 1, keep);
    }
  }

  lemma {:induction false} FilterBoth(a: seq<Id>, b: seq<Id>, n: nat, keep: set<Id>)
    requires n <= |b|
    ensures Filter(a + b, |a| + n, keep) == Filter(a, |a|, keep) + Filter(b, n, keep)
  {
    if n == 0 {
      FilterPrefix(a, a + b, |a|, keep);
    } else {
      FilterBoth(a, b, n - 1, keep);
      assert (a + b)[|a| + n - 1] == b[n-1];
    }
  }

  lemma {:induction false} PlaceIs(s: seq<Id>, x: Id, score: map<Id, real>, from: nat, p: nat)
    requires from <= p <= |s|
    requires forall i | from <= i < p :: Get(score, s[i]) >= Get(score, x)
    requires p < |s| ==> Get(score, s[p]) < Get(score, x)
    ensures Place(s, x, score, from) == p
    decreases p - from
  {
    if from < p {
      PlaceIs(s, x, score, from + 1, p);
    }
  }

  lemma {:induction false} FilterOne(x: Id, keep: set<Id>)
    ensures Filter([x], 1, keep) == if x in keep then [x] else []
  {
    assert Filter([x], 0, keep) == [];
  }

  /** Where `x` belongs among the kept ids. */
  lemma {:induction false} PlaceFiltered(head: seq<Id>, tail: seq<Id>, x: Id, score: map<Id, real>, keep: set<Id>)
    requires forall d | d in head :: Get(score, d) >= Get(score, x)
    requires forall d | d in tail :: Get(score, d) < Get(score, x)
    ensures var fh, ft := Filter(head, |head|, keep), Filter(tail, |tail|, keep);
      Insert(fh + ft, x, score) == (fh + [x]) + ft
  {
    var fh, ft := Filter(head, |head|, keep), Filter(tail, |tail|, keep);
    FilterHolds(head, |head|, keep);
    FilterHolds(tail, |tail|, keep);
    forall i | 0 <= i < |fh| ensures Get(score, (fh + ft)[i]) >= Get(score, x) {
      assert fh[i] in fh;
    }
    if ft != [] {
      assert (fh + ft)[|fh|] == ft[0] && ft[0] in ft;
    }
    PlaceIs(fh + ft, x, score, 0, |fh|);
    assert (fh + ft)[..|fh|] == fh && (fh + ft)[|fh|..] == ft;
  }

  lemma {:induction false} FilterParts(head: seq<Id>, x: Id, tail: seq<Id>, keep: set<Id>)
    ensures var all := (head + [x]) + tail;
      Filter(all, |all|, keep) ==
        (if x in keep then Filter(head, |head|, keep) + [x] else Filter(head, |head|, keep))
        + Filter(tail, |tail|, keep)
  {
    FilterBoth(head + [x], tail, |tail|, keep);
    FilterBoth(head, [x], 1, keep);
    FilterOne(x, keep);
  }

  lemma {:induction false} FilterInserted(s: seq<Id>, x: Id, score: map<Id, real>, keep: set<Id>)
    requires Descending(s, score)
    ensures Filter(Insert(s, x, score), |s| + 1, keep)
      == if x in keep then Insert(Filter(s, |s|, keep), x, score) else Filter(s, |s|, keep)
  {
    var head, tail := Around(s, x, score);
    var fh, ft := Filter(head, |head|, keep), Filter(tail, |tail|, keep);
    FilterBoth(head, tail, |tail|, keep);
    assert Filter(s, |s|, keep) == fh + ft;
    FilterParts(head, x, tail, keep);
    assert Filter(Insert(s, x, score), |s| + 1, keep) == (if x in keep then fh + [x] else fh) + ft;
    PlaceFiltered(head, tail, x, score, keep);
  }

  lemma {:induction false} SortAppended(f: seq<Id>, x: Id, score: map<Id, real>)
    ensures Sort(f + [x], |f| + 1, score) == Insert(Sort(f, |f|, score), x, score)
  {
    SortPrefix(f, f + [x], |f|, score);
  }

  lemma {:induction false} SortDescends(s: seq<Id>, n: nat, score: map<Id, real>)
    requires n <= |s|
    ensures Descending(Sort(s, n, score), score)
  {
    SortKeeps(s, n, score);
  }

  /** Filtering a sorted list is sorting the filtered one. */
  lemma {:induction false} SortFiltered(s: seq<Id>, n: nat, score: map<Id, real>, keep: set<Id>)
    requires n <= |s|
    ensures Filter(Sort(s, n, score), n, keep)
      == Sort(Filter(s, n, keep), |Filter(s, n, keep)|, score)
  {
    if n > 0 {
      var before, f := Sort(s, n - 1, score), Filter(s, n - 1, keep);
      SortFiltered(s, n - 1, score, keep);
      SortDescends(s, n - 1, score);
      FilteredStep(before, f, n - 1, s[n-1], score, keep);
      assert Filter(s, n, keep) == if s[n-1] in keep then f + [s[n-1]] else f;
    }
  }

  lemma {:induction false} FilteredStep(before: seq<Id>, f: seq<Id>, n: nat, x: Id, score: map<Id, real>, keep: set<Id>)
    requires Descending(before, score) && n == |before|
    requires Filter(before, n, keep) == Sort(f, |f|, score)
    ensures var g := if x in keep then f + [x] else f;
      Filter(Insert(before, x, score), n + 1, keep) == Sort(g, |g|, score)
  {
    FilterInserted(before, x, score, keep);
    SortAppended(f, x, score);
  }

  lemma {:induction false} SortPrefix(s: seq<Id>, t: seq<Id>, n: nat, score: map<Id, real>)
    requires n <= |s| && s <= t
    ensures Sort(s, n, score) == Sort(t, n, score)
  {
    if n > 0 {
      SortPrefix(s, t, n - 1, score);
    }
  }

  /** Only the scores of the sorted ids matter. */
  lemma {:induction false} SameScoresSort(s: seq<Id>, n: nat, a: map<Id, real>, b: map<Id, real>)
    requires n <= |s| && forall d | d in s :: Get(a, d) == Get(b, d)
    ensures Sort(s, n, a) == Sort(s, n, b)
  {
    if n > 0 {
      SameScoresSort(s, n - 1, a, b);
      SortKeeps(s, n - 1, a);
      forall d | d in Sort(s, n - 1, a) + [s[n-1]] ensures Get(a, d) == Get(b, d) {
        assert d in s[..n-1] || d == s[n-1];
      }
      SameScoresInsert(Sort(s, n - 1, a), s[n-1], a, b);
    }
  }

  lemma {:induction false} SameScoresInsert(s: seq<Id>, x: Id, a: map<Id, real>, b: map<Id, real>)
    requires forall d | d in s + [x] :: Get(a, d) == Get(b, d)
    ensures Insert(s, x, a) == Insert(s, x, b)
  {
    var p := Place(s, x, a, 0);
    PlaceParts(s, x, a, 0);
    assert x in s + [x];
    assert forall i | 0 <= i < |s| :: s[i] in s + [x];
    PlaceIs(s, x, b, 0, p);
  }

  // ---- the full fusion ------------------------------------------------------------------------

  function Ids(s: seq<Id>): set<Id> {
    set d | d in s
  }

  /** The order ids enter the score dictionary: the dense list, then what only the lexical
      list has. */
  function Order(dense: seq<Id>, lex: seq<Id>): (s: seq<Id>) {
    dense + Filter(lex, |lex|, Ids(lex) - Ids(dense))
  }

  function Scores(s: seq<Id>, dense: seq<Id>, lex: seq<Id>, k: nat, w: real): (m: map<Id, real>) {
    map d | d in s :: Score(dense, lex, k, w, d)
  }

  /** The fused ranking. */
  function Fusion(dense: seq<Id>, lex: seq<Id>, k: nat, w: real): (r: seq<Id>) {
    var s := Order(dense, lex);
    Sort(s, |s|, Scores(s, dense, lex, k, w))
  }

  lemma {:induction false} RankAt(s: seq<Id>, i: nat, from: nat)
    requires Distinct(s) && from <= i < |s|
    ensures RankIn(s, s[i], from) == i
    decreases i - from
  {
    if from < i {
      RankAt(s, i, from + 1);
    }
  }

  /** `rrf_fuse`: sum reciprocal ranks in a dictionary, then sort it by score. */
  method RrfFuse(dense: seq<Id>, lex: seq<Id>, k: nat, w: real) returns (fused: seq<Id>)
    requires Distinct(dense) && Distinct(lex)
    ensures fused == Fusion(dense, lex, k, w) && Ranks(fused, dense, lex, k, w, Ids(dense) + Ids(lex))
  {
    FusionRanks(dense, lex, k, w);
    var scores := DenseVotes(dense, k);
    var order;
    order, scores := LexicalVotes(dense, lex, k, w, scores);
    assert scores == Scores(order, dense, lex, k, w);
    fused := Sort(order, |order|, scores);
  }

  method DenseVotes(dense: seq<Id>, k: nat) returns (scores: map<Id, real>)
    requires Distinct(dense)
    ensures scores.Keys == Ids(dense)
    ensures forall d | d in scores :: scores[d] == Vote(dense, d, k, 1.0)
  {
    scores := map[];
    var r := 0;
    while r < |dense|
      invariant 0 <= r <= |dense|
      invariant scores.Keys == Ids(dense[..r])
      invariant forall d | d in scores :: scores[d] == Vote(dense, d, k, 1.0)
    {
      RankAt(dense, r, 0);
      scores := scores[dense[r] := 0.0 + Reciprocal(1.0, k, r)];
      assert dense[..r+1] == dense[..r] + [dense[r]];
      r := r + 1;
    }
    assert dense[..r] == dense;
  }

  /** The score of an id after the first `r` lexical votes. */
  ghost function ScoreUpTo(dense: seq<Id>, lex: seq<Id>, k: nat, w: real, d: Id, r: nat): real {
    Vote(dense, d, k, 1.0) + (if RankIn(lex, d, 0) < r then Vote(lex, d, k, w) else 0.0)
  }

  /** The dictionary after `r` lexical votes: its order, and a score for each id in it. */
  ghost predicate VotedUpTo(dense: seq<Id>, lex: seq<Id>, k: nat, w: real, r: nat,
                            order: seq<Id>, scores: map<Id, real>)
    requires r <= |lex|
  {
    && order == dense + Filter(lex, r, Ids(lex) - Ids(dense))
    && scores.Keys == Ids(order)
    && forall d | d in scores :: scores[d] == ScoreUpTo(dense, lex, k, w, d, r)
  }

  method LexicalVotes(dense: seq<Id>, lex: seq<Id>, k: nat, w: real, votes: map<Id, real>)
      returns (order: seq<Id>, scores: map<Id, real>)
    requires Distinct(lex) && votes.Keys == Ids(dense)
    requires forall d | d in votes :: votes[d] == Vote(dense, d, k, 1.0)
    ensures order == Order(dense, lex) && scores.Keys == Ids(order)
    ensures forall d | d in scores :: scores[d] == Score(dense, lex, k, w, d)
  {
    order, scores := dense, votes;
    var r := 0;
    while r < |lex|
      invariant 0 <= r <= |lex| && VotedUpTo(dense, lex, k, w, r, order, scores)
    {
      order, scores := LexicalVote(dense, lex, k, w, r, order, scores);
      r := r + 1;
    }
  }

  method LexicalVote(ghost dense: seq<Id>, lex: seq<Id>, k: nat, w: real, r: nat, before: seq<Id>, votes: map<Id, real>)
      returns (order: seq<Id>, scores: map<Id, real>)
    requires Distinct(lex) && r < |lex| && VotedUpTo(dense, lex, k, w, r, before, votes)
    ensures VotedUpTo(dense, lex, k, w, r + 1, order, scores)
  {
    NewInOrder(dense, lex, r);
    OneMoreVote(dense, lex, k, w, r);
    var d := lex[r];
    if d !in votes {
      order, scores := before + [d], votes[d := 0.0 + Reciprocal(w, k, r)];
    } else {
      order, scores := before, votes[d := votes[d] + Reciprocal(w, k, r)];
    }
  }

  /** A lexical id is already in the dictionary exactly when the dense list has it. */
  lemma {:induction false} NewInOrder(dense: seq<Id>, lex: seq<Id>, r: nat)
    requires Distinct(lex) && r < |lex|
    ensures var order := dense + Filter(lex, r, Ids(lex) - Ids(dense));
      lex[r] in Ids(order) <==> lex[r] in Ids(dense)
  {
    FilterHolds(lex, r, Ids(lex) - Ids(dense));
  }

  lemma {:induction false} OneMoreVote(dense: seq<Id>, lex: seq<Id>, k: nat, w: real, r: nat)
    requires Distinct(lex) && r < |lex|
    ensures forall d | d != lex[r] ::
      ScoreUpTo(dense, lex, k, w, d, r + 1) == ScoreUpTo(dense, lex, k, w, d, r)
    ensures ScoreUpTo(dense, lex, k, w, lex[r], r + 1)
      == Vote(dense, lex[r], k, 1.0) + Reciprocal(w, k, r)
    ensures ScoreUpTo(dense, lex, k, w, lex[r], r) == Vote(dense, lex[r], k, 1.0)
    ensures lex[r] !in Ids(dense) ==> Vote(dense, lex[r], k, 1.0) == 0.0
  {
    RankAt(lex, r, 0);
    if RankIn(dense, lex[r], 0) < |dense| {
      assert lex[r] in Ids(dense);
    }
  }

  // ---- the bounded fusion ---------------------------------------------------------------------

  /** The ids the working set lets into the fusion: the admitted ids the dense bound or the
      lexical pool brings in, and the pool's own. */
  function Working(admitted: seq<Id>, lex: seq<Id>, byDense: set<Id>, byLex: set<Id>): (r: set<Id>) {
    (Ids(admitted) * (byDense + (byLex * Ids(lex)))) + (byLex * Ids(lex))
  }

  /** The admitted ids of the working set, as ranks in the dense order. */
  method AdmittedRanks(dense: seq<Id>, wDense: seq<Id>, pool: seq<Id>, admitN: nat) returns (ranks: set<nat>)
    requires Distinct(dense) && forall d | d in wDense :: d in dense
    ensures forall r: nat :: r in ranks <==>
      r < |dense| && r < admitN && (dense[r] in wDense || dense[r] in pool)
  {
    ranks := {};
    var i := 0;
    while i < |wDense|
      invariant 0 <= i <= |wDense|
      invariant forall r: nat :: r in ranks <==> r < |dense| && r < admitN && dense[r] in wDense[..i]
    {
      var rd := RankIn(dense, wDense[i], 0);
      assert wDense[i] in wDense;
      assert wDense[..i+1] == wDense[..i] + [wDense[i]];
      if rd < admitN {
        ranks := ranks + {rd};
      }
      i := i + 1;
    }
    assert wDense[..i] == wDense;
    i := 0;
    while i < |pool|
      invariant 0 <= i <= |pool|
      invariant forall r: nat :: r in ranks <==>
        r < |dense| && r < admitN && (dense[r] in wDense || dense[r] in pool[..i])
    {
      assert pool[..i+1] == pool[..i] + [pool[i]];
      if pool[i] !in wDense {
        var rd := RankIn(dense, pool[i], 0);
        if rd < |dense| && rd < admitN {
          ranks := ranks + {rd};
        }
      }
      i := i + 1;
    }
    assert pool[..i] == pool;
  }

  /** The rows sorted by rank, each with its dense vote. */
  method DenseRows(dense: seq<Id>, ranks: set<nat>, k: nat, ghost keep: set<Id>)
      returns (rows: seq<Id>, score: map<Id, real>)
    requires Distinct(dense)
    requires forall r: nat | r < |dense| :: r in ranks <==> dense[r] in keep
    ensures rows == Filter(dense, |dense|, keep) && score.Keys == Ids(rows)
    ensures forall d | d in score :: score[d] == Vote(dense, d, k, 1.0)
  {
    rows, score := [], map[];
    var rd := 0;
    while rd < |dense|
      invariant 0 <= rd <= |dense| && rows == Filter(dense, rd, keep) && score.Keys == Ids(rows)
      invariant forall d | d in score :: score[d] == Vote(dense, d, k, 1.0)
    {
      if rd in ranks {
        RankAt(dense, rd, 0);
        score := score[dense[rd] := Reciprocal(1.0, k, rd)];
        rows := rows + [dense[rd]];
      }
      rd := rd + 1;
    }
  }

  /** The pool's rows the dense part does not have, entered with no score. */
  method PoolRows(dense: seq<Id>, pool: seq<Id>, denseRows: seq<Id>, votes: map<Id, real>)
      returns (rows: seq<Id>, score: map<Id, real>)
    requires Distinct(pool) && votes.Keys == Ids(denseRows)
    ensures rows == denseRows + Filter(pool, |pool|, Ids(pool) - Ids(denseRows))
    ensures score.Keys == Ids(rows)
    ensures forall d | d in score :: score[d] == if d in votes then votes[d] else 0.0
  {
    rows, score := denseRows, votes;
    ghost var only := Ids(pool) - Ids(denseRows);
    var i := 0;
    while i < |pool|
      invariant 0 <= i <= |pool| && rows == denseRows + Filter(pool, i, only)
      invariant score.Keys == Ids(rows)
      invariant forall d | d in score :: score[d] == if d in votes then votes[d] else 0.0
    {
      NewInOrder(denseRows, pool, i);
      if pool[i] !in score {
        score := score[pool[i] := 0.0];
        rows := rows + [pool[i]];
      }
      i := i + 1;
    }
  }

  /** Add each row's lexical vote. */
  method AddLexical(rows: seq<Id>, lex: seq<Id>, k: nat, w: real, votes: map<Id, real>)
      returns (score: map<Id, real>)
    requires Distinct(rows) && votes.Keys == Ids(rows)
    ensures score.Keys == votes.Keys
    ensures forall d | d in score :: score[d] == votes[d] + Vote(lex, d, k, w)
  {
    score := votes;
    if w == 0.0 {
      return;
    }
    var i := 0;
    while i < |rows|
      invariant 0 <= i <= |rows| && score.Keys == votes.Keys
      invariant forall d | d in score ::
        score[d] == if d in rows[..i] then votes[d] + Vote(lex, d, k, w) else votes[d]
    {
      var d := rows[i];
      var rl := RankIn(lex, d, 0);
      assert d in rows && d !in rows[..i] && rows[..i+1] == rows[..i] + [d];
      if rl < |lex| {
        score := score[d := score[d] + Reciprocal(w, k, rl)];
      }
      i := i + 1;
    }
    assert rows[..i] == rows;
  }

  lemma {:induction false} FilterSame(s: seq<Id>, n: nat, a: set<Id>, b: set<Id>)
    requires n <= |s| && forall i | 0 <= i < n :: s[i] in a <==> s[i] in b
    ensures Filter(s, n, a) == Filter(s, n, b)
  {
    if n > 0 {
      FilterSame(s, n - 1, a, b);
    }
  }

  lemma {:induction false} FilterTwice(s: seq<Id>, n: nat, a: set<Id>, b: set<Id>)
    requires n <= |s|
    ensures var f := Filter(s, n, a); Filter(f, |f|, b) == Filter(s, n, a * b)
  {
    if n > 0 {
      FilterTwice(s, n - 1, a, b);
      if s[n-1] in a {
        var f := Filter(s, n - 1, a);
        FilterPrefix(f, f + [s[n-1]], |f|, b);
      }
    }
  }

  lemma {:induction false} FilterNone(s: seq<Id>, m: nat, n: nat, keep: set<Id>)
    requires m <= n <= |s| && forall i | m <= i < n :: s[i] !in keep
    ensures Filter(s, n, keep) == Filter(s, m, keep)
    decreases n
  {
    if m < n {
      FilterNone(s, m, n - 1, keep);
    }
  }

  lemma {:induction false} FilterDistinct(s: seq<Id>, n: nat, keep: set<Id>)
    requires n <= |s| && Distinct(s)
    ensures Distinct(Filter(s, n, keep))
  {
    if n > 0 {
      FilterDistinct(s, n - 1, keep);
      FilterHolds(s, n - 1, keep);
      var f := Filter(s, n - 1, keep);
      forall i | 0 <= i < |f| ensures f[i] != s[n-1] {
        assert f[i] in f;
      }
    }
  }

  function Admitted(dense: seq<Id>, admitN: nat): (s: seq<Id>) {
    if admitN < |dense| then dense[..admitN] else dense
  }

  /** An admitted id has the vote the whole dense order gives it. */
  lemma {:induction false} AdmittedVote(dense: seq<Id>, admitN: nat, d: Id, k: nat)
    requires Distinct(dense)
    ensures d in Admitted(dense, admitN) ==>
      Vote(Admitted(dense, admitN), d, k, 1.0) == Vote(dense, d, k, 1.0)
    ensures d !in Admitted(dense, admitN) ==> Vote(Admitted(dense, admitN), d, k, 1.0) == 0.0
  {
    var a := Admitted(dense, admitN);
    if d in a {
      var r := RankIn(a, d, 0);
      assert r < |a| && dense[r] == d;
      RankAt(dense, r, 0);
    }
  }

  /** The rows of the nested `fuse` are the full fusion's, filtered to the working set. */
  lemma {:induction false} RowsAreFiltered(dense: seq<Id>, lex: seq<Id>, admitN: nat, byDense: set<Id>, byLex: set<Id>)
    requires Distinct(dense) && Distinct(lex)
    ensures var admitted, pool := Admitted(dense, admitN), Filter(lex, |lex|, byLex);
      var keep := Ids(admitted) * (byDense + (byLex * Ids(lex)));
      var denseRows := Filter(dense, |dense|, keep);
      var order := Order(admitted, lex);
      denseRows + Filter(pool, |pool|, Ids(pool) - Ids(denseRows))
        == Filter(order, |order|, Working(admitted, lex, byDense, byLex))
  {
    var admitted := Admitted(dense, admitN);
    var only := Filter(lex, |lex|, Ids(lex) - Ids(admitted));
    FilterBoth(admitted, only, |only|, Working(admitted, lex, byDense, byLex));
    DensePart(dense, lex, admitN, byDense, byLex);
    FilterHolds(dense, |dense|, Ids(admitted) * (byDense + (byLex * Ids(lex))));
    assert dense[..|dense|] == dense;
    LexPart(admitted, lex, Ids(Filter(dense, |dense|, Ids(admitted) * (byDense + (byLex * Ids(lex))))), byDense, byLex);
  }

  /** The pool's rows the dense part does not have are what only the lexical list has,
      within the working set. */
  lemma {:induction false} LexPart(admitted: seq<Id>, lex: seq<Id>, denseIds: set<Id>,
                                   byDense: set<Id>, byLex: set<Id>)
    requires denseIds == Ids(admitted) * (byDense + (byLex * Ids(lex)))
    ensures var pool, only := Filter(lex, |lex|, byLex), Filter(lex, |lex|, Ids(lex) - Ids(admitted));
      Filter(pool, |pool|, Ids(pool) - denseIds) == Filter(only, |only|, Working(admitted, lex, byDense, byLex))
  {
    var pool, work := Filter(lex, |lex|, byLex), Working(admitted, lex, byDense, byLex);
    FilterTwice(lex, |lex|, Ids(lex) - Ids(admitted), work);
    FilterTwice(lex, |lex|, byLex, Ids(pool) - denseIds);
    FilterHolds(lex, |lex|, byLex);
    assert lex[..|lex|] == lex;
    FilterSame(lex, |lex|, (Ids(lex) - Ids(admitted)) * work, byLex * (Ids(pool) - denseIds));
  }

  lemma {:induction false} DensePart(dense: seq<Id>, lex: seq<Id>, admitN: nat, byDense: set<Id>, byLex: set<Id>)
    requires Distinct(dense)
    ensures var admitted := Admitted(dense, admitN);
      Filter(dense, |dense|, Ids(admitted) * (byDense + (byLex * Ids(lex))))
        == Filter(admitted, |admitted|, Working(admitted, lex, byDense, byLex))
  {
    var admitted := Admitted(dense, admitN);
    var keep := Ids(admitted) * (byDense + (byLex * Ids(lex)));
    assert forall j | 0 <= j < |admitted| :: admitted[j] == dense[j];
    assert forall i | |admitted| <= i < |dense| :: dense[i] !in admitted;
    FilterNone(dense, |admitted|, |dense|, keep);
    FilterPrefix(admitted, dense, |admitted|, keep);
    FilterSame(admitted, |admitted|, keep, Working(admitted, lex, byDense, byLex));
  }

  /** The nested `fuse`, over the dense rows and the lexical pool of a working set. */
  method Fuse(dense: seq<Id>, lex: seq<Id>, wDense: seq<Id>, pool: seq<Id>, admitN: nat, k: nat, w: real,
              ghost byDense: set<Id>, ghost byLex: set<Id>) returns (fused: seq<Id>)
    requires Distinct(dense) && Distinct(lex)
    requires wDense == Filter(dense, |dense|, byDense) && pool == Filter(lex, |lex|, byLex)
    ensures var admitted := Admitted(dense, admitN);
      var full := Fusion(admitted, lex, k, w);
      fused == Filter(full, |full|, Working(admitted, lex, byDense, byLex))
  {
    ghost var admitted := Admitted(dense, admitN);
    ghost var keep := Ids(admitted) * (byDense + (byLex * Ids(lex)));
    WorkingRanks(dense, lex, wDense, pool, admitN, byDense, byLex);
    var ranks := AdmittedRanks(dense, wDense, pool, admitN);
    var denseRows, votes := DenseRows(dense, ranks, k, keep);
    FilterDistinct(lex, |lex|, byLex);
    var rows, unvoted := PoolRows(dense, pool, denseRows, votes);
    RowsAreFiltered(dense, lex, admitN, byDense, byLex);
    ghost var order := Order(admitted, lex);
    OrderDistinct(admitted, lex);
    FilterDistinct(order, |order|, Working(admitted, lex, byDense, byLex));
    var score := AddLexical(rows, lex, k, w, unvoted);
    fused := Sort(rows, |rows|, score);
    ghost var work := Working(admitted, lex, byDense, byLex);
    FilterHolds(order, |order|, work);
    forall d | d in rows ensures Get(score, d) == Vote(admitted, d, k, 1.0) + Vote(lex, d, k, w) {
      InDenseRows(dense, keep, d);
      VoteInWork(dense, lex, admitN, k, byDense, byLex, d);
    }
    ScoredAlike(admitted, lex, order, rows, k, w, score, work);
  }

  lemma {:induction false} InDenseRows(dense: seq<Id>, keep: set<Id>, d: Id)
    ensures d in Filter(dense, |dense|, keep) <==> d in dense && d in keep
  {
    FilterHolds(dense, |dense|, keep);
    assert dense[..|dense|] == dense;
  }

  /** In the working set the vote the code gives, or does not, is the admitted list's. */
  lemma {:induction false} VoteInWork(dense: seq<Id>, lex: seq<Id>, admitN: nat, k: nat, byDense: set<Id>, byLex: set<Id>, d: Id)
    requires Distinct(dense) && d in Working(Admitted(dense, admitN), lex, byDense, byLex)
    ensures var admitted := Admitted(dense, admitN);
      var keep := Ids(admitted) * (byDense + (byLex * Ids(lex)));
      Vote(dense, d, k, if d in keep then 1.0 else 0.0) == Vote(admitted, d, k, 1.0)
  {
    AdmittedVote(dense, admitN, d, k);
  }

  /** Rows of the working set with their votes sort as the full fusion does, filtered. */
  lemma {:induction false} ScoredAlike(admitted: seq<Id>, lex: seq<Id>, order: seq<Id>, rows: seq<Id>, k: nat, w: real,
                                       score: map<Id, real>, work: set<Id>)
    requires order == Order(admitted, lex) && rows == Filter(order, |order|, work)
    requires forall d | d in rows :: Get(score, d) == Vote(admitted, d, k, 1.0) + Vote(lex, d, k, w)
    ensures var full := Fusion(admitted, lex, k, w); Sort(rows, |rows|, score) == Filter(full, |full|, work)
  {
    var scores := Scores(order, admitted, lex, k, w);
    FilterHolds(order, |order|, work);
    assert order[..|order|] == order;
    SameScoresSort(rows, |rows|, score, scores);
    SortFiltered(order, |order|, scores, work);
  }

  lemma {:induction false} WorkingRanks(dense: seq<Id>, lex: seq<Id>, wDense: seq<Id>, pool: seq<Id>, admitN: nat,
                                        byDense: set<Id>, byLex: set<Id>)
    requires Distinct(dense)
    requires wDense == Filter(dense, |dense|, byDense) && pool == Filter(lex, |lex|, byLex)
    ensures forall d | d in wDense :: d in dense
    ensures var keep := Ids(Admitted(dense, admitN)) * (byDense + (byLex * Ids(lex)));
      forall r: nat | r < |dense| ::
        dense[r] in keep <==> r < admitN && (dense[r] in wDense || dense[r] in pool)
  {
    FilterHolds(dense, |dense|, byDense);
    FilterHolds(lex, |lex|, byLex);
    assert dense[..|dense|] == dense && lex[..|lex|] == lex;
    var admitted := Admitted(dense, admitN);
    forall r: nat | r < |dense| ensures dense[r] in admitted <==> r < admitN {
      if dense[r] in admitted {
        var j :| 0 <= j < |admitted| && admitted[j] == dense[r];
        assert dense[j] == dense[r];
      }
      assert r < admitN ==> admitted[r] == dense[r];
    }
  }

  lemma {:induction false} OrderDistinct(dense: seq<Id>, lex: seq<Id>)
    requires Distinct(dense) && Distinct(lex)
    ensures Distinct(Order(dense, lex))
  {
    var only := Filter(lex, |lex|, Ids(lex) - Ids(dense));
    FilterDistinct(lex, |lex|, Ids(lex) - Ids(dense));
    FilterHolds(lex, |lex|, Ids(lex) - Ids(dense));
    forall i, j | 0 <= i < |dense| && 0 <= j < |only| ensures dense[i] != only[j] {
      assert only[j] in only && dense[i] in dense;
    }
  }

  // ---- the top of the bounded fusion ---------------------------------------------------------------

  ghost predicate BeforeIn(s: seq<Id>, a: Id, b: Id) {
    exists i, j :: 0 <= i < j < |s| && s[i] == a && s[j] == b
  }

  lemma {:induction false} InsertAt(s: seq<Id>, x: Id, score: map<Id, real>)
    ensures var p, r := Place(s, x, score, 0), Insert(s, x, score);
      && r[p] == x
      && (forall i | 0 <= i < p :: r[i] == s[i])
      && (forall i | p <= i < |s| :: r[i+1] == s[i])
  {
    var p := Place(s, x, score, 0);
    var a, b := s[..p], s[p..];
    assert a + b == s && |a| == p;
    WedgedAt(a, x, b);
  }

  lemma {:induction false} WedgedAt(a: seq<Id>, x: Id, b: seq<Id>)
    ensures var r, s := a + [x] + b, a + b;
      r[|a|] == x && (forall i | 0 <= i < |a| :: r[i] == s[i]) && (forall i | |a| <= i < |s| :: r[i+1] == s[i])
  {
  }

  /** Inserting keeps the order of what is there. */
  lemma {:induction false} InsertKeepsOrder(s: seq<Id>, x: Id, score: map<Id, real>, a: Id, b: Id)
    requires BeforeIn(s, a, b)
    ensures BeforeIn(Insert(s, x, score), a, b)
  {
    InsertAt(s, x, score);
    var p, r := Place(s, x, score, 0), Insert(s, x, score);
    var i, j :| 0 <= i < j < |s| && s[i] == a && s[j] == b;
    assert r[if i < p then i else i + 1] == a && r[if j < p then j else j + 1] == b;
  }

  /** What is inserted goes after what scores as much. */
  lemma {:induction false} InsertGoesAfter(s: seq<Id>, x: Id, score: map<Id, real>, a: Id)
    requires Descending(s, score) && a in s && Get(score, a) >= Get(score, x)
    ensures BeforeIn(Insert(s, x, score), a, x)
  {
    InsertAt(s, x, score);
    PlaceDivides(s, x, score);
    var p, r := Place(s, x, score, 0), Insert(s, x, score);
    var i :| 0 <= i < |s| && s[i] == a;
    assert i < p;
    assert r[i] == a;
  }

  /** The sort is stable, and puts higher scores first. */
  lemma {:induction false} SortOrder(s: seq<Id>, n: nat, score: map<Id, real>, i: nat, j: nat)
    requires n <= |s| && i < j < n && Get(score, s[i]) >= Get(score, s[j])
    ensures BeforeIn(Sort(s, n, score), s[i], s[j])
  {
    SortKeeps(s, n - 1, score);
    if j < n - 1 {
      SortOrder(s, n - 1, score, i, j);
      InsertKeepsOrder(Sort(s, n - 1, score), s[n-1], score, s[i], s[j]);
    } else {
      assert s[..n-1][i] == s[i];
      InsertGoesAfter(Sort(s, n - 1, score), s[n-1], score, s[i]);
    }
  }

  lemma {:induction false} HigherFirst(s: seq<Id>, score: map<Id, real>, a: Id, b: Id)
    requires Descending(s, score) && a in s && b in s && Get(score, a) > Get(score, b)
    ensures BeforeIn(s, a, b)
  {
    var i :| 0 <= i < |s| && s[i] == a;
    var j :| 0 <= j < |s| && s[j] == b;
  }

  lemma {:induction false} SortDistinct(s: seq<Id>, n: nat, score: map<Id, real>)
    requires n <= |s| && Distinct(s)
    ensures Distinct(Sort(s, n, score))
  {
    if n > 0 {
      SortDistinct(s, n - 1, score);
      SortKeeps(s, n - 1, score);
      var before, x := Sort(s, n - 1, score), s[n-1];
      assert x !in s[..n-1];
      InsertDistinct(before, x, score);
    }
  }

  lemma {:induction false} InsertDistinct(s: seq<Id>, x: Id, score: map<Id, real>)
    requires Distinct(s) && x !in s
    ensures Distinct(Insert(s, x, score))
  {
  }

  lemma {:induction false} IdsGrow(s: seq<Id>, n: nat)
    requires 0 < n <= |s|
    ensures Ids(s[..n]) == Ids(s[..n-1]) + {s[n-1]}
  {
    assert s[..n] == s[..n-1] + [s[n-1]];
  }

  lemma {:induction false} AtMost(s: seq<Id>, n: nat)
    requires n <= |s|
    ensures |Ids(s[..n])| <= n
  {
    if n > 0 {
      AtMost(s, n - 1);
      IdsGrow(s, n);
    }
  }

  lemma {:induction false} Exactly(s: seq<Id>, n: nat)
    requires n <= |s| && Distinct(s)
    ensures |Ids(s[..n])| == n
  {
    if n > 0 {
      Exactly(s, n - 1);
      IdsGrow(s, n);
      assert s[n-1] !in s[..n-1];
    }
  }

  /** An id that comes after `n` others is not among the first `n`. */
  lemma {:induction false} NotInTop(s: seq<Id>, ahead: set<Id>, i: nat, n: nat)
    requires Distinct(s) && i < |s| && n <= |ahead|
    requires forall a | a in ahead :: BeforeIn(s, a, s[i])
    ensures n <= i
  {
    forall a | a in ahead ensures a in Ids(s[..i]) {
      var x, y :| 0 <= x < y < |s| && s[x] == a && s[y] == s[i];
      assert y == i && s[..i][x] == a;
    }
    AtMost(s, i);
    Subset(ahead, Ids(s[..i]));
  }

  lemma {:induction false} Subset(a: set<Id>, b: set<Id>)
    requires a <= b
    ensures |a| <= |b|
  {
    assert b == a + (b - a);
  }

  /** Everything ranked at or past the bound scores at most two votes at the bound. */
  lemma {:induction false} VoteBound(s: seq<Id>, d: Id, k: nat, weight: real, depth: nat)
    requires weight >= 0.0 && Distinct(s)
    requires d !in (if depth < |s| then s[..depth] else s)
    ensures 0.0 <= Vote(s, d, k, weight) <= Reciprocal(weight, k, depth)
  {
    var r, near := RankIn(s, d, 0), if depth < |s| then s[..depth] else s;
    assert forall i | 0 <= i < |near| :: near[i] == s[i] && near[i] != d;
    if r < |s| {
      ReciprocalFalls(weight, k, depth, r);
    } else {
      ReciprocalFalls(weight, k, depth, depth);
    }
  }

  lemma {:induction false} ReciprocalFalls(weight: real, k: nat, r: nat, later: nat)
    requires weight >= 0.0 && r <= later
    ensures 0.0 <= Reciprocal(weight, k, later) <= Reciprocal(weight, k, r)
  {
    var a, b := (k + r + 1) as real, (k + later + 1) as real;
    Divide(weight, a, b);
  }

  lemma {:induction false} Divide(x: real, a: real, b: real)
    requires x >= 0.0 && 0.0 < a <= b
    ensures 0.0 <= x / b <= x / a
  {
    assert (x / a) * a == x && (x / b) * b == x;
    if x / b > x / a {
      Times(x / a, a, b);
      StrictTimes(x / b, x / a, b);
    }
  }

  lemma {:induction false} Times(x: real, a: real, b: real)
    requires x >= 0.0 && a <= b
    ensures x * a <= x * b
  {
  }

  lemma {:induction false} StrictTimes(x: real, y: real, b: real)
    requires x > y && b > 0.0
    ensures x * b > y * b
  {
  }

  // ---- the theorem ----------------------------------------------------------------------------------

  /** The first `depth` ids of a list. */
  function Top(s: seq<Id>, depth: nat): (r: seq<Id>)
    ensures |r| <= depth && r <= s
  {
    if depth < |s| then s[..depth] else s
  }

  lemma {:induction false} FilterOrder(s: seq<Id>, n: nat, keep: set<Id>, i: nat, j: nat)
    requires i < j < n <= |s| && s[i] in keep && s[j] in keep
    ensures BeforeIn(Filter(s, n, keep), s[i], s[j])
  {
    var f := Filter(s, n - 1, keep);
    if j < n - 1 {
      FilterOrder(s, n - 1, keep, i, j);
      var a, b :| 0 <= a < b < |f| && f[a] == s[i] && f[b] == s[j];
      assert Filter(s, n, keep)[a] == s[i] && Filter(s, n, keep)[b] == s[j];
    } else {
      FilterHolds(s, n - 1, keep);
      assert s[..n-1][i] == s[i];
      var a :| 0 <= a < |f| && f[a] == s[i];
      assert (f + [s[j]])[a] == s[i] && (f + [s[j]])[|f|] == s[j];
    }
  }

  /** In the dictionary's order a lexical id comes before a later, lexical-only one. */
  lemma {:induction false} OrderBefore(dense: seq<Id>, lex: seq<Id>, i: nat, j: nat)
    requires i < j < |lex| && lex[j] !in dense
    ensures BeforeIn(Order(dense, lex), lex[i], lex[j])
  {
    var keep := Ids(lex) - Ids(dense);
    var only := Filter(lex, |lex|, keep);
    FilterHolds(lex, |lex|, keep);
    assert lex[..|lex|] == lex && lex[j] in only;
    var b :| 0 <= b < |only| && only[b] == lex[j];
    assert (dense + only)[|dense| + b] == lex[j];
    if lex[i] in dense {
      var a :| 0 <= a < |dense| && dense[a] == lex[i];
      assert (dense + only)[a] == lex[i];
    } else {
      FilterOrder(lex, |lex|, keep, i, j);
      var x, y :| 0 <= x < y < |only| && only[x] == lex[i] && only[y] == lex[j];
      assert (dense + only)[|dense| + x] == lex[i] && (dense + only)[|dense| + y] == lex[j];
    }
  }

  /** Fused order: a higher score first, and among equals the earlier entered. */
  lemma {:induction false} FusedBefore(dense: seq<Id>, lex: seq<Id>, k: nat, w: real, a: Id, b: Id)
    requires var s := Order(dense, lex); a in s && b in s
    requires Score(dense, lex, k, w, a) > Score(dense, lex, k, w, b)
      || (Score(dense, lex, k, w, a) >= Score(dense, lex, k, w, b) && BeforeIn(Order(dense, lex), a, b))
    ensures BeforeIn(Fusion(dense, lex, k, w), a, b)
  {
    var s := Order(dense, lex);
    var score := Scores(s, dense, lex, k, w);
    if Score(dense, lex, k, w, a) > Score(dense, lex, k, w, b) {
      SortKeeps(s, |s|, score);
      assert s[..|s|] == s;
      HigherFirst(Sort(s, |s|, score), score, a, b);
    } else {
      var i, j :| 0 <= i < j < |s| && s[i] == a && s[j] == b;
      SortOrder(s, |s|, score, i, j);
    }
  }

  lemma {:induction false} InOrder(dense: seq<Id>, lex: seq<Id>)
    ensures forall d :: d in Order(dense, lex) <==> d in dense || d in lex
  {
    FilterHolds(lex, |lex|, Ids(lex) - Ids(dense));
    assert lex[..|lex|] == lex;
  }

  /** How far down the fused order the two lists, cut at `depth`, are enough. */
  predicate Reaches(k: nat, w: real, depth: nat, n: nat) {
    n <= depth && (1.0 + w) * (k + n) as real <= (k + depth + 1) as real
  }

  /** The bound's arithmetic: two votes past the depth do not beat one dense vote in the top. */
  lemma {:induction false} TwoVotesLose(k: nat, w: real, depth: nat, n: nat, i: nat)
    requires w >= 0.0 && Reaches(k, w, depth, n)
    requires i < n
    ensures Reciprocal(1.0, k, depth) + Reciprocal(w, k, depth) <= Reciprocal(1.0, k, i)
  {
    var near, far := (k + n) as real, (k + depth + 1) as real;
    Crossed(1.0 + w, near, far);
    SumOver(w, far);
    ReciprocalFalls(1.0, k, i, n - 1);
  }

  lemma {:induction false} SumOver(w: real, far: real)
    requires far > 0.0
    ensures 1.0 / far + w / far == (1.0 + w) / far
  {
  }

  lemma {:induction false} Crossed(x: real, near: real, far: real)
    requires near > 0.0 && far > 0.0 && x * near <= far
    ensures x / far <= 1.0 / near
  {
    assert (x / far) * (near * far) == ((x / far) * far) * near == x * near;
    assert (1.0 / near) * (near * far) == ((1.0 / near) * near) * far == far;
    if x / far > 1.0 / near {
      StrictTimes(x / far, 1.0 / near, near * far);
    }
  }

  /** What the replay works on when it has no candidates: the admitted part of the first
      `depth` dense ids, and the first `depth` lexical ones. */
  function Bounded(dense: seq<Id>, lex: seq<Id>, admitN: nat, depth: nat): (r: set<Id>) {
    Working(Admitted(dense, admitN), lex, Ids(Top(dense, depth)), Ids(Top(lex, depth)))
  }

  /** An id the working set leaves out is past the depth in both lists. */
  lemma {:induction false} LeftOutIsDeep(dense: seq<Id>, lex: seq<Id>, admitN: nat, depth: nat, d: Id)
    requires d in Order(Admitted(dense, admitN), lex) && d !in Bounded(dense, lex, admitN, depth)
    ensures d !in Top(Admitted(dense, admitN), depth) && d !in Top(lex, depth)
    ensures d !in Admitted(dense, admitN) ==> d in lex
  {
    InOrder(Admitted(dense, admitN), lex);
    var top := Top(Admitted(dense, admitN), depth);
    assert forall i | 0 <= i < |top| :: top[i] == Top(dense, depth)[i];
  }

  /** At least `n` ids of the full fusion come before any the working set leaves out. */
  lemma {:induction false} EnoughAhead(dense: seq<Id>, lex: seq<Id>, admitN: nat, k: nat, w: real,
                                       depth: nat, n: nat, d: Id) returns (ahead: set<Id>)
    requires Distinct(dense) && Distinct(lex) && w >= 0.0
    requires Reaches(k, w, depth, n) && n > 0
    requires d in Order(Admitted(dense, admitN), lex) && d !in Bounded(dense, lex, admitN, depth)
    ensures |ahead| >= n
    ensures forall a | a in ahead :: BeforeIn(Fusion(Admitted(dense, admitN), lex, k, w), a, d)
  {
    var admitted := Admitted(dense, admitN);
    InOrder(admitted, lex);
    LeftOutIsDeep(dense, lex, admitN, depth, d);
    VoteBound(lex, d, k, w, depth);
    if n <= |admitted| {
      ahead := Ids(admitted[..n]);
      Exactly(admitted, n);
      VoteBound(admitted, d, k, 1.0, depth);
      forall a | a in ahead ensures BeforeIn(Fusion(admitted, lex, k, w), a, d) {
        var i :| 0 <= i < n && admitted[..n][i] == a;
        DenseAhead(admitted, lex, k, w, depth, n, i, d);
      }
    } else {
      ahead := AheadByPool(admitted, lex, k, w, depth, d);
    }
  }

  /** An id in the dense list's top comes before one past the depth in both lists. */
  lemma {:induction false} DenseAhead(dense: seq<Id>, lex: seq<Id>, k: nat, w: real, depth: nat, n: nat, i: nat, d: Id)
    requires Distinct(dense) && w >= 0.0 && Reaches(k, w, depth, n) && i < n && i < |dense|
    requires d in Order(dense, lex) && d !in Top(dense, depth)
    requires Vote(dense, d, k, 1.0) <= Reciprocal(1.0, k, depth) && Vote(lex, d, k, w) <= Reciprocal(w, k, depth)
    ensures BeforeIn(Fusion(dense, lex, k, w), dense[i], d)
  {
    InOrder(dense, lex);
    RankAt(dense, i, 0);
    TwoVotesLose(k, w, depth, n, i);
    VoteAtLeastZero(lex, dense[i], k, w);
    EarlierDense(dense, lex, depth, i, d);
    FusedBefore(dense, lex, k, w, dense[i], d);
  }

  /** In the dictionary's order an id in the dense list's top comes before one past it. */
  lemma {:induction false} EarlierDense(dense: seq<Id>, lex: seq<Id>, depth: nat, i: nat, d: Id)
    requires i < depth && i < |dense| && d in Order(dense, lex) && d !in Top(dense, depth)
    ensures BeforeIn(Order(dense, lex), dense[i], d)
  {
    var order := Order(dense, lex);
    var j :| 0 <= j < |order| && order[j] == d;
    assert forall x | 0 <= x < |Top(dense, depth)| :: order[x] == Top(dense, depth)[x];
    assert order[i] == dense[i] && i < j;
  }

  lemma {:induction false} VoteAtLeastZero(s: seq<Id>, d: Id, k: nat, weight: real)
    requires weight >= 0.0
    ensures Vote(s, d, k, weight) >= 0.0
  {
    var r := RankIn(s, d, 0);
    ReciprocalFalls(weight, k, r, r);
  }

  /** When few dense ids are admitted, a left-out id is lexical only, and the whole pool
      outranks it. */
  lemma {:induction false} AheadByPool(admitted: seq<Id>, lex: seq<Id>, k: nat, w: real, depth: nat, d: Id)
      returns (ahead: set<Id>)
    requires Distinct(admitted) && Distinct(lex) && w >= 0.0
    requires |admitted| <= depth && d !in Top(admitted, depth) && d in lex && d !in Top(lex, depth)
    ensures |ahead| >= depth
    ensures forall a | a in ahead :: BeforeIn(Fusion(admitted, lex, k, w), a, d)
  {
    InOrder(admitted, lex);
    var j := RankIn(lex, d, 0);
    assert j < |lex|;
    assert forall i | 0 <= i < |Top(lex, depth)| :: Top(lex, depth)[i] == lex[i] && lex[i] != d;
    assert depth <= j;
    ahead := Ids(lex[..depth]);
    Exactly(lex, depth);
    forall a | a in ahead ensures BeforeIn(Fusion(admitted, lex, k, w), a, d) {
      var i :| 0 <= i < depth && lex[..depth][i] == a;
      RankAt(lex, i, 0);
      ReciprocalFalls(w, k, i, j);
      VoteAtLeastZero(admitted, a, k, 1.0);
      OrderBefore(admitted, lex, i, j);
      FusedBefore(admitted, lex, k, w, a, d);
    }
  }

  /** Bounded fusion is exact at the top: as far as the bound reaches, its first `n` rows are
      the full fusion's, ties included. */
  lemma {:induction false} BoundedTopIsExact(dense: seq<Id>, lex: seq<Id>, admitN: nat, k: nat, w: real, depth: nat, n: nat)
    requires Distinct(dense) && Distinct(lex) && w >= 0.0
    requires Reaches(k, w, depth, n)
    ensures var full := Fusion(Admitted(dense, admitN), lex, k, w);
      Top(Filter(full, |full|, Bounded(dense, lex, admitN, depth)), n) == Top(full, n)
  {
    var full, work := Fusion(Admitted(dense, admitN), lex, k, w), Bounded(dense, lex, admitN, depth);
    var m := |Top(full, n)|;
    forall i: nat | i < m ensures full[i] in work {
      TopIsInside(dense, lex, admitN, k, w, depth, n, i);
    }
    FilterAll(full, m, work);
    FilterFrom(full, m, |full|, work);
    var kept := Filter(full, |full|, work);
    assert kept[..m] == full[..m];
    if m < n {
      assert full[..m] == full;
    }
  }

  lemma {:induction false} FusionIsDistinct(dense: seq<Id>, lex: seq<Id>, k: nat, w: real)
    requires Distinct(dense) && Distinct(lex)
    ensures Distinct(Fusion(dense, lex, k, w))
    ensures forall d :: d in Fusion(dense, lex, k, w) <==> d in dense || d in lex
  {
    var order := Order(dense, lex);
    var score := Scores(order, dense, lex, k, w);
    OrderDistinct(dense, lex);
    SortDistinct(order, |order|, score);
    SortKeeps(order, |order|, score);
    InOrder(dense, lex);
    assert order[..|order|] == order;
  }

  lemma {:induction false} TopIsInside(dense: seq<Id>, lex: seq<Id>, admitN: nat, k: nat, w: real, depth: nat, n: nat, i: nat)
    requires Distinct(dense) && Distinct(lex) && w >= 0.0
    requires Reaches(k, w, depth, n)
    requires i < n && i < |Fusion(Admitted(dense, admitN), lex, k, w)|
    ensures Fusion(Admitted(dense, admitN), lex, k, w)[i] in Bounded(dense, lex, admitN, depth)
  {
    var admitted := Admitted(dense, admitN);
    var full := Fusion(admitted, lex, k, w);
    FusionIsDistinct(admitted, lex, k, w);
    InOrder(admitted, lex);
    assert full[i] in full;
    if full[i] !in Bounded(dense, lex, admitN, depth) {
      var ahead := EnoughAhead(dense, lex, admitN, k, w, depth, n, full[i]);
      NotInTop(full, ahead, i, n);
    }
  }

  lemma {:induction false} FilterAll(s: seq<Id>, n: nat, keep: set<Id>)
    requires n <= |s| && forall i | 0 <= i < n :: s[i] in keep
    ensures Filter(s, n, keep) == s[..n]
  {
    if n > 0 {
      FilterAll(s, n - 1, keep);
    }
  }

  lemma {:induction false} FilterFrom(s: seq<Id>, m: nat, n: nat, keep: set<Id>)
    requires m <= n <= |s|
    ensures Filter(s, m, keep) <= Filter(s, n, keep)
    decreases n
  {
    if m < n {
      FilterFrom(s, m, n - 1, keep);
    }
  }

  // ---- what the fusion is ---------------------------------------------------------------------------

  /** A list's vote for an id: its weight over its rank counted from one and `k` more; nothing
      when it is not listed. */
  ghost predicate VoteIs(s: seq<Id>, d: Id, k: nat, weight: real, v: real) {
    if d in s then exists i :: 0 <= i < |s| && s[i] == d && v == weight / (k + i + 1) as real
    else v == 0.0
  }

  /** An id's score: the dense list's vote at weight one, and the lexical list's at its own. */
  ghost predicate ScoreIs(dense: seq<Id>, lex: seq<Id>, k: nat, w: real, d: Id, x: real) {
    exists u, v :: VoteIs(dense, d, k, 1.0, u) && VoteIs(lex, d, k, w, v) && x == u + v
  }

  /** Of two ids the one earlier in the dense list comes in first, and one not in it last, by
      the lexical list. */
  ghost predicate EntersBefore(dense: seq<Id>, lex: seq<Id>, a: Id, b: Id) {
    BeforeIn(dense, a, b) || (b !in dense && (a in dense || BeforeIn(lex, a, b)))
  }

  /** An id scores higher than another, or as much and came in first. */
  ghost predicate Outranks(dense: seq<Id>, lex: seq<Id>, k: nat, w: real, a: Id, b: Id) {
    exists x, y :: ScoreIs(dense, lex, k, w, a, x) && ScoreIs(dense, lex, k, w, b, y)
      && (x > y || (x == y && EntersBefore(dense, lex, a, b)))
  }

  /** A ranking of the ids of two lists that are in `keep`, each once, by that order. */
  ghost predicate Ranks(f: seq<Id>, dense: seq<Id>, lex: seq<Id>, k: nat, w: real, keep: set<Id>) {
    && Distinct(f) && (forall d :: d in f <==> d in keep && (d in dense || d in lex))
    && forall i, j | 0 <= i < j < |f| :: Outranks(dense, lex, k, w, f[i], f[j])
  }

  lemma {:induction false} VoteIsThat(s: seq<Id>, d: Id, k: nat, weight: real)
    requires Distinct(s)
    ensures VoteIs(s, d, k, weight, Vote(s, d, k, weight))
  {
    var r := RankIn(s, d, 0);
    if d in s {
      var i :| 0 <= i < |s| && s[i] == d;
      RankAt(s, i, 0);
    }
  }

  lemma {:induction false} ScoreIsThat(dense: seq<Id>, lex: seq<Id>, k: nat, w: real, d: Id)
    requires Distinct(dense) && Distinct(lex)
    ensures ScoreIs(dense, lex, k, w, d, Score(dense, lex, k, w, d))
  {
    VoteIsThat(dense, d, k, 1.0);
    VoteIsThat(lex, d, k, w);
  }

  lemma {:induction false} OneFirst(s: seq<Id>, a: Id, b: Id)
    requires a in s && b in s && a != b
    ensures BeforeIn(s, a, b) || BeforeIn(s, b, a)
  {
    var i :| 0 <= i < |s| && s[i] == a;
    var j :| 0 <= j < |s| && s[j] == b;
  }

  lemma {:induction false} EntersFirst(dense: seq<Id>, lex: seq<Id>, a: Id, b: Id)
    requires EntersBefore(dense, lex, a, b) && (a in dense || a in lex) && (b in dense || b in lex)
    ensures BeforeIn(Order(dense, lex), a, b)
  {
    var order := Order(dense, lex);
    if BeforeIn(dense, a, b) {
      var i, j :| 0 <= i < j < |dense| && dense[i] == a && dense[j] == b;
      assert order[i] == a && order[j] == b;
    } else if BeforeIn(lex, a, b) {
      var i, j :| 0 <= i < j < |lex| && lex[i] == a && lex[j] == b;
      OrderBefore(dense, lex, i, j);
    } else {
      InOrder(dense, lex);
      var i :| 0 <= i < |dense| && dense[i] == a;
      var j :| 0 <= j < |order| && order[j] == b;
      assert order[i] == a && (j < |dense| ==> dense[j] == b);
    }
  }

  lemma {:induction false} OneEnters(dense: seq<Id>, lex: seq<Id>, a: Id, b: Id)
    requires a != b && (a in dense || a in lex) && (b in dense || b in lex)
    ensures EntersBefore(dense, lex, a, b) || EntersBefore(dense, lex, b, a)
  {
    if a in dense && b in dense {
      OneFirst(dense, a, b);
    } else if a !in dense && b !in dense {
      OneFirst(lex, a, b);
    }
  }

  lemma {:induction false} NotBoth(s: seq<Id>, i: nat, j: nat)
    requires Distinct(s) && i < j < |s|
    ensures !BeforeIn(s, s[j], s[i])
  {
  }

  lemma {:induction false} FusedOutranks(dense: seq<Id>, lex: seq<Id>, k: nat, w: real, i: nat, j: nat)
    requires Distinct(dense) && Distinct(lex) && i < j < |Fusion(dense, lex, k, w)|
    ensures Outranks(dense, lex, k, w, Fusion(dense, lex, k, w)[i], Fusion(dense, lex, k, w)[j])
  {
    var f := Fusion(dense, lex, k, w);
    var a, b := f[i], f[j];
    FusionIsDistinct(dense, lex, k, w);
    InOrder(dense, lex);
    assert a in f && b in f;
    NotBoth(f, i, j);
    ScoreIsThat(dense, lex, k, w, a);
    ScoreIsThat(dense, lex, k, w, b);
    OneEnters(dense, lex, a, b);
    if EntersBefore(dense, lex, b, a) {
      EntersFirst(dense, lex, b, a);
    }
    if Score(dense, lex, k, w, a) < Score(dense, lex, k, w, b)
      || (Score(dense, lex, k, w, a) == Score(dense, lex, k, w, b) && !EntersBefore(dense, lex, a, b)) {
      FusedBefore(dense, lex, k, w, b, a);
      assert false;
    }
  }

  /** The fusion ranks every id of the two lists by that order. */
  lemma {:induction false} FusionRanks(dense: seq<Id>, lex: seq<Id>, k: nat, w: real)
    requires Distinct(dense) && Distinct(lex)
    ensures Ranks(Fusion(dense, lex, k, w), dense, lex, k, w, Ids(dense) + Ids(lex))
  {
    var f := Fusion(dense, lex, k, w);
    FusionIsDistinct(dense, lex, k, w);
    forall i, j | 0 <= i < j < |f| ensures Outranks(dense, lex, k, w, f[i], f[j]) {
      FusedOutranks(dense, lex, k, w, i, j);
    }
  }

  /** Two kept ids stand in the list in the order they are kept in. */
  lemma {:induction false} KeptFrom(s: seq<Id>, n: nat, keep: set<Id>, i: nat, j: nat) returns (a: nat, b: nat)
    requires n <= |s| && i < j < |Filter(s, n, keep)|
    ensures a < b < n && s[a] == Filter(s, n, keep)[i] && s[b] == Filter(s, n, keep)[j]
  {
    var before := Filter(s, n - 1, keep);
    if j < |before| {
      a, b := KeptFrom(s, n - 1, keep, i, j);
    } else {
      b := n - 1;
      FilterHolds(s, n - 1, keep);
      assert before[i] in before;
      a :| 0 <= a < n - 1 && s[..n-1][a] == before[i];
    }
  }

  lemma {:induction false} FilteredRanks(f: seq<Id>, dense: seq<Id>, lex: seq<Id>, k: nat, w: real, keep: set<Id>)
    requires Ranks(f, dense, lex, k, w, Ids(dense) + Ids(lex))
    ensures Ranks(Filter(f, |f|, keep), dense, lex, k, w, keep)
  {
    var kept := Filter(f, |f|, keep);
    FilterHolds(f, |f|, keep);
    FilterDistinct(f, |f|, keep);
    assert f[..|f|] == f;
    forall i, j | 0 <= i < j < |kept| ensures Outranks(dense, lex, k, w, kept[i], kept[j]) {
      var a, b := KeptFrom(f, |f|, keep, i, j);
    }
  }

  /** With a candidate subset the fusion is exact throughout: the working set keeps every
      allowed id, so what comes out is the full fusion filtered to the subset. */
  lemma {:induction false} CandidatesAreExact(dense: seq<Id>, lex: seq<Id>, admitN: nat, k: nat, w: real, allowed: set<Id>)
    requires Distinct(dense) && Distinct(lex)
    ensures var full := Fusion(Admitted(dense, admitN), lex, k, w);
      Filter(full, |full|, Working(Admitted(dense, admitN), lex, allowed, allowed)) == Filter(full, |full|, allowed)
  {
    var admitted := Admitted(dense, admitN);
    var full := Fusion(admitted, lex, k, w);
    FusionIsDistinct(admitted, lex, k, w);
    assert forall i | 0 <= i < |full| :: full[i] in full;
    FilterSame(full, |full|, Working(admitted, lex, allowed, allowed), allowed);
  }

  /** The working set itself: the first `depth` of each list is what the code takes. */
  lemma {:induction false} TopIsFilter(s: seq<Id>, depth: nat)
    requires Distinct(s)
    ensures Top(s, depth) == Filter(s, |s|, Ids(Top(s, depth)))
  {
    var top := Top(s, depth);
    forall i | |top| <= i < |s| ensures s[i] !in top {
      assert forall j | 0 <= j < |top| :: top[j] == s[j];
    }
    assert forall i | 0 <= i < |top| :: s[i] == top[i] && top[i] in top;
    FilterNone(s, |top|, |s|, Ids(top));
    FilterAll(s, |top|, Ids(top));
  }

  /** Bounded-depth fusion as the replay runs it without candidates. */
  method FuseBounded(dense: seq<Id>, lex: seq<Id>, admitN: nat, k: nat, w: real, depth: nat)
      returns (fused: seq<Id>)
    requires Distinct(dense) && Distinct(lex) && w >= 0.0
    ensures forall n: nat | Reaches(k, w, depth, n) ::
      Top(fused, n) == Top(Fusion(Admitted(dense, admitN), lex, k, w), n)
    ensures Ranks(Fusion(Admitted(dense, admitN), lex, k, w), Top(dense, admitN), lex, k, w, Ids(Top(dense, admitN)) + Ids(lex))
  {
    FusionRanks(Admitted(dense, admitN), lex, k, w);
    var wDense, pool := Top(dense, depth), Top(lex, depth);
    TopIsFilter(dense, depth);
    TopIsFilter(lex, depth);
    fused := Fuse(dense, lex, wDense, pool, admitN, k, w, Ids(wDense), Ids(pool));
    forall n: nat | Reaches(k, w, depth, n)
      ensures Top(fused, n) == Top(Fusion(Admitted(dense, admitN), lex, k, w), n)
    {
      BoundedTopIsExact(dense, lex, admitN, k, w, depth, n);
    }
  }

  /** Fusion as the replay runs it over a candidate subset. */
  method FuseCandidates(dense: seq<Id>, lex: seq<Id>, admitN: nat, k: nat, w: real, allowed: set<Id>)
      returns (fused: seq<Id>)
    requires Distinct(dense) && Distinct(lex)
    ensures var full := Fusion(Admitted(dense, admitN), lex, k, w); fused == Filter(full, |full|, allowed)
    ensures Ranks(fused, Top(dense, admitN), lex, k, w, allowed)
  {
    FusionRanks(Admitted(dense, admitN), lex, k, w);
    FilteredRanks(Fusion(Admitted(dense, admitN), lex, k, w), Admitted(dense, admitN), lex, k, w, allowed);
    CandidatesAreExact(dense, lex, admitN, k, w, allowed);
    fused := Fuse(dense, lex, Filter(dense, |dense|, allowed), Filter(lex, |lex|, allowed), admitN, k, w,
                  allowed, allowed);
  }

  // ---- the bound is needed ----------------------------------------------------------------------

  /** Past the bound, an id that stands just below the depth in both lists outranks
      everything either list holds above it, and the bounded fusion misses it. */
  lemma {:induction false} PastTheBound(dense: seq<Id>, lex: seq<Id>, k: nat, w: real, depth: nat)
    requires Distinct(dense) && Distinct(lex) && 0.0 <= w <= 1.0
    requires depth < |dense| && depth < |lex| && dense[depth] == lex[depth]
    requires forall d | d in Top(dense, depth) :: d !in lex
    requires forall d | d in Top(lex, depth) :: d !in dense
    requires (1.0 + w) * (k + 1) as real > (k + depth + 1) as real
    ensures var full := Fusion(dense, lex, k, w);
      Top(Filter(full, |full|, Bounded(dense, lex, |dense|, depth)), 1) != Top(full, 1)
  {
    var full, work, e := Fusion(dense, lex, k, w), Bounded(dense, lex, |dense|, depth), dense[depth];
    FusionIsDistinct(dense, lex, k, w);
    assert e in full;
    assert full[0] in full;
    assert full[0] !in work by {
      if full[0] in work {
        LosesTo(dense, lex, k, w, depth, full[0]);
        FirstIsFirst(full, e);
      }
    }
    var bounded := Filter(full, |full|, work);
    FilterHolds(full, |full|, work);
    assert bounded != [] ==> bounded[0] in bounded;
  }

  lemma {:induction false} FirstIsFirst(s: seq<Id>, a: Id)
    requires Distinct(s) && s != []
    ensures !BeforeIn(s, a, s[0])
  {
  }

  lemma {:induction false} LosesTo(dense: seq<Id>, lex: seq<Id>, k: nat, w: real, depth: nat, x: Id)
    requires Distinct(dense) && Distinct(lex) && 0.0 <= w <= 1.0
    requires depth < |dense| && depth < |lex| && dense[depth] == lex[depth]
    requires forall d | d in Top(dense, depth) :: d !in lex
    requires forall d | d in Top(lex, depth) :: d !in dense
    requires (1.0 + w) * (k + 1) as real > (k + depth + 1) as real
    requires x in Bounded(dense, lex, |dense|, depth)
    ensures BeforeIn(Fusion(dense, lex, k, w), dense[depth], x)
  {
    InOrder(dense, lex);
    JustBelowOutranks(dense, lex, k, w, depth);
    OnlyOneVote(dense, lex, k, w, depth, x);
    FusedBefore(dense, lex, k, w, dense[depth], x);
  }

  lemma {:induction false} JustBelowOutranks(dense: seq<Id>, lex: seq<Id>, k: nat, w: real, depth: nat)
    requires Distinct(dense) && Distinct(lex) && 0.0 <= w <= 1.0
    requires depth < |dense| && depth < |lex| && dense[depth] == lex[depth]
    requires (1.0 + w) * (k + 1) as real > (k + depth + 1) as real
    ensures Score(dense, lex, k, w, dense[depth]) > 1.0 / (k + 1) as real
  {
    RankAt(dense, depth, 0);
    RankAt(lex, depth, 0);
    SumOver(w, (k + depth + 1) as real);
    OverProduct(1.0 + w, (k + 1) as real, (k + depth + 1) as real);
  }

  lemma {:induction false} OnlyOneVote(dense: seq<Id>, lex: seq<Id>, k: nat, w: real, depth: nat, x: Id)
    requires 0.0 <= w <= 1.0
    requires forall d | d in Top(dense, depth) :: d !in lex
    requires forall d | d in Top(lex, depth) :: d !in dense
    requires x in Bounded(dense, lex, |dense|, depth)
    ensures Score(dense, lex, k, w, x) <= 1.0 / (k + 1) as real
  {
    assert x in Top(dense, depth) || x in Top(lex, depth);
    OneVote(dense, x, k, 1.0);
    OneVote(lex, x, k, w);
  }

  /** One vote of weight at most one. */
  lemma {:induction false} OneVote(s: seq<Id>, d: Id, k: nat, weight: real)
    requires 0.0 <= weight <= 1.0
    ensures Vote(s, d, k, weight) <= 1.0 / (k + 1) as real
    ensures d !in s ==> Vote(s, d, k, weight) == 0.0
  {
    var r := RankIn(s, d, 0);
    ReciprocalFalls(weight, k, 0, r);
    Times(1.0 / (k + 1) as real, weight, 1.0);
    assert weight / (k + 1) as real == (1.0 / (k + 1) as real) * weight;
  }

  lemma {:induction false} OverProduct(x: real, near: real, far: real)
    requires near > 0.0 && far > 0.0 && x * near > far
    ensures x / far > 1.0 / near
  {
    assert (x / far) * far == x && (1.0 / near) * near == 1.0;
    StrictTimes(x * near, far, 1.0 / near);
    assert (x * near) * (1.0 / near) == x * (near * (1.0 / near)) == x;
    if x / far <= 1.0 / near {
      Times(far, x / far, 1.0 / near);
    }
  }
}
