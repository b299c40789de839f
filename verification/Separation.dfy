/** The two-population threshold (cpersona/admin_handlers.py, `_separation_threshold`), over
    the reals: where sensitivity and weighted specificity are best, first where they tie. */
module Separation {
  import opened Common

  ghost predicate Sorted(s: seq<real>) {
    forall i, j | 0 <= i < j < |s| :: s[i] <= s[j]
  }

  /** How many of the first `n` values are at least `c`. */
  function Count(s: seq<real>, n: nat, c: real): (k: nat)
    requires n <= |s|
    ensures k <= n
  {
    if n == 0 then 0 else Count(s, n - 1, c) + if s[n-1] >= c then 1 else 0
  }

  /** The places of a population a threshold admits. */
  function AtLeast(s: seq<real>, n: nat, c: real): set<nat>
    requires n <= |s|
  {
    set i: nat | i < n && s[i] >= c
  }

  /** The fraction of a population a threshold admits. */
  function Tail(s: seq<real>, c: real): real
    requires s != []
  {
    |AtLeast(s, |s|, c)| as real / |s| as real
  }

  lemma {:induction false} CountIs(s: seq<real>, n: nat, c: real)
    requires n <= |s|
    ensures Count(s, n, c) == |AtLeast(s, n, c)|
  {
    if n > 0 {
      CountIs(s, n - 1, c);
      OneMoreIn(AtLeast(s, n - 1, c), AtLeast(s, n, c), n - 1, s[n-1] >= c);
    }
  }

  // ---- counting by sort and search ---------------------------------------------------------

  function Place(s: seq<real>, x: real, n: nat): (p: nat)
    requires n <= |s|
    ensures n <= p <= |s|
    ensures forall i | n <= i < p :: s[i] <= x
    ensures p < |s| ==> s[p] > x
    decreases |s| - n
  {
    if n == |s| || s[n] > x then n else Place(s, x, n + 1)
  }

  function Insert(s: seq<real>, x: real): (r: seq<real>)
    ensures |r| == |s| + 1
  {
    s[..Place(s, x, 0)] + [x] + s[Place(s, x, 0)..]
  }

  function Sort(s: seq<real>, n: nat): (r: seq<real>)
    requires n <= |s|
    ensures |r| == n
  {
    if n == 0 then [] else Insert(Sort(s, n - 1), s[n-1])
  }

  lemma {:induction false} CountJoined(a: seq<real>, b: seq<real>, n: nat, c: real)
    requires n <= |b|
    ensures Count(a + b, |a| + n, c) == Count(a, |a|, c) + Count(b, n, c)
  {
    if n > 0 {
      CountJoined(a, b, n - 1, c);
    } else {
      CountPrefix(a, b, |a|, c);
    }
  }

  lemma {:induction false} CountPrefix(a: seq<real>, b: seq<real>, n: nat, c: real)
    requires n <= |a|
    ensures Count(a + b, n, c) == Count(a, n, c)
  {
    if n > 0 {
      CountPrefix(a, b, n - 1, c);
    }
  }

  lemma {:induction false} InsertCount(s: seq<real>, x: real, c: real)
    ensures Count(Insert(s, x), |s| + 1, c) == Count(s, |s|, c) + if x >= c then 1 else 0
  {
    var p := Place(s, x, 0);
    assert s[..p] + s[p..] == s;
    WedgedCount(s[..p], x, s[p..], c);
  }

  lemma {:induction false} WedgedCount(a: seq<real>, x: real, b: seq<real>, c: real)
    ensures Count(a + [x] + b, |a| + 1 + |b|, c) == Count(a + b, |a| + |b|, c) + if x >= c then 1 else 0
  {
    CountJoined(a, b, |b|, c);
    CountJoined(a + [x], b, |b|, c);
    CountJoined(a, [x], 1, c);
    CountOne(x, c);
  }

  lemma {:induction false} CountOne(x: real, c: real)
    ensures Count([x], 1, c) == if x >= c then 1 else 0
  {
    assert Count([x], 0, c) == 0;
  }

  lemma {:induction false} SortKeeps(s: seq<real>, n: nat, c: real)
    requires n <= |s|
    ensures Sorted(Sort(s, n)) && Count(Sort(s, n), n, c) == Count(s, n, c)
  {
    if n > 0 {
      SortKeeps(s, n - 1, c);
      InsertSorted(Sort(s, n - 1), s[n-1]);
      InsertCount(Sort(s, n - 1), s[n-1], c);
    }
  }

  lemma {:induction false} InsertSorted(s: seq<real>, x: real)
    requires Sorted(s)
    ensures Sorted(Insert(s, x))
  {
    var p := Place(s, x, 0);
    var r := Insert(s, x);
    forall i, j | 0 <= i < j < |r| ensures r[i] <= r[j] {
      assert r[i] == if i < p then s[i] else if i == p then x else s[i-1];
      assert r[j] == if j < p then s[j] else if j == p then x else s[j-1];
    }
  }

  /** In sorted order the values at least `c` are the stretch from the first of them on. */
  lemma {:induction false} CountFrom(s: seq<real>, n: nat, c: real, at: nat)
    requires n <= |s| && at <= |s|
    requires forall i | 0 <= i < |s| :: s[i] >= c <==> i >= at
    ensures Count(s, n, c) == if n <= at then 0 else n - at
  {
    if n > 0 {
      CountFrom(s, n - 1, c, at);
    }
  }

  /** `searchsorted(side="left")`. */
  method SearchLeft(s: seq<real>, c: real) returns (at: nat)
    requires Sorted(s)
    ensures at <= |s| && forall i | 0 <= i < |s| :: s[i] >= c <==> i >= at
  {
    var lo, hi := 0, |s|;
    while lo < hi
      invariant 0 <= lo <= hi <= |s|
      invariant forall i | 0 <= i < lo :: s[i] < c
      invariant forall i | hi <= i < |s| :: s[i] >= c
    {
      var mid := (lo + hi) / 2;
      if s[mid] < c {
        lo := mid + 1;
      } else {
        hi := mid;
      }
    }
    at := lo;
  }

  /** The tail fractions of a population at every candidate, by one sort and a search each:
      the direct counts. */
  method TailFractions(values: seq<real>, candidates: seq<real>) returns (r: seq<real>)
    requires values != []
    ensures |r| == |candidates| && forall i | 0 <= i < |r| :: r[i] == Tail(values, candidates[i])
  {
    var ordered := Sort(values, |values|);
    r := [];
    var i := 0;
    while i < |candidates|
      invariant 0 <= i == |r| <= |candidates|
      invariant forall j | 0 <= j < i :: r[j] == Tail(values, candidates[j])
    {
      SortKeeps(values, |values|, candidates[i]);
      var at := SearchLeft(ordered, candidates[i]);
      CountFrom(ordered, |ordered|, candidates[i], at);
      CountIs(values, |values|, candidates[i]);
      r := r + [(|ordered| - at) as real / |ordered| as real];
      i := i + 1;
    }
  }

  // ---- the threshold -------------------------------------------------------------------------

  /** `linspace(lo, hi, n)` */
  function Candidate(lo: real, hi: real, n: nat, i: nat): real
    requires n > 1
  {
    lo + (hi - lo) * i as real / (n - 1) as real
  }

  function Candidates(lo: real, hi: real, n: nat, k: nat): (r: seq<real>)
    requires n > 1
    ensures |r| == k && forall i | 0 <= i < k :: r[i] == Candidate(lo, hi, n, i)
  {
    if k == 0 then [] else Candidates(lo, hi, n, k - 1) + [Candidate(lo, hi, n, k - 1)]
  }

  lemma {:induction false} CandidatesAscend(lo: real, hi: real, n: nat, i: nat, j: nat)
    requires n > 1 && lo <= hi && i <= j
    ensures Candidate(lo, hi, n, i) <= Candidate(lo, hi, n, j)
  {
    var w, d := hi - lo, (n - 1) as real;
    Raise(w, i as real, j as real);
    Over(w * i as real, w * j as real, d);
  }

  lemma {:induction false} Raise(w: real, a: real, b: real)
    requires w >= 0.0 && a <= b
    ensures w * a <= w * b
  {
  }

  lemma {:induction false} Over(a: real, b: real, d: real)
    requires a <= b && d > 0.0
    ensures a / d <= b / d
  {
    var gap := (b - a) / d;
    assert b / d == a / d + gap && gap >= 0.0;
  }

  /** Sensitivity plus weighted specificity at a threshold. */
  function Objective(pos: seq<real>, nul: seq<real>, beta: real, c: real): real
    requires pos != [] && nul != []
  {
    Tail(pos, c) + beta * (1.0 - Tail(nul, c))
  }

  /** The first candidate where the objective is greatest. */
  ghost predicate FirstBest(pos: seq<real>, nul: seq<real>, beta: real, cs: seq<real>, best: nat)
    requires pos != [] && nul != []
  {
    && best < |cs|
    && (forall i | 0 <= i < |cs| :: Objective(pos, nul, beta, cs[i]) <= Objective(pos, nul, beta, cs[best]))
    && (forall i | 0 <= i < best :: Objective(pos, nul, beta, cs[i]) < Objective(pos, nul, beta, cs[best]))
  }

  lemma {:induction false} CountFalls(s: seq<real>, n: nat, c: real, d: real)
    requires n <= |s| && c <= d
    ensures Count(s, n, d) <= Count(s, n, c)
  {
    if n > 0 {
      CountFalls(s, n - 1, c, d);
    }
  }

  lemma {:induction false} TailFalls(s: seq<real>, c: real, d: real)
    requires s != [] && c <= d
    ensures Tail(s, d) <= Tail(s, c)
  {
    CountFalls(s, |s|, c, d);
    CountIs(s, |s|, c);
    CountIs(s, |s|, d);
    Over(Count(s, |s|, d) as real, Count(s, |s|, c) as real, |s| as real);
  }

  /** A stricter precision never lowers the operating point. */
  lemma {:induction false} BestRises(pos: seq<real>, nul: seq<real>, lenient: real, strict: real, cs: seq<real>, i: nat, j: nat)
    requires pos != [] && nul != [] && lenient <= strict
    requires forall a, b | 0 <= a < b < |cs| :: cs[a] <= cs[b]
    requires FirstBest(pos, nul, lenient, cs, i) && FirstBest(pos, nul, strict, cs, j)
    ensures i <= j
  {
    if j < i {
      var s, t := 1.0 - Tail(nul, cs[i]), 1.0 - Tail(nul, cs[j]);
      TailFalls(nul, cs[j], cs[i]);
      Raise(s - t, lenient, strict);
      Spread(strict, s, t);
      Spread(lenient, s, t);
    }
  }

  lemma {:induction false} Spread(x: real, s: real, t: real)
    ensures x * s - x * t == (s - t) * x
  {
  }

  function Max(a: real, b: real): real {
    if a >= b then a else b
  }

  function Least(s: seq<real>, n: nat): (m: real)
    requires 0 < n <= |s|
    ensures m in s[..n] && forall i | 0 <= i < n :: m <= s[i]
  {
    if n == 1 then s[0] else if Least(s, n - 1) <= s[n-1] then Least(s, n - 1) else s[n-1]
  }

  function Greatest(s: seq<real>, n: nat): (m: real)
    requires 0 < n <= |s|
    ensures m in s[..n] && forall i | 0 <= i < n :: s[i] <= m
  {
    if n == 1 then s[0] else if Greatest(s, n - 1) >= s[n-1] then Greatest(s, n - 1) else s[n-1]
  }

  function Low(nul: seq<real>, pos: seq<real>): real
    requires pos != [] && nul != []
  {
    if Least(nul, |nul|) <= Least(pos, |pos|) then Least(nul, |nul|) else Least(pos, |pos|)
  }

  function High(nul: seq<real>, pos: seq<real>): real
    requires pos != [] && nul != []
  {
    Max(Greatest(nul, |nul|), Greatest(pos, |pos|))
  }

  /** The least and the greatest of the two populations. */
  ghost predicate Ranges(lo: real, hi: real, nul: seq<real>, pos: seq<real>) {
    && lo in nul + pos && hi in nul + pos && forall x | x in nul + pos :: lo <= x <= hi
  }

  lemma {:induction false} RangeIs(nul: seq<real>, pos: seq<real>)
    requires pos != [] && nul != []
    ensures Ranges(Low(nul, pos), High(nul, pos), nul, pos)
  {
    assert nul[..|nul|] == nul && pos[..|pos|] == pos;
    forall x | x in nul + pos ensures Low(nul, pos) <= x <= High(nul, pos) {
      assert x in nul || x in pos;
    }
  }

  /** Evenly spaced candidates from one end of the range to the other. */
  ghost predicate Spans(cs: seq<real>, lo: real, hi: real, n: nat) {
    && |cs| == n > 1 && cs[0] == lo && cs[n-1] == hi
    && forall i | 0 < i < n - 1 :: cs[i+1] - cs[i] == cs[i] - cs[i-1]
  }

  lemma {:induction false} CandidatesSpan(lo: real, hi: real, n: nat)
    requires n > 1
    ensures Spans(Candidates(lo, hi, n, n), lo, hi, n)
  {
    var cs, d := Candidates(lo, hi, n, n), (n - 1) as real;
    Whole(hi - lo, d);
    forall i | 0 < i < n - 1 ensures cs[i+1] - cs[i] == cs[i] - cs[i-1] {
      OneStep(lo, hi, n, i);
      OneStep(lo, hi, n, i - 1);
    }
  }

  lemma {:induction false} Whole(w: real, d: real)
    requires d > 0.0
    ensures w * d / d == w && w * 0.0 / d == 0.0
  {
  }

  lemma {:induction false} OneStep(lo: real, hi: real, n: nat, i: nat)
    requires n > 1
    ensures Candidate(lo, hi, n, i + 1) == Candidate(lo, hi, n, i) + (hi - lo) / (n - 1) as real
  {
    var w, d := hi - lo, (n - 1) as real;
    assert w * (i + 1) as real == w * i as real + w;
    Apart(w * i as real, w, d);
  }

  lemma {:induction false} Apart(a: real, b: real, d: real)
    requires d > 0.0
    ensures (a + b) / d == a / d + b / d
  {
  }

  lemma {:induction false} EvenlySpaced(cs: seq<real>, lo: real, hi: real, n: nat, i: nat)
    requires Spans(cs, lo, hi, n) && i < n
    ensures cs[i] == lo + i as real * (cs[1] - lo)
  {
    if i > 1 {
      EvenlySpaced(cs, lo, hi, n, i - 1);
      EvenlySpaced(cs, lo, hi, n, i - 2);
      Steps(i - 1, cs[1] - lo);
      Steps(i - 2, cs[1] - lo);
    }
  }

  lemma {:induction false} Steps(i: nat, x: real)
    ensures (i + 1) as real * x == i as real * x + x
  {
  }

  /** There is one such list. */
  lemma {:induction false} SpansOnce(cs: seq<real>, lo: real, hi: real, n: nat)
    requires Spans(cs, lo, hi, n)
    ensures cs == Candidates(lo, hi, n, n)
  {
    var d := (n - 1) as real;
    EvenlySpaced(cs, lo, hi, n, n - 1);
    forall i | 0 <= i < n ensures cs[i] == Candidate(lo, hi, n, i) {
      EvenlySpaced(cs, lo, hi, n, i);
      Divided(cs[1] - lo, hi - lo, d, i as real);
    }
  }

  lemma {:induction false} Divided(x: real, w: real, d: real, i: real)
    requires d > 0.0 && d * x == w
    ensures i * x == w * i / d
  {
    assert w * i == (i * x) * d;
    Whole(i * x, d);
  }

  /** What the threshold is: over the range of the two populations, the first of `n` evenly
      spaced candidates where the objective is greatest, but no less than the floor, and the
      true TPR - FPR there; a population of one value has only that value. */
  ghost predicate IsThreshold(nul: seq<real>, pos: seq<real>, floor: real, beta: real, n: nat, threshold: real, youden: real)
    requires pos != [] && nul != [] && n > 1
  {
    exists lo, hi :: Ranges(lo, hi, nul, pos) && ThresholdOver(nul, pos, floor, beta, n, lo, hi, threshold, youden)
  }

  ghost predicate ThresholdOver(nul: seq<real>, pos: seq<real>, floor: real, beta: real, n: nat, lo: real, hi: real,
                                threshold: real, youden: real)
    requires pos != [] && nul != [] && n > 1
  {
    if hi <= lo then threshold == Max(lo, floor) && youden == 0.0
    else exists cs, best: nat :: Spans(cs, lo, hi, n) && SitsAt(nul, pos, floor, beta, cs, best, threshold, youden)
  }

  ghost predicate SitsAt(nul: seq<real>, pos: seq<real>, floor: real, beta: real, cs: seq<real>, best: nat, threshold: real, youden: real)
    requires pos != [] && nul != []
  {
    && FirstBest(pos, nul, beta, cs, best)
    && threshold == Max(cs[best], floor) && youden == Tail(pos, cs[best]) - Tail(nul, cs[best])
  }

  /** `argmax` of the objective, from the tail fractions at each candidate. */
  method FirstArgmax(nul: seq<real>, pos: seq<real>, beta: real, cs: seq<real>, tpr: seq<real>, fpr: seq<real>) returns (best: nat)
    requires pos != [] && nul != [] && cs != [] && |tpr| == |fpr| == |cs|
    requires forall i | 0 <= i < |cs| :: tpr[i] == Tail(pos, cs[i]) && fpr[i] == Tail(nul, cs[i])
    ensures FirstBest(pos, nul, beta, cs, best)
  {
    best := 0;
    var i := 1;
    while i < |cs|
      invariant 1 <= i <= |cs| && best < i
      invariant forall j | 0 <= j < i :: Objective(pos, nul, beta, cs[j]) <= Objective(pos, nul, beta, cs[best])
      invariant forall j | 0 <= j < best :: Objective(pos, nul, beta, cs[j]) < Objective(pos, nul, beta, cs[best])
    {
      assert tpr[i] + beta * (1.0 - fpr[i]) == Objective(pos, nul, beta, cs[i]);
      assert tpr[best] + beta * (1.0 - fpr[best]) == Objective(pos, nul, beta, cs[best]);
      if tpr[i] + beta * (1.0 - fpr[i]) > tpr[best] + beta * (1.0 - fpr[best]) {
        best := i;
      }
      i := i + 1;
    }
  }

  /** The threshold of two populations. */
  method Threshold(nul: seq<real>, pos: seq<real>, floor: real, beta: real, n: nat) returns (threshold: real, youden: real)
    requires pos != [] && nul != [] && n > 1
    ensures IsThreshold(nul, pos, floor, beta, n, threshold, youden)
  {
    var lo, hi := Low(nul, pos), High(nul, pos);
    RangeIs(nul, pos);
    if hi <= lo {
      threshold, youden := Max(lo, floor), 0.0;
      assert ThresholdOver(nul, pos, floor, beta, n, lo, hi, threshold, youden);
      return;
    }
    var cs := Candidates(lo, hi, n, n);
    CandidatesSpan(lo, hi, n);
    var tpr := TailFractions(pos, cs);
    var fpr := TailFractions(nul, cs);
    var best := FirstArgmax(nul, pos, beta, cs, tpr, fpr);
    threshold, youden := Max(cs[best], floor), tpr[best] - fpr[best];
    assert SitsAt(nul, pos, floor, beta, cs, best, threshold, youden);
    assert ThresholdOver(nul, pos, floor, beta, n, lo, hi, threshold, youden);
  }

  /** A stricter precision never lowers the gate: on the same populations and floor the
      threshold is nondecreasing in the weight of specificity. */
  lemma {:induction false} StricterNeverLowers(nul: seq<real>, pos: seq<real>, floor: real, n: nat,
                                               lenient: real, strict: real, low: real, lowJ: real, high: real, highJ: real)
    requires pos != [] && nul != [] && n > 1 && lenient <= strict
    requires IsThreshold(nul, pos, floor, lenient, n, low, lowJ) && IsThreshold(nul, pos, floor, strict, n, high, highJ)
    ensures low <= high
  {
    var lo, hi := Low(nul, pos), High(nul, pos);
    ThresholdIs(nul, pos, floor, lenient, n, low, lowJ);
    ThresholdIs(nul, pos, floor, strict, n, high, highJ);
    if lo < hi {
      var cs := Candidates(lo, hi, n, n);
      AllAscend(lo, hi, n);
      RisesOver(nul, pos, floor, lenient, strict, cs, low, lowJ, high, highJ);
    }
  }

  lemma {:induction false} RisesOver(nul: seq<real>, pos: seq<real>, floor: real, lenient: real, strict: real, cs: seq<real>,
                                     low: real, lowJ: real, high: real, highJ: real)
    requires pos != [] && nul != [] && lenient <= strict && forall a, b | 0 <= a <= b < |cs| :: cs[a] <= cs[b]
    requires exists i: nat :: SitsAt(nul, pos, floor, lenient, cs, i, low, lowJ)
    requires exists j: nat :: SitsAt(nul, pos, floor, strict, cs, j, high, highJ)
    ensures low <= high
  {
    var i: nat :| SitsAt(nul, pos, floor, lenient, cs, i, low, lowJ);
    var j: nat :| SitsAt(nul, pos, floor, strict, cs, j, high, highJ);
    BestRises(pos, nul, lenient, strict, cs, i, j);
    assert cs[i] <= cs[j];
  }

  lemma {:induction false} AllAscend(lo: real, hi: real, n: nat)
    requires n > 1 && lo <= hi
    ensures var cs := Candidates(lo, hi, n, n); forall a, b | 0 <= a <= b < |cs| :: cs[a] <= cs[b]
  {
    forall a: nat, b: nat | a <= b < n ensures Candidate(lo, hi, n, a) <= Candidate(lo, hi, n, b) {
      CandidatesAscend(lo, hi, n, a, b);
    }
  }

  /** Over the range there is, on the candidates there are. */
  lemma {:induction false} ThresholdIs(nul: seq<real>, pos: seq<real>, floor: real, beta: real, n: nat, threshold: real, youden: real)
    requires pos != [] && nul != [] && n > 1 && IsThreshold(nul, pos, floor, beta, n, threshold, youden)
    ensures var lo, hi := Low(nul, pos), High(nul, pos);
      if hi <= lo then threshold == Max(lo, floor) && youden == 0.0
      else exists best: nat :: SitsAt(nul, pos, floor, beta, Candidates(lo, hi, n, n), best, threshold, youden)
  {
    var lo, hi :| Ranges(lo, hi, nul, pos) && ThresholdOver(nul, pos, floor, beta, n, lo, hi, threshold, youden);
    RangeIs(nul, pos);
    assert lo == Low(nul, pos) && hi == High(nul, pos);
    if lo < hi {
      var cs, best: nat :| Spans(cs, lo, hi, n) && SitsAt(nul, pos, floor, beta, cs, best, threshold, youden);
      SpansOnce(cs, lo, hi, n);
    }
  }

  /** At weight one it is the balanced point: no candidate separates the populations better. */
  lemma {:induction false} BalancedIsYouden(nul: seq<real>, pos: seq<real>, cs: seq<real>, best: nat, i: nat)
    requires pos != [] && nul != [] && FirstBest(pos, nul, 1.0, cs, best) && i < |cs|
    ensures Tail(pos, cs[i]) - Tail(nul, cs[i]) <= Tail(pos, cs[best]) - Tail(nul, cs[best])
  {
    assert Objective(pos, nul, 1.0, cs[i]) <= Objective(pos, nul, 1.0, cs[best]);
  }
}
