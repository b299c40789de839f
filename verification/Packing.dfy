/** Encoding under a memory budget (benchmarks/budget_batching.py, `budget_encode`): cache
    hits, then batches packed greedily in ascending order of length. */
module Packing {
  import opened Common

  datatype Text = Text(id: nat)
  datatype CacheKey = CacheKey(id: nat)
  datatype Vector = Vector(id: nat)

  // ---- packing --------------------------------------------------------------------------------

  /** A short document is padded to this many tokens. */
  function Weight(length: nat): (w: nat)
    ensures w >= 16 && w >= length && (w == 16 || w == length)
  {
    if length < 16 then 16 else length
  }

  /** Attention over a batch grows with its size and the square of its longest document. */
  function Load(size: nat, w: nat): nat {
    size * w * w
  }

  lemma {:induction false} LoadGrows(size: nat, w: nat, larger: nat, longer: nat)
    requires size <= larger && w <= longer
    ensures Load(size, w) <= Load(larger, longer)
  {
    Product(size, w, larger, longer);
    Product(size * w, w, larger * longer, longer);
  }

  lemma {:induction false} Product(a: nat, b: nat, c: nat, d: nat)
    requires a <= c && b <= d
    ensures a * b <= c * d
  {
    assert a * b <= c * b <= c * d;
  }

  ghost predicate Ascending(ws: seq<nat>) {
    forall i, j | 0 <= i < j < |ws| :: ws[i] <= ws[j]
  }

  /** A batch is one document, or small and light enough. */
  predicate Allowed(ws: seq<nat>, a: nat, b: nat, maxBatch: int, budget: int) {
    && a < b <= |ws|
    && (b - a == 1 || (b - a <= maxBatch && Load(b - a, ws[b-1]) <= budget))
  }

  /** Part of an allowed batch is an allowed batch. */
  lemma {:induction false} PartIsAllowed(ws: seq<nat>, a: nat, b: nat, c: nat, d: nat, maxBatch: int, budget: int)
    requires Ascending(ws) && Allowed(ws, a, d, maxBatch, budget) && a <= b < c <= d
    ensures Allowed(ws, b, c, maxBatch, budget)
  {
    LoadGrows(c - b, ws[c-1], d - a, ws[d-1]);
  }

  /** A split of the documents into consecutive batches, by where each begins. */
  ghost predicate IsSplit(ws: seq<nat>, cuts: seq<nat>, maxBatch: int, budget: int) {
    && |cuts| > 0 && cuts[0] == 0 && cuts[|cuts|-1] == |ws|
    && (forall i | 0 <= i < |cuts| - 1 :: IsBatch(ws, cuts, maxBatch, budget, i))
  }

  ghost predicate IsBatch(ws: seq<nat>, cuts: seq<nat>, maxBatch: int, budget: int, i: int)
    requires 0 <= i < |cuts| - 1
  {
    Allowed(ws, cuts[i], cuts[i+1], maxBatch, budget)
  }

  /** No batch could take one document more. */
  ghost predicate IsFull(ws: seq<nat>, cuts: seq<nat>, maxBatch: int, budget: int, i: int)
    requires 0 <= i < |cuts| - 1
  {
    IsBatch(ws, cuts, maxBatch, budget, i)
      && (cuts[i+1] == |ws| || !Allowed(ws, cuts[i], cuts[i+1] + 1, maxBatch, budget))
  }

  ghost predicate IsGreedy(ws: seq<nat>, cuts: seq<nat>, maxBatch: int, budget: int) {
    && |cuts| > 0 && cuts[0] == 0 && cuts[|cuts|-1] <= |ws|
    && (forall i | 0 <= i < |cuts| - 1 :: IsFull(ws, cuts, maxBatch, budget, i))
  }

  /** After as many batches, greedy packing is at least as far as any other split. */
  lemma {:induction false} GreedyIsAhead(ws: seq<nat>, cuts: seq<nat>, other: seq<nat>, maxBatch: int, budget: int, k: nat)
    requires Ascending(ws) && IsGreedy(ws, cuts, maxBatch, budget) && IsSplit(ws, other, maxBatch, budget)
    requires k < |cuts| && k < |other|
    ensures cuts[k] >= other[k] && other[k] <= |ws|
  {
    if k > 0 {
      GreedyIsAhead(ws, cuts, other, maxBatch, budget, k - 1);
      assert IsFull(ws, cuts, maxBatch, budget, k - 1) && IsBatch(ws, other, maxBatch, budget, k - 1);
      if cuts[k] < other[k] {
        PartIsAllowed(ws, other[k-1], cuts[k-1], cuts[k] + 1, other[k], maxBatch, budget);
      }
    }
  }

  /** No split of that order into consecutive allowed batches uses fewer. */
  lemma {:induction false} GreedyIsOptimal(ws: seq<nat>, cuts: seq<nat>, other: seq<nat>, maxBatch: int, budget: int)
    requires Ascending(ws) && IsGreedy(ws, cuts, maxBatch, budget) && cuts[|cuts|-1] == |ws|
    requires IsSplit(ws, other, maxBatch, budget)
    ensures |cuts| <= |other|
  {
    if |other| < |cuts| {
      NotYetAtTheEnd(ws, cuts, maxBatch, budget, |other| - 1);
      GreedyIsAhead(ws, cuts, other, maxBatch, budget, |other| - 1);
    }
  }

  lemma {:induction false} NotYetAtTheEnd(ws: seq<nat>, cuts: seq<nat>, maxBatch: int, budget: int, k: nat)
    requires IsGreedy(ws, cuts, maxBatch, budget) && k + 1 < |cuts|
    ensures cuts[k] < |ws|
  {
    assert IsFull(ws, cuts, maxBatch, budget, k);
  }

  /** Grow a batch from `i` while the next document still fits. */
  method Grow(ws: seq<nat>, i: nat, maxBatch: int, budget: int) returns (end: nat)
    requires i < |ws| && Ascending(ws)
    ensures Allowed(ws, i, end, maxBatch, budget)
    ensures end == |ws| || !Allowed(ws, i, end + 1, maxBatch, budget)
  {
    var cap := 1;
    while cap < maxBatch && i + cap < |ws|
      invariant 1 <= cap && i + cap <= |ws| && Allowed(ws, i, i + cap, maxBatch, budget)
      decreases |ws| - cap
    {
      var next := ws[i + cap];
      if (cap + 1) * next * next > budget {
        break;
      }
      assert Load(cap + 1, next) <= budget;
      cap := cap + 1;
    }
    end := i + cap;
    assert end < |ws| && cap < maxBatch ==> Load(cap + 1, ws[end]) > budget;
  }

  // ---- the order -------------------------------------------------------------------------------

  /** Where a document goes in a list sorted by length: after those as long. */
  function Place(order: seq<nat>, j: nat, lengths: seq<nat>, from: nat): (p: nat)
    requires from <= |order| && j < |lengths| && forall i | 0 <= i < |order| :: order[i] < |lengths|
    ensures from <= p <= |order|
    ensures forall i | from <= i < p :: lengths[order[i]] <= lengths[j]
    ensures p < |order| ==> lengths[order[p]] > lengths[j]
    decreases |order| - from
  {
    if from == |order| || lengths[order[from]] > lengths[j] then from else Place(order, j, lengths, from + 1)
  }

  /** Sorted by length, ties by place in the list; so each of its members once. */
  ghost predicate IsOrder(order: seq<nat>, lengths: seq<nat>) {
    && (forall i | 0 <= i < |order| :: order[i] < |lengths|)
    && (forall i, j | 0 <= i < j < |order| :: Precedes(order[i], order[j], lengths))
  }

  predicate Precedes(x: nat, y: nat, lengths: seq<nat>)
    requires x < |lengths| && y < |lengths|
  {
    lengths[x] < lengths[y] || (lengths[x] == lengths[y] && x < y)
  }

  function Placed(order: seq<nat>, j: nat, lengths: seq<nat>): (r: seq<nat>)
    requires j < |lengths| && forall i | 0 <= i < |order| :: order[i] < |lengths|
  {
    var p := Place(order, j, lengths, 0);
    order[..p] + [j] + order[p..]
  }

  lemma {:induction false} PlacedIsOrder(order: seq<nat>, j: nat, lengths: seq<nat>)
    requires IsOrder(order, lengths) && j < |lengths| && forall i | 0 <= i < |order| :: order[i] < j
    ensures IsOrder(Placed(order, j, lengths), lengths)
    ensures forall x :: x in Placed(order, j, lengths) <==> x in order || x == j
  {
    var p := Place(order, j, lengths, 0);
    var a, b := order[..p], order[p..];
    assert order == a + b;
    forall i | 0 <= i < |b| ensures Precedes(j, b[i], lengths) {
      assert b[i] == order[p + i];
      assert i > 0 ==> Precedes(order[p], order[p + i], lengths);
    }
    forall i | 0 <= i < |a| ensures Precedes(a[i], j, lengths) {
      assert a[i] == order[i];
    }
    WedgedIsOrder(a, j, b, lengths);
  }

  lemma {:induction false} WedgedIsOrder(a: seq<nat>, j: nat, b: seq<nat>, lengths: seq<nat>)
    requires IsOrder(a + b, lengths) && j < |lengths|
    requires forall i | 0 <= i < |a| :: a[i] < |lengths| && Precedes(a[i], j, lengths)
    requires forall i | 0 <= i < |b| :: b[i] < |lengths| && Precedes(j, b[i], lengths)
    ensures IsOrder(a + [j] + b, lengths)
  {
    var r, s := a + [j] + b, a + b;
    forall x, y | 0 <= x < y < |r| ensures r[x] < |lengths| && r[y] < |lengths| && Precedes(r[x], r[y], lengths) {
      if x != |a| && y != |a| {
        var u, v := if x < |a| then x else x - 1, if y < |a| then y else y - 1;
        assert r[x] == s[u] && r[y] == s[v];
      } else if y == |a| {
        assert r[x] == a[x] && r[x] == s[x];
      } else {
        assert r[y] == b[y - |a| - 1] && r[y] == s[y - 1];
      }
    }
  }

  /** The documents to encode, sorted by length, ties in their order. */
  method Sorted(todo: seq<nat>, lengths: seq<nat>) returns (order: seq<nat>)
    requires forall i | 0 <= i < |todo| :: todo[i] < |lengths|
    requires forall i, j | 0 <= i < j < |todo| :: todo[i] < todo[j]
    ensures IsOrder(order, lengths) && forall x :: x in order <==> x in todo
  {
    order := [];
    var i := 0;
    while i < |todo|
      invariant 0 <= i <= |todo| && IsOrder(order, lengths)
      invariant forall x :: x in order <==> x in todo[..i]
    {
      assert todo[..i+1] == todo[..i] + [todo[i]];
      assert forall k | 0 <= k < |order| :: order[k] in todo[..i];
      PlacedIsOrder(order, todo[i], lengths);
      order := Placed(order, todo[i], lengths);
      i := i + 1;
    }
    assert todo[..i] == todo;
  }

  function Weights(order: seq<nat>, lengths: seq<nat>, n: nat): (ws: seq<nat>)
    requires n <= |order| && forall i | 0 <= i < |order| :: order[i] < |lengths|
    ensures |ws| == n && forall i | 0 <= i < n :: ws[i] == Weight(lengths[order[i]])
  {
    if n == 0 then [] else Weights(order, lengths, n - 1) + [Weight(lengths[order[n-1]])]
  }

  /** A batch of the order obeys the bounds: one document, or at most `maxBatch` of them, and
      as many times the square of each one's length, and of 16, as the budget allows. */
  ghost predicate Obeys(order: seq<nat>, lengths: seq<nat>, a: nat, b: nat, maxBatch: int, budget: int)
    requires forall i | 0 <= i < |order| :: order[i] < |lengths|
  {
    && a < b <= |order|
    && (b - a == 1 || (b - a <= maxBatch && FitsSquare(b - a, 16, budget)
                       && forall k | a <= k < b :: FitsSquare(b - a, lengths[order[k]], budget)))
  }

  predicate FitsSquare(size: nat, length: nat, budget: int) {
    size * (length * length) <= budget
  }

  lemma {:induction false} LoadFits(size: nat, w: nat, length: nat, budget: int)
    requires Load(size, w) <= budget && length <= w
    ensures FitsSquare(size, length, budget)
  {
    LoadGrows(size, length, size, w);
    Regroup(size, length);
  }

  lemma {:induction false} Regroup(size: nat, w: nat)
    ensures Load(size, w) == size * (w * w)
  {
  }

  /** What a batch is allowed is what its documents obey. */
  lemma {:induction false} AllowedWhenObeyed(order: seq<nat>, lengths: seq<nat>, a: nat, b: nat, maxBatch: int, budget: int)
    requires IsOrder(order, lengths)
    ensures Allowed(Weights(order, lengths, |order|), a, b, maxBatch, budget) <==> Obeys(order, lengths, a, b, maxBatch, budget)
  {
    if a < b <= |order| && b - a > 1 {
      var longest := lengths[order[b-1]];
      Regroup(b - a, Weight(longest));
      if Load(b - a, Weight(longest)) <= budget {
        LoadFits(b - a, Weight(longest), 16, budget);
        forall k | a <= k < b ensures FitsSquare(b - a, lengths[order[k]], budget) {
          assert k < b - 1 ==> Precedes(order[k], order[b-1], lengths);
          LoadFits(b - a, Weight(longest), lengths[order[k]], budget);
        }
      }
    }
  }

  /** Consecutive batches that obey the bounds, each taking as much as it may. */
  ghost predicate Batches(order: seq<nat>, lengths: seq<nat>, cuts: seq<nat>, maxBatch: int, budget: int)
    requires forall i | 0 <= i < |order| :: order[i] < |lengths|
  {
    && |cuts| > 0 && cuts[0] == 0 && cuts[|cuts|-1] == |order|
    && (forall i | 0 <= i < |cuts| - 1 :: Fills(order, lengths, cuts, maxBatch, budget, i))
  }

  ghost predicate Fills(order: seq<nat>, lengths: seq<nat>, cuts: seq<nat>, maxBatch: int, budget: int, i: int)
    requires 0 <= i < |cuts| - 1 && forall k | 0 <= k < |order| :: order[k] < |lengths|
  {
    && Obeys(order, lengths, cuts[i], cuts[i+1], maxBatch, budget)
    && (cuts[i+1] == |order| || !Obeys(order, lengths, cuts[i], cuts[i+1] + 1, maxBatch, budget))
  }

  lemma {:induction false} GreedyFills(order: seq<nat>, lengths: seq<nat>, cuts: seq<nat>, maxBatch: int, budget: int)
    requires IsOrder(order, lengths) && IsGreedy(Weights(order, lengths, |order|), cuts, maxBatch, budget) && cuts[|cuts|-1] == |order|
    ensures Batches(order, lengths, cuts, maxBatch, budget)
  {
    forall i | 0 <= i < |cuts| - 1 ensures Fills(order, lengths, cuts, maxBatch, budget, i) {
      assert IsFull(Weights(order, lengths, |order|), cuts, maxBatch, budget, i);
      AllowedWhenObeyed(order, lengths, cuts[i], cuts[i+1], maxBatch, budget);
      AllowedWhenObeyed(order, lengths, cuts[i], cuts[i+1] + 1, maxBatch, budget);
    }
  }

  // ---- encoding ---------------------------------------------------------------------------------

  /** The model and the cache identity of a text under the prompt in use. */
  datatype Model = Model(encode: Text -> Vector, key: Text -> CacheKey)

  /** What slot `i` must hold: its cached vector, or its encoding. */
  function Wanted(texts: seq<Text>, cache: Option<map<CacheKey, Vector>>, m: Model, i: nat): Vector
    requires i < |texts|
  {
    if cache.Some? && m.key(texts[i]) in cache.value then cache.value[m.key(texts[i])] else m.encode(texts[i])
  }

  predicate Hit(texts: seq<Text>, cache: Option<map<CacheKey, Vector>>, m: Model, i: nat)
    requires i < |texts|
  {
    cache.Some? && m.key(texts[i]) in cache.value
  }

  /** Look every text up; the rest is to do. */
  method LookUp(texts: seq<Text>, cache: Option<map<CacheKey, Vector>>, m: Model, out: array<Option<Vector>>) returns (todo: seq<nat>)
    requires out.Length == |texts| && forall i | 0 <= i < out.Length :: out[i].None?
    modifies out
    ensures forall i | 0 <= i < |texts| :: out[i] == if Hit(texts, cache, m, i) then Some(Wanted(texts, cache, m, i)) else None
    ensures forall i | 0 <= i < |todo| :: todo[i] < |texts|
    ensures forall i, j | 0 <= i < j < |todo| :: todo[i] < todo[j]
    ensures forall x :: x in todo <==> 0 <= x < |texts| && !Hit(texts, cache, m, x)
  {
    todo := [];
    var i := 0;
    while i < |texts|
      invariant 0 <= i <= |texts|
      invariant forall k | 0 <= k < |texts| :: out[k] == if k < i && Hit(texts, cache, m, k) then Some(Wanted(texts, cache, m, k)) else None
      invariant forall k | 0 <= k < |todo| :: todo[k] < i
      invariant forall a, b | 0 <= a < b < |todo| :: todo[a] < todo[b]
      invariant forall x :: x in todo <==> 0 <= x < i && !Hit(texts, cache, m, x)
    {
      if cache.Some? && m.key(texts[i]) in cache.value {
        out[i] := Some(cache.value[m.key(texts[i])]);
      } else {
        todo := todo + [i];
      }
      i := i + 1;
    }
  }

  ghost predicate IsEncodingOf(texts: seq<Text>, m: Model, slots: seq<nat>, k: CacheKey, v: Vector)
    requires forall i | 0 <= i < |slots| :: slots[i] < |texts|
  {
    exists j :: j in slots && m.key(texts[j]) == k && m.encode(texts[j]) == v
  }

  /** The cache with the encodings of these slots' texts filed in it. */
  ghost predicate Filed(was: Option<map<CacheKey, Vector>>, now: Option<map<CacheKey, Vector>>, texts: seq<Text>, m: Model, slots: seq<nat>)
    requires forall i | 0 <= i < |slots| :: slots[i] < |texts|
  {
    && now.Some? == was.Some?
    && (now.Some? ==>
          && (forall k | k in was.value :: k in now.value)
          && (forall j | j in slots :: m.key(texts[j]) in now.value)
          && (forall k | k in now.value ::
                (k in was.value && now.value[k] == was.value[k]) || IsEncodingOf(texts, m, slots, k, now.value[k])))
  }

  lemma {:induction false} FiledTwice(was: Option<map<CacheKey, Vector>>, mid: Option<map<CacheKey, Vector>>,
                                      now: Option<map<CacheKey, Vector>>, texts: seq<Text>, m: Model, a: seq<nat>, b: seq<nat>)
    requires forall i | 0 <= i < |a| :: a[i] < |texts|
    requires forall i | 0 <= i < |b| :: b[i] < |texts|
    requires Filed(was, mid, texts, m, a) && Filed(mid, now, texts, m, b)
    ensures Filed(was, now, texts, m, a + b)
  {
    if now.Some? {
      forall k | k in now.value
        ensures (k in was.value && now.value[k] == was.value[k]) || IsEncodingOf(texts, m, a + b, k, now.value[k])
      {
        if IsEncodingOf(texts, m, b, k, now.value[k]) {
          var j :| j in b && m.key(texts[j]) == k && m.encode(texts[j]) == now.value[k];
          assert j in a + b;
        } else if IsEncodingOf(texts, m, a, k, now.value[k]) {
          var j :| j in a && m.key(texts[j]) == k && m.encode(texts[j]) == now.value[k];
          assert j in a + b;
        }
      }
    }
  }

  method FileOne(texts: seq<Text>, m: Model, j: nat, cache: Option<map<CacheKey, Vector>>,
                 ghost was: Option<map<CacheKey, Vector>>, ghost before: seq<nat>)
      returns (now: Option<map<CacheKey, Vector>>)
    requires j < |texts| && (forall i | 0 <= i < |before| :: before[i] < |texts|) && Filed(was, cache, texts, m, before)
    ensures Filed(was, now, texts, m, before + [j])
  {
    now := cache;
    if now.Some? {
      now := Some(now.value[m.key(texts[j]) := m.encode(texts[j])]);
    }
    assert Filed(cache, now, texts, m, [j]) by {
      assert j in [j];
      assert now.Some? ==> IsEncodingOf(texts, m, [j], m.key(texts[j]), m.encode(texts[j]));
    }
    FiledTwice(was, cache, now, texts, m, before, [j]);
  }

  /** File a batch's vectors in the cache. */
  method PutMany(texts: seq<Text>, m: Model, batch: seq<nat>, cache: Option<map<CacheKey, Vector>>)
      returns (now: Option<map<CacheKey, Vector>>)
    requires forall i | 0 <= i < |batch| :: batch[i] < |texts|
    ensures Filed(cache, now, texts, m, batch)
  {
    now := cache;
    var i := 0;
    while i < |batch|
      invariant 0 <= i <= |batch| && Filed(cache, now, texts, m, batch[..i])
    {
      assert batch[..i+1] == batch[..i] + [batch[i]];
      now := FileOne(texts, m, batch[i], now, cache, batch[..i]);
      i := i + 1;
    }
    assert batch[..i] == batch;
  }

  /** Encode one batch, each vector in its slot. */
  method EncodeBatch(texts: seq<Text>, m: Model, batch: seq<nat>, out: array<Option<Vector>>)
    requires out.Length == |texts| && forall i | 0 <= i < |batch| :: batch[i] < |texts|
    modifies out
    ensures forall k | 0 <= k < out.Length :: out[k] == if k in batch then Some(m.encode(texts[k])) else old(out[k])
  {
    var i := 0;
    while i < |batch|
      invariant 0 <= i <= |batch|
      invariant forall k | 0 <= k < out.Length :: out[k] == if k in batch[..i] then Some(m.encode(texts[k])) else old(out[k])
    {
      assert batch[..i+1] == batch[..i] + [batch[i]];
      out[batch[i]] := Some(m.encode(texts[batch[i]]));
      i := i + 1;
    }
    assert batch[..i] == batch;
  }

  /** What an encoding leaves: every slot its cached vector or its encoding, and the misses
      encoded each once, in greedy batches of ascending length. */
  ghost predicate Encoded(texts: seq<Text>, cache: Option<map<CacheKey, Vector>>, m: Model, lengths: seq<nat>, maxBatch: int, budget: int,
                          result: seq<Vector>, order: seq<nat>, cuts: seq<nat>)
    requires |lengths| == |texts|
  {
    && |result| == |texts| && (forall i | 0 <= i < |texts| :: result[i] == Wanted(texts, cache, m, i))
    && IsOrder(order, lengths)
    && (forall x :: x in order <==> 0 <= x < |texts| && !Hit(texts, cache, m, x))
    && IsGreedy(Weights(order, lengths, |order|), cuts, maxBatch, budget) && cuts[|cuts|-1] == |order|
    && Batches(order, lengths, cuts, maxBatch, budget)
  }

  lemma {:induction false} WeightsAscend(order: seq<nat>, lengths: seq<nat>)
    requires IsOrder(order, lengths)
    ensures Ascending(Weights(order, lengths, |order|))
  {
  }

  lemma {:induction false} NextBatch(ws: seq<nat>, cuts: seq<nat>, end: nat, maxBatch: int, budget: int)
    requires IsGreedy(ws, cuts, maxBatch, budget) && Allowed(ws, cuts[|cuts|-1], end, maxBatch, budget)
    requires end == |ws| || !Allowed(ws, cuts[|cuts|-1], end + 1, maxBatch, budget)
    ensures IsGreedy(ws, cuts + [end], maxBatch, budget)
  {
    var more := cuts + [end];
    forall i | 0 <= i < |more| - 1 ensures IsFull(ws, more, maxBatch, budget, i) {
      if i < |cuts| - 1 {
        assert IsFull(ws, cuts, maxBatch, budget, i);
        assert more[i] == cuts[i] && more[i+1] == cuts[i+1];
      }
    }
  }

  /** Pack and encode: the batches are exactly the consecutive stretches of the order between
      the cuts. */
  method PackAndEncode(texts: seq<Text>, m: Model, order: seq<nat>, lengths: seq<nat>, maxBatch: int, budget: int,
                       out: array<Option<Vector>>, cache: Option<map<CacheKey, Vector>>)
      returns (now: Option<map<CacheKey, Vector>>, ghost cuts: seq<nat>)
    requires |lengths| == |texts| == out.Length && IsOrder(order, lengths)
    modifies out
    ensures forall k | 0 <= k < out.Length :: out[k] == if k in order then Some(m.encode(texts[k])) else old(out[k])
    ensures IsGreedy(Weights(order, lengths, |order|), cuts, maxBatch, budget) && cuts[|cuts|-1] == |order|
    ensures Filed(cache, now, texts, m, order)
  {
    var ws := Weights(order, lengths, |order|);
    WeightsAscend(order, lengths);
    now := cache;
    var i := 0;
    cuts := [0];
    while i < |order|
      invariant 0 <= i <= |order| && IsGreedy(ws, cuts, maxBatch, budget) && cuts[|cuts|-1] == i
      invariant forall k | 0 <= k < out.Length :: out[k] == if k in order[..i] then Some(m.encode(texts[k])) else old(out[k])
      invariant Filed(cache, now, texts, m, order[..i])
    {
      var end := Grow(ws, i, maxBatch, budget);
      NextBatch(ws, cuts, end, maxBatch, budget);
      assert order[..end] == order[..i] + order[i..end];
      EncodeBatch(texts, m, order[i..end], out);
      ghost var before := now;
      now := PutMany(texts, m, order[i..end], now);
      FiledTwice(cache, before, now, texts, m, order[..i], order[i..end]);
      cuts := cuts + [end];
      i := end;
    }
    assert order[..i] == order;
  }

  /** Every text has its vector in the cache, what was there is as it was, and what is new is
      the encoding of a text under its own key. */
  ghost predicate CacheGrows(was: Option<map<CacheKey, Vector>>, now: Option<map<CacheKey, Vector>>, texts: seq<Text>, m: Model) {
    && now.Some? == was.Some?
    && (now.Some? ==>
          && (forall k | k in was.value :: k in now.value && now.value[k] == was.value[k])
          && (forall i | 0 <= i < |texts| :: m.key(texts[i]) in now.value)
          && (forall k | k in now.value && k !in was.value ::
                exists i :: 0 <= i < |texts| && m.key(texts[i]) == k && m.encode(texts[i]) == now.value[k]))
  }

  /** Only texts the cache lacks are filed, so nothing in it is overwritten. */
  lemma {:induction false} FilingGrows(was: Option<map<CacheKey, Vector>>, now: Option<map<CacheKey, Vector>>, texts: seq<Text>, m: Model,
                                       order: seq<nat>)
    requires forall i | 0 <= i < |order| :: order[i] < |texts|
    requires Filed(was, now, texts, m, order) && forall x :: x in order <==> 0 <= x < |texts| && !Hit(texts, was, m, x)
    ensures CacheGrows(was, now, texts, m)
  {
    if now.Some? {
      assert forall j | j in order :: !Hit(texts, was, m, j);
      forall i | 0 <= i < |texts| ensures m.key(texts[i]) in now.value {
        assert i in order || Hit(texts, was, m, i);
      }
      forall k | k in now.value && k !in was.value
        ensures exists i :: 0 <= i < |texts| && m.key(texts[i]) == k && m.encode(texts[i]) == now.value[k]
      {
        var j :| j in order && m.key(texts[j]) == k && m.encode(texts[j]) == now.value[k];
      }
    }
  }

  /** The vectors of the slots, in order. */
  method Stacked(out: array<Option<Vector>>) returns (result: seq<Vector>)
    requires forall i | 0 <= i < out.Length :: out[i].Some?
    ensures |result| == out.Length && forall i | 0 <= i < out.Length :: out[i] == Some(result[i])
  {
    result := [];
    var i := 0;
    while i < out.Length
      invariant 0 <= i == |result| <= out.Length
      invariant forall k | 0 <= k < i :: out[k] == Some(result[k])
    {
      result := result + [out[i].value];
      i := i + 1;
    }
  }

  /** Encode a list of texts under the budget. */
  method BudgetEncode(texts: seq<Text>, cache: Option<map<CacheKey, Vector>>, m: Model, lengths: seq<nat>, maxBatch: int, budget: int)
      returns (result: seq<Vector>, now: Option<map<CacheKey, Vector>>, ghost order: seq<nat>, ghost cuts: seq<nat>)
    requires |lengths| == |texts|
    ensures |texts| > 1 ==> Encoded(texts, cache, m, lengths, maxBatch, budget, result, order, cuts)
    ensures |texts| <= 1 ==> |result| == |texts| && (forall i | 0 <= i < |texts| :: result[i] == m.encode(texts[i])) && now == cache
    ensures |texts| > 1 ==> CacheGrows(cache, now, texts, m)
  {
    order, cuts := [], [0];
    if |texts| <= 1 {
      return if texts == [] then [] else [m.encode(texts[0])], cache, order, cuts;
    }
    var out := new Option<Vector>[|texts|](_ => None);
    var todo := LookUp(texts, cache, m, out);
    var sorted := Sorted(todo, lengths);
    order := sorted;
    now, cuts := PackAndEncode(texts, m, sorted, lengths, maxBatch, budget, out, cache);
    FilingGrows(cache, now, texts, m, sorted);
    GreedyFills(sorted, lengths, cuts, maxBatch, budget);
    assert forall i | 0 <= i < |texts| :: out[i] == Some(Wanted(texts, cache, m, i));
    result := Stacked(out);
  }

  /** The batches are optimal: no split of the same order into consecutive allowed batches
      has fewer. */
  lemma {:induction false} EncodedIsOptimal(texts: seq<Text>, cache: Option<map<CacheKey, Vector>>, m: Model, lengths: seq<nat>,
                                            maxBatch: int, budget: int, result: seq<Vector>, order: seq<nat>, cuts: seq<nat>, other: seq<nat>)
    requires |lengths| == |texts| && Encoded(texts, cache, m, lengths, maxBatch, budget, result, order, cuts)
    requires IsSplit(Weights(order, lengths, |order|), other, maxBatch, budget)
    ensures |cuts| <= |other|
    ensures IsSplit(Weights(order, lengths, |order|), cuts, maxBatch, budget)
  {
    var ws := Weights(order, lengths, |order|);
    WeightsAscend(order, lengths);
    GreedyIsOptimal(ws, cuts, other, maxBatch, budget);
    forall i | 0 <= i < |cuts| - 1 ensures IsBatch(ws, cuts, maxBatch, budget, i) {
      assert IsFull(ws, cuts, maxBatch, budget, i);
    }
  }
}
