/** The bounded neighbourhood of a walk (cpersona/associations.py, `_neighbourhood`):
    breadth first over the relations a call can read, in batches, under a hop bound and an
    entity bound. */
module Neighbourhood {

  /** A readable relation between two readable entities. */
  datatype Edge = Edge(subject: nat, target: nat, at: int)

  type Edges = map<nat, Edge>

  predicate Touches(edges: Edges, r: nat, e: nat) {
    r in edges && (edges[r].subject == e || edges[r].target == e)
  }

  /** Written order: the most recently declared first, then the lower id. */
  predicate Newer(edges: Edges, r: nat, q: nat)
    requires r in edges && q in edges
  {
    edges[r].at > edges[q].at || (edges[r].at == edges[q].at && r < q)
  }

  // ---- distances ----------------------------------------------------------------------------

  function Neighbours(edges: Edges, s: set<nat>): set<nat> {
    (set r | r in edges && edges[r].subject in s :: edges[r].target)
      + (set r | r in edges && edges[r].target in s :: edges[r].subject)
  }

  /** What is within `k` hops. */
  function Ball(edges: Edges, starts: set<nat>, k: nat): (b: set<nat>)
    ensures starts <= b
  {
    if k == 0 then starts
    else Ball(edges, starts, k - 1) + Neighbours(edges, Ball(edges, starts, k - 1))
  }

  predicate Adjacent(edges: Edges, a: nat, b: nat) {
    exists r :: r in edges && (edges[r] == Edge(a, b, edges[r].at) || edges[r] == Edge(b, a, edges[r].at))
  }

  /** A path along relations, either way. */
  ghost predicate Path(edges: Edges, starts: set<nat>, p: seq<nat>, e: nat) {
    && |p| > 0 && p[0] in starts && p[|p|-1] == e
    && forall i | 0 <= i < |p| - 1 :: Adjacent(edges, p[i], p[i+1])
  }

  /** The length of a shortest path. */
  ghost predicate ShortestIs(edges: Edges, starts: set<nat>, e: nat, k: nat) {
    && (exists p :: Path(edges, starts, p, e) && |p| == k + 1)
    && (forall p | Path(edges, starts, p, e) :: |p| >= k + 1)
  }

  lemma {:induction false} NeighboursAre(edges: Edges, s: set<nat>, e: nat)
    ensures e in Neighbours(edges, s) <==> exists a :: a in s && Adjacent(edges, a, e)
  {
    if e in Neighbours(edges, s) {
      var r :| r in edges && ((edges[r].subject in s && edges[r].target == e) || (edges[r].target in s && edges[r].subject == e));
      if edges[r].subject in s && edges[r].target == e {
        assert edges[r] == Edge(edges[r].subject, e, edges[r].at);
        assert Adjacent(edges, edges[r].subject, e);
      } else {
        assert edges[r] == Edge(e, edges[r].target, edges[r].at);
        assert Adjacent(edges, edges[r].target, e);
      }
    }
  }

  lemma {:induction false} PathsStayInside(edges: Edges, starts: set<nat>, p: seq<nat>, e: nat)
    requires Path(edges, starts, p, e)
    ensures e in Ball(edges, starts, |p| - 1)
    decreases |p|
  {
    if |p| > 1 {
      var q := p[..|p|-1];
      assert Path(edges, starts, q, p[|p|-2]);
      PathsStayInside(edges, starts, q, p[|p|-2]);
      NeighboursAre(edges, Ball(edges, starts, |p| - 2), e);
      assert Adjacent(edges, p[|p|-2], p[|p|-2+1]);
    }
  }

  lemma {:induction false} InsideHasPath(edges: Edges, starts: set<nat>, k: nat, e: nat) returns (p: seq<nat>)
    requires e in Ball(edges, starts, k)
    ensures Path(edges, starts, p, e) && |p| <= k + 1
  {
    if e in starts {
      p := [e];
    } else if e in Ball(edges, starts, k - 1) {
      p := InsideHasPath(edges, starts, k - 1, e);
    } else {
      NeighboursAre(edges, Ball(edges, starts, k - 1), e);
      var a :| a in Ball(edges, starts, k - 1) && Adjacent(edges, a, e);
      var q := InsideHasPath(edges, starts, k - 1, a);
      p := q + [e];
    }
  }

  lemma {:induction false} BallGrows(edges: Edges, starts: set<nat>, j: nat, k: nat)
    requires j <= k
    ensures Ball(edges, starts, j) <= Ball(edges, starts, k)
    decreases k
  {
    if j < k {
      BallGrows(edges, starts, j, k - 1);
    }
  }

  /** New at hop `k`: exactly the entities whose shortest path has length `k`. */
  predicate NewAt(edges: Edges, starts: set<nat>, k: nat, e: nat) {
    e in Ball(edges, starts, k) && (k > 0 ==> e !in Ball(edges, starts, k - 1))
  }

  lemma {:induction false} NewIsShortest(edges: Edges, starts: set<nat>, k: nat, e: nat)
    ensures NewAt(edges, starts, k, e) <==> ShortestIs(edges, starts, e, k)
  {
    if NewAt(edges, starts, k, e) {
      var p := InsideHasPath(edges, starts, k, e);
      forall q | Path(edges, starts, q, e) ensures |q| >= k + 1 {
        PathsStayInside(edges, starts, q, e);
        if |q| < k + 1 {
          BallGrows(edges, starts, |q| - 1, k - 1);
        }
      }
    }
    if ShortestIs(edges, starts, e, k) {
      var p :| Path(edges, starts, p, e) && |p| == k + 1;
      PathsStayInside(edges, starts, p, e);
      if k > 0 && e in Ball(edges, starts, k - 1) {
        var q := InsideHasPath(edges, starts, k - 1, e);
      }
    }
  }

  lemma {:induction false} Larger(a: set<nat>, b: set<nat>)
    requires a <= b
    ensures |a| <= |b|
    ensures a != b ==> |a| < |b|
  {
    assert b == a + (b - a);
    if a != b {
      var x :| x in b - a;
      assert |b - a| > 0;
    }
  }

  // ---- one hop -------------------------------------------------------------------------------

  /** The relations that touch a set of entities. */
  function Touching(edges: Edges, s: set<nat>): set<nat> {
    set r | r in edges && (edges[r].subject in s || edges[r].target in s)
  }

  /** `nxt` holds, for each entity not yet known that one of `read` leads to, the newest of
      them that does. */
  ghost predicate Newest(edges: Edges, known: set<nat>, read: set<nat>, nxt: map<nat, nat>) {
    && (forall r | r in read :: r in edges)
    && (forall e | e in nxt :: e !in known && nxt[e] in read && Touches(edges, nxt[e], e))
    && (forall r, e | r in read && Touches(edges, r, e) && e !in known :: e in nxt && (nxt[e] == r || Newer(edges, nxt[e], r)))
  }

  method ReachEnd(edges: Edges, known: set<nat>, r: nat, e: nat, nxt: map<nat, nat>, ghost read: set<nat>) returns (now: map<nat, nat>)
    requires r in edges && Touches(edges, r, e) && forall q | q in read :: q in edges
    requires forall a | a in nxt :: a !in known && (nxt[a] in read || nxt[a] == r) && Touches(edges, nxt[a], a)
    ensures forall a | a in now :: a !in known && (now[a] in read || now[a] == r) && Touches(edges, now[a], a)
    ensures forall a | a != e :: a in now <==> a in nxt
    ensures forall a | a in nxt && a != e :: now[a] == nxt[a]
    ensures e !in known ==> e in now && (now[e] == r || Newer(edges, now[e], r))
    ensures e in nxt ==> now[e] == nxt[e] || Newer(edges, now[e], nxt[e])
  {
    now := nxt;
    if e !in known && (e !in nxt || Newer(edges, r, nxt[e])) {
      now := nxt[e := r];
    }
  }

  /** One row of the query. */
  method ReadRelation(edges: Edges, known: set<nat>, r: nat, nxt: map<nat, nat>, ghost read: set<nat>) returns (now: map<nat, nat>)
    requires r in edges && Newest(edges, known, read, nxt)
    ensures Newest(edges, known, read + {r}, now)
  {
    now := ReachEnd(edges, known, r, edges[r].subject, nxt, read);
    now := ReachEnd(edges, known, r, edges[r].target, now, read);
  }

  /** The rows of one batch, in whatever order they come. */
  method ReadBatch(edges: Edges, known: set<nat>, batch: set<nat>, nxt: map<nat, nat>, read: set<nat>)
      returns (now: map<nat, nat>, all: set<nat>)
    requires Newest(edges, known, read, nxt)
    ensures all == read + Touching(edges, batch) && Newest(edges, known, all, now)
  {
    now, all := nxt, read;
    var rows := Touching(edges, batch);
    while rows != {}
      invariant rows <= Touching(edges, batch)
      invariant all == read + (Touching(edges, batch) - rows) && Newest(edges, known, all, now)
      decreases rows
    {
      var r :| r in rows;
      now := ReadRelation(edges, known, r, now, all);
      all, rows := all + {r}, rows - {r};
    }
  }

  function Ids(s: seq<nat>): set<nat> {
    set e | e in s
  }

  /** A whole frontier, batch by batch. */
  method ReadFrontier(edges: Edges, known: set<nat>, frontier: seq<nat>, batch: nat) returns (nxt: map<nat, nat>, read: set<nat>)
    requires batch > 0
    ensures read == Touching(edges, Ids(frontier)) && Newest(edges, known, read, nxt)
  {
    nxt, read := map[], {};
    var offset := 0;
    while offset < |frontier|
      invariant 0 <= offset
      invariant read == Touching(edges, Ids(frontier[..if offset < |frontier| then offset else |frontier|]))
      invariant Newest(edges, known, read, nxt)
    {
      var end := if offset + batch < |frontier| then offset + batch else |frontier|;
      assert frontier[..end] == frontier[..offset] + frontier[offset..end];
      assert Ids(frontier[..end]) == Ids(frontier[..offset]) + Ids(frontier[offset..end]);
      nxt, read := ReadBatch(edges, known, Ids(frontier[offset..end]), nxt, read);
      offset := offset + batch;
    }
    assert frontier[..|frontier|] == frontier;
  }

  /** What one hop finds: the entities it is the first to reach. */
  lemma {:induction false} FrontierReaches(edges: Edges, known: set<nat>, inner: set<nat>, frontier: set<nat>, nxt: map<nat, nat>)
    requires known == inner + frontier && Neighbours(edges, inner) <= known
    requires Newest(edges, known, Touching(edges, frontier), nxt)
    ensures nxt.Keys == Neighbours(edges, known) - known
  {
    forall e | e in Neighbours(edges, known) - known ensures e in nxt {
      if e in Neighbours(edges, inner) {
      } else {
        var r :| r in edges && ((edges[r].subject in frontier && edges[r].target == e)
                                || (edges[r].target in frontier && edges[r].subject == e));
        assert r in Touching(edges, frontier) && Touches(edges, r, e);
      }
    }
    forall e | e in nxt ensures e in Neighbours(edges, known) - known {
      var r := nxt[e];
      assert r in Touching(edges, frontier) && Touches(edges, r, e);
    }
  }

  // ---- the entity bound ------------------------------------------------------------------------

  /** The order the cut keeps entities by: the newer relation that reached them, then the
      lower id. */
  predicate Before(edges: Edges, nxt: map<nat, nat>, a: nat, b: nat)
    requires a in nxt && b in nxt && nxt[a] in edges && nxt[b] in edges
  {
    Newer(edges, nxt[a], nxt[b]) || (nxt[a] == nxt[b] && a < b)
  }

  lemma {:induction false} BeforeIsAnOrder(edges: Edges, nxt: map<nat, nat>, a: nat, b: nat, c: nat)
    requires a in nxt && b in nxt && c in nxt && nxt[a] in edges && nxt[b] in edges && nxt[c] in edges
    ensures a != b ==> Before(edges, nxt, a, b) || Before(edges, nxt, b, a)
    ensures Before(edges, nxt, a, b) && Before(edges, nxt, b, c) ==> Before(edges, nxt, a, c)
  {
  }

  lemma {:induction false} FirstExists(edges: Edges, nxt: map<nat, nat>, s: set<nat>) returns (a: nat)
    requires s != {} && forall e | e in s :: e in nxt && nxt[e] in edges
    ensures a in s && forall b | b in s && b != a :: Before(edges, nxt, a, b)
  {
    var x :| x in s;
    if s == {x} {
      a := x;
    } else {
      var y := FirstExists(edges, nxt, s - {x});
      BeforeIsAnOrder(edges, nxt, x, y, y);
      a := if Before(edges, nxt, x, y) then x else y;
      forall b | b in s && b != a ensures Before(edges, nxt, a, b) {
        assert b == x || b in s - {x};
        BeforeIsAnOrder(edges, nxt, x, y, b);
      }
    }
  }

  ghost predicate KeptFirst(edges: Edges, nxt: map<nat, nat>, kept: set<nat>, left: set<nat>) {
    && (forall e | e in nxt :: nxt[e] in edges)
    && kept + left == nxt.Keys && kept !! left
    && forall a, b | a in kept && b in left :: Before(edges, nxt, a, b)
  }

  method KeepNext(edges: Edges, nxt: map<nat, nat>, kept: set<nat>, left: set<nat>) returns (e: nat)
    requires KeptFirst(edges, nxt, kept, left) && left != {}
    ensures e in left && KeptFirst(edges, nxt, kept + {e}, left - {e})
  {
    ghost var first := FirstExists(edges, nxt, left);
    e :| e in left && forall b | b in left && b != e :: Before(edges, nxt, e, b);
  }

  /** The first `room` of the entities reached. */
  method KeepFirst(edges: Edges, nxt: map<nat, nat>, room: int) returns (kept: set<nat>, ghost left: set<nat>)
    requires room < |nxt.Keys| && forall e | e in nxt :: nxt[e] in edges
    ensures KeptFirst(edges, nxt, kept, left) && |kept| == (if room > 0 then room else 0)
  {
    kept := {};
    var rest := nxt.Keys;
    while |kept| < room
      invariant KeptFirst(edges, nxt, kept, rest) && |kept| <= (if room > 0 then room else 0)
    {
      Disjoint(kept, rest);
      var e := KeepNext(edges, nxt, kept, rest);
      kept, rest := kept + {e}, rest - {e};
    }
    left := rest;
  }

  lemma {:induction false} Disjoint(a: set<nat>, b: set<nat>)
    requires a !! b
    ensures |a + b| == |a| + |b|
  {
  }

  // ---- the whole walk -----------------------------------------------------------------------------

  /** The balls, hop by hop. */
  ghost predicate Levels(edges: Edges, starts: set<nat>, balls: seq<set<nat>>) {
    |balls| > 0 && balls[0] == starts && forall i | 0 <= i < |balls| - 1 :: NextLevel(edges, balls, i)
  }

  ghost predicate NextLevel(edges: Edges, balls: seq<set<nat>>, i: int)
    requires 0 <= i < |balls| - 1
  {
    balls[i+1] == balls[i] + Neighbours(edges, balls[i])
  }

  function LevelsTo(edges: Edges, starts: set<nat>, k: nat): (balls: seq<set<nat>>)
    ensures |balls| == k + 1 && forall i | 0 <= i <= k :: balls[i] == Ball(edges, starts, i)
  {
    if k == 0 then [starts] else LevelsTo(edges, starts, k - 1) + [Ball(edges, starts, k)]
  }

  lemma {:induction false} LevelsAre(edges: Edges, starts: set<nat>, k: nat)
    ensures Levels(edges, starts, LevelsTo(edges, starts, k))
  {
    var balls := LevelsTo(edges, starts, k);
    forall i | 0 <= i < |balls| - 1 ensures NextLevel(edges, balls, i) {
      assert balls[i+1] == Ball(edges, starts, i + 1);
    }
  }

  lemma {:induction false} LevelsGrow(edges: Edges, starts: set<nat>, balls: seq<set<nat>>, j: nat, k: nat)
    requires Levels(edges, starts, balls) && j <= k < |balls|
    ensures balls[j] <= balls[k]
    decreases k
  {
    if j < k {
      LevelsGrow(edges, starts, balls, j, k - 1);
      assert NextLevel(edges, balls, k - 1);
    }
  }

  predicate FirstIn(balls: seq<set<nat>>, k: nat, e: nat) {
    k < |balls| && e in balls[k] && (k > 0 ==> e !in balls[k-1])
  }

  /** Each distance is the first level its entity is in. */
  ghost predicate Exact(balls: seq<set<nat>>, k: nat, distance: map<nat, nat>) {
    forall e | e in distance :: distance[e] <= k && FirstIn(balls, distance[e], e)
  }

  function Extended(distance: map<nat, nat>, found: set<nat>, d: nat): map<nat, nat> {
    distance + map e | e in found :: d
  }

  lemma {:induction false} ExactNext(balls: seq<set<nat>>, k: nat, distance: map<nat, nat>, found: set<nat>)
    requires Exact(balls, k, distance) && k + 1 < |balls| && found <= balls[k+1] - balls[k]
    ensures Exact(balls, k + 1, Extended(distance, found, k + 1))
    ensures Extended(distance, found, k + 1).Keys == distance.Keys + found
  {
  }

  method Listed(s: set<nat>) returns (q: seq<nat>)
    ensures Ids(q) == s
  {
    q := [];
    var left := s;
    while left != {}
      invariant left <= s && Ids(q) == s - left
      decreases left
    {
      var e :| e in left;
      assert Ids(q + [e]) == Ids(q) + {e};
      q, left := q + [e], left - {e};
    }
  }

  /** Where the bound cuts: the hop it stops at, and how much of the next it keeps. */
  ghost predicate Cut(balls: seq<set<nat>>, maxHops: nat, bound: nat, depth: nat, distance: map<nat, nat>) {
    && depth < maxHops && depth + 1 < |balls| && |balls[depth+1]| > bound
    && balls[depth] <= distance.Keys <= balls[depth+1]
    && |distance.Keys| == (if |balls[depth]| < bound then bound else |balls[depth]|)
    && (|balls[depth]| <= bound || depth == 0)
  }

  ghost predicate Complete(balls: seq<set<nat>>, maxHops: nat, bound: nat, depth: nat, distance: map<nat, nat>) {
    && depth <= maxHops < |balls|
    && distance.Keys == balls[maxHops] == balls[depth]
    && (|distance.Keys| <= bound || distance.Keys == balls[0])
  }

  /** What the cut keeps of a hop: the entities that the newest relations reached. */
  ghost predicate NewestKept(edges: Edges, here: set<nat>, distance: map<nat, nat>) {
    exists nxt, kept, left ::
      && Newest(edges, here, Touching(edges, here), nxt)
      && KeptFirst(edges, nxt, kept, left) && distance.Keys == here + kept
  }

  /** A relation that leads out of a ball leads out of its frontier. */
  lemma {:induction false} NewestOfBall(edges: Edges, balls: seq<set<nat>>, hop: nat, inner: set<nat>, frontier: set<nat>, nxt: map<nat, nat>)
    requires FrontierOf(edges, balls, hop, inner, frontier) && Newest(edges, balls[hop], Touching(edges, frontier), nxt)
    ensures Newest(edges, balls[hop], Touching(edges, balls[hop]), nxt)
  {
    forall r, e | r in Touching(edges, balls[hop]) && Touches(edges, r, e) && e !in balls[hop]
      ensures r in Touching(edges, frontier)
    {
      if edges[r].subject in inner {
        assert edges[r].target in Neighbours(edges, inner);
      }
      if edges[r].target in inner {
        assert edges[r].subject in Neighbours(edges, inner);
      }
    }
  }

  /** The result of a walk: exact distances, everything in range unless the bound cuts, and
      every relation of each expanded entity. */
  ghost predicate Walked(edges: Edges, balls: seq<set<nat>>, maxHops: nat, bound: nat, depth: nat, cut: bool,
                         loaded: set<nat>, distance: map<nat, nat>) {
    && depth <= maxHops && depth < |balls|
    && Exact(balls, maxHops, distance)
    && loaded == Touching(edges, balls[depth])
    && (cut ==> Cut(balls, maxHops, bound, depth, distance) && NewestKept(edges, balls[depth], distance))
    && (!cut ==> Complete(balls, maxHops, bound, depth, distance))
  }

  /** Once a hop brings nothing new, no later one does. */
  lemma {:induction false} Saturated(edges: Edges, starts: set<nat>, balls: seq<set<nat>>, j: nat, k: nat)
    requires Levels(edges, starts, balls) && j <= k < |balls| && Neighbours(edges, balls[j]) <= balls[j]
    ensures balls[k] == balls[j]
    decreases k
  {
    if j < k {
      Saturated(edges, starts, balls, j, k - 1);
      assert NextLevel(edges, balls, k - 1);
    }
  }

  /** The frontier of a hop: what it is the first to hold; what is inside it has been
      expanded. */
  ghost predicate FrontierOf(edges: Edges, balls: seq<set<nat>>, hop: nat, inner: set<nat>, frontier: set<nat>) {
    && hop < |balls| && balls[hop] == inner + frontier && inner !! frontier
    && Neighbours(edges, inner) <= balls[hop]
  }

  lemma {:induction false} Emptied(edges: Edges, starts: set<nat>, balls: seq<set<nat>>, hop: nat, inner: set<nat>, maxHops: nat)
    requires Levels(edges, starts, balls) && hop <= maxHops < |balls| && FrontierOf(edges, balls, hop, inner, {})
    ensures inner == balls[hop] == balls[maxHops]
  {
    assert inner == balls[hop];
    Saturated(edges, starts, balls, hop, maxHops);
  }

  lemma {:induction false} HopReaches(edges: Edges, starts: set<nat>, balls: seq<set<nat>>, hop: nat, inner: set<nat>,
                                      frontier: set<nat>, nxt: map<nat, nat>)
    requires Levels(edges, starts, balls) && hop + 1 < |balls| && FrontierOf(edges, balls, hop, inner, frontier)
    requires Newest(edges, balls[hop], Touching(edges, frontier), nxt)
    ensures nxt.Keys == balls[hop+1] - balls[hop]
    ensures balls[hop+1] == balls[hop] + nxt.Keys
    ensures FrontierOf(edges, balls, hop + 1, balls[hop], nxt.Keys)
    ensures |balls[hop+1]| == |balls[hop]| + |nxt.Keys|
  {
    FrontierReaches(edges, balls[hop], inner, frontier, nxt);
    assert NextLevel(edges, balls, hop);
    Reassemble(balls[hop], Neighbours(edges, balls[hop]), nxt.Keys, balls[hop+1]);
  }

  lemma {:induction false} Reassemble(here: set<nat>, near: set<nat>, found: set<nat>, next: set<nat>)
    requires next == here + near && found == near - here
    ensures found == next - here && next == here + found && near <= next
    ensures |next| == |here| + |found|
  {
    Disjoint(here, found);
    assert next == here + found;
  }

  lemma {:induction false} TouchingBoth(edges: Edges, a: set<nat>, b: set<nat>)
    ensures Touching(edges, a) + Touching(edges, b) == Touching(edges, a + b)
  {
  }

  /** The arithmetic of the cut. */
  lemma {:induction false} CutHere(balls: seq<set<nat>>, maxHops: nat, bound: nat, hop: nat,
                                   before: map<nat, nat>, kept: set<nat>, after: map<nat, nat>)
    requires hop < maxHops && hop + 1 < |balls| && before.Keys == balls[hop] <= balls[hop+1]
    requires kept <= balls[hop+1] - balls[hop] && |balls[hop+1]| > bound && after.Keys == before.Keys + kept
    requires |kept| == if bound > |balls[hop]| then bound - |balls[hop]| else 0
    requires |balls[hop]| <= bound || hop == 0
    ensures Cut(balls, maxHops, bound, hop, after)
  {
    Disjoint(before.Keys, kept);
  }

  /** The state between hops. */
  ghost predicate AtHop(edges: Edges, balls: seq<set<nat>>, hop: nat, bound: nat, inner: set<nat>, frontier: seq<nat>,
                        loaded: set<nat>, distance: map<nat, nat>) {
    && FrontierOf(edges, balls, hop, inner, Ids(frontier))
    && distance.Keys == balls[hop] && Exact(balls, hop, distance) && loaded == Touching(edges, inner)
    && (hop > 0 ==> |balls[hop]| <= bound)
  }

  /** One hop: everything new, or the cut. */
  method Hop(edges: Edges, ghost starts: set<nat>, ghost balls: seq<set<nat>>, maxHops: nat, bound: nat, batch: nat, hop: nat, next: nat,
             ghost inner: set<nat>, frontier: seq<nat>, loaded: set<nat>, distance: map<nat, nat>)
      returns (cut: bool, ahead: seq<nat>, read: set<nat>, now: map<nat, nat>)
    requires batch > 0 && hop < maxHops && next == hop + 1 && maxHops + 1 < |balls| && Levels(edges, starts, balls)
    requires AtHop(edges, balls, hop, bound, inner, frontier, loaded, distance)
    ensures read == Touching(edges, balls[hop])
    ensures cut ==> Exact(balls, hop + 1, now) && Cut(balls, maxHops, bound, hop, now) && NewestKept(edges, balls[hop], now)
    ensures !cut ==> AtHop(edges, balls, next, bound, balls[hop], ahead, read, now)
  {
    var nxt, rows := ReadFrontier(edges, distance.Keys, frontier, batch);
    TouchingBoth(edges, inner, Ids(frontier));
    read := loaded + rows;
    HopReaches(edges, starts, balls, hop, inner, Ids(frontier), nxt);
    if |nxt.Keys| > bound - |distance.Keys| {
      var kept, left := KeepFirst(edges, nxt, bound - |distance.Keys|);
      ExactNext(balls, hop, distance, kept);
      now := Extended(distance, kept, hop + 1);
      CutHere(balls, maxHops, bound, hop, distance, kept, now);
      NewestOfBall(edges, balls, hop, inner, Ids(frontier), nxt);
      assert KeptFirst(edges, nxt, kept, left) && now.Keys == balls[hop] + kept;
      return true, [], read, now;
    }
    ExactNext(balls, hop, distance, nxt.Keys);
    now := Extended(distance, nxt.Keys, hop + 1);
    ahead := Listed(nxt.Keys);
    cut := false;
  }

  lemma {:induction false} AtStart(edges: Edges, starts: set<nat>, balls: seq<set<nat>>, bound: nat, frontier: seq<nat>, distance: map<nat, nat>)
    requires Levels(edges, starts, balls) && |balls| > 0 && Ids(frontier) == starts && distance == map e | e in starts :: 0
    ensures AtHop(edges, balls, 0, bound, {}, frontier, {}, distance)
  {
  }

  method WalkLevels(edges: Edges, starts: set<nat>, ghost balls: seq<set<nat>>, maxHops: nat, bound: nat, batch: nat)
      returns (loaded: set<nat>, distance: map<nat, nat>, ghost depth: nat, ghost cut: bool)
    requires batch > 0 && maxHops + 1 < |balls| && Levels(edges, starts, balls)
    ensures Walked(edges, balls, maxHops, bound, depth, cut, loaded, distance)
  {
    loaded, distance := {}, map e | e in starts :: 0;
    var frontier := Listed(starts);
    var hop := 0;
    ghost var inner: set<nat> := {};
    AtStart(edges, starts, balls, bound, frontier, distance);
    while hop < maxHops && frontier != []
      invariant hop <= maxHops
      invariant AtHop(edges, balls, hop, bound, inner, frontier, loaded, distance)
    {
      var next := hop + 1;
      var stop, ahead, read, now := Hop(edges, starts, balls, maxHops, bound, batch, hop, next, inner, frontier, loaded, distance);
      if stop {
        return read, now, hop, true;
      }
      inner, hop, frontier, loaded, distance := balls[hop], next, ahead, read, now;
    }
    loaded := ReadLast(edges, starts, balls, maxHops, bound, batch, hop, inner, frontier, loaded, distance);
    depth, cut := hop, false;
  }

  /** The relations of the last hop are read, to tell which are left unfollowed. */
  method ReadLast(edges: Edges, ghost starts: set<nat>, ghost balls: seq<set<nat>>, maxHops: nat, ghost bound: nat, batch: nat,
                  ghost hop: nat, ghost inner: set<nat>, frontier: seq<nat>, loaded: set<nat>, distance: map<nat, nat>)
      returns (all: set<nat>)
    requires batch > 0 && maxHops + 1 < |balls| && Levels(edges, starts, balls) && hop <= maxHops
    requires AtHop(edges, balls, hop, bound, inner, frontier, loaded, distance) && (frontier == [] || hop == maxHops)
    ensures Walked(edges, balls, maxHops, bound, hop, false, all, distance)
  {
    if frontier == [] {
      Emptied(edges, starts, balls, hop, inner, maxHops);
      return loaded;
    }
    var _, read := ReadFrontier(edges, distance.Keys, frontier, batch);
    TouchingBoth(edges, inner, Ids(frontier));
    return loaded + read;
  }

  /** The distances are exact: an entity has one only if it is its shortest-path length
      within the hop bound, at most `max(|starts|, bound)` entities have one, and everything
      in range does exactly when it fits the bound or lies in the starts. */
  lemma {:induction false} WalkedIsExact(edges: Edges, starts: set<nat>, maxHops: nat, bound: nat, depth: nat, cut: bool,
                                         loaded: set<nat>, distance: map<nat, nat>)
    requires Walked(edges, LevelsTo(edges, starts, maxHops + 1), maxHops, bound, depth, cut, loaded, distance)
    ensures forall e | e in distance :: distance[e] <= maxHops && ShortestIs(edges, starts, e, distance[e])
    ensures |distance.Keys| <= if |starts| > bound then |starts| else bound
    ensures distance.Keys == Ball(edges, starts, maxHops) <==>
      |Ball(edges, starts, maxHops)| <= bound || Ball(edges, starts, maxHops) == starts
    ensures distance.Keys != Ball(edges, starts, maxHops) ==> |distance.Keys| >= bound
  {
    LevelsAre(edges, starts, maxHops + 1);
    WalkFits(edges, starts, LevelsTo(edges, starts, maxHops + 1), maxHops, bound, depth, cut, loaded, distance);
    forall e | e in distance ensures distance[e] <= maxHops && ShortestIs(edges, starts, e, distance[e]) {
      assert FirstIn(LevelsTo(edges, starts, maxHops + 1), distance[e], e);
      NewIsShortest(edges, starts, distance[e], e);
    }
  }

  lemma {:induction false} WalkFits(edges: Edges, starts: set<nat>, balls: seq<set<nat>>, maxHops: nat, bound: nat, depth: nat,
                                    cut: bool, loaded: set<nat>, distance: map<nat, nat>)
    requires Levels(edges, starts, balls) && maxHops + 1 < |balls|
    requires Walked(edges, balls, maxHops, bound, depth, cut, loaded, distance)
    ensures |distance.Keys| <= if |starts| > bound then |starts| else bound
    ensures distance.Keys == balls[maxHops] <==> |balls[maxHops]| <= bound || balls[maxHops] == starts
    ensures distance.Keys != balls[maxHops] ==> |distance.Keys| >= bound
  {
    if cut {
      CutFits(edges, starts, balls, maxHops, bound, depth, distance);
    }
  }

  lemma {:induction false} CutFits(edges: Edges, starts: set<nat>, balls: seq<set<nat>>, maxHops: nat, bound: nat, depth: nat,
                                   distance: map<nat, nat>)
    requires Levels(edges, starts, balls) && maxHops + 1 < |balls| && Cut(balls, maxHops, bound, depth, distance)
    ensures |distance.Keys| == (if depth == 0 && |starts| > bound then |starts| else bound) && |balls[maxHops]| > bound
    ensures distance.Keys == balls[maxHops] <==> balls[maxHops] == starts
  {
    LevelsGrow(edges, starts, balls, 0, depth);
    LevelsGrow(edges, starts, balls, depth + 1, maxHops);
    CutIsShort(balls, maxHops, bound, depth, distance);
  }

  /** Where the bound cuts, something in range is left out, unless the starts are all there is. */
  lemma {:induction false} CutIsShort(balls: seq<set<nat>>, maxHops: nat, bound: nat, depth: nat, distance: map<nat, nat>)
    requires depth < maxHops < |balls| && Cut(balls, maxHops, bound, depth, distance)
    requires balls[0] <= balls[depth] && balls[depth+1] <= balls[maxHops]
    ensures |balls[maxHops]| > bound
    ensures distance.Keys == balls[maxHops] <==> balls[maxHops] == balls[0]
  {
    Larger(balls[depth+1], balls[maxHops]);
    Larger(balls[0], distance.Keys);
  }

  /** Every relation of an expanded entity is loaded: of everything that has a distance,
      but for what the cut kept of the hop it stopped short of. */
  lemma {:induction false} ExpandedIsLoaded(edges: Edges, starts: set<nat>, maxHops: nat, bound: nat, depth: nat, cut: bool,
                                            loaded: set<nat>, distance: map<nat, nat>, e: nat, r: nat)
    requires Walked(edges, LevelsTo(edges, starts, maxHops + 1), maxHops, bound, depth, cut, loaded, distance)
    requires e in distance && Touches(edges, r, e) && (cut ==> distance[e] <= depth)
    ensures r in loaded
  {
    var balls := LevelsTo(edges, starts, maxHops + 1);
    LevelsAre(edges, starts, maxHops + 1);
    assert FirstIn(balls, distance[e], e);
    if cut {
      LevelsGrow(edges, starts, balls, distance[e], depth);
    }
  }

  /** The shortest distances within `maxHops`, and the relations that touch what was
      expanded. */
  method Walk(edges: Edges, starts: set<nat>, maxHops: nat, bound: nat, batch: nat)
      returns (loaded: set<nat>, distance: map<nat, nat>, ghost depth: nat, ghost cut: bool)
    requires batch > 0
    ensures Walked(edges, LevelsTo(edges, starts, maxHops + 1), maxHops, bound, depth, cut, loaded, distance)
    ensures forall e | e in distance :: distance[e] <= maxHops && ShortestIs(edges, starts, e, distance[e])
    ensures |distance.Keys| <= if |starts| > bound then |starts| else bound
    ensures distance.Keys == Ball(edges, starts, maxHops) <==>
      |Ball(edges, starts, maxHops)| <= bound || Ball(edges, starts, maxHops) == starts
  {
    LevelsAre(edges, starts, maxHops + 1);
    loaded, distance, depth, cut := WalkLevels(edges, starts, LevelsTo(edges, starts, maxHops + 1), maxHops, bound, batch);
    WalkedIsExact(edges, starts, maxHops, bound, depth, cut, loaded, distance);
  }

  // ---- the written order ---------------------------------------------------------------------------

  /** The relations loaded, most recently declared first: the position of each is its
      recency. */
  method Recency(edges: Edges, loaded: set<nat>) returns (order: seq<nat>)
    requires loaded <= edges.Keys
    ensures Ids(order) == loaded
    ensures forall i, j | 0 <= i < j < |order| :: Newer(edges, order[i], order[j])
  {
    order := [];
    var self := map r | r in loaded :: r;
    var left := loaded;
    while left != {}
      invariant left <= loaded && KeptFirst(edges, self, Ids(order), left)
      invariant forall i, j | 0 <= i < j < |order| :: Newer(edges, order[i], order[j])
      decreases left
    {
      var r := KeepNext(edges, self, Ids(order), left);
      assert Ids(order + [r]) == Ids(order) + {r};
      assert forall i | 0 <= i < |order| :: order[i] in Ids(order) && Before(edges, self, order[i], r);
      order, left := order + [r], left - {r};
    }
  }
}
