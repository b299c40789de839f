/** `_merge` of cpersona/block_index.py: the file's admitted rows and the changed records'
    live rows, merged chunk by chunk in key order under both caps. */
module BlockMerge {
  import opened Common
  import opened BlockRows

  ghost predicate Distinct(labels: seq<string>) {
    forall i, j | 0 <= i < j < |labels| :: labels[i] != labels[j]
  }

  /** A loaded block index file: one sequence per column, in key order, and the label
      tables its codes point into. */
  datatype BlockIndex = BlockIndex(
    width: nat,
    kind: seq<int>, parentId: seq<int>, blockIndex: seq<int>,
    agentCode: seq<int>, projectCode: seq<int>, channelCode: seq<int>, modelCode: seq<int>,
    measurable: seq<int>, bits: seq<seq<byte>>,
    models: seq<string>, agents: seq<string>, projects: seq<string>, channels: seq<string>)
  {
    function Count(): nat { |kind| }

    predicate Shaped() {
      && |parentId| == |blockIndex| == |agentCode| == |projectCode| == |channelCode| == Count()
      && |modelCode| == |measurable| == |bits| == Count()
    }

    function KeyAt(i: nat): Key
      requires Shaped() && i < Count()
    {
      Key(Record(kind[i], parentId[i]), blockIndex[i])
    }

    /** Rows in key order, codes that name labels, and no label listed twice. */
    ghost predicate Valid() {
      && Shaped()
      && (forall i, j | 0 <= i < j < Count() :: Less(KeyAt(i), KeyAt(j)))
      && (forall i | 0 <= i < Count() ::
            && 0 <= agentCode[i] < |agents| && 0 <= projectCode[i] < |projects|
            && 0 <= channelCode[i] < |channels| && 0 <= modelCode[i] < |models|)
      && Distinct(agents) && Distinct(projects) && Distinct(channels) && Distinct(models)
      && (forall i | 0 <= i < Count() :: |bits[i]| == width)
    }

    /** The axes row `i` carries, read through the label tables. */
    function AxesAt(i: nat): Row
      requires Valid() && i < Count()
    {
      Row(agents[agentCode[i]], projects[projectCode[i]], channels[channelCode[i]],
          models[modelCode[i]], Blob(bits[i]))
    }
  }

  /** A changed record's current row. */
  datatype LiveRow = LiveRow(key: Key, bits: seq<byte>)

  /** A merged row and where it comes from: a place in the file, or below zero the live
      row `-1 - source`. */
  datatype Entry = Entry(key: Key, source: int)

  ghost predicate AscendingLive(live: seq<LiveRow>) {
    forall i, j | 0 <= i < j < |live| :: Less(live[i].key, live[j].key)
  }

  function Keys(es: seq<Entry>): (ks: seq<Key>)
    ensures |ks| == |es| && forall i | 0 <= i < |es| :: ks[i] == es[i].key
  {
    KeysUpTo(es, |es|)
  }

  function KeysUpTo(es: seq<Entry>, n: nat): (ks: seq<Key>)
    requires n <= |es|
    ensures |ks| == n && forall i | 0 <= i < n :: ks[i] == es[i].key
  {
    if n == 0 then [] else KeysUpTo(es, n - 1) + [es[n-1].key]
  }

  // ---- the mask ------------------------------------------------------------------------

  /** The codes of the labels a filter reads. */
  function Codes(labels: seq<string>, values: set<string>): (codes: set<int>)
    ensures forall c :: c in codes <==> 0 <= c < |labels| && labels[c] in values
  {
    set c | 0 <= c < |labels| && labels[c] in values
  }

  /** The code of one label, or a code no row has. */
  method CodeOf(labels: seq<string>, value: string) returns (code: int)
    ensures 0 <= code < |labels| ==> labels[code] == value && value !in labels[..code]
    ensures !(0 <= code < |labels|) <==> value !in labels
    ensures -1 <= code
  {
    var i := 0;
    while i < |labels|
      invariant 0 <= i <= |labels|
      invariant value !in labels[..i]
    {
      if labels[i] == value {
        return i;
      }
      i := i + 1;
    }
    assert labels[..i] == labels;
    code := -1;
  }

  /** The mask of one row, computed from codes as the chunk loop does. */
  datatype Mask = Mask(models: set<int>, agent: Option<int>, projects: Option<set<int>>,
                       channels: Option<set<int>>, changed: set<Record>)
  {
    predicate Lets(index: BlockIndex, i: nat)
      requires index.Shaped() && i < index.Count()
    {
      && index.modelCode[i] in models
      && (agent.Some? ==> index.agentCode[i] == agent.value)
      && (projects.Some? ==> index.projectCode[i] in projects.value)
      && (channels.Some? ==> index.channelCode[i] in channels.value)
      && index.KeyAt(i).rec !in changed
    }
  }

  /** The mask a filter and a set of changed records give over this file's codes: a row is
      let through exactly when the filter admits the labels it carries and its record did
      not change. */
  method BuildMask(index: BlockIndex, f: Filter, changed: set<Record>) returns (mask: Mask)
    requires index.Valid()
    ensures mask.changed == changed
    ensures forall i: nat | i < index.Count() ::
      mask.Lets(index, i) <==> Admits(f, index.AxesAt(i)) && index.KeyAt(i).rec !in changed
  {
    var agent := None;
    if f.agent.Named? {
      var code := CodeOf(index.agents, f.agent.name);
      agent := Some(code);
    }
    var projects := None;
    if f.project.Named? {
      projects := Some(Codes(index.projects, if f.project.name == "" then {""} else {f.project.name, ""}));
    }
    var channels := None;
    if f.channel.Named? && f.channel.name != "" {
      channels := Some(Codes(index.channels, {f.channel.name, ""}));
    }
    mask := Mask(Codes(index.models, f.models), agent, projects, channels, changed);
  }

  // ---- sorting one chunk -----------------------------------------------------------------

  ghost predicate Sorted(es: seq<Entry>) {
    forall i, j | 0 <= i < j < |es| :: Less(es[i].key, es[j].key)
  }

  /** Where a row belongs in a sorted chunk. */
  function Placed(es: seq<Entry>, e: Entry): (r: seq<Entry>) {
    if es == [] then [e]
    else if Less(e.key, es[0].key) then [e] + es
    else [es[0]] + Placed(es[1..], e)
  }

  function LexSort(es: seq<Entry>): (r: seq<Entry>) {
    if es == [] then [] else Placed(LexSort(es[..|es|-1]), es[|es|-1])
  }

  lemma {:induction false} PlacedSorts(es: seq<Entry>, e: Entry)
    requires Sorted(es)
    requires forall x | x in es :: x.key != e.key
    ensures Sorted(Placed(es, e))
    ensures forall x :: x in Placed(es, e) <==> x in es || x == e
    ensures |Placed(es, e)| == |es| + 1
  {
    if es != [] && !Less(e.key, es[0].key) {
      var tail := es[1..];
      assert es == [es[0]] + tail;
      PlacedSorts(tail, e);
      FrontSorts(es[0], Placed(tail, e));
    } else {
      FrontSorts(e, es);
    }
  }

  lemma {:induction false} FrontSorts(e: Entry, es: seq<Entry>)
    requires Sorted(es)
    requires forall x | x in es :: Less(e.key, x.key)
    ensures Sorted([e] + es)
  {
    forall i, j | 0 <= i < j < |[e] + es| ensures Less(([e] + es)[i].key, ([e] + es)[j].key) {
      assert es[j-1] in es;
    }
  }

  lemma {:induction false} LexSortSorts(es: seq<Entry>)
    requires forall i, j | 0 <= i < j < |es| :: es[i].key != es[j].key
    ensures Sorted(LexSort(es))
    ensures forall x :: x in LexSort(es) <==> x in es
    ensures |LexSort(es)| == |es|
  {
    if es != [] {
      var front := es[..|es|-1];
      LexSortSorts(front);
      assert es == front + [es[|es|-1]];
      PlacedSorts(LexSort(front), es[|es|-1]);
    }
  }

  /** `bisect_left`: the first live row at or past `target`. */
  method BisectLeft(live: seq<LiveRow>, target: Key, from: nat) returns (stop: nat)
    requires AscendingLive(live) && from <= |live|
    ensures from <= stop <= |live|
    ensures forall i | from <= i < stop :: Less(live[i].key, target)
    ensures forall i | stop <= i < |live| :: !Less(live[i].key, target)
  {
    var lo, hi := from, |live|;
    while lo < hi
      invariant from <= lo <= hi <= |live|
      invariant forall i | from <= i < lo :: Less(live[i].key, target)
      invariant forall i | hi <= i < |live| :: !Less(live[i].key, target)
    {
      var mid := (lo + hi) / 2;
      if Less(live[mid].key, target) {
        forall i | from <= i <= mid ensures Less(live[i].key, target) {
          assert i < mid ==> Less(live[i].key, live[mid].key);
        }
        lo := mid + 1;
      } else {
        forall i | mid <= i < |live| ensures !Less(live[i].key, target) {
          assert mid < i ==> Less(live[mid].key, live[i].key);
        }
        hi := mid;
      }
    }
    stop := lo;
  }

  // ---- counting places ---------------------------------------------------------------------

  lemma {:induction false} CountAcross(ks: seq<Key>, a: nat, n: nat, r: Record)
    requires a <= n <= |ks|
    requires forall j | a <= j < n :: ks[j].rec == r
    ensures CountOf(ks, n, r) == CountOf(ks, a, r) + (n - a)
    decreases n
  {
    if a < n {
      CountAcross(ks, a, n - 1, r);
    }
  }

  lemma {:induction false} CountNone(ks: seq<Key>, n: nat, r: Record)
    requires n <= |ks|
    requires forall j | 0 <= j < n :: ks[j].rec != r
    ensures CountOf(ks, n, r) == 0
  {
    if n > 0 {
      CountNone(ks, n - 1, r);
    }
  }

  /** Only the keys counted matter. */
  lemma {:induction false} CountPrefix(ks: seq<Key>, ls: seq<Key>, n: nat, r: Record)
    requires n <= |ks| && n <= |ls| && ks[..n] == ls[..n]
    ensures CountOf(ks, n, r) == CountOf(ls, n, r)
  {
    if n > 0 {
      assert ks[..n][n-1] == ls[..n][n-1];
      assert ks[..n-1] == ks[..n][..n-1] && ls[..n-1] == ls[..n][..n-1];
      CountPrefix(ks, ls, n - 1, r);
    }
  }

  /** In key order a record's rows are together: past a row of another record there are
      none of it before. */
  lemma {:induction false} NoneBefore(ks: seq<Key>, a: nat)
    requires Ascending(ks) && 0 < a < |ks| && ks[a-1].rec != ks[a].rec
    ensures forall j | 0 <= j < a :: ks[j].rec != ks[a].rec
  {
    forall j | 0 <= j < a ensures ks[j].rec != ks[a].rec {
      assert Less(ks[a-1], ks[a]);
      assert j < a - 1 ==> Less(ks[j], ks[a-1]);
    }
  }

  /** The keys from `a` to `n` are one record's, and the key before them is not. */
  ghost predicate RunEnds(ks: seq<Key>, a: nat, n: nat) {
    && a <= n < |ks|
    && (forall j | a <= j <= n :: ks[j].rec == ks[n].rec)
    && (a > 0 ==> ks[a-1].rec != ks[n].rec)
  }

  /** Row `i` of a chunk is the row number `p` of its record's run within the chunk. */
  ghost predicate InRun(chunk: seq<Entry>, i: nat, p: nat) {
    p <= i < |chunk| && RunEnds(Keys(chunk), i - p, i)
  }

  /** Each row's place in its run within the chunk, and where the first run ends. */
  method RunPlaces(chunk: seq<Entry>) returns (place: seq<nat>, firstRun: nat)
    ensures |place| == |chunk|
    ensures forall i | 0 <= i < |chunk| :: InRun(chunk, i, place[i])
    ensures forall i | 0 <= i < |chunk| :: i < firstRun <==> place[i] == i
  {
    place := [];
    var i, runStart := 0, 0;
    firstRun := |chunk|;
    while i < |chunk|
      invariant 0 <= i <= |chunk| && |place| == i
      invariant i == 0 ==> runStart == 0
      invariant i > 0 ==> runStart < i && place[i-1] == i - 1 - runStart
      invariant runStart == 0 ==> firstRun == |chunk|
      invariant runStart > 0 ==> firstRun <= runStart
      invariant forall j | 0 <= j < i :: InRun(chunk, j, place[j]) && (j < firstRun <==> place[j] == j)
    {
      if i > 0 && chunk[i].key.rec != chunk[i-1].key.rec {
        runStart := i;
        firstRun := if firstRun == |chunk| then i else firstRun;
      }
      place := place + [i - runStart];
      i := i + 1;
    }
  }

  /** Counting a record up to row `n` of a run of its rows that begins at `a`. */
  lemma {:induction false} CountRun(ks: seq<Key>, a: nat, n: nat)
    requires Ascending(ks) && a <= n < |ks|
    requires forall j | a <= j <= n :: ks[j].rec == ks[n].rec
    ensures CountOf(ks, n, ks[n].rec) ==
      n - a + (if a > 0 && ks[a-1].rec == ks[n].rec then CountOf(ks, a, ks[n].rec) else 0)
  {
    CountAcross(ks, a, n, ks[n].rec);
    if a > 0 {
      if ks[a-1].rec != ks[n].rec {
        NoneBefore(ks, a);
        CountNone(ks, a, ks[n].rec);
      }
    }
  }

  /** The place of a row among all of its record's rows, from its place in its run. */
  lemma {:induction false} PlaceCounts(before: seq<Key>, chunk: seq<Key>, a: nat, i: nat)
    requires Ascending(before + chunk) && RunEnds(chunk, a, i)
    ensures CountOf(before + chunk, |before| + i, chunk[i].rec) ==
      if a == 0 && before != [] && before[|before|-1].rec == chunk[i].rec
      then CountOf(before, |before|, chunk[i].rec) + i
      else i - a
  {
    var ks, from, end := before + chunk, |before| + a, |before| + i;
    RunInBoth(before, chunk, a, i, from, end);
    CountInRun(before, ks, from, end, chunk[i].rec);
  }

  lemma {:induction false} CountInRun(before: seq<Key>, ks: seq<Key>, from: nat, end: nat, r: Record)
    requires Ascending(ks) && |before| <= from <= end < |ks| && forall j | from <= j <= end :: ks[j].rec == r
    requires from > |before| ==> ks[from-1].rec != r
    requires from == |before| ==> ks[..from] == before[..from] && (from > 0 ==> ks[from-1] == before[|before|-1])
    ensures CountOf(ks, end, r) ==
      if from == |before| && before != [] && before[|before|-1].rec == r
      then CountOf(before, |before|, r) + (end - from)
      else end - from
  {
    CountRun(ks, from, end);
    if from == |before| {
      CountPrefix(ks, before, from, r);
    }
  }

  lemma {:induction false} RunInBoth(before: seq<Key>, chunk: seq<Key>, a: nat, i: nat, from: nat, end: nat)
    requires RunEnds(chunk, a, i) && from == |before| + a && end == |before| + i
    ensures var ks := before + chunk;
      && ks[end] == chunk[i] && (forall j | from <= j <= end :: ks[j].rec == chunk[i].rec)
      && (a > 0 ==> ks[from-1] == chunk[a-1])
      && (a == 0 && before != [] ==> ks[from-1] == before[|before|-1])
      && (a == 0 ==> ks[..from] == before[..from])
  {
    forall j | from <= j <= end ensures (before + chunk)[j].rec == chunk[i].rec {
      assert (before + chunk)[j] == chunk[j - |before|];
    }
  }

  /** Each row's place among its record's rows, counting on from the chunk before when a
      record runs across the boundary. */
  method Places(chunk: seq<Entry>, lastParent: Option<Record>, lastCount: nat, ghost before: seq<Entry>)
      returns (place: seq<nat>)
    requires chunk != [] && Ascending(Keys(before + chunk))
    requires Carried(before, lastParent, lastCount)
    ensures |place| == |chunk|
    ensures forall i | 0 <= i < |chunk| ::
      place[i] == CountOf(Keys(before + chunk), |before| + i, chunk[i].key.rec)
  {
    var runs, firstRun := RunPlaces(chunk);
    place := runs;
    if lastParent == Some(chunk[0].key.rec) {
      place := seq(|chunk|, j requires 0 <= j < |chunk| => if j < firstRun then runs[j] + lastCount else runs[j]);
    }
    forall i: nat | i < |chunk|
      ensures place[i] == CountOf(Keys(before + chunk), |before| + i, chunk[i].key.rec)
    {
      assert InRun(chunk, i, runs[i]);
      CarriedCounts(before, chunk, lastParent, lastCount, i, runs[i]);
    }
  }

  lemma {:induction false} CarriedCounts(before: seq<Entry>, chunk: seq<Entry>, lastParent: Option<Record>,
                                         lastCount: nat, i: nat, p: nat)
    requires Ascending(Keys(before + chunk)) && InRun(chunk, i, p)
    requires Carried(before, lastParent, lastCount)
    ensures CountOf(Keys(before + chunk), |before| + i, chunk[i].key.rec) ==
      if p == i && lastParent == Some(chunk[0].key.rec) then p + lastCount else p
  {
    assert Keys(before + chunk) == Keys(before) + Keys(chunk);
    PlaceCounts(Keys(before), Keys(chunk), i - p, i);
    assert p == i ==> Keys(chunk)[0].rec == Keys(chunk)[i].rec;
  }

  /** What a chunk hands the next: the last row's record and how many of its rows came. */
  ghost predicate Carried(before: seq<Entry>, lastParent: Option<Record>, lastCount: nat) {
    && (before == [] <==> lastParent == None)
    && (before != [] ==>
          lastParent == Some(before[|before|-1].key.rec)
          && lastCount == CountOf(Keys(before), |before|, before[|before|-1].key.rec))
  }

  // ---- the caps over the merged sequence ----------------------------------------------------

  lemma {:induction false} KeptOfPrefix<T>(a: seq<T>, p: seq<nat>, b: seq<T>, q: seq<nat>, n: nat, share: nat)
    requires n <= |a| == |p| && a <= b && p <= q
    ensures Kept(b, q, n, share) == Kept(a, p, n, share)
  {
    if n > 0 {
      KeptOfPrefix(a, p, b, q, n - 1, share);
    }
  }

  lemma {:induction false} KeptOfBoth<T>(a: seq<T>, p: seq<nat>, b: seq<T>, q: seq<nat>, n: nat, share: nat)
    requires |a| == |p| && n <= |b| == |q|
    ensures Kept(a + b, p + q, |a| + n, share) == Kept(a, p, |a|, share) + Kept(b, q, n, share)
  {
    if n == 0 {
      KeptOfPrefix(a, p, a + b, p + q, |a|, share);
    } else {
      KeptOfBoth(a, p, b, q, n - 1, share);
      KeptNext(a + b, p + q, |a| + n, share, b[n-1], q[n-1]);
    }
  }

  lemma {:induction false} KeptNext<T>(s: seq<T>, place: seq<nat>, n: nat, share: nat, x: T, at: nat)
    requires 0 < n <= |s| == |place| && s[n-1] == x && place[n-1] == at
    ensures Kept(s, place, n, share) == Kept(s, place, n - 1, share) + if at < share then [x] else []
  {
  }

  lemma {:induction false} KeptKeys(es: seq<Entry>, place: seq<nat>, n: nat, share: nat)
    requires n <= |es| == |place|
    ensures Keys(Kept(es, place, n, share)) == Kept(Keys(es), place, n, share)
    ensures forall e | e in Kept(es, place, n, share) :: e in es
  {
    if n > 0 {
      KeptKeys(es, place, n - 1, share);
    }
  }

  lemma {:induction false} TakeMore<T>(a: seq<T>, b: seq<T>, cap: nat)
    ensures Take(a + b, cap) == Take(a, cap) + Take(b, cap - |Take(a, cap)|)
  {
  }

  /** A downward-closed part of a sorted sequence is a prefix of it. */
  lemma {:induction false} PrefixOfOrder(part: seq<Key>, all: set<Key>)
    requires Ascending(part)
    requires forall k | k in part :: k in all
    requires forall k, x | k in part && x in all && x !in part :: Less(k, x)
    ensures part <= InOrder(all)
  {
    var rest := InOrder(set x | x in all && x !in part);
    var whole := part + rest;
    forall i, j | 0 <= i < j < |whole| ensures Less(whole[i], whole[j]) {
      if i < |part| && |part| <= j {
        assert whole[i] in part && whole[j] in rest;
      }
    }
    OrderIsUnique(whole, InOrder(all));
    assert whole[..|part|] == part;
  }

  // ---- the merge ------------------------------------------------------------------------------

  /** What `_merge` may assume: the file is in key order, the live rows are in key order,
      and they are rows of changed records only. */
  ghost predicate Ready(index: BlockIndex, live: seq<LiveRow>, mask: Mask) {
    && index.Valid()
    && AscendingLive(live)
    && (forall l | l in live :: l.key.rec in mask.changed)
  }

  ghost predicate FromFile(index: BlockIndex, mask: Mask, e: Entry, end: nat)
    requires index.Shaped() && end <= index.Count()
  {
    0 <= e.source < end && mask.Lets(index, e.source) && e.key == index.KeyAt(e.source)
  }

  ghost predicate FromLive(live: seq<LiveRow>, e: Entry, end: nat)
    requires end <= |live|
  {
    e.source < 0 && -1 - e.source < end && e.key == live[-1 - e.source].key
  }

  /** The keys the merge is over. */
  ghost function MergedKeys(index: BlockIndex, live: seq<LiveRow>, mask: Mask): (ks: set<Key>)
    requires index.Shaped()
  {
    (set i | 0 <= i < index.Count() && mask.Lets(index, i) :: index.KeyAt(i)) + (set l | l in live :: l.key)
  }

  /** How far the chunk loop has come: `m` holds exactly the admitted file rows before
      `end` and the live rows before `nextLive`, in order, and all that is left follows. */
  ghost predicate Reached(index: BlockIndex, live: seq<LiveRow>, mask: Mask, m: seq<Entry>, end: nat, nextLive: nat)
    requires index.Shaped()
  {
    && end <= index.Count() && nextLive <= |live|
    && Sorted(m)
    && (forall e | e in m :: FromFile(index, mask, e, end) || FromLive(live, e, nextLive))
    && (forall i: nat | i < end && mask.Lets(index, i) :: Entry(index.KeyAt(i), i) in m)
    && (forall j: nat | j < nextLive :: Entry(live[j].key, -1 - j) in m)
    && (forall e, i: nat | e in m && end <= i < index.Count() :: Less(e.key, index.KeyAt(i)))
    && (forall e, j: nat | e in m && nextLive <= j < |live| :: Less(e.key, live[j].key))
  }

  lemma {:induction false} ReachedIsPrefix(index: BlockIndex, live: seq<LiveRow>, mask: Mask, m: seq<Entry>, end: nat, nextLive: nat)
    requires Ready(index, live, mask) && Reached(index, live, mask, m, end, nextLive)
    ensures Keys(m) <= InOrder(MergedKeys(index, live, mask))
    ensures end == index.Count() && nextLive == |live| ==> Keys(m) == InOrder(MergedKeys(index, live, mask))
  {
    var all := MergedKeys(index, live, mask);
    forall k | k in Keys(m) ensures k in all {
      var i :| 0 <= i < |m| && m[i].key == k;
      assert m[i] in m;
      if FromFile(index, mask, m[i], end) {
        assert k == index.KeyAt(m[i].source);
      } else {
        assert live[-1 - m[i].source] in live;
      }
    }
    forall k, x | k in Keys(m) && x in all && x !in Keys(m) ensures Less(k, x) {
      var i :| 0 <= i < |m| && m[i].key == k;
      assert m[i] in m;
      Missing(index, live, mask, m, end, nextLive, x);
    }
    PrefixOfOrder(Keys(m), all);
    if end == index.Count() && nextLive == |live| {
      forall x | x in all ensures x in Keys(m) {
        if x !in Keys(m) {
          Missing(index, live, mask, m, end, nextLive, x);
        }
      }
      OrderIsUnique(Keys(m), InOrder(all));
    }
  }

  /** A key not merged yet is a file row or a live row still to come. */
  lemma {:induction false} Missing(index: BlockIndex, live: seq<LiveRow>, mask: Mask, m: seq<Entry>, end: nat, nextLive: nat, x: Key)
    requires index.Shaped() && Reached(index, live, mask, m, end, nextLive)
    requires x in MergedKeys(index, live, mask) && x !in Keys(m)
    ensures (exists i: nat :: end <= i < index.Count() && index.KeyAt(i) == x)
         || (exists j: nat :: nextLive <= j < |live| && live[j].key == x)
  {
    KeysHold(m);
    if l :| l in live && l.key == x {
      var j: nat :| j < |live| && live[j] == l;
    } else {
      var i: nat :| i < index.Count() && mask.Lets(index, i) && index.KeyAt(i) == x;
    }
  }

  lemma {:induction false} KeysHold(m: seq<Entry>)
    ensures forall e :: e in m ==> e.key in Keys(m)
  {
    forall e | e in m ensures e.key in Keys(m) {
      var at :| 0 <= at < |m| && m[at] == e;
      assert Keys(m)[at] == e.key;
    }
  }

  /** The admitted rows of one chunk of the file. */
  method ChunkOfFile(index: BlockIndex, mask: Mask, start: nat, end: nat) returns (es: seq<Entry>)
    requires index.Valid() && start <= end <= index.Count()
    ensures Sorted(es)
    ensures forall e :: e in es <==> FromFile(index, mask, e, end) && start <= e.source
  {
    es := [];
    var i := start;
    while i < end
      invariant start <= i <= end
      invariant Sorted(es)
      invariant forall e :: e in es <==> FromFile(index, mask, e, i) && start <= e.source
    {
      if mask.Lets(index, i) {
        es := es + [Entry(index.KeyAt(i), i)];
      }
      i := i + 1;
    }
  }

  /** The live rows from `a` up to `b`, named by their places. */
  function LiveEntries(live: seq<LiveRow>, a: nat, b: nat): (es: seq<Entry>)
    requires a <= b <= |live|
    ensures |es| == b - a
    ensures forall e :: e in es <==> FromLive(live, e, b) && a <= -1 - e.source
  {
    var es := seq(b - a, j requires 0 <= j < b - a => Entry(live[a + j].key, -1 - (a + j)));
    assert forall e | FromLive(live, e, b) && a <= -1 - e.source :: es[-1 - e.source - a] == e;
    es
  }

  /** A chunk's rows in key order: the admitted file rows from `start` up to `end` and the
      live rows from `nextLive` up to `stop`. */
  ghost predicate IsChunk(index: BlockIndex, live: seq<LiveRow>, mask: Mask, chunk: seq<Entry>,
                          start: nat, end: nat, nextLive: nat, stop: nat)
    requires index.Shaped() && start <= end <= index.Count() && nextLive <= stop <= |live|
  {
    && Sorted(chunk)
    && (forall e :: e in chunk <==>
          (FromFile(index, mask, e, end) && start <= e.source)
          || (FromLive(live, e, stop) && nextLive <= -1 - e.source))
  }

  lemma {:induction false} ChunkIsSorted(index: BlockIndex, live: seq<LiveRow>, mask: Mask, start: nat, end: nat,
                      nextLive: nat, stop: nat, file: seq<Entry>, chunk: seq<Entry>)
    requires Ready(index, live, mask)
    requires start <= end <= index.Count() && nextLive <= stop <= |live|
    requires Sorted(file)
    requires forall e :: e in file <==> FromFile(index, mask, e, end) && start <= e.source
    requires chunk == if stop > nextLive then LexSort(file + LiveEntries(live, nextLive, stop)) else file
    ensures IsChunk(index, live, mask, chunk, start, end, nextLive, stop)
  {
    if stop > nextLive {
      ChunkKeysDiffer(index, live, mask, start, end, nextLive, stop, file);
      LexSortSorts(file + LiveEntries(live, nextLive, stop));
    }
  }

  /** The live rows split where the next chunk of the file begins. */
  ghost predicate SplitsAt(index: BlockIndex, live: seq<LiveRow>, end: nat, nextLive: nat, stop: nat)
    requires index.Shaped() && end <= index.Count() && nextLive <= stop <= |live|
  {
    if end == index.Count() then stop == |live|
    else
      && (forall j | nextLive <= j < stop :: Less(live[j].key, index.KeyAt(end)))
      && (forall j | stop <= j < |live| :: !Less(live[j].key, index.KeyAt(end)))
  }

  /** Merging a chunk carries the loop on to its end. */
  lemma {:induction false} ChunkExtends(index: BlockIndex, live: seq<LiveRow>, mask: Mask, m: seq<Entry>,
                     start: nat, end: nat, nextLive: nat, stop: nat, chunk: seq<Entry>)
    requires Ready(index, live, mask)
    requires start <= end <= index.Count() && nextLive <= stop <= |live|
    requires Reached(index, live, mask, m, start, nextLive)
    requires IsChunk(index, live, mask, chunk, start, end, nextLive, stop)
    requires SplitsAt(index, live, end, nextLive, stop)
    ensures Reached(index, live, mask, m + chunk, end, stop)
  {
    forall e, x | e in m && x in chunk ensures Less(e.key, x.key) {
      if FromFile(index, mask, x, end) {
        assert Less(e.key, index.KeyAt(x.source));
      } else {
        assert Less(e.key, live[-1 - x.source].key);
      }
    }
    Joins(m, chunk);
    forall e, i: nat | e in m + chunk && end <= i < index.Count() ensures Less(e.key, index.KeyAt(i)) {
      if e in chunk {
        ChunkBeforeFile(index, live, mask, chunk, start, end, nextLive, stop, e, i);
      }
    }
    forall e, j: nat | e in m + chunk && stop <= j < |live| ensures Less(e.key, live[j].key) {
      if e in chunk {
        ChunkBeforeLive(index, live, mask, chunk, start, end, nextLive, stop, e, j);
      }
    }
  }

  lemma {:induction false} ChunkBeforeFile(index: BlockIndex, live: seq<LiveRow>, mask: Mask, chunk: seq<Entry>,
                        start: nat, end: nat, nextLive: nat, stop: nat, e: Entry, i: nat)
    requires Ready(index, live, mask)
    requires start <= end <= index.Count() && nextLive <= stop <= |live|
    requires IsChunk(index, live, mask, chunk, start, end, nextLive, stop)
    requires SplitsAt(index, live, end, nextLive, stop)
    requires e in chunk && end <= i < index.Count()
    ensures Less(e.key, index.KeyAt(i))
  {
    assert Less(e.key, index.KeyAt(end));
    assert end < i ==> Less(index.KeyAt(end), index.KeyAt(i));
  }

  lemma {:induction false} ChunkBeforeLive(index: BlockIndex, live: seq<LiveRow>, mask: Mask, chunk: seq<Entry>,
                        start: nat, end: nat, nextLive: nat, stop: nat, e: Entry, j: nat)
    requires Ready(index, live, mask)
    requires start <= end <= index.Count() && nextLive <= stop <= |live|
    requires IsChunk(index, live, mask, chunk, start, end, nextLive, stop)
    requires SplitsAt(index, live, end, nextLive, stop)
    requires e in chunk && stop <= j < |live|
    ensures Less(e.key, live[j].key)
  {
    if FromFile(index, mask, e, end) {
      LiveDiffers(index, live, mask, j, end);
    } else {
      assert Less(live[-1 - e.source].key, live[j].key);
    }
  }

  /** A live row at or past the first file row of the next chunk comes after every file
      row of this one. */
  lemma {:induction false} LiveDiffers(index: BlockIndex, live: seq<LiveRow>, mask: Mask, j: nat, end: nat)
    requires Ready(index, live, mask) && j < |live| && end < index.Count()
    requires !Less(live[j].key, index.KeyAt(end))
    ensures forall i: nat | i < end :: Less(index.KeyAt(i), live[j].key)
  {
    forall i: nat | i < end ensures Less(index.KeyAt(i), live[j].key) {
      assert Less(index.KeyAt(i), index.KeyAt(end));
    }
  }

  lemma {:induction false} Joins(m: seq<Entry>, chunk: seq<Entry>)
    requires Sorted(m) && Sorted(chunk)
    requires forall e, x | e in m && x in chunk :: Less(e.key, x.key)
    ensures Sorted(m + chunk)
  {
    var w := m + chunk;
    forall i, j | 0 <= i < j < |w| ensures Less(w[i].key, w[j].key) {
      if i < |m| <= j {
        assert w[i] in m && w[j] in chunk;
      }
    }
  }

  lemma {:induction false} ChunkKeysDiffer(index: BlockIndex, live: seq<LiveRow>, mask: Mask,
                        start: nat, end: nat, nextLive: nat, stop: nat, file: seq<Entry>)
    requires Ready(index, live, mask)
    requires start <= end <= index.Count() && nextLive <= stop <= |live|
    requires Sorted(file)
    requires forall e :: e in file <==> FromFile(index, mask, e, end) && start <= e.source
    ensures var es := file + LiveEntries(live, nextLive, stop);
      forall i, j | 0 <= i < j < |es| :: es[i].key != es[j].key
  {
    var batch := LiveEntries(live, nextLive, stop);
    var es := file + batch;
    forall i, j | 0 <= i < j < |es| ensures es[i].key != es[j].key {
      if |file| <= i {
        assert Less(live[nextLive + i - |file|].key, live[nextLive + j - |file|].key);
      } else if |file| <= j {
        assert es[i] in file && es[j] in batch;
        assert live[-1 - es[j].source] in live;
      }
    }
  }

  /** The places counted so far are those of the whole merged sequence. */
  ghost predicate Counted(m: seq<Entry>, places: seq<nat>) {
    |places| == |m| && forall i | 0 <= i < |m| :: places[i] == CountOf(Keys(m), i, m[i].key.rec)
  }

  lemma {:induction false} CountedFurther(m: seq<Entry>, places: seq<nat>, chunk: seq<Entry>, place: seq<nat>)
    requires Counted(m, places) && |place| == |chunk|
    requires forall i | 0 <= i < |chunk| :: place[i] == CountOf(Keys(m + chunk), |m| + i, chunk[i].key.rec)
    ensures Counted(m + chunk, places + place)
  {
    forall i | 0 <= i < |m + chunk|
      ensures (places + place)[i] == CountOf(Keys(m + chunk), i, (m + chunk)[i].key.rec)
    {
      if i < |m| {
        assert Keys(m)[..i] == Keys(m + chunk)[..i];
        CountPrefix(Keys(m), Keys(m + chunk), i, m[i].key.rec);
      } else {
        assert (m + chunk)[i] == chunk[i - |m|];
      }
    }
  }

  lemma {:induction false} CountedPrefix(m: seq<Entry>, places: seq<nat>, rest: seq<Key>)
      returns (more: seq<nat>)
    requires Counted(m, places)
    ensures |more| == |rest| && PlacesOf(Keys(m) + rest) == places + more
  {
    var all := Keys(m) + rest;
    more := PlacesOf(all)[|m|..];
    forall i: nat | i < |m| ensures places[i] == PlacesOf(all)[i] {
      assert Keys(m)[..i] == all[..i];
      CountPrefix(Keys(m), all, i, m[i].key.rec);
    }
  }

  /** Once the examined cap is full, what is left cannot change the answer. */
  lemma {:induction false} FullIsFinal(m: seq<Entry>, places: seq<nat>, rest: seq<Key>, perParent: nat, cap: nat)
    requires Counted(m, places)
    requires |Kept(m, places, |m|, perParent)| >= cap || rest == []
    ensures var all := Keys(m) + rest;
      Keys(Take(Kept(m, places, |m|, perParent), cap)) == Take(Kept(all, PlacesOf(all), |all|, perParent), cap)
  {
    KeptKeys(m, places, |m|, perParent);
    KeysOfTake(Kept(m, places, |m|, perParent), cap);
    var more := CountedPrefix(m, places, rest);
    KeptOfPart(Keys(m), places, rest, more, perParent, cap);
  }

  lemma {:induction false} KeysOfTake(es: seq<Entry>, cap: nat)
    ensures Keys(Take(es, cap)) == Take(Keys(es), cap)
  {
  }

  lemma {:induction false} KeptOfPart(a: seq<Key>, p: seq<nat>, b: seq<Key>, q: seq<nat>, perParent: nat, cap: nat)
    requires |a| == |p| && |b| == |q|
    requires |Kept(a, p, |a|, perParent)| >= cap || b == []
    ensures Take(Kept(a, p, |a|, perParent), cap) == Take(Kept(a + b, p + q, |a + b|, perParent), cap)
  {
    KeptOfBoth(a, p, b, q, |b|, perParent);
    TakeMore(Kept(a, p, |a|, perParent), Kept(b, q, |b|, perParent), cap);
  }

  /** The rows of the next chunk: the file's from `start`, and the live rows that sort
      before the first file row after it. */
  method NextChunk(index: BlockIndex, live: seq<LiveRow>, mask: Mask, start: nat, nextLive: nat,
                   chunkSize: nat, ghost m: seq<Entry>)
      returns (chunk: seq<Entry>, end: nat, stop: nat)
    requires Ready(index, live, mask) && chunkSize > 0
    requires Reached(index, live, mask, m, start, nextLive)
    ensures start <= end <= index.Count() && (start < index.Count() ==> start < end)
    ensures Reached(index, live, mask, m + chunk, end, stop)
    ensures end == index.Count() ==> stop == |live|
  {
    end := if index.Count() < start + chunkSize then index.Count() else start + chunkSize;
    var file := ChunkOfFile(index, mask, start, end);
    stop := |live|;
    if end < index.Count() {
      stop := BisectLeft(live, index.KeyAt(end), nextLive);
    }
    chunk := if stop > nextLive then LexSort(file + LiveEntries(live, nextLive, stop)) else file;
    ChunkIsSorted(index, live, mask, start, end, nextLive, stop, file, chunk);
    ChunkExtends(index, live, mask, m, start, end, nextLive, stop, chunk);
  }

  /** What one chunk adds under both caps, and what it hands the next chunk. */
  method TakeChunk(chunk: seq<Entry>, lastParent: Option<Record>, lastCount: nat, perParent: nat,
                   taken: nat, examinedCap: nat, ghost m: seq<Entry>, ghost places: seq<nat>)
      returns (kept: seq<Entry>, newParent: Option<Record>, newCount: nat, ghost newPlaces: seq<nat>)
    requires chunk != [] && Sorted(m + chunk) && Carried(m, lastParent, lastCount)
    requires Counted(m, places)
    requires taken == |Take(Kept(m, places, |m|, perParent), examinedCap)|
    ensures Carried(m + chunk, newParent, newCount)
    ensures Counted(m + chunk, newPlaces)
    ensures Take(Kept(m + chunk, newPlaces, |m + chunk|, perParent), examinedCap)
      == Take(Kept(m, places, |m|, perParent), examinedCap) + kept
  {
    var place := Places(chunk, lastParent, lastCount, m);
    newParent, newCount := Some(chunk[|chunk|-1].key.rec), place[|chunk|-1] + 1;
    kept := Take(Kept(chunk, place, |chunk|, perParent), examinedCap - taken);
    newPlaces := places + place;
    CountedFurther(m, places, chunk, place);
    ChunkKept(m, places, chunk, place, perParent, examinedCap);
    LastCarried(m, chunk, place[|chunk|-1]);
  }

  lemma {:induction false} ChunkKept(m: seq<Entry>, places: seq<nat>, chunk: seq<Entry>, place: seq<nat>,
                                     perParent: nat, cap: nat)
    requires |m| == |places| && |chunk| == |place|
    ensures var before := Take(Kept(m, places, |m|, perParent), cap);
      Take(Kept(m + chunk, places + place, |m + chunk|, perParent), cap)
        == before + Take(Kept(chunk, place, |chunk|, perParent), cap - |before|)
  {
    KeptOfBoth(m, places, chunk, place, |chunk|, perParent);
    TakeMore(Kept(m, places, |m|, perParent), Kept(chunk, place, |chunk|, perParent), cap);
  }

  lemma {:induction false} LastCarried(m: seq<Entry>, chunk: seq<Entry>, place: nat)
    requires chunk != []
    requires place == CountOf(Keys(m + chunk), |m| + |chunk| - 1, chunk[|chunk|-1].key.rec)
    ensures Carried(m + chunk, Some(chunk[|chunk|-1].key.rec), place + 1)
  {
    assert (m + chunk)[|m + chunk|-1] == chunk[|chunk|-1];
  }

  lemma {:induction false} FullOrWhole(m: seq<Entry>, places: seq<nat>, all: seq<Key>, perParent: nat, cap: nat)
    requires Counted(m, places) && Keys(m) <= all
    requires |Take(Kept(m, places, |m|, perParent), cap)| >= cap || Keys(m) == all
    ensures Keys(Take(Kept(m, places, |m|, perParent), cap)) == Take(Kept(all, PlacesOf(all), |all|, perParent), cap)
  {
    var rest := all[|m|..];
    assert all == Keys(m) + rest;
    FullIsFinal(m, places, rest, perParent, cap);
  }

  lemma {:induction false} TakenFrom(index: BlockIndex, live: seq<LiveRow>, mask: Mask, m: seq<Entry>, end: nat,
                                     nextLive: nat, places: seq<nat>, perParent: nat, cap: nat)
    requires index.Shaped() && Reached(index, live, mask, m, end, nextLive) && |places| == |m|
    ensures forall e | e in Take(Kept(m, places, |m|, perParent), cap) ::
      FromFile(index, mask, e, index.Count()) || FromLive(live, e, |live|)
  {
    KeptKeys(m, places, |m|, perParent);
    forall e | e in Take(Kept(m, places, |m|, perParent), cap)
      ensures FromFile(index, mask, e, index.Count()) || FromLive(live, e, |live|)
    {
      assert e in Kept(m, places, |m|, perParent);
      assert FromFile(index, mask, e, end) || FromLive(live, e, nextLive);
    }
  }

  /** Where the loop may stop: everything merged, or the examined cap full. */
  lemma {:induction false} Finish(index: BlockIndex, live: seq<LiveRow>, mask: Mask, m: seq<Entry>, end: nat,
                                  nextLive: nat, places: seq<nat>, perParent: nat, examinedCap: nat)
    requires Ready(index, live, mask) && Reached(index, live, mask, m, end, nextLive)
    requires Counted(m, places)
    requires |Take(Kept(m, places, |m|, perParent), examinedCap)| >= examinedCap
      || (end == index.Count() && nextLive == |live|)
    ensures Keys(Take(Kept(m, places, |m|, perParent), examinedCap))
      == Answer(index, live, mask, perParent, examinedCap)
    ensures forall e | e in Take(Kept(m, places, |m|, perParent), examinedCap) ::
      FromFile(index, mask, e, index.Count()) || FromLive(live, e, |live|)
  {
    ReachedIsPrefix(index, live, mask, m, end, nextLive);
    FullOrWhole(m, places, InOrder(MergedKeys(index, live, mask)), perParent, examinedCap);
    TakenFrom(index, live, mask, m, end, nextLive, places, perParent, examinedCap);
  }

  /** The merged keys in order, each record's share of them, and of those the first
      `examinedCap`. */
  ghost function Answer(index: BlockIndex, live: seq<LiveRow>, mask: Mask, perParent: nat, examinedCap: nat): seq<Key>
    requires index.Shaped()
  {
    var all := InOrder(MergedKeys(index, live, mask));
    Take(Kept(all, PlacesOf(all), |all|, perParent), examinedCap)
  }

  /** The merge over any chunk size and both caps. */
  method MergeEntries(index: BlockIndex, live: seq<LiveRow>, mask: Mask,
                      perParent: nat, examinedCap: nat, chunkSize: nat) returns (parts: seq<Entry>)
    requires Ready(index, live, mask) && chunkSize > 0
    ensures Keys(parts) == Answer(index, live, mask, perParent, examinedCap)
    ensures forall e | e in parts :: FromFile(index, mask, e, index.Count()) || FromLive(live, e, |live|)
  {
    parts := [];
    var lastParent, more := None, true;
    var lastCount: nat, nextLive: nat, start: nat := 0, 0, 0;
    ghost var m: seq<Entry>, places: seq<nat> := [], [];
    while more
      invariant Reached(index, live, mask, m, start, nextLive)
      invariant Carried(m, lastParent, lastCount) && Counted(m, places)
      invariant parts == Take(Kept(m, places, |m|, perParent), examinedCap)
      invariant more ==> start < index.Count() || (start == 0 && index.Count() == 0)
      invariant !more ==> start == index.Count() && nextLive == |live|
      decreases index.Count() - start, more
    {
      var chunk, end, stop := NextChunk(index, live, mask, start, nextLive, chunkSize, m);
      start, nextLive := end, stop;
      if chunk != [] {
        var kept;
        kept, lastParent, lastCount, places :=
          TakeChunk(chunk, lastParent, lastCount, perParent, |parts|, examinedCap, m, places);
        parts := parts + kept;
        m := m + chunk;
        if |parts| >= examinedCap {
          break;
        }
      } else {
        assert m + chunk == m;
      }
      more := start < index.Count();
    }
    Finish(index, live, mask, m, start, nextLive, places, perParent, examinedCap);
  }

  // ---- the answer's arrays --------------------------------------------------------------------

  /** The bits each merged row really has: a live row's own, and a file row's where the
      file could measure it. */
  ghost predicate CellsAgree(index: BlockIndex, live: seq<LiveRow>, mask: Mask, cells: map<Key, seq<byte>>)
    requires index.Shaped()
  {
    && (forall l | l in live :: l.key in cells && cells[l.key] == l.bits)
    && (forall i: nat | i < index.Count() && mask.Lets(index, i) ::
          && index.KeyAt(i) in cells
          && (index.measurable[i] == 1 <==> |cells[index.KeyAt(i)]| == index.width)
          && (index.measurable[i] == 1 ==> index.bits[i] == cells[index.KeyAt(i)]))
  }

  /** `_merge`: the examined rows, which of them can be measured, and those rows' bits. */
  method Merge(index: BlockIndex, live: seq<LiveRow>, mask: Mask, perParent: nat, examinedCap: nat,
               chunkSize: nat, ghost cells: map<Key, seq<byte>>) returns (out: Examined)
    requires Ready(index, live, mask) && chunkSize > 0
    requires CellsAgree(index, live, mask, cells)
    ensures Measures(out, Answer(index, live, mask, perParent, examinedCap), cells, index.width)
  {
    var parts := MergeEntries(index, live, mask, perParent, examinedCap, chunkSize);
    out := Examined([], [], []);
    ghost var keys: seq<Key> := [];
    var i := 0;
    while i < |parts|
      invariant 0 <= i <= |parts| && |keys| == i && forall j | 0 <= j < i :: keys[j] == parts[j].key
      invariant Measures(out, keys, cells, index.width)
    {
      assert parts[i] in parts;
      out := MeasureRow(index, live, mask, parts[i], out, keys, cells);
      keys, i := keys + [parts[i].key], i + 1;
    }
    assert keys == Keys(parts);
  }

  /** Append one merged row, with its bits when they can be measured. */
  method MeasureRow(index: BlockIndex, live: seq<LiveRow>, mask: Mask, e: Entry, soFar: Examined,
                    ghost keys: seq<Key>, ghost cells: map<Key, seq<byte>>) returns (next: Examined)
    requires index.Shaped() && CellsAgree(index, live, mask, cells) && Measures(soFar, keys, cells, index.width)
    requires FromFile(index, mask, e, index.Count()) || FromLive(live, e, |live|)
    ensures Measures(next, keys + [e.key], cells, index.width)
  {
    var usable, own;
    if e.source >= 0 {
      usable, own := index.measurable[e.source] == 1, index.bits[e.source];
    } else {
      own := live[-1 - e.source].bits;
      usable := |own| == index.width;
      assert live[-1 - e.source] in live;
    }
    next := Examined(soFar.keys + [e.key], soFar.measurable + [usable],
                     if usable then soFar.bits + [own] else soFar.bits);
    MeasuresOneMore(soFar, keys, cells, index.width, e.key, usable, own, next);
  }
}
