/** The block table's rows and the direct read of them: what recall examines when
    it reads SQLite, and so what the block index file has to reproduce. */
module BlockRows {

  /** A record is a (kind, parent id) pair. Kinds are numbered in collation order:
      0 is 'ep', 1 is 'mem', and any other number is a kind the file cannot hold. */
  datatype Record = Record(kind: int, parent: int)

  /** The primary key of a block row. */
  datatype Key = Key(rec: Record, block: int)

  type byte = x: int | 0 <= x < 256

  /** The bits column: NULL, a blob, or a value of another type. */
  datatype Bits = Null | Blob(bytes: seq<byte>) | NotBlob

  datatype Row = Row(agent: string, project: string, channel: string, model: string, bits: Bits)

  type Table = map<Key, Row>

  /** What the caller of a recall filters by; `None` filters nothing. */
  datatype Axis = All | Named(name: string)
  datatype Filter = Filter(models: set<string>, agent: Axis, project: Axis, channel: Axis)

  ghost predicate SameRow(t: Table, u: Table, k: Key) {
    && (k in t <==> k in u)
    && (k in t ==> t[k] == u[k])
  }

  /** The isolation rule: an agent is matched exactly, a named project or channel also
      reads the global rows, and an empty channel reads every channel. */
  predicate Admits(f: Filter, row: Row) {
    && row.bits != Null
    && row.model in f.models
    && (f.agent.Named? ==> row.agent == f.agent.name)
    && (f.project.Named? ==> row.project == f.project.name || row.project == "")
    && (f.channel.Named? && f.channel.name != "" ==> row.channel == f.channel.name || row.channel == "")
  }

  // ---- key order ---------------------------------------------------------------------

  predicate RecLess(a: Record, b: Record) {
    a.kind < b.kind || (a.kind == b.kind && a.parent < b.parent)
  }

  predicate Less(a: Key, b: Key) {
    RecLess(a.rec, b.rec) || (a.rec == b.rec && a.block < b.block)
  }

  ghost predicate Ascending(s: seq<Key>) {
    forall i, j | 0 <= i < j < |s| :: Less(s[i], s[j])
  }

  /** The least key of a set: the first one a read in primary-key order returns. */
  ghost function Least(ks: set<Key>): (k: Key)
    requires ks != {}
    ensures k in ks && forall x | x in ks :: x == k || Less(k, x)
  {
    LeastExists(ks);
    var k :| k in ks && forall x | x in ks :: x == k || Less(k, x);
    k
  }

  lemma {:induction false} LeastExists(ks: set<Key>)
    requires ks != {}
    ensures exists k :: k in ks && forall x | x in ks :: x == k || Less(k, x)
  {
    var a :| a in ks;
    var rest := ks - {a};
    if rest == {} {
      assert forall x | x in ks :: x in rest || x == a;
    } else {
      LeastExists(rest);
      var b :| b in rest && forall x | x in rest :: x == b || Less(b, x);
      var k := if Less(a, b) then a else b;
      forall x | x in ks ensures x == k || Less(k, x) {
        assert x == a || x in rest;
      }
    }
  }

  /** The keys of a set in key order. */
  ghost function InOrder(ks: set<Key>): (s: seq<Key>)
    ensures Ascending(s)
    ensures forall k :: k in s <==> k in ks
  {
    if ks == {} then [] else
      var k := Least(ks);
      [k] + InOrder(ks - {k})
  }

  lemma {:induction false} OrderIsUnique(s: seq<Key>, t: seq<Key>)
    requires Ascending(s) && Ascending(t)
    requires forall k :: k in s <==> k in t
    ensures s == t
  {
    assert (s != [] ==> s[0] in t) && (t != [] ==> t[0] in s);
    if s != [] {
      assert s[0] == t[0];
      forall k ensures k in s[1..] <==> k in t[1..] {
        if k in s[1..] {
          var i :| 1 <= i < |s| && s[i] == k;
          assert Less(s[0], k) && k in t;
        }
        if k in t[1..] {
          var i :| 1 <= i < |t| && t[i] == k;
          assert Less(t[0], k) && k in s;
        }
      }
      OrderIsUnique(s[1..], t[1..]);
    }
  }

  // ---- the direct read ---------------------------------------------------------------

  /** How many of a sequence's first `n` keys belong to `r`. */
  function CountOf(s: seq<Key>, n: nat, r: Record): (c: nat)
    requires n <= |s|
    ensures c <= n
  {
    if n == 0 then 0 else CountOf(s, n - 1, r) + (if s[n-1].rec == r then 1 else 0)
  }

  /** Each key's place among its record's keys. */
  function PlacesOf(s: seq<Key>): (place: seq<nat>)
    ensures |place| == |s| && forall i | 0 <= i < |s| :: place[i] == CountOf(s, i, s[i].rec)
  {
    PlacesUpTo(s, |s|)
  }

  function PlacesUpTo(s: seq<Key>, n: nat): (place: seq<nat>)
    requires n <= |s|
    ensures |place| == n && forall i | 0 <= i < n :: place[i] == CountOf(s, i, s[i].rec)
  {
    if n == 0 then [] else PlacesUpTo(s, n - 1) + [CountOf(s, n - 1, s[n-1].rec)]
  }

  /** Of the first `n` elements, those whose place is within the share. */
  function Kept<T>(s: seq<T>, place: seq<nat>, n: nat, share: nat): (kept: seq<T>)
    requires n <= |s| && n <= |place|
  {
    if n == 0 then [] else
      Kept(s, place, n - 1, share) + (if place[n-1] < share then [s[n-1]] else [])
  }

  function Take<T>(s: seq<T>, n: nat): (r: seq<T>) {
    if |s| <= n then s else s[..n]
  }

  /** The keys a filter admits. */
  function Admitted(t: Table, f: Filter): (ks: set<Key>) {
    set k | k in t && Admits(f, t[k])
  }

  /** The admitted rows in key order, each record's first `perParent` rows, and of those
      the first `examined`. */
  ghost function DirectRead(t: Table, f: Filter, perParent: nat, examined: nat): seq<Key> {
    var s := InOrder(Admitted(t, f));
    Take(Kept(s, PlacesOf(s), |s|, perParent), examined)
  }

  // ---- what the direct read is --------------------------------------------------------

  /** The keys of a record that come before one of its keys. */
  function Earlier(ks: set<Key>, k: Key): set<Key> {
    set x | x in ks && x.rec == k.rec && Less(x, k)
  }

  /** The keys within their record's share. */
  function Shared(ks: set<Key>, perParent: nat): set<Key> {
    set k | k in ks && |Earlier(ks, k)| < perParent
  }

  /** What a reader may see of the block table: rows with bits, of a model asked for, of the
      agent named if one is; of the project named or of none; and of the channel named or of
      none, an empty channel standing for all of them. */
  predicate IsVisible(f: Filter, row: Row) {
    && row.bits != Null && row.model in f.models
    && (f.agent.All? || f.agent.name == row.agent)
    && (f.project.All? || f.project.name == row.project || row.project == "")
    && (f.channel.All? || f.channel.name == "" || f.channel.name == row.channel || row.channel == "")
  }

  function Visible(t: Table, f: Filter): set<Key> {
    set k | k in t && IsVisible(f, t[k])
  }

  lemma {:induction false} VisibleAreAdmitted(t: Table, f: Filter)
    ensures Visible(t, f) == Admitted(t, f)
  {
    forall k | k in t ensures IsVisible(f, t[k]) <==> Admits(f, t[k]) {
      AdmitsExactly(f, t[k]);
    }
  }

  /** The isolation rule lets through exactly what a reader may see. */
  lemma {:induction false} AdmitsExactly(f: Filter, row: Row)
    ensures Admits(f, row) <==> IsVisible(f, row)
  {
  }

  /** A read of the table: of the visible keys that have fewer than `perParent` of their
      record before them, the first `examined` in key order. */
  ghost predicate IsRead(keys: seq<Key>, t: Table, f: Filter, perParent: nat, examined: nat) {
    var all := Shared(Visible(t, f), perParent);
    && Ascending(keys) && (forall k | k in keys :: k in all)
    && |keys| == (if |all| < examined then |all| else examined)
    && (forall k, x | k in keys && x in all && x !in keys :: Less(k, x))
  }

  function OfRecord(s: seq<Key>, n: nat, r: Record): set<Key>
    requires n <= |s|
  {
    set x | x in s[..n] && x.rec == r
  }

  lemma {:induction false} OneMoreOf(s: seq<Key>, n: nat, r: Record)
    requires 0 < n <= |s|
    ensures OfRecord(s, n, r) == OfRecord(s, n - 1, r) + if s[n-1].rec == r then {s[n-1]} else {}
  {
    assert s[..n] == s[..n-1] + [s[n-1]];
  }

  lemma {:induction false} CountIs(s: seq<Key>, n: nat, r: Record)
    requires Ascending(s) && n <= |s|
    ensures CountOf(s, n, r) == |OfRecord(s, n, r)|
  {
    if n > 0 {
      CountIs(s, n - 1, r);
      OneMoreOf(s, n, r);
      assert s[n-1] !in s[..n-1];
    }
  }

  /** A key's place among its record's keys is how many of them come before it. */
  lemma {:induction false} PlaceIsEarlier(s: seq<Key>, ks: set<Key>, i: nat)
    requires Ascending(s) && (forall k :: k in s <==> k in ks) && i < |s|
    ensures PlacesOf(s)[i] == |Earlier(ks, s[i])|
  {
    CountIs(s, i, s[i].rec);
    forall x ensures x in Earlier(ks, s[i]) <==> x in OfRecord(s, i, s[i].rec) {
      if x in Earlier(ks, s[i]) {
        var j :| 0 <= j < |s| && s[j] == x;
        assert s[..i][j] == x;
      }
      if x in OfRecord(s, i, s[i].rec) {
        var j :| 0 <= j < i && s[..i][j] == x;
        assert s[j] == x && x in s;
      }
    }
    assert Earlier(ks, s[i]) == OfRecord(s, i, s[i].rec);
  }

  /** What is kept of the first `n` keys comes in order and is what the share lets through. */
  lemma {:induction false} KeptIs(s: seq<Key>, place: seq<nat>, n: nat, share: nat)
    requires Ascending(s) && n <= |s| == |place|
    ensures var kept := Kept(s, place, n, share);
      Ascending(kept) && forall k :: k in kept <==> exists i :: 0 <= i < n && s[i] == k && place[i] < share
  {
    if n > 0 {
      KeptIs(s, place, n - 1, share);
      var before := Kept(s, place, n - 1, share);
      assert forall i | 0 <= i < |before| :: before[i] in before;
    }
  }

  lemma {:induction false} KeptIsShared(t: Table, f: Filter, perParent: nat)
    ensures var s := InOrder(Admitted(t, f));
      var kept := Kept(s, PlacesOf(s), |s|, perParent);
      Ascending(kept) && forall k :: k in kept <==> k in Shared(Admitted(t, f), perParent)
  {
    var ks := Admitted(t, f);
    var s := InOrder(ks);
    KeptIs(s, PlacesOf(s), |s|, perParent);
    forall i: nat | i < |s| ensures PlacesOf(s)[i] == |Earlier(ks, s[i])| {
      PlaceIsEarlier(s, ks, i);
    }
    forall k | k in Shared(ks, perParent) ensures exists i :: 0 <= i < |s| && s[i] == k && PlacesOf(s)[i] < perParent {
      var i :| 0 <= i < |s| && s[i] == k;
    }
  }

  lemma {:induction false} AscendingCount(s: seq<Key>, ks: set<Key>)
    requires Ascending(s) && forall k :: k in s <==> k in ks
    ensures |s| == |ks|
  {
    if s == [] {
      assert ks == {};
    } else {
      var n := |s| - 1;
      assert forall k :: k in s[..n] <==> k in ks - {s[n]} by {
        assert s == s[..n] + [s[n]];
        assert s[n] !in s[..n];
      }
      AscendingCount(s[..n], ks - {s[n]});
    }
  }

  lemma {:induction false} FirstOfAll(s: seq<Key>, ks: set<Key>, n: nat)
    requires Ascending(s) && forall k :: k in s <==> k in ks
    ensures var keys := Take(s, n);
      && Ascending(keys) && (forall k | k in keys :: k in ks) && |keys| == (if |ks| < n then |ks| else n)
      && (forall k, x | k in keys && x in ks && x !in keys :: Less(k, x))
  {
    AscendingCount(s, ks);
    var keys := Take(s, n);
    forall k, x | k in keys && x in ks && x !in keys ensures Less(k, x) {
      var i :| 0 <= i < |keys| && keys[i] == k;
      var j :| 0 <= j < |s| && s[j] == x;
      assert forall m | 0 <= m < |keys| :: s[m] == keys[m] && keys[m] != x;
    }
  }

  /** The direct read is that read. */
  lemma {:induction false} DirectReadIs(t: Table, f: Filter, perParent: nat, examined: nat)
    ensures IsRead(DirectRead(t, f, perParent, examined), t, f, perParent, examined)
  {
    var s := InOrder(Admitted(t, f));
    VisibleAreAdmitted(t, f);
    KeptIsShared(t, f, perParent);
    FirstOfAll(Kept(s, PlacesOf(s), |s|, perParent), Shared(Admitted(t, f), perParent), examined);
  }

  // ---- the rows measured ----------------------------------------------------------------

  /** The rows of one recall: their keys, which of them have bits of the file's width, and
      those bits in the same order. */
  datatype Examined = Examined(keys: seq<Key>, measurable: seq<bool>, bits: seq<seq<byte>>)

  /** How many of the first `n` flags are up. */
  function Up(flags: seq<bool>, n: nat): (c: nat)
    requires n <= |flags|
    ensures c <= n
  {
    if n == 0 then 0 else Up(flags, n - 1) + (if flags[n-1] then 1 else 0)
  }

  predicate HasWidth(cells: map<Key, seq<byte>>, k: Key, width: nat) {
    k in cells && |cells[k]| == width
  }

  /** A row is flagged exactly when its bits have the width; there are as many slots of bits
      as rows flagged; and a flagged row's bits stand in the slot that the number of flags
      before it gives. */
  ghost predicate Measures(e: Examined, keys: seq<Key>, cells: map<Key, seq<byte>>, width: nat) {
    && e.keys == keys && |e.measurable| == |keys|
    && (forall i | 0 <= i < |keys| :: e.measurable[i] <==> HasWidth(cells, keys[i], width))
    && |e.bits| == Up(e.measurable, |keys|)
    && (forall i | 0 <= i < |keys| && e.measurable[i] :: InSlot(e, cells, keys[i], i))
  }

  ghost predicate InSlot(e: Examined, cells: map<Key, seq<byte>>, k: Key, i: int)
    requires 0 <= i < |e.measurable|
  {
    var slot := Up(e.measurable, i);
    slot < |e.bits| && k in cells && e.bits[slot] == cells[k]
  }

  lemma {:induction false} UpAppended(flags: seq<bool>, more: bool, n: nat)
    requires n <= |flags|
    ensures Up(flags + [more], n) == Up(flags, n)
  {
    if n > 0 {
      UpAppended(flags, more, n - 1);
    }
  }

  lemma {:induction false} UpRises(flags: seq<bool>, i: nat, n: nat)
    requires i < n <= |flags| && flags[i]
    ensures Up(flags, i) < Up(flags, n)
    decreases n
  {
    if i < n - 1 {
      UpRises(flags, i, n - 1);
    }
  }

  /** One row more. */
  lemma {:induction false} MeasuresOneMore(e: Examined, keys: seq<Key>, cells: map<Key, seq<byte>>, width: nat,
                                           k: Key, usable: bool, own: seq<byte>, next: Examined)
    requires Measures(e, keys, cells, width) && (usable <==> HasWidth(cells, k, width)) && (usable ==> own == cells[k])
    requires next == Examined(e.keys + [k], e.measurable + [usable], if usable then e.bits + [own] else e.bits)
    ensures Measures(next, keys + [k], cells, width)
  {
    var n := |keys|;
    UpAppended(e.measurable, usable, n);
    forall i | 0 <= i < n + 1 && next.measurable[i] ensures InSlot(next, cells, (keys + [k])[i], i) {
      UpAppended(e.measurable, usable, i);
      if i < n {
        assert InSlot(e, cells, keys[i], i);
      }
    }
  }

  /** So an answer's arrays are settled by its rows. */
  lemma {:induction false} MeasuresOnlyOne(a: Examined, b: Examined, keys: seq<Key>, cells: map<Key, seq<byte>>, width: nat)
    requires Measures(a, keys, cells, width) && Measures(b, keys, cells, width)
    ensures a == b
  {
    assert a.measurable == b.measurable;
    forall slot | 0 <= slot < |a.bits| ensures a.bits[slot] == b.bits[slot] {
      var i := HolderOf(a.measurable, |keys|, slot);
      assert InSlot(a, cells, keys[i], i) && InSlot(b, cells, keys[i], i);
    }
  }

  lemma {:induction false} HolderOf(flags: seq<bool>, n: nat, slot: nat) returns (i: nat)
    requires n <= |flags| && slot < Up(flags, n)
    ensures i < n && flags[i] && Up(flags, i) == slot
  {
    if flags[n-1] && Up(flags, n - 1) == slot {
      i := n - 1;
    } else {
      i := HolderOf(flags, n - 1, slot);
    }
  }
}
