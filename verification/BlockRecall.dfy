/** `examined` of cpersona/block_index.py: a recall's rows from a possibly stale file and
    the live rows of changed records. The file's bytes, the change log and the merge come
    together here: whatever the file, the answer is the direct read's. */
module BlockRecall {
  import opened Common
  import opened BlockRows
  import opened BlockClock
  import opened BlockMerge
  import opened BlockFile

  /** The rows a build reads: every row of the table with bits, in key order. */
  ghost predicate RowsOf(rows: seq<Stored>, table: Table) {
    && FromSqlite(rows)
    && (forall r | r in rows :: r.key in table && table[r.key] == r.row)
    && (forall k | k in table && table[k].bits != Null :: Stored(k, table[k]) in rows)
  }

  /** A file some build wrote from the snapshot `snap`. */
  ghost predicate BuiltFrom(f: File, snap: Db, index: BlockIndex, rows: seq<Stored>) {
    && Builds(snap) && RowsOf(rows, snap.table) && FileHolds(f, index, rows)
    && f.header.value.generation == snap.clock.generation
    && f.header.value.builtSeq == snap.clock.head
    && f.header.value.cookie == snap.cookie
  }

  /** A build's snapshot becomes a file exactly when logging is on with every trigger in place,
      there are rows, the width can be measured, every row can be held, and the distinct values
      fit the codes. */
  method BuildFile(snap: Db, rows: seq<Stored>, width: int) returns (r: Built, ghost index: BlockIndex)
    requires RowsOf(rows, snap.table)
    ensures r.Written? <==>
      && snap.clock.logging && snap.triggersOk && rows != [] && width >= 1
      && (forall s | s in rows :: FitsTheColumns(s)) && FewValues(rows)
    ensures r.Declined? ==> DeclinesFor(r.reason, rows, width, snap.clock.logging, snap.triggersOk)
    ensures r.Written? ==> BuiltFrom(r.file, snap, index, rows) && index.width == width
  {
    VerdictSays(rows, width, snap.clock.logging, snap.triggersOk);
    r, index := WriteRows(rows, width, snap.clock.logging, snap.triggersOk,
                          snap.clock.generation, snap.clock.head, snap.cookie);
  }

  /** The bits of every row that holds a blob. */
  ghost function BitsOf(table: Table): map<Key, seq<byte>> {
    map k | k in table && table[k].bits.Blob? :: table[k].bits.bytes
  }

  // ---- the live rows -------------------------------------------------------------------

  /** The admitted rows of the changed records. */
  function LiveKeys(table: Table, f: Filter, changed: set<Record>): (ks: set<Key>) {
    set k | k in table && k.rec in changed && Admits(f, table[k])
  }

  /** How many rows the live statement returns: one a live row, and one of NULLs for each
      changed record the filter admits nothing of. */
  function LiveCount(table: Table, f: Filter, changed: set<Record>): nat {
    var ks := LiveKeys(table, f, changed);
    |ks| + |changed - (set k | k in ks :: k.rec)|
  }

  /** A row of that statement. */
  datatype Joined = Found(key: Key) | NoneOf(rec: Record)

  /** Its rows: a live row each, and one for a changed record nothing visible is left of. */
  ghost function JoinedRows(table: Table, f: Filter, changed: set<Record>): set<Joined> {
    (set k | k in Visible(table, f) && k.rec in changed :: Found(k))
      + (set r | r in changed && forall k | k in Visible(table, f) :: k.rec != r :: NoneOf(r))
  }

  lemma {:induction false} FoundCount(ks: set<Key>)
    ensures |set k | k in ks :: Found(k)| == |ks|
  {
    if ks != {} {
      var k :| k in ks;
      FoundCount(ks - {k});
      assert (set x | x in ks :: Found(x)) == (set x | x in ks - {k} :: Found(x)) + {Found(k)};
    }
  }

  lemma {:induction false} NoneCount(rs: set<Record>)
    ensures |set r | r in rs :: NoneOf(r)| == |rs|
  {
    if rs != {} {
      var r :| r in rs;
      NoneCount(rs - {r});
      assert (set x | x in rs :: NoneOf(x)) == (set x | x in rs - {r} :: NoneOf(x)) + {NoneOf(r)};
    }
  }

  lemma {:induction false} LiveCountIs(table: Table, f: Filter, changed: set<Record>)
    ensures LiveCount(table, f, changed) == |JoinedRows(table, f, changed)|
  {
    var ks := LiveKeys(table, f, changed);
    var left := changed - (set k | k in ks :: k.rec);
    VisibleAreAdmitted(table, f);
    FoundCount(ks);
    NoneCount(left);
    var found, none := set k | k in ks :: Found(k), set r | r in left :: NoneOf(r);
    JoinedAre(table, f, changed, ks, left);
    assert JoinedRows(table, f, changed) == found + none && found !! none;
  }

  lemma {:induction false} JoinedAre(table: Table, f: Filter, changed: set<Record>, ks: set<Key>, left: set<Record>)
    requires Visible(table, f) == Admitted(table, f) && ks == LiveKeys(table, f, changed)
    requires left == changed - (set k | k in ks :: k.rec)
    ensures JoinedRows(table, f, changed) == (set k | k in ks :: Found(k)) + (set r | r in left :: NoneOf(r))
  {
    assert forall k :: k in ks <==> k in Visible(table, f) && k.rec in changed;
    assert forall r :: r in left <==> r in changed && forall k | k in Visible(table, f) :: k.rec != r;
  }

  predicate LiveHoldable(table: Table, ks: set<Key>, changed: set<Record>)
    requires forall k | k in ks :: k in table
  {
    && (forall r | r in changed :: 0 <= r.kind < |KINDS|)
    && (forall k | k in ks :: Holdable(Stored(k, table[k])))
  }

  /** The live rows sorted by key. */
  method SortLive(table: Table, ks: set<Key>) returns (live: seq<LiveRow>)
    requires forall k | k in ks :: k in table && table[k].bits.Blob?
    ensures AscendingLive(live)
    ensures forall l | l in live :: l.key in ks && l.bits == table[l.key].bits.bytes
    ensures forall k | k in ks :: LiveRow(k, table[k].bits.bytes) in live
  {
    live := [];
    var rest := ks;
    while rest != {}
      invariant rest <= ks && AscendingLive(live)
      invariant forall l | l in live :: l.key in ks && l.bits == table[l.key].bits.bytes
      invariant forall k | k in ks && k !in rest :: LiveRow(k, table[k].bits.bytes) in live
      invariant forall l, k | l in live && k in rest :: Less(l.key, k)
      decreases rest
    {
      LeastExists(rest);
      var k :| k in rest && forall x | x in rest :: x == k || Less(k, x);
      live := live + [LiveRow(k, table[k].bits.bytes)];
      rest := rest - {k};
    }
  }

  // ---- the two parts make the whole -------------------------------------------------------

  /** Unchanged file rows and live rows together are the table's admitted rows. */
  lemma {:induction false} PartsMakeWhole(img: Image, db: Db, f: Filter, rows: seq<Stored>,
                                          index: BlockIndex, live: seq<LiveRow>, mask: Mask)
    requires RowsOf(rows, img.table) && HoldsRows(index, rows)
    requires AnswersFor(img, db) && mask.changed == Changed(db, img.builtSeq)
    requires forall i: nat | i < index.Count() ::
      mask.Lets(index, i) <==> Admits(f, index.AxesAt(i)) && index.KeyAt(i).rec !in mask.changed
    requires forall l | l in live :: l.key in LiveKeys(db.table, f, mask.changed)
    requires forall k | k in LiveKeys(db.table, f, mask.changed) :: exists l :: l in live && l.key == k
    ensures MergedKeys(index, live, mask) == Admitted(db.table, f)
  {
    var merged, admitted := MergedKeys(index, live, mask), Admitted(db.table, f);
    forall k | k in merged ensures k in admitted {
      if i: nat :| i < index.Count() && mask.Lets(index, i) && index.KeyAt(i) == k {
        FileRow(img, db, f, rows, index, mask, i);
      }
    }
    forall k | k in admitted ensures k in merged {
      if k.rec in mask.changed {
        assert k in LiveKeys(db.table, f, mask.changed);
      } else {
        assert SameRow(img.table, db.table, k);
        var i: nat :| i < |rows| && rows[i] == Stored(k, img.table[k]);
        FileRow(img, db, f, rows, index, mask, i);
      }
    }
  }

  /** A file row of an unchanged record is the table's, so the mask lets it through exactly
      when the filter admits it. */
  lemma {:induction false} FileRow(img: Image, db: Db, f: Filter, rows: seq<Stored>,
                                   index: BlockIndex, mask: Mask, i: nat)
    requires RowsOf(rows, img.table) && HoldsRows(index, rows) && i < index.Count()
    requires AnswersFor(img, db) && mask.changed == Changed(db, img.builtSeq)
    requires mask.Lets(index, i) <==> Admits(f, index.AxesAt(i)) && index.KeyAt(i).rec !in mask.changed
    requires index.KeyAt(i).rec !in mask.changed
    ensures index.KeyAt(i) in db.table
    ensures RowIs(index, i, Stored(index.KeyAt(i), db.table[index.KeyAt(i)]))
    ensures mask.Lets(index, i) <==> Admits(f, db.table[index.KeyAt(i)])
  {
    assert RowIs(index, i, rows[i]) && rows[i] in rows;
    assert SameRow(img.table, db.table, index.KeyAt(i));
  }

  lemma {:induction false} CellsAreCurrent(img: Image, db: Db, f: Filter, rows: seq<Stored>,
                                           index: BlockIndex, live: seq<LiveRow>, mask: Mask)
    requires RowsOf(rows, img.table) && HoldsRows(index, rows)
    requires AnswersFor(img, db) && mask.changed == Changed(db, img.builtSeq)
    requires forall i: nat | i < index.Count() ::
      mask.Lets(index, i) <==> Admits(f, index.AxesAt(i)) && index.KeyAt(i).rec !in mask.changed
    requires forall l | l in live :: l.key in db.table && db.table[l.key].bits == Blob(l.bits)
    ensures CellsAgree(index, live, mask, BitsOf(db.table))
  {
    forall i: nat | i < index.Count() && mask.Lets(index, i)
      ensures var cells := BitsOf(db.table);
        && index.KeyAt(i) in cells
        && (index.measurable[i] == 1 <==> |cells[index.KeyAt(i)]| == index.width)
        && (index.measurable[i] == 1 ==> index.bits[i] == cells[index.KeyAt(i)])
    {
      FileRow(img, db, f, rows, index, mask, i);
    }
  }

  // ---- the read -----------------------------------------------------------------------------

  /** Why a recall reads SQLite instead. */
  datatype Answered = FromFile(rows: Examined) | ReadSqlite(reason: Reason)
  datatype Reason = NoFile | NotTogether | WrongWidth | ClockRefused | LiveBound | Unholdable

  /** The direct read of the table, measured: the admitted keys within their records' shares,
      the first of them in key order, flagged and with their bits. */
  ghost predicate IsDirectRead(rows: Examined, table: Table, f: Filter, width: nat, perParent: nat, examinedCap: nat) {
    IsRead(rows.keys, table, f, perParent, examinedCap) && Measures(rows, rows.keys, BitsOf(table), width)
  }

  /** What a recall checks before it reads a file of its own width: the clock accepts the file,
      the records logged after it have few enough rows, and a file could hold those. */
  ghost predicate Readable(db: Db, f: Filter, img: Image, liveRowBound: nat) {
    var changed := set s | s in db.log && img.builtSeq < s :: db.log[s];
    && Accepts(db, img)
    && |JoinedRows(db.table, f, changed)| <= liveRowBound
    && RowsHoldable(db.table, f, changed)
  }

  /** The changed records are of a kind the file knows, and their visible rows can be held. */
  ghost predicate RowsHoldable(table: Table, f: Filter, changed: set<Record>) {
    && (forall r | r in changed :: r.kind == 0 || r.kind == 1)
    && (forall k | k in Visible(table, f) && k.rec in changed :: FitsTheColumns(Stored(k, table[k])))
  }

  lemma {:induction false} HoldableWhen(table: Table, f: Filter, changed: set<Record>)
    ensures LiveHoldable(table, LiveKeys(table, f, changed), changed) <==> RowsHoldable(table, f, changed)
  {
    VisibleAreAdmitted(table, f);
    forall k | k in table ensures Holdable(Stored(k, table[k])) <==> FitsTheColumns(Stored(k, table[k])) {
      HoldableExactly(Stored(k, table[k]));
    }
    assert forall k :: k in LiveKeys(table, f, changed) <==> k in Visible(table, f) && k.rec in changed;
  }

  lemma {:induction false} ReadableWhen(db: Db, f: Filter, img: Image, liveRowBound: nat, changed: set<Record>)
    requires changed == Changed(db, img.builtSeq)
    ensures Readable(db, f, img, liveRowBound) <==>
      && Accepts(db, img) && LiveCount(db.table, f, changed) <= liveRowBound
      && LiveHoldable(db.table, LiveKeys(db.table, f, changed), changed)
  {
    LiveCountIs(db.table, f, changed);
    HoldableWhen(db.table, f, changed);
    assert changed == set s | s in db.log && img.builtSeq < s :: db.log[s];
  }

  /** The rows a recall examines, from the file and the changed records, or the reason it
      reads SQLite. `run` is the history of the database: the file, if it holds together,
      was built at some state of it, and the recall's statement sees another. */
  method Examine(file: Option<File>, db: Db, f: Filter, width: nat,
                 perParent: nat, examinedCap: nat, chunkSize: nat, liveRowBound: nat,
                 ghost run: seq<Db>, ghost events: seq<Event>, ghost b: nat, ghost r: nat,
                 ghost built: BlockIndex, ghost rows: seq<Stored>)
      returns (out: Answered)
    requires chunkSize > 0
    requires IsRun(run, events) && b < |run| && r < |run| && db == run[r]
    requires file.Some? && HoldsTogether(file.value) ==> BuiltFrom(file.value, run[b], built, rows)
    ensures out.FromFile? ==> IsDirectRead(out.rows, db.table, f, width, perParent, examinedCap)
    ensures out.FromFile? <==>
      && file.Some? && HoldsTogether(file.value) && file.value.header.value.width == width
      && Readable(db, f, ImageOf(run[b]), liveRowBound)
  {
    if file.None? {
      return ReadSqlite(NoFile);
    }
    var loaded := Load(file.value);
    if loaded.Unusable? {
      return ReadSqlite(NotTogether);
    }
    WrittenLoads(file.value, built, rows);
    assert loaded.index == built;
    out := ExamineIndex(loaded.index, loaded.header, db, f, width, perParent, examinedCap, chunkSize, liveRowBound,
                        run, events, b, r, rows);
  }

  /** The read of a loaded file. */
  method ExamineIndex(index: BlockIndex, header: Header, db: Db, f: Filter, width: nat,
                      perParent: nat, examinedCap: nat, chunkSize: nat, liveRowBound: nat,
                      ghost run: seq<Db>, ghost events: seq<Event>, ghost b: nat, ghost r: nat,
                      ghost rows: seq<Stored>)
      returns (out: Answered)
    requires chunkSize > 0
    requires IsRun(run, events) && b < |run| && r < |run| && db == run[r]
    requires Builds(run[b]) && RowsOf(rows, run[b].table) && HoldsRows(index, rows)
    requires header.generation == run[b].clock.generation && header.builtSeq == run[b].clock.head
    requires header.cookie == run[b].cookie
    ensures out.FromFile? ==> IsDirectRead(out.rows, db.table, f, width, perParent, examinedCap)
    ensures out.FromFile? <==> index.width == width && Readable(db, f, ImageOf(run[b]), liveRowBound)
  {
    if index.width != width {
      return ReadSqlite(WrongWidth);
    }
    var c := db.clock;
    if !(c.logging && c.generation == header.generation && header.builtSeq <= c.head
         && c.prunedThrough <= header.builtSeq && db.cookie == header.cookie) {
      return ReadSqlite(ClockRefused);
    }
    var changed := Changed(db, header.builtSeq);
    var ks := LiveKeys(db.table, f, changed);
    ReadableWhen(db, f, ImageOf(run[b]), liveRowBound, changed);
    if LiveCount(db.table, f, changed) > liveRowBound {
      return ReadSqlite(LiveBound);
    }
    if !LiveHoldable(db.table, ks, changed) {
      return ReadSqlite(Unholdable);
    }
    AcceptedFileAnswers(run, events, b, r);
    var merged := MergeChanged(index, db, f, changed, ks, perParent, examinedCap, chunkSize, ImageOf(run[b]), rows);
    out := FromFile(merged);
  }

  /** The part of the read after every check passed. */
  method MergeChanged(index: BlockIndex, db: Db, f: Filter, changed: set<Record>, ks: set<Key>,
                      perParent: nat, examinedCap: nat, chunkSize: nat,
                      ghost img: Image, ghost rows: seq<Stored>) returns (merged: Examined)
    requires chunkSize > 0 && RowsOf(rows, img.table) && HoldsRows(index, rows)
    requires AnswersFor(img, db) && changed == Changed(db, img.builtSeq)
    requires ks == LiveKeys(db.table, f, changed) && LiveHoldable(db.table, ks, changed)
    ensures IsDirectRead(merged, db.table, f, index.width, perParent, examinedCap)
  {
    assert forall k | k in ks :: Holdable(Stored(k, db.table[k]));
    var live := SortLive(db.table, ks);
    var mask := BuildMask(index, f, changed);
    PartsMakeWhole(img, db, f, rows, index, live, mask);
    CellsAreCurrent(img, db, f, rows, index, live, mask);
    merged := Merge(index, live, mask, perParent, examinedCap, chunkSize, BitsOf(db.table));
    DirectReadIs(db.table, f, perParent, examinedCap);
  }
}
