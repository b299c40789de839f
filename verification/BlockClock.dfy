/** The block change log (cpersona/block_index.py and the triggers it relies on): the
    clock, the log, and when a file built from an earlier snapshot still answers for the
    table. */
module BlockClock {
  import opened BlockRows

  datatype Clock = Clock(logging: bool, generation: nat, head: nat, prunedThrough: nat)

  datatype Db = Db(
    table: Table,
    clock: Clock,
    log: map<nat, Record>,
    cookie: nat,        // the schema version, which every schema change raises
    triggersOk: bool)   // the logging triggers are the ones the schema defines

  /** One committed step. A row event made while the triggers differ from the schema may
      go unlogged: `missed` says whether it does. */
  datatype Event =
    | Insert(key: Key, row: Row, missed: bool)
    | Delete(key: Key, missed: bool)
    | Update(key: Key, to: Key, row: Row, missed: bool)
    | StartLogging
    | StopLogging
    | Prune(generation: nat, builtSeq: nat)
    | ChangeSchema(triggersOk: bool)

  /** A logging trigger firing for one record. */
  function Trigger(db: Db, rec: Record, missed: bool): Db {
    if db.clock.logging && (db.triggersOk || !missed) then
      var seqNo := db.clock.head + 1;
      db.(clock := db.clock.(head := seqNo), log := db.log[seqNo := rec])
    else
      db
  }

  function Step(db: Db, e: Event): Db {
    match e
    case Insert(k, row, missed) =>
      Trigger(db.(table := db.table[k := row]), k.rec, missed)
    case Delete(k, missed) =>
      if k in db.table then Trigger(db.(table := db.table - {k}), k.rec, missed) else db
    case Update(k, to, row, missed) =>
      if k !in db.table then db else
        var left := Trigger(db.(table := (db.table - {k})[to := row]), k.rec, missed);
        if to.rec != k.rec then Trigger(left, to.rec, missed) else left
    case StartLogging =>
      if db.clock.logging then db
      else db.(clock := db.clock.(logging := true, generation := db.clock.generation + 1))
    case StopLogging =>
      if !db.clock.logging then db
      else db.(clock := db.clock.(logging := false, prunedThrough := db.clock.head), log := map[])
    case Prune(generation, builtSeq) =>
      if !db.clock.logging || db.clock.generation != generation then db
      else db.(
        log := map s | s in db.log && s > builtSeq :: db.log[s],
        clock := db.clock.(prunedThrough :=
          if db.clock.prunedThrough < builtSeq then builtSeq else db.clock.prunedThrough))
    case ChangeSchema(ok) =>
      db.(cookie := db.cookie + 1, triggersOk := ok)
  }

  // ---- files and the reads that use them ------------------------------------------------

  /** What a build's snapshot puts in the file: the table and where the clock stood. */
  datatype Image = Image(table: Table, generation: nat, builtSeq: nat, cookie: nat)

  function ImageOf(db: Db): Image {
    Image(db.table, db.clock.generation, db.clock.head, db.cookie)
  }

  /** A build writes a file only while logging is on and every trigger is in place. */
  predicate Builds(db: Db) {
    db.clock.logging && db.triggersOk
  }

  /** The clock checks of a recall, in the order it makes them. */
  predicate Accepts(db: Db, img: Image) {
    && db.clock.logging
    && db.clock.generation == img.generation
    && img.builtSeq <= db.clock.head
    && db.clock.prunedThrough <= img.builtSeq
    && db.cookie == img.cookie
  }

  /** The records the log names after the file's position. */
  function Changed(db: Db, builtSeq: nat): (r: set<Record>) {
    set s | s in db.log && s > builtSeq :: db.log[s]
  }

  /** The file's rows of unchanged records are the table's. */
  ghost predicate AnswersFor(img: Image, db: Db) {
    forall k: Key :: k.rec !in Changed(db, img.builtSeq) ==> SameRow(img.table, db.table, k)
  }

  // ---- runs -----------------------------------------------------------------------------

  /** A run of the database: any starting state, then committed steps of any number of
      writers, builds and servers. A prune is always the one some earlier build asks for;
      builds may overlap and finish in any order. */
  ghost predicate IsRun(run: seq<Db>, events: seq<Event>) {
    && |run| == |events| + 1
    && run[0].clock.prunedThrough <= run[0].clock.head
    && (forall i | 0 <= i < |events| :: Follows(run, events, i))
    && (forall i | 0 <= i < |events| && events[i].Prune? :: PruneOfABuild(run, i, events[i]))
  }

  ghost predicate Follows(run: seq<Db>, events: seq<Event>, i: int)
    requires 0 <= i < |events| < |run|
  {
    run[i+1] == Step(run[i], events[i])
  }

  ghost predicate PruneOfABuild(run: seq<Db>, i: nat, e: Event) {
    exists b :: 0 <= b <= i && b < |run| && Builds(run[b])
      && e == Prune(run[b].clock.generation, run[b].clock.head)
  }

  /** The clock only moves forward, and the triggers change only with the cookie. */
  lemma {:induction false} Forward(run: seq<Db>, events: seq<Event>, i: nat, j: nat)
    requires IsRun(run, events) && i <= j < |run|
    ensures run[i].clock.generation <= run[j].clock.generation
    ensures run[i].clock.head <= run[j].clock.head
    ensures run[i].cookie <= run[j].cookie
    ensures run[i].cookie == run[j].cookie ==> run[i].triggersOk == run[j].triggersOk
    decreases j
  {
    if i < j {
      Forward(run, events, i, j - 1);
      assert Follows(run, events, j - 1);
    }
  }

  /** Between a build and a later state of the same generation and schema, logging never
      stopped and no trigger was away. */
  lemma {:induction false} Unbroken(run: seq<Db>, events: seq<Event>, i: nat, j: nat)
    requires IsRun(run, events) && i < j < |run|
    requires Builds(run[i]) && run[j].clock.logging
    requires run[i].clock.generation == run[j].clock.generation
    requires run[i].cookie == run[j].cookie
    ensures Builds(run[j-1])
    ensures run[i].clock.generation == run[j-1].clock.generation
    ensures run[i].cookie == run[j-1].cookie
  {
    Forward(run, events, i, j - 1);
    Forward(run, events, j - 1, j);
    assert Follows(run, events, j - 1);
  }

  /** A log entry for `rec` was written at `s`, and is still there or pruned past. */
  predicate Noted(db: Db, s: nat, rec: Record) {
    s <= db.clock.prunedThrough || (s in db.log && db.log[s] == rec)
  }

  /** A committed step that changes a row notes its record. */
  lemma {:induction false} ChangeIsNoted(db: Db, e: Event, k: Key) returns (s: nat)
    requires Builds(db) && !SameRow(db.table, Step(db, e).table, k)
    ensures db.clock.head < s <= Step(db, e).clock.head && Noted(Step(db, e), s, k.rec)
  {
    s := if e.Update? && e.key.rec != k.rec then db.clock.head + 2 else db.clock.head + 1;
  }

  lemma {:induction false} NoteStays(db: Db, e: Event, s: nat, rec: Record)
    requires s <= db.clock.head && Noted(db, s, rec)
    ensures Noted(Step(db, e), s, rec)
  {
  }

  /** Every row that differs from the build's snapshot was noted after it. */
  lemma {:induction false} DifferenceIsNoted(run: seq<Db>, events: seq<Event>, i: nat, j: nat, k: Key)
      returns (s: nat)
    requires IsRun(run, events) && i <= j < |run|
    requires Builds(run[i]) && run[j].clock.logging
    requires run[i].clock.generation == run[j].clock.generation
    requires run[i].cookie == run[j].cookie
    requires !SameRow(run[i].table, run[j].table, k)
    ensures run[i].clock.head < s <= run[j].clock.head && Noted(run[j], s, k.rec)
    decreases j
  {
    if i == j {
      assert false;
    } else {
      Unbroken(run, events, i, j);
      Forward(run, events, i, j - 1);
      Forward(run, events, j - 1, j);
      assert Follows(run, events, j - 1);
      if !SameRow(run[i].table, run[j-1].table, k) {
        s := DifferenceIsNoted(run, events, i, j - 1, k);
        NoteStays(run[j-1], events[j-1], s, k.rec);
      } else {
        s := ChangeIsNoted(run[j-1], events[j-1], k);
      }
    }
  }

  /** Safety of the file over every run: a file built at any state, and a read of any
      state, older or newer than the build, whose clock checks accept the file: the file
      holds the current rows of every record the log does not name. */
  lemma {:induction false} AcceptedFileAnswers(run: seq<Db>, events: seq<Event>, b: nat, r: nat)
    requires IsRun(run, events) && b < |run| && r < |run|
    requires Builds(run[b]) && Accepts(run[r], ImageOf(run[b]))
    ensures AnswersFor(ImageOf(run[b]), run[r])
  {
    var img := ImageOf(run[b]);
    forall k: Key | !SameRow(img.table, run[r].table, k)
      ensures k.rec in Changed(run[r], img.builtSeq)
    {
      if b <= r {
        var s := DifferenceIsNoted(run, events, b, r, k);
        assert run[r].log[s] == k.rec;
      } else {
        // The read's snapshot is older than the file, and nothing was logged in between.
        Forward(run, events, r, b);
        var s := DifferenceIsNoted(run, events, r, b, k);
      }
    }
  }

  // ---- when a file is accepted ------------------------------------------------------------

  /** A step after which a file built at `builtSeq` is still read. */
  predicate Keeps(db: Db, e: Event, builtSeq: nat) {
    match e
    case StopLogging => false
    case ChangeSchema(_) => false
    case Prune(generation, upTo) => generation == db.clock.generation ==> upTo <= builtSeq
    case _ => true
  }

  lemma {:induction false} PrunedBehindHead(run: seq<Db>, events: seq<Event>, i: nat)
    requires IsRun(run, events) && i < |run|
    ensures run[i].clock.prunedThrough <= run[i].clock.head
  {
    if i > 0 {
      PrunedBehindHead(run, events, i - 1);
      var e := events[i-1];
      assert Follows(run, events, i - 1);
      if e.Prune? {
        assert PruneOfABuild(run, i - 1, e);
        var b :| 0 <= b <= i - 1 && b < |run| && Builds(run[b])
          && e == Prune(run[b].clock.generation, run[b].clock.head);
        Forward(run, events, b, i - 1);
      }
    }
  }

  /** A file is refused exactly from the first stop of the log, schema change, or prune
      past its own position onwards; row writes and older builds' prunes never cost it. */
  lemma {:induction false} AcceptedExactlyWhile(run: seq<Db>, events: seq<Event>, b: nat, r: nat)
    requires IsRun(run, events) && b <= r < |run| && Builds(run[b])
    ensures Accepts(run[r], ImageOf(run[b])) <==>
      forall i | b <= i < r :: Keeps(run[i], events[i], run[b].clock.head)
    decreases r
  {
    var img := ImageOf(run[b]);
    if b == r {
      PrunedBehindHead(run, events, b);
    } else {
      var before, e := run[r-1], events[r-1];
      assert Follows(run, events, r - 1);
      AcceptedExactlyWhile(run, events, b, r - 1);
      Forward(run, events, b, r - 1);
      if Accepts(run[r], img) {
        Unbroken(run, events, b, r);
      }
      KeptExactly(before, e, img);
    }
  }

  /** One step of it: a file that is read stays read exactly when the step keeps it, and
      one refused before is refused after, logging never having resumed in its generation. */
  lemma {:induction false} KeptExactly(db: Db, e: Event, img: Image)
    requires img.generation <= db.clock.generation && img.builtSeq <= db.clock.head && img.cookie <= db.cookie
    ensures Accepts(Step(db, e), img) ==> Accepts(db, img) && Keeps(db, e, img.builtSeq)
    ensures Accepts(db, img) && Keeps(db, e, img.builtSeq) ==> Accepts(Step(db, e), img)
  {
  }

  // ---- the code -----------------------------------------------------------------------------

  /** The database, as the functions of block_index.py change it. Each method is one
      transaction. */
  class BlockStore {
    var table: Table
    var logging: bool
    var generation: nat
    var head: nat
    var prunedThrough: nat
    var log: map<nat, Record>
    var cookie: nat
    var triggersOk: bool

    function Contents(): Db
      reads this
    {
      Db(table, Clock(logging, generation, head, prunedThrough), log, cookie, triggersOk)
    }

    constructor (db: Db)
      ensures Contents() == db
    {
      table, log, cookie, triggersOk := db.table, db.log, db.cookie, db.triggersOk;
      logging, generation := db.clock.logging, db.clock.generation;
      head, prunedThrough := db.clock.head, db.clock.prunedThrough;
    }

    /** Turn the log on; the generation it runs under. */
    method StartLog() returns (gen: nat)
      modifies this
      ensures Contents() == Step(old(Contents()), StartLogging)
      ensures logging && gen == generation
      ensures gen == (if old(logging) then old(generation) else old(generation) + 1)
    {
      if logging {
        return generation;
      }
      logging, generation := true, generation + 1;
      gen := generation;
    }

    /** Turn the log off and empty it. */
    method StopLog() returns (stopped: bool)
      modifies this
      ensures Contents() == Step(old(Contents()), StopLogging)
      ensures stopped == old(logging) && !logging
      ensures stopped ==> log == map[] && prunedThrough == head
    {
      if !logging {
        return false;
      }
      logging, prunedThrough := false, head;
      log := map[];
      stopped := true;
    }

    /** Drop the entries a published file now holds and move the mark past them. */
    method PruneLog(gen: nat, builtSeq: nat) returns (pruned: bool)
      modifies this
      ensures Contents() == Step(old(Contents()), Prune(gen, builtSeq))
      ensures pruned <==> old(logging) && old(generation) == gen
      ensures pruned ==> (forall s :: s in log <==> s in old(log) && builtSeq < s) && forall s | s in log :: log[s] == old(log)[s]
      ensures pruned ==> old(prunedThrough) <= prunedThrough && builtSeq <= prunedThrough
      ensures prunedThrough in {old(prunedThrough), builtSeq}
    {
      if !logging || generation != gen {
        return false;
      }
      log := map s | s in log && s > builtSeq :: log[s];
      prunedThrough := if prunedThrough < builtSeq then builtSeq else prunedThrough;
      pruned := true;
    }

    /** The logging trigger, run by the database inside each row write. */
    method Fire(rec: Record, missed: bool)
      modifies this
      ensures Contents() == Trigger(old(Contents()), rec, missed)
    {
      if logging && (triggersOk || !missed) {
        head := head + 1;
        log := log[head := rec];
      }
    }

    method InsertRow(key: Key, row: Row, missed: bool)
      modifies this
      ensures Contents() == Step(old(Contents()), Insert(key, row, missed))
    {
      table := table[key := row];
      Fire(key.rec, missed);
    }

    method DeleteRow(key: Key, missed: bool)
      modifies this
      ensures Contents() == Step(old(Contents()), Delete(key, missed))
    {
      if key in table {
        table := table - {key};
        Fire(key.rec, missed);
      }
    }

    method UpdateRow(key: Key, to: Key, row: Row, missed: bool)
      modifies this
      ensures Contents() == Step(old(Contents()), Update(key, to, row, missed))
    {
      if key in table {
        table := (table - {key})[to := row];
        Fire(key.rec, missed);
        if to.rec != key.rec {
          Fire(to.rec, missed);
        }
      }
    }
  }
}
