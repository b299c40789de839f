/** Bulk copies of an agent's rows (cpersona/admin_handlers.py, the merge, move and import
    passes): the dedup gate every row goes through, the preview of it, and the delete that
    makes a copy a move. */
module AgentCopy {
  import opened Common
  import opened AgentRows
  import opened EpisodeIndex

  /** How a pass runs. `takes` says which inserts the database does not ignore. A preview
      remembers what it previewed, but for profiles. */
  datatype Run = Run(dry: bool, remembers: bool, takes: Row -> bool)

  /** A table in the middle of a pass, with its tally: source ids copied, and the ids the
      copies got, which is also what is queued for the index. */
  datatype Copying = Copying(rows: Table, last: nat, merged: nat, skipped: nat,
                             copied: seq<nat>, landed: seq<nat>, seen: set<Key>)

  predicate Duplicate(st: Copying, row: Row, dry: bool) {
    exists k :: k in KeysOf(row) && (Holds(st.rows, k) || (dry && k in st.seen))
  }

  function Insert(st: Copying, src: nat, row: Row): Copying {
    Copying(st.rows[st.last + 1 := row], st.last + 1, st.merged + 1, st.skipped,
            st.copied + [src], st.landed + [st.last + 1], st.seen)
  }

  /** One row, already under the target's agent, through the gate. */
  function Offer(st: Copying, src: nat, row: Row, run: Run): Copying {
    if Hollow(row) then st
    else if Duplicate(st, row, run.dry) then st.(skipped := st.skipped + 1)
    else if run.dry then
      st.(merged := st.merged + 1, seen := if run.remembers then st.seen + KeysOf(row) else st.seen)
    else if !run.takes(row) then st.(skipped := st.skipped + 1)
    else Insert(st, src, row)
  }

  /** What a row leaves of the table: itself inserted, or nothing new. */
  predicate Follows(now: Copying, next: Copying, src: nat, row: Row) {
    || next == Insert(now, src, row)
    || (next.rows == now.rows && next.last == now.last && next.merged == now.merged
        && next.copied == now.copied && next.landed == now.landed)
  }

  lemma {:induction false} RealOfferFollows(st: Copying, src: nat, row: Row, run: Run)
    requires !run.dry
    ensures Follows(st, Offer(st, src, row, run), src, row)
  {
  }

  datatype Offered = Offered(src: nat, row: Row)

  function OfferAll(st: Copying, offers: seq<Offered>, n: nat, run: Run): Copying
    requires n <= |offers|
  {
    if n == 0 then st
    else Offer(OfferAll(st, offers, n - 1, run), offers[n-1].src, offers[n-1].row, run)
  }

  function Start(rows: Table, last: nat): Copying {
    Copying(rows, last, 0, 0, [], [], {})
  }

  // ---- the preview tells the truth ----------------------------------------------------------

  /** Every insert the real run tries succeeds. */
  ghost predicate InsertsSucceed(st: Copying, offers: seq<Offered>, run: Run) {
    forall i | 0 <= i < |offers| && !Hollow(offers[i].row) && !Duplicate(OfferAll(st, offers, i, run), offers[i].row, false) ::
      run.takes(offers[i].row)
  }

  /** A preview that remembers nothing is safe only where no two rows share an identity. */
  ghost predicate Apart(offers: seq<Offered>) {
    forall i, j | 0 <= i < j < |offers| && !Hollow(offers[i].row) && !Hollow(offers[j].row) ::
      KeysOf(offers[i].row) !! KeysOf(offers[j].row)
  }

  /** What a preview knows is what the real run has done: the rows inserted so far are the
      ones the preview counted, and it knows their identities. */
  ghost predicate Mirrors(done: Copying, dry: Copying, start: Copying, offers: seq<Offered>, n: nat, run: Run)
    requires n <= |offers|
  {
    && done.merged == dry.merged && done.skipped == dry.skipped
    && dry.rows == start.rows && dry.last == start.last && dry.copied == start.copied && dry.landed == start.landed
    && Numbered(done.rows, done.last) && Knows(done.rows, dry.seen, start.rows, offers, n, run)
  }

  /** The identities a preview knows are those of the rows the real run has. */
  ghost predicate Knows(rows: Table, seen: set<Key>, before: Table, offers: seq<Offered>, n: nat, run: Run)
    requires n <= |offers|
  {
    && (forall k :: Holds(before, k) ==> Holds(rows, k))
    && (run.remembers ==> forall k :: Holds(rows, k) <==> Holds(before, k) || k in seen)
    && (!run.remembers ==> seen == {} && forall k | Holds(rows, k) && !Holds(before, k) :: GivenBefore(offers, n, k))
  }

  ghost predicate GivenBefore(offers: seq<Offered>, n: nat, k: Key)
    requires n <= |offers|
  {
    exists i :: 0 <= i < n && !Hollow(offers[i].row) && k in KeysOf(offers[i].row)
  }

  lemma {:induction false} InsertedHolds(rows: Table, last: nat, row: Row)
    requires Numbered(rows, last)
    ensures forall k :: Holds(rows[last + 1 := row], k) <==> Holds(rows, k) || k in KeysOf(row)
  {
    var more := rows[last + 1 := row];
    forall k ensures Holds(more, k) <==> Holds(rows, k) || k in KeysOf(row) {
      if Holds(rows, k) {
        var id :| id in rows && k in KeysOf(rows[id]);
        assert id in more && more[id] == rows[id];
      }
      if k in KeysOf(row) {
        assert last + 1 in more && k in KeysOf(more[last + 1]);
      }
    }
  }

  lemma {:induction false} NotGivenTwice(offers: seq<Offered>, n: nat, k: Key)
    requires n < |offers| && Apart(offers) && !Hollow(offers[n].row) && GivenBefore(offers, n, k)
    ensures k !in KeysOf(offers[n].row)
  {
    var i :| 0 <= i < n && !Hollow(offers[i].row) && k in KeysOf(offers[i].row);
  }

  /** Both arms find the same duplicates. */
  lemma {:induction false} SameDuplicates(done: Copying, dry: Copying, start: Copying, offers: seq<Offered>, n: nat, run: Run)
    requires n < |offers| && Mirrors(done, dry, start, offers, n, run) && (run.remembers || Apart(offers))
    requires !Hollow(offers[n].row)
    ensures Duplicate(done, offers[n].row, false) <==> Duplicate(dry, offers[n].row, true)
  {
    var row := offers[n].row;
    if Duplicate(done, row, false) {
      var k :| k in KeysOf(row) && Holds(done.rows, k);
      if !run.remembers && GivenBefore(offers, n, k) {
        NotGivenTwice(offers, n, k);
      }
      assert Holds(dry.rows, k) || k in dry.seen;
    }
  }

  lemma {:induction false} MirrorsCounted(done: Copying, dry: Copying, start: Copying, offers: seq<Offered>, n: nat, run: Run)
    requires n < |offers| && Mirrors(done, dry, start, offers, n, run)
    ensures Mirrors(done, dry, start, offers, n + 1, run)
    ensures Mirrors(done.(skipped := done.skipped + 1), dry.(skipped := dry.skipped + 1), start, offers, n + 1, run)
  {
    forall k | GivenBefore(offers, n, k) ensures GivenBefore(offers, n + 1, k) {
    }
  }

  lemma {:induction false} KnowsInserted(rows: Table, more: Table, seen: set<Key>, before: Table, offers: seq<Offered>, n: nat, m: nat, row: Row, run: Run)
    requires m == n + 1 && m <= |offers| && row == offers[n].row && !Hollow(row) && Knows(rows, seen, before, offers, n, run)
    requires forall k :: Holds(more, k) <==> Holds(rows, k) || k in KeysOf(row)
    ensures Knows(more, if run.remembers then seen + KeysOf(row) else seen, before, offers, m, run)
  {
    GivenNext(offers, n, m);
  }

  lemma {:induction false} MirrorsInserted(done: Copying, dry: Copying, start: Copying, offers: seq<Offered>, n: nat, run: Run)
    requires n < |offers| && Mirrors(done, dry, start, offers, n, run) && !Hollow(offers[n].row)
    ensures var row := offers[n].row;
      Mirrors(Insert(done, offers[n].src, row),
              dry.(merged := dry.merged + 1, seen := if run.remembers then dry.seen + KeysOf(row) else dry.seen),
              start, offers, n + 1, run)
  {
    var row := offers[n].row;
    InsertedHolds(done.rows, done.last, row);
    KnowsInserted(done.rows, done.rows[done.last + 1 := row], dry.seen, start.rows, offers, n, n + 1, row, run);
  }

  lemma {:induction false} GivenNext(offers: seq<Offered>, n: nat, m: nat)
    requires m == n + 1 && m <= |offers| && !Hollow(offers[n].row)
    ensures forall k | GivenBefore(offers, n, k) || k in KeysOf(offers[n].row) :: GivenBefore(offers, m, k)
  {
  }

  lemma {:induction false} MirrorsNext(done: Copying, dry: Copying, start: Copying, offers: seq<Offered>, n: nat, run: Run)
    requires n < |offers| && Mirrors(done, dry, start, offers, n, run) && (run.remembers || Apart(offers))
    requires !Hollow(offers[n].row) && !Duplicate(done, offers[n].row, false) ==> run.takes(offers[n].row)
    ensures Mirrors(Offer(done, offers[n].src, offers[n].row, run.(dry := false)),
                    Offer(dry, offers[n].src, offers[n].row, run.(dry := true)), start, offers, n + 1, run)
  {
    MirrorsCounted(done, dry, start, offers, n, run);
    if !Hollow(offers[n].row) {
      SameDuplicates(done, dry, start, offers, n, run);
      MirrorsInserted(done, dry, start, offers, n, run);
    }
  }

  lemma {:induction false} PreviewMirrors(start: Copying, offers: seq<Offered>, n: nat, run: Run)
    requires n <= |offers| && Numbered(start.rows, start.last) && start.seen == {}
    requires InsertsSucceed(start, offers, run.(dry := false)) && (run.remembers || Apart(offers))
    ensures Mirrors(OfferAll(start, offers, n, run.(dry := false)), OfferAll(start, offers, n, run.(dry := true)),
                    start, offers, n, run)
  {
    if n > 0 {
      PreviewMirrors(start, offers, n - 1, run);
      MirrorsNext(OfferAll(start, offers, n - 1, run.(dry := false)), OfferAll(start, offers, n - 1, run.(dry := true)),
                  start, offers, n - 1, run);
    }
  }

  /** A dry run tells the truth: where the inserts it stands for succeed, its counts are the
      real run's, repeats within the batch included; and it writes and queues nothing. */
  lemma {:induction false} PreviewTellsTheTruth(start: Copying, offers: seq<Offered>, run: Run)
    requires Numbered(start.rows, start.last) && start.seen == {}
    requires InsertsSucceed(start, offers, run.(dry := false)) && (run.remembers || Apart(offers))
    ensures var done, dry := OfferAll(start, offers, |offers|, run.(dry := false)), OfferAll(start, offers, |offers|, run.(dry := true));
      && dry.merged == done.merged && dry.skipped == done.skipped
      && dry.rows == start.rows && dry.landed == start.landed && dry.copied == start.copied
  {
    PreviewMirrors(start, offers, |offers|, run);
  }

  /** A preview writes and queues nothing whatever the inserts would do. */
  lemma {:induction false} PreviewWritesNothing(start: Copying, offers: seq<Offered>, n: nat, run: Run)
    requires n <= |offers| && run.dry
    ensures var dry := OfferAll(start, offers, n, run);
      dry.rows == start.rows && dry.last == start.last && dry.landed == start.landed && dry.copied == start.copied
  {
    if n > 0 {
      PreviewWritesNothing(start, offers, n - 1, run);
    }
  }

  // ---- what a real run does -------------------------------------------------------------------

  /** Copies are new rows; what was there stays. */
  ghost predicate Grown(start: Copying, now: Copying) {
    && start.last <= now.last && |now.copied| == |now.landed| == now.merged
    && (forall id | id in start.rows :: id in now.rows && now.rows[id] == start.rows[id])
    && (forall id | id in now.rows :: id in start.rows || id in now.landed)
    && (forall i | 0 <= i < |now.landed| :: start.last < now.landed[i] <= now.last && now.landed[i] in now.rows)
    && Numbered(now.rows, now.last)
  }

  /** Each copy is of one offer. */
  ghost predicate Copies(start: Copying, now: Copying, offers: seq<Offered>, n: nat)
    requires n <= |offers|
  {
    Grown(start, now) && forall i | 0 <= i < |now.copied| :: CopyOf(now, offers, n, i)
  }

  /** The i-th copy holds the row that was offered for its source. */
  ghost predicate CopyOf(now: Copying, offers: seq<Offered>, n: nat, i: nat)
    requires n <= |offers| && i < |now.copied| && i < |now.landed| && now.landed[i] in now.rows
  {
    exists j :: 0 <= j < n && offers[j] == Offered(now.copied[i], now.rows[now.landed[i]])
  }

  lemma {:induction false} CopyStays(now: Copying, next: Copying, offers: seq<Offered>, n: nat, m: nat, i: nat)
    requires n < m <= |offers| && i < |now.copied| == |now.landed| && now.landed[i] in now.rows
    requires Follows(now, next, offers[n].src, offers[n].row) && now.last + 1 !in now.rows
    requires CopyOf(now, offers, n, i)
    ensures i < |next.copied| && i < |next.landed| && next.landed[i] in next.rows && CopyOf(next, offers, m, i)
  {
    var j :| 0 <= j < n && offers[j] == Offered(now.copied[i], now.rows[now.landed[i]]);
    assert next.rows[next.landed[i]] == now.rows[now.landed[i]];
    assert offers[j] == Offered(next.copied[i], next.rows[next.landed[i]]);
  }

  lemma {:induction false} GrownNext(start: Copying, now: Copying, next: Copying, src: nat, row: Row)
    requires Grown(start, now) && Follows(now, next, src, row)
    ensures Grown(start, next) && now.last + 1 !in now.rows
  {
    if next == Insert(now, src, row) {
      assert next.landed[|now.landed|] == now.last + 1;
      assert forall id | id in now.landed :: id in next.landed;
    }
  }

  /** One more row keeps the copies copies. */
  lemma {:induction false} CopiesNext(start: Copying, now: Copying, next: Copying, offers: seq<Offered>, n: nat, m: nat)
    requires n < |offers| && m == n + 1 && Copies(start, now, offers, n)
    requires Follows(now, next, offers[n].src, offers[n].row)
    ensures Copies(start, next, offers, m)
  {
    GrownNext(start, now, next, offers[n].src, offers[n].row);
    forall i | 0 <= i < |next.copied| ensures CopyOf(next, offers, m, i) {
      if i < |now.copied| {
        CopyStays(now, next, offers, n, m, i);
      } else {
        assert offers[n] == Offered(next.copied[i], next.rows[next.landed[i]]);
      }
    }
  }

  ghost predicate FollowsAt(states: seq<Copying>, offers: seq<Offered>, i: int)
    requires 0 <= i < |offers| && i + 1 < |states|
  {
    Follows(states[i], states[i+1], offers[i].src, offers[i].row)
  }

  /** The states of a real run, one row apart. */
  ghost predicate IsTrace(states: seq<Copying>, offers: seq<Offered>, n: nat) {
    n <= |offers| && |states| == n + 1 && forall i | 0 <= i < n :: FollowsAt(states, offers, i)
  }

  lemma {:induction false} TraceOf(st: Copying, offers: seq<Offered>, n: nat, run: Run) returns (states: seq<Copying>)
    requires n <= |offers| && !run.dry
    ensures IsTrace(states, offers, n) && states[0] == st && states[n] == OfferAll(st, offers, n, run)
  {
    if n == 0 {
      states := [st];
    } else {
      var before := TraceOf(st, offers, n - 1, run);
      states := before + [OfferAll(st, offers, n, run)];
      RealOfferFollows(before[n-1], offers[n-1].src, offers[n-1].row, run);
      assert forall i | 0 <= i < n - 1 :: FollowsAt(before, offers, i) ==> FollowsAt(states, offers, i);
    }
  }

  lemma {:induction false} TraceCopies(states: seq<Copying>, offers: seq<Offered>, n: nat, rows: Table, last: nat, m: nat)
    requires IsTrace(states, offers, n) && states[0] == Start(rows, last) && Numbered(rows, last) && m <= n
    ensures Copies(states[0], states[m], offers, m)
  {
    if m > 0 {
      TraceCopies(states, offers, n, rows, last, m - 1);
      assert FollowsAt(states, offers, m - 1);
      CopiesNext(states[0], states[m-1], states[m], offers, m - 1, m);
    }
  }

  lemma {:induction false} RealRunCopies(rows: Table, last: nat, offers: seq<Offered>, run: Run)
    requires !run.dry && Numbered(rows, last)
    ensures var now := OfferAll(Start(rows, last), offers, |offers|, run);
      Copies(Start(rows, last), now, offers, |offers|)
  {
    var states := TraceOf(Start(rows, last), offers, |offers|, run);
    TraceCopies(states, offers, |offers|, rows, last, |offers|);
  }

  /** After a real run an offer is hollow, or its like is in the table, or the database
      ignores it. */
  predicate Answered(rows: Table, row: Row, run: Run) {
    Hollow(row) || (exists k :: k in KeysOf(row) && Holds(rows, k)) || !run.takes(row)
  }

  lemma {:induction false} HeldStays(rows: Table, last: nat, row: Row, k: Key)
    requires Numbered(rows, last) && Holds(rows, k)
    ensures Holds(rows[last + 1 := row], k)
  {
    var id :| id in rows && k in KeysOf(rows[id]);
    assert rows[last + 1 := row][id] == rows[id];
  }

  lemma {:induction false} AnsweredStays(now: Copying, next: Copying, src: nat, row: Row, run: Run, other: Row)
    requires Numbered(now.rows, now.last) && Follows(now, next, src, row) && Answered(now.rows, other, run)
    ensures Answered(next.rows, other, run)
  {
    if !Hollow(other) && run.takes(other) {
      var k :| k in KeysOf(other) && Holds(now.rows, k);
      HeldStays(now.rows, now.last, row, k);
      assert Holds(next.rows, k);
    }
  }

  lemma {:induction false} OfferAnswers(st: Copying, src: nat, row: Row, run: Run)
    requires Numbered(st.rows, st.last) && !run.dry
    ensures Answered(Offer(st, src, row, run).rows, row, run)
    ensures Numbered(Offer(st, src, row, run).rows, Offer(st, src, row, run).last)
  {
    InsertedHolds(st.rows, st.last, row);
    var k := AKey(row);
  }

  lemma {:induction false} AllAnswered(st: Copying, offers: seq<Offered>, n: nat, run: Run)
    requires n <= |offers| && Numbered(st.rows, st.last) && !run.dry
    ensures var now := OfferAll(st, offers, n, run);
      Numbered(now.rows, now.last) && forall i | 0 <= i < n :: Answered(now.rows, offers[i].row, run)
  {
    if n > 0 {
      AllAnswered(st, offers, n - 1, run);
      var now := OfferAll(st, offers, n - 1, run);
      OfferAnswers(now, offers[n-1].src, offers[n-1].row, run);
      RealOfferFollows(now, offers[n-1].src, offers[n-1].row, run);
      forall i | 0 <= i < n - 1 ensures Answered(OfferAll(st, offers, n, run).rows, offers[i].row, run) {
        AnsweredStays(now, OfferAll(st, offers, n, run), offers[n-1].src, offers[n-1].row, run, offers[i].row);
      }
    }
  }

  lemma {:induction false} AnsweredMergesNothing(st: Copying, offers: seq<Offered>, n: nat, run: Run)
    requires n <= |offers| && !run.dry && forall i | 0 <= i < n :: Answered(st.rows, offers[i].row, run)
    ensures var now := OfferAll(st, offers, n, run);
      now.rows == st.rows && now.merged == st.merged && now.copied == st.copied && now.landed == st.landed
  {
    if n > 0 {
      AnsweredMergesNothing(st, offers, n - 1, run);
    }
  }

  /** A repeated copy merges nothing: the same rows offered to what a first run left change
      nothing and are counted as skips. */
  lemma {:induction false} RepeatMergesNothing(rows: Table, last: nat, offers: seq<Offered>, run: Run)
    requires Numbered(rows, last) && !run.dry
    ensures var once := OfferAll(Start(rows, last), offers, |offers|, run);
      var twice := OfferAll(Start(once.rows, once.last), offers, |offers|, run);
      twice.rows == once.rows && twice.merged == 0 && twice.copied == []
  {
    AllAnswered(Start(rows, last), offers, |offers|, run);
    var once := OfferAll(Start(rows, last), offers, |offers|, run);
    AnsweredMergesNothing(Start(once.rows, once.last), offers, |offers|, run);
  }

  // ---- a merge's offers -------------------------------------------------------------------------

  function Rehomed(row: Row, agent: Agent): Row {
    row.(agent := agent)
  }

  /** The source's rows in id order, each under the target. */
  function OffersOf(rows: Table, ids: seq<nat>, target: Agent, n: nat): (offers: seq<Offered>)
    requires n <= |ids| && forall i | 0 <= i < |ids| :: ids[i] in rows
    ensures |offers| == n && forall i | 0 <= i < n :: offers[i] == Offered(ids[i], Rehomed(rows[ids[i]], target))
  {
    if n == 0 then [] else OffersOf(rows, ids, target, n - 1) + [Offered(ids[n-1], Rehomed(rows[ids[n-1]], target))]
  }

  function SourceIds(rows: Table, last: nat, source: Agent): (ids: seq<nat>) {
    Listing(IdsOf(rows, source), last)
  }

  ghost predicate IsListing(rows: Table, last: nat, source: Agent, ids: seq<nat>) {
    && ids == SourceIds(rows, last, source)
    && (forall i | 0 <= i < |ids| :: ids[i] in rows && rows[ids[i]].agent == source)
    && (forall i, j | 0 <= i < j < |ids| :: ids[i] < ids[j])
    && (forall id | id in rows && rows[id].agent == source :: id in ids)
  }

  lemma {:induction false} SourceIsListed(rows: Table, last: nat, source: Agent)
    requires Numbered(rows, last)
    ensures IsListing(rows, last, source, SourceIds(rows, last, source))
  {
    var ids := SourceIds(rows, last, source);
    ListingIsExact(IdsOf(rows, source), last);
    assert forall i | 0 <= i < |ids| :: ids[i] in ids;
  }

  /** The rows a merge offers: every row of the source, once. */
  function MergeOffers(rows: Table, last: nat, source: Agent, target: Agent): seq<Offered>
    requires Numbered(rows, last)
  {
    SourceIsListed(rows, last, source);
    OffersOf(rows, SourceIds(rows, last, source), target, |SourceIds(rows, last, source)|)
  }

  // ---- a move conserves the rows ------------------------------------------------------------------

  /** What a merge of one table leaves before any delete. */
  function Merged(rows: Table, last: nat, source: Agent, target: Agent, run: Run): Copying
    requires Numbered(rows, last)
  {
    var offers := MergeOffers(rows, last, source, target);
    OfferAll(Start(rows, last), offers, |offers|, run)
  }

  /** Each copy is a new row holding a source row under the target. */
  ghost predicate SourcesCopied(rows: Table, last: nat, source: Agent, target: Agent, now: Copying) {
    && |now.copied| == |now.landed| == now.merged
    && (forall i | 0 <= i < |now.copied| ::
          && now.copied[i] in rows && rows[now.copied[i]].agent == source
          && now.landed[i] > last && now.landed[i] in now.rows
          && IsCopyFor(rows[now.copied[i]], now.rows[now.landed[i]], target))
    && (forall i, j | 0 <= i < j < |now.copied| :: now.copied[i] < now.copied[j])
    && (forall id | id in rows :: id in now.rows && now.rows[id] == rows[id])
    && (forall id | id in now.rows && id !in rows :: id in now.landed)
    && |now.rows.Keys| == |rows.Keys| + now.merged
  }

  /** The sources copied come in id order, and each copy is one more row. */
  ghost predicate InOrder(st: Copying, now: Copying, offers: seq<Offered>, n: nat) {
    && (forall i, m | 0 <= i < |now.copied| && n <= m < |offers| :: now.copied[i] < offers[m].src)
    && (forall i, j | 0 <= i < j < |now.copied| :: now.copied[i] < now.copied[j])
    && Numbered(now.rows, now.last) && |now.rows.Keys| == |st.rows.Keys| + now.merged
  }

  lemma {:induction false} InOrderNext(st: Copying, now: Copying, next: Copying, offers: seq<Offered>, n: nat)
    requires n < |offers| && InOrder(st, now, offers, n) && Follows(now, next, offers[n].src, offers[n].row)
    requires forall i, j | 0 <= i < j < |offers| :: offers[i].src < offers[j].src
    ensures InOrder(st, next, offers, n + 1)
  {
    assert now.rows[now.last + 1 := offers[n].row].Keys == now.rows.Keys + {now.last + 1};
  }

  lemma {:induction false} TraceInOrder(states: seq<Copying>, offers: seq<Offered>, n: nat, rows: Table, last: nat, m: nat)
    requires IsTrace(states, offers, n) && states[0] == Start(rows, last) && Numbered(rows, last) && m <= n
    requires forall i, j | 0 <= i < j < |offers| :: offers[i].src < offers[j].src
    ensures InOrder(states[0], states[m], offers, m)
  {
    if m > 0 {
      TraceInOrder(states, offers, n, rows, last, m - 1);
      assert FollowsAt(states, offers, m - 1);
      InOrderNext(states[0], states[m-1], states[m], offers, m - 1);
    }
  }

  lemma {:induction false} CopiedInOrder(rows: Table, last: nat, offers: seq<Offered>, run: Run)
    requires Numbered(rows, last) && !run.dry
    requires forall i, j | 0 <= i < j < |offers| :: offers[i].src < offers[j].src
    ensures InOrder(Start(rows, last), OfferAll(Start(rows, last), offers, |offers|, run), offers, |offers|)
  {
    var states := TraceOf(Start(rows, last), offers, |offers|, run);
    TraceInOrder(states, offers, |offers|, rows, last, |offers|);
  }

  lemma {:induction false} MergeCopiesSources(rows: Table, last: nat, source: Agent, target: Agent, run: Run)
    requires Numbered(rows, last) && !run.dry
    ensures SourcesCopied(rows, last, source, target, Merged(rows, last, source, target, run))
  {
    SourceIsListed(rows, last, source);
    var offers := MergeOffers(rows, last, source, target);
    var now := Merged(rows, last, source, target, run);
    RealRunCopies(rows, last, offers, run);
    CopiedInOrder(rows, last, offers, run);
    forall i | 0 <= i < |now.copied|
      ensures now.copied[i] in rows && rows[now.copied[i]].agent == source
        && IsCopyFor(rows[now.copied[i]], now.rows[now.landed[i]], target)
    {
      assert CopyOf(now, offers, |offers|, i);
    }
  }

  /** A move: the copies made, then exactly the rows copied deleted at the source. */
  function Moved(rows: Table, last: nat, source: Agent, target: Agent, run: Run): Table
    requires Numbered(rows, last)
  {
    var now := Merged(rows, last, source, target, run);
    now.rows - Ids(now.copied)
  }

  function Ids(s: seq<nat>): set<nat> {
    set id | id in s
  }

  lemma {:induction false} IdsCount(s: seq<nat>, n: nat)
    requires n <= |s| && forall i, j | 0 <= i < j < |s| :: s[i] < s[j]
    ensures |Ids(s[..n])| == n
  {
    if n > 0 {
      IdsCount(s, n - 1);
      assert Ids(s[..n]) == Ids(s[..n-1]) + {s[n-1]};
      assert s[n-1] !in Ids(s[..n-1]);
    }
  }

  /** The sources of the first `n` offers that say something. */
  function Spoken(offers: seq<Offered>, n: nat): set<nat>
    requires n <= |offers|
  {
    set i | 0 <= i < n && Speaks(offers[i].row) :: offers[i].src
  }

  lemma {:induction false} OneMoreSpoken(offers: seq<Offered>, n: nat, m: nat)
    requires m == n + 1 && m <= |offers| && forall i, j | 0 <= i < j < |offers| :: offers[i].src < offers[j].src
    ensures |Spoken(offers, m)| == |Spoken(offers, n)| + if Speaks(offers[n].row) then 1 else 0
  {
    if Speaks(offers[n].row) {
      assert Spoken(offers, m) == Spoken(offers, n) + {offers[n].src};
      assert offers[n].src !in Spoken(offers, n);
    } else {
      assert Spoken(offers, m) == Spoken(offers, n);
    }
  }

  lemma {:induction false} EachIsCounted(st: Copying, offers: seq<Offered>, n: nat, run: Run)
    requires n <= |offers| && forall i, j | 0 <= i < j < |offers| :: offers[i].src < offers[j].src
    ensures var now := OfferAll(st, offers, n, run);
      now.merged + now.skipped == st.merged + st.skipped + |Spoken(offers, n)|
  {
    if n > 0 {
      EachIsCounted(st, offers, n - 1, run);
      OneMoreSpoken(offers, n - 1, n);
      AlikeShare(offers[n-1].row, offers[n-1].row);
    }
  }

  /** The rows of an agent that say something. */
  function SpeakingRows(rows: Table, agent: Agent): set<nat> {
    set id | id in rows && rows[id].agent == agent && Speaks(rows[id])
  }

  /** Every row of the source that says something is counted once, as merged or as skipped, in
      a preview and in a real run. */
  lemma {:induction false} EveryRowIsCounted(rows: Table, last: nat, source: Agent, target: Agent, run: Run)
    requires Numbered(rows, last)
    ensures var now := Merged(rows, last, source, target, run);
      now.merged + now.skipped == |SpeakingRows(rows, source)|
  {
    var offers := MergeOffers(rows, last, source, target);
    SourceIsListed(rows, last, source);
    EachIsCounted(Start(rows, last), offers, |offers|, run);
    SpokenAre(rows, last, source, target);
  }

  lemma {:induction false} SpokenAre(rows: Table, last: nat, source: Agent, target: Agent)
    requires Numbered(rows, last)
    ensures var offers := MergeOffers(rows, last, source, target); Spoken(offers, |offers|) == SpeakingRows(rows, source)
  {
    var offers, ids := MergeOffers(rows, last, source, target), SourceIds(rows, last, source);
    SourceIsListed(rows, last, source);
    forall id ensures id in Spoken(offers, |offers|) <==> id in SpeakingRows(rows, source) {
      if id in SpeakingRows(rows, source) {
        var i :| 0 <= i < |ids| && ids[i] == id;
        assert offers[i].src == id && Speaks(offers[i].row);
      }
    }
  }

  // ---- which rows are copied ----------------------------------------------------------------------

  /** A row the gate let through: it says something, the database took it, and nothing in the
      table was like it. */
  ghost predicate LetThrough(before: Table, row: Row, run: Run) {
    Speaks(row) && run.takes(row) && forall id | id in before :: !Alike(row, before[id])
  }

  /** Every copy was let through, and no two are alike. */
  ghost predicate Gated(start: Copying, now: Copying, run: Run) {
    && (forall id | id in now.rows && id !in start.rows :: LetThrough(start.rows, now.rows[id], run))
    && (forall a, b | a in now.rows && b in now.rows && a !in start.rows && b !in start.rows && a < b :: !Alike(now.rows[b], now.rows[a]))
    && (forall id | id in start.rows :: id in now.rows && now.rows[id] == start.rows[id])
    && start.last <= now.last && Numbered(now.rows, now.last)
  }

  lemma {:induction false} NoneAlike(st: Copying, row: Row)
    requires !Duplicate(st, row, false)
    ensures forall id | id in st.rows :: !Alike(row, st.rows[id])
  {
    forall id | id in st.rows ensures !Alike(row, st.rows[id]) {
      AlikeShare(row, st.rows[id]);
      assert forall k | k in KeysOf(st.rows[id]) :: Holds(st.rows, k);
    }
  }

  lemma {:induction false} GatedNext(start: Copying, now: Copying, src: nat, row: Row, run: Run)
    requires !run.dry && Numbered(start.rows, start.last) && Gated(start, now, run)
    ensures Gated(start, Offer(now, src, row, run), run)
  {
    if !Hollow(row) && !Duplicate(now, row, false) && run.takes(row) {
      NoneAlike(now, row);
      AlikeShare(row, row);
      assert forall id | id in start.rows :: id in now.rows && !Alike(row, start.rows[id]);
    }
  }

  lemma {:induction false} RunIsGated(rows: Table, last: nat, offers: seq<Offered>, n: nat, run: Run)
    requires !run.dry && Numbered(rows, last) && n <= |offers|
    ensures Gated(Start(rows, last), OfferAll(Start(rows, last), offers, n, run), run)
  {
    if n > 0 {
      RunIsGated(rows, last, offers, n - 1, run);
      GatedNext(Start(rows, last), OfferAll(Start(rows, last), offers, n - 1, run), offers[n-1].src, offers[n-1].row, run);
    }
  }

  lemma {:induction false} AnsweredIsKnown(rows: Table, row: Row, run: Run)
    requires Answered(rows, row, run)
    ensures !Speaks(row) || !run.takes(row) || exists id :: id in rows && Alike(row, rows[id])
  {
    AlikeShare(row, row);
    if Speaks(row) && run.takes(row) {
      var k :| k in KeysOf(row) && Holds(rows, k);
      var id :| id in rows && k in KeysOf(rows[id]);
      AlikeShare(row, rows[id]);
    }
  }

  /** A source row's copy is in the table: a new row, let through the gate. */
  ghost predicate Landed(rows: Table, last: nat, t: Table, src: Row, target: Agent, run: Run) {
    exists id :: id in t && id > last && IsCopyFor(src, t[id], target) && LetThrough(rows, t[id], run)
  }

  /** A source row was left where it is: it says nothing, or the database would not take its
      copy, or the target has a row like it. */
  ghost predicate Left(t: Table, src: Row, target: Agent, run: Run) {
    forall copy | IsCopyFor(src, copy, target) ::
      !Speaks(copy) || !run.takes(copy) || exists id :: id in t && Alike(copy, t[id])
  }

  /** A new row is the copy of a source row that is gone. */
  ghost predicate ImageOfGone(rows: Table, t: Table, source: Agent, target: Agent, row: Row) {
    exists src :: src in rows && src !in t && rows[src].agent == source && IsCopyFor(rows[src], row, target)
  }

  /** Each source row ends either copied to the target and deleted, or untouched at the source
      for a reason; every other row stays; every row there is was there before or is the copy
      of a source row that is gone, no two of them alike; and no row is gained or lost. */
  ghost predicate Conserves(rows: Table, last: nat, t: Table, source: Agent, target: Agent, run: Run) {
    && (forall id | id in rows && rows[id].agent == source ::
          if id in t then t[id] == rows[id] && Left(t, rows[id], target, run) else Landed(rows, last, t, rows[id], target, run))
    && (forall id | id in rows && rows[id].agent != source :: id in t && t[id] == rows[id])
    && (forall id | id in t && id !in rows :: ImageOfGone(rows, t, source, target, t[id]))
    && (forall a, b | a in t && b in t && a !in rows && b !in rows && a < b :: !Alike(t[b], t[a]))
    && |t.Keys| == |rows.Keys|
  }

  lemma {:induction false} MoveConserves(rows: Table, last: nat, source: Agent, target: Agent, run: Run)
    requires Numbered(rows, last) && !run.dry
    ensures Conserves(rows, last, Moved(rows, last, source, target, run), source, target, run)
  {
    var offers, now := MergeOffers(rows, last, source, target), Merged(rows, last, source, target, run);
    MergeCopiesSources(rows, last, source, target, run);
    RunIsGated(rows, last, offers, |offers|, run);
    forall id | id in rows && rows[id].agent == source && id !in now.copied
      ensures Left(now.rows - Ids(now.copied), rows[id], target, run)
    {
      UncopiedIsLeft(rows, last, source, target, run, id);
    }
    DeletingConserves(rows, last, source, target, run, now);
  }

  /** What was not copied has its reason still after the copied rows are deleted. */
  lemma {:induction false} UncopiedIsLeft(rows: Table, last: nat, source: Agent, target: Agent, run: Run, id: nat)
    requires Numbered(rows, last) && !run.dry && id in rows && rows[id].agent == source
    ensures var now := Merged(rows, last, source, target, run);
      Left(now.rows - Ids(now.copied), rows[id], target, run)
  {
    var offers, now := MergeOffers(rows, last, source, target), Merged(rows, last, source, target, run);
    SourceIsListed(rows, last, source);
    var j :| 0 <= j < |offers| && offers[j].src == id;
    AllAnswered(Start(rows, last), offers, |offers|, run);
    AnsweredIsKnown(now.rows, offers[j].row, run);
    var t, row := now.rows - Ids(now.copied), offers[j].row;
    assert forall copy | IsCopyFor(rows[id], copy, target) :: copy == row;
    if Speaks(row) && run.takes(row) {
      var other :| other in now.rows && Alike(row, now.rows[other]);
      LikeIsNotCopied(rows, last, source, target, run, row, other);
      assert other in t && Alike(row, t[other]);
    }
  }

  /** What a copy would be like is not itself deleted. */
  lemma {:induction false} LikeIsNotCopied(rows: Table, last: nat, source: Agent, target: Agent, run: Run, copy: Row, other: nat)
    requires Numbered(rows, last) && !run.dry && copy.agent == target
    requires var now := Merged(rows, last, source, target, run); other in now.rows && Alike(copy, now.rows[other])
    ensures other !in Merged(rows, last, source, target, run).copied
  {
    var offers, now := MergeOffers(rows, last, source, target), Merged(rows, last, source, target, run);
    MergeCopiesSources(rows, last, source, target, run);
    RunIsGated(rows, last, offers, |offers|, run);
    if other in now.copied {
      var i :| 0 <= i < |now.copied| && now.copied[i] == other;
      assert LetThrough(rows, now.rows[now.landed[i]], run);
      assert Alike(now.rows[now.landed[i]], rows[other]);
      assert false;
    }
  }

  /** Deleting exactly what was copied. */
  lemma {:induction false} DeletingConserves(rows: Table, last: nat, source: Agent, target: Agent, run: Run, now: Copying)
    requires Numbered(rows, last) && SourcesCopied(rows, last, source, target, now) && Gated(Start(rows, last), now, run)
    requires forall id | id in rows && rows[id].agent == source && id !in now.copied ::
      Left(now.rows - Ids(now.copied), rows[id], target, run)
    ensures Conserves(rows, last, now.rows - Ids(now.copied), source, target, run)
  {
    var t := now.rows - Ids(now.copied);
    forall id | id in rows && rows[id].agent == source && id !in t ensures Landed(rows, last, t, rows[id], target, run) {
      var i :| 0 <= i < |now.copied| && now.copied[i] == id;
      LandedIsThere(rows, last, source, target, run, now, i);
    }
    forall id | id in t && id !in rows ensures ImageOfGone(rows, t, source, target, t[id]) {
      var i :| 0 <= i < |now.landed| && now.landed[i] == id;
      ImageIsOfGone(rows, last, source, target, now, i);
    }
    DeletedCount(rows, last, source, target, now);
  }

  lemma {:induction false} ImageIsOfGone(rows: Table, last: nat, source: Agent, target: Agent, now: Copying, i: nat)
    requires SourcesCopied(rows, last, source, target, now) && i < |now.copied|
    ensures ImageOfGone(rows, now.rows - Ids(now.copied), source, target, now.rows[now.landed[i]])
  {
    assert now.copied[i] in now.copied;
  }

  lemma {:induction false} DeletedCount(rows: Table, last: nat, source: Agent, target: Agent, now: Copying)
    requires SourcesCopied(rows, last, source, target, now)
    ensures |(now.rows - Ids(now.copied)).Keys| == |rows.Keys|
  {
    IdsCount(now.copied, |now.copied|);
    assert now.copied[..|now.copied|] == now.copied;
    Fewer(now.rows.Keys, Ids(now.copied));
    assert (now.rows - Ids(now.copied)).Keys == now.rows.Keys - Ids(now.copied);
  }

  lemma {:induction false} LandedIsThere(rows: Table, last: nat, source: Agent, target: Agent, run: Run, now: Copying, i: nat)
    requires Numbered(rows, last) && SourcesCopied(rows, last, source, target, now) && Gated(Start(rows, last), now, run)
    requires i < |now.copied|
    ensures Landed(rows, last, now.rows - Ids(now.copied), rows[now.copied[i]], target, run)
  {
    assert now.landed[i] !in rows;
    assert now.landed[i] in now.rows - Ids(now.copied);
  }

  lemma {:induction false} Fewer(all: set<nat>, gone: set<nat>)
    requires gone <= all
    ensures |all - gone| == |all| - |gone|
  {
    assert all == (all - gone) + gone;
  }

  /** Where every row of the source was copied, a move leaves the source with nothing. */
  lemma {:induction false} MoveEmpties(rows: Table, last: nat, source: Agent, target: Agent, run: Run)
    requires Numbered(rows, last) && source != target && !run.dry
    ensures IdsOf(Moved(rows, last, source, target, run), source) == IdsOf(rows, source) - Ids(Merged(rows, last, source, target, run).copied)
  {
    var now := Merged(rows, last, source, target, run);
    MergeCopiesSources(rows, last, source, target, run);
    forall id | id in now.rows && id !in rows ensures now.rows[id].agent == target {
      var i :| 0 <= i < |now.landed| && now.landed[i] == id;
    }
  }
}
