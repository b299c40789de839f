/** Merging one agent into another, one table at a time (cpersona/admin_handlers.py,
    `_merge_memory_rows`, `_merge_episode_rows`, `_merge_profile_rows` and
    `_delete_merged_source_rows`). */
module AgentMerge {
  import opened Common
  import opened AgentRows
  import opened EpisodeIndex
  import opened AgentCopy

  // ---- a merge, as its passes see it ------------------------------------------------------

  lemma {:induction false} ListingPrefix(ids: set<nat>, m: nat, n: nat)
    requires m <= n
    ensures Listing(ids, m) <= Listing(ids, n)
    decreases n
  {
    if m < n {
      ListingPrefix(ids, m, n - 1);
    }
  }

  lemma {:induction false} ListingEnds(ids: set<nat>, m: nat, n: nat)
    requires m <= n && forall id | id in ids :: id <= m
    ensures Listing(ids, m) == Listing(ids, n)
    decreases n
  {
    if m < n {
      ListingEnds(ids, m, n - 1);
    }
  }

  /** Copies are filed under the target, so the source's rows are what they were. */
  ghost predicate SourceKept(rows: Table, now: Table, source: Agent) {
    && (forall id | id in rows :: id in now && now[id] == rows[id])
    && (forall id | id in now && id !in rows :: now[id].agent != source)
  }

  lemma {:induction false} SourceStays(rows: Table, now: Table, source: Agent)
    requires SourceKept(rows, now, source)
    ensures IdsOf(now, source) == IdsOf(rows, source)
  {
  }

  lemma {:induction false} SameOffers(rows: Table, last: nat, now: Table, nowLast: nat, source: Agent, target: Agent)
    requires Numbered(rows, last) && Numbered(now, nowLast) && last <= nowLast && SourceKept(rows, now, source)
    ensures MergeOffers(now, nowLast, source, target) == MergeOffers(rows, last, source, target)
  {
    SourceStays(rows, now, source);
    ListingEnds(IdsOf(rows, source), last, nowLast);
    SourceIsListed(rows, last, source);
    SameRowsOffered(rows, now, SourceIds(rows, last, source), target, |SourceIds(rows, last, source)|);
  }

  lemma {:induction false} SameRowsOffered(rows: Table, now: Table, ids: seq<nat>, target: Agent, n: nat)
    requires n <= |ids| && forall i | 0 <= i < |ids| :: ids[i] in rows && ids[i] in now && now[ids[i]] == rows[ids[i]]
    ensures OffersOf(rows, ids, target, n) == OffersOf(now, ids, target, n)
  {
    if n > 0 {
      SameRowsOffered(rows, now, ids, target, n - 1);
    }
  }

  lemma {:induction false} MergeKeepsSource(rows: Table, last: nat, source: Agent, target: Agent, run: Run)
    requires Numbered(rows, last) && source != target && !run.dry
    ensures var now := Merged(rows, last, source, target, run);
      SourceKept(rows, now.rows, source) && Numbered(now.rows, now.last) && last <= now.last
  {
    var now := Merged(rows, last, source, target, run);
    MergeCopiesSources(rows, last, source, target, run);
    RealRunCopies(rows, last, MergeOffers(rows, last, source, target), run);
    forall id | id in now.rows && id !in rows ensures now.rows[id].agent != source {
      var i :| 0 <= i < |now.landed| && now.landed[i] == id;
    }
  }

  /** Merging the same agents a second time copies nothing and changes nothing. */
  lemma {:induction false} RepeatedMergeMergesNothing(rows: Table, last: nat, source: Agent, target: Agent, run: Run)
    requires Numbered(rows, last) && source != target && !run.dry
    ensures var once := Merged(rows, last, source, target, run);
      && Numbered(once.rows, once.last)
      && var twice := Merged(once.rows, once.last, source, target, run);
        twice.rows == once.rows && twice.merged == 0 && twice.copied == []
  {
    var once := Merged(rows, last, source, target, run);
    MergeKeepsSource(rows, last, source, target, run);
    SameOffers(rows, last, once.rows, once.last, source, target);
    RepeatMergesNothing(rows, last, MergeOffers(rows, last, source, target), run);
  }

  /** UNIQUE (agent_id, user_id) on profiles. */
  ghost predicate UniqueUsers(rows: Table) {
    forall a, b | a in rows && b in rows && rows[a].Profile? && rows[b].Profile?
      && rows[a].agent == rows[b].agent && rows[a].user == rows[b].user :: a == b
  }

  /** A table of one kind: memories, episodes, or profiles. */
  ghost predicate OfProfiles(rows: Table) {
    forall id | id in rows :: rows[id].Profile?
  }

  lemma {:induction false} ProfilesAreApart(rows: Table, last: nat, source: Agent, target: Agent)
    requires Numbered(rows, last) && OfProfiles(rows) && UniqueUsers(rows)
    ensures Apart(MergeOffers(rows, last, source, target))
  {
    SourceIsListed(rows, last, source);
    var offers := MergeOffers(rows, last, source, target);
    var ids := SourceIds(rows, last, source);
    forall i, j | 0 <= i < j < |offers| ensures KeysOf(offers[i].row) !! KeysOf(offers[j].row) {
      assert offers[i] == Offered(ids[i], Rehomed(rows[ids[i]], target));
      assert offers[j] == Offered(ids[j], Rehomed(rows[ids[j]], target));
      assert ids[i] != ids[j];
    }
  }

  /** A merge's preview tells the truth for every table: memories and episodes because the
      preview remembers, profiles because no two of the source share a user. */
  lemma {:induction false} MergePreviewTellsTheTruth(rows: Table, last: nat, source: Agent, target: Agent, run: Run)
    requires Numbered(rows, last) && (run.remembers || (OfProfiles(rows) && UniqueUsers(rows)))
    requires InsertsSucceed(Start(rows, last), MergeOffers(rows, last, source, target), run.(dry := false))
    ensures var done, dry := Merged(rows, last, source, target, run.(dry := false)), Merged(rows, last, source, target, run.(dry := true));
      && dry.merged == done.merged && dry.skipped == done.skipped
      && dry.rows == rows && dry.last == last && dry.landed == [] && dry.copied == []
  {
    if !run.remembers {
      ProfilesAreApart(rows, last, source, target);
    }
    var offers := MergeOffers(rows, last, source, target);
    PreviewTellsTheTruth(Start(rows, last), offers, run);
    PreviewWritesNothing(Start(rows, last), offers, |offers|, run.(dry := true));
  }

  // ---- the code -------------------------------------------------------------------------------

  /** One table under a pass, and the tally of the pass. */
  class TablePass {
    var rows: Table
    var last: nat
    var merged: nat
    var skipped: nat
    var copied: seq<nat>
    var landed: seq<nat>
    var seen: set<Key>
    const episodes: bool
    const index: SummaryIndex

    function State(): Copying
      reads this
    {
      Copying(rows, last, merged, skipped, copied, landed, seen)
    }

    /** The episode table goes through the digest index, which stands for it. */
    ghost predicate Valid()
      reads this, index
    {
      && Numbered(rows, last)
      && (episodes ==> (forall id | id in rows :: rows[id].Episode?) && index.Stands(rows))
      && (!episodes ==> forall id | id in rows :: !rows[id].Episode?)
    }

    constructor (table: Table, top: nat, ofEpisodes: bool, digest: (Value, Value, Value) -> nat)
      requires Numbered(table, top)
      requires forall id | id in table :: table[id].Episode? == ofEpisodes
      ensures Valid() && State() == Start(table, top) && episodes == ofEpisodes && fresh(index)
    {
      rows, last, merged, skipped, copied, landed, seen := table, top, 0, 0, [], [], {};
      episodes := ofEpisodes;
      index := new SummaryIndex(digest);
    }

    /** The probes of the gate. */
    method IsDuplicate(row: Row, dry: bool, limit: nat) returns (dup: bool)
      requires Valid() && row.Episode? == episodes && limit > 0
      modifies index
      ensures Valid() && dup == Duplicate(State(), row, dry)
    {
      match row {
        case Memory(agent, project, channel, msgId, content, _) =>
          dup := false;
          if !Empty(msgId) {
            var k := ByMessage(agent, project, msgId);
            dup := Holds(rows, k) || (dry && k in seen);
          }
          var k := ByContent(agent, project, channel, content);
          dup := dup || Holds(rows, k) || (dry && k in seen);
        case Episode(agent, project, channel, summary, _) =>
          var found := index.Find(rows, last, agent, project, channel, summary, limit);
          var k := BySummary(agent, project, channel, summary);
          FoundIsHeld(rows, agent, project, channel, summary);
          dup := found.Some? || (dry && k in seen);
        case Profile(agent, user, _, _) =>
          var k := ByUser(agent, user);
          dup := Holds(rows, k) || (dry && k in seen);
      }
    }

    /** One row through the gate. */
    method OfferRow(src: nat, row: Row, run: Run, limit: nat)
      requires Valid() && row.Episode? == episodes && limit > 0
      modifies this, index
      ensures Valid() && State() == Offer(old(State()), src, row, run)
    {
      if Hollow(row) {
        return;
      }
      var dup := IsDuplicate(row, run.dry, limit);
      if dup {
        skipped := skipped + 1;
      } else if run.dry {
        if run.remembers {
          seen := seen + KeysOf(row);
        }
        merged := merged + 1;
      } else if !run.takes(row) {
        skipped := skipped + 1;
      } else {
        InsertRow(src, row);
      }
    }

    method InsertRow(src: nat, row: Row)
      requires Valid() && row.Episode? == episodes
      modifies this, index
      ensures Valid() && State() == Insert(old(State()), src, row)
    {
      if row.Episode? {
        index.Add(row.agent, row.project, row.channel, row.summary, last + 1, rows, row.rest);
      }
      last := last + 1;
      rows := rows[last := row];
      copied, landed := copied + [src], landed + [last];
      merged := merged + 1;
    }

    method CountSkip()
      requires Valid()
      modifies this`skipped
      ensures Valid() && State() == old(State()).(skipped := old(skipped) + 1)
    {
      skipped := skipped + 1;
    }

    /** One page of source rows, read before any of it is copied. */
    method OfferPage(page: seq<nat>, target: Agent, run: Run, limit: nat, ghost offers: seq<Offered>, ghost n: nat, ghost end: nat,
                     ghost start: Copying)
      requires Valid() && limit > 0 && end == n + |page| <= |offers| && State() == OfferAll(start, offers, n, run)
      requires forall i | 0 <= i < |page| :: page[i] in rows && offers[n + i] == Offered(page[i], Rehomed(rows[page[i]], target))
      modifies this, index
      ensures Valid() && State() == OfferAll(start, offers, end, run)
    {
      var read := rows;
      var i := 0;
      while i < |page|
        invariant 0 <= i <= |page| && Valid() && State() == OfferAll(start, offers, n + i, run)
      {
        assert offers[n + i] == Offered(page[i], Rehomed(read[page[i]], target));
        OfferRow(page[i], Rehomed(read[page[i]], target), run, limit);
        i := i + 1;
      }
    }

    /** How far a pass has come: the source's rows as they were, those up to `after` offered. */
    ghost predicate Reached(table: Table, top: nat, source: Agent, target: Agent, run: Run, after: nat)
      requires Numbered(table, top)
      reads this
    {
      && after <= top <= last && SourceKept(table, rows, source)
      && var offers, n := MergeOffers(table, top, source, target), |Listing(IdsOf(table, source), after)|;
        n <= |offers| && State() == OfferAll(Start(table, top), offers, n, run)
    }

    /** The next page, or the end. */
    method CopyPage(source: Agent, target: Agent, run: Run, limit: nat, after: nat, ghost table: Table, ghost top: nat)
        returns (next: nat, done: bool)
      requires Valid() && limit > 0 && source != target && Numbered(table, top) && Reached(table, top, source, target, run, after)
      modifies this, index
      ensures Valid() && Reached(table, top, source, target, run, next)
      ensures if done then Listing(IdsOf(table, source), next) == Listing(IdsOf(table, source), top) else after < next
    {
      SourceStays(table, rows, source);
      PageContinues(IdsOf(table, source), after, last, limit);
      var page := Page(IdsOf(rows, source), after, last, limit);
      if page == [] {
        ListingEnds(IdsOf(table, source), top, last);
        return after, true;
      }
      next, done := page[|page|-1], false;
      TakePage(source, target, run, limit, after, page, next, table, top);
    }

    method TakePage(source: Agent, target: Agent, run: Run, limit: nat, ghost after: nat, page: seq<nat>, ghost next: nat,
                    ghost table: Table, ghost top: nat)
      requires Valid() && limit > 0 && source != target && Numbered(table, top) && Reached(table, top, source, target, run, after)
      requires page != [] && next == page[|page|-1] <= top
      requires forall i | 0 <= i < |page| :: page[i] in IdsOf(table, source)
      requires Listing(IdsOf(table, source), after) + page == Listing(IdsOf(table, source), next)
      modifies this, index
      ensures Valid() && Reached(table, top, source, target, run, next)
    {
      ListedIsOffered(table, top, source, target, next);
      PageIsOffered(table, top, rows, source, target, after, page);
      OfferPage(page, target, run, limit, MergeOffers(table, top, source, target), |Listing(IdsOf(table, source), after)|,
                |Listing(IdsOf(table, source), next)|, Start(table, top));
      CopiesKeepSource(table, top, source, target, run, |Listing(IdsOf(table, source), next)|);
    }

    /** Copy the source agent's rows into the target, page by page, while inserting into the
        same table: each source row is offered exactly once. */
    method CopyAgent(source: Agent, target: Agent, run: Run, limit: nat)
      requires Valid() && limit > 0 && source != target && State() == Start(rows, last)
      modifies this, index
      ensures Valid() && State() == Merged(old(rows), old(last), source, target, run)
      ensures !run.dry ==> SourcesCopied(old(rows), old(last), source, target, State())
      ensures merged + skipped == |SpeakingRows(old(rows), source)|
    {
      ghost var table, top := rows, last;
      EveryRowIsCounted(table, top, source, target, run);
      if !run.dry {
        MergeCopiesSources(table, top, source, target, run);
      }
      var after, done := 0, false;
      while !done
        invariant Valid() && Reached(table, top, source, target, run, after)
        invariant done ==> Listing(IdsOf(table, source), after) == Listing(IdsOf(table, source), top)
        decreases !done, top - after
      {
        after, done := CopyPage(source, target, run, limit, after, table, top);
      }
      ListedIsOffered(table, top, source, target, top);
    }

    /** Delete exactly the rows the pass copied, in chunks. */
    method DeleteCopied(source: Agent, chunk: nat) returns (deleted: nat)
      requires chunk > 0 && forall i | 0 <= i < |copied| :: copied[i] in rows && rows[copied[i]].agent == source
      requires forall i, j | 0 <= i < j < |copied| :: copied[i] < copied[j]
      modifies this`rows
      ensures rows == old(rows) - Ids(copied) && deleted == |copied|
    {
      deleted := 0;
      var start := 0;
      ghost var table := rows;
      while start < |copied|
        invariant 0 <= start && rows == table - Ids(copied[..Least(start, |copied|)])
        invariant deleted == Least(start, |copied|)
      {
        var end := Least(start + chunk, |copied|);
        var gone := set id | id in copied[start..end] && id in rows && rows[id].agent == source;
        assert forall id | id in Ids(copied) :: id in table && table[id].agent == source;
        ChunkIsThere(table, rows, copied, start, end, gone, source);
        rows := rows - gone;
        deleted := deleted + |gone|;
        start := start + chunk;
      }
      assert copied[..|copied|] == copied;
    }

    /** A move: copy, then delete what was copied. */
    method MoveAgent(source: Agent, target: Agent, run: Run, limit: nat, chunk: nat) returns (deleted: nat)
      requires Valid() && limit > 0 && chunk > 0 && source != target && !run.dry && State() == Start(rows, last)
      modifies this, index
      ensures rows == Moved(old(rows), old(last), source, target, run)
      ensures Conserves(old(rows), old(last), rows, source, target, run)
      ensures deleted == |copied| == merged
    {
      ghost var table, top := rows, last;
      CopyAgent(source, target, run, limit);
      CopiedAreThere(table, top, source, target, State());
      deleted := DeleteCopied(source, chunk);
      MoveConserves(table, top, source, target, run);
    }
  }

  lemma {:induction false} CopiedAreThere(rows: Table, last: nat, source: Agent, target: Agent, now: Copying)
    requires SourcesCopied(rows, last, source, target, now)
    ensures forall i | 0 <= i < |now.copied| :: now.copied[i] in now.rows && now.rows[now.copied[i]].agent == source
    ensures (forall i, j | 0 <= i < j < |now.copied| :: now.copied[i] < now.copied[j]) && |now.copied| == now.merged
  {
  }

  function Least(a: nat, b: nat): nat {
    if a < b then a else b
  }

  lemma {:induction false} FoundIsHeld(rows: Table, a: Agent, project: Value, channel: Value, summary: Value)
    requires forall id | id in rows :: rows[id].Episode?
    ensures HasEpisode(rows, a, project, channel, summary) <==> Holds(rows, BySummary(a, project, channel, summary))
  {
    if Holds(rows, BySummary(a, project, channel, summary)) {
      var id :| id in rows && BySummary(a, project, channel, summary) in KeysOf(rows[id]);
      assert IsEpisode(rows, id, a, project, channel, summary);
    }
  }

  /** A page is the next stretch of the offers. */
  lemma {:induction false} PageIsOffered(table: Table, top: nat, rows: Table, source: Agent, target: Agent, after: nat, page: seq<nat>)
    requires Numbered(table, top) && SourceKept(table, rows, source) && after <= top && page != []
    requires forall i | 0 <= i < |page| :: page[i] in IdsOf(table, source)
    requires Listing(IdsOf(table, source), after) + page == Listing(IdsOf(table, source), page[|page|-1])
    ensures var offers, n := MergeOffers(table, top, source, target), |Listing(IdsOf(table, source), after)|;
      && n + |page| <= |offers|
      && forall i | 0 <= i < |page| :: page[i] in rows && offers[n + i] == Offered(page[i], Rehomed(rows[page[i]], target))
  {
    var ids := IdsOf(table, source);
    var offers, n := MergeOffers(table, top, source, target), |Listing(ids, after)|;
    SourceIsListed(table, top, source);
    ListingPrefix(ids, page[|page|-1], top);
    var all := SourceIds(table, top, source);
    forall i | 0 <= i < |page|
      ensures n + i < |offers| && page[i] in rows && offers[n + i] == Offered(page[i], Rehomed(rows[page[i]], target))
    {
      assert all[n + i] == (Listing(ids, after) + page)[n + i];
    }
  }

  /** However far the offers have come, the source's rows are as they were. */
  lemma {:induction false} CopiesKeepSource(table: Table, top: nat, source: Agent, target: Agent, run: Run, n: nat)
    requires Numbered(table, top) && source != target && n <= |MergeOffers(table, top, source, target)|
    ensures var now := OfferAll(Start(table, top), MergeOffers(table, top, source, target), n, run);
      SourceKept(table, now.rows, source) && top <= now.last
  {
    if n > 0 {
      CopiesKeepSource(table, top, source, target, run, n - 1);
      SourceIsListed(table, top, source);
      var offers := MergeOffers(table, top, source, target);
      OfferKeepsSource(table, top, OfferAll(Start(table, top), offers, n - 1, run), offers[n-1].src, offers[n-1].row, run, source);
    }
  }

  lemma {:induction false} OfferKeepsSource(table: Table, top: nat, now: Copying, src: nat, row: Row, run: Run, source: Agent)
    requires Numbered(table, top) && SourceKept(table, now.rows, source) && top <= now.last && row.agent != source
    ensures SourceKept(table, Offer(now, src, row, run).rows, source) && top <= Offer(now, src, row, run).last
  {
  }

  ghost predicate Ascends(s: seq<nat>) {
    forall i, j | 0 <= i < j < |s| :: s[i] < s[j]
  }

  lemma {:induction false} ChunkIsThere(table: Table, rows: Table, copied: seq<nat>, start: nat, end: nat, gone: set<nat>, source: Agent)
    requires start <= end <= |copied| && rows == table - Ids(copied[..start]) && Ascends(copied)
    requires forall id | id in Ids(copied) :: id in table && table[id].agent == source
    requires gone == set id | id in copied[start..end] && id in rows && rows[id].agent == source
    ensures rows - gone == table - Ids(copied[..end]) && |gone| == end - start
  {
    ChunkIsApart(copied, start, end);
    SelectsAll(rows, copied[start..end], source);
    DeletedTwice(table, Ids(copied[..start]), gone);
  }

  lemma {:induction false} SelectsAll(rows: Table, chunk: seq<nat>, source: Agent)
    requires forall id | id in Ids(chunk) :: id in rows && rows[id].agent == source
    ensures (set id | id in chunk && id in rows && rows[id].agent == source) == Ids(chunk)
  {
    assert forall id | id in chunk :: id in Ids(chunk);
  }

  lemma {:induction false} DeletedTwice(table: Table, a: set<nat>, b: set<nat>)
    ensures (table - a) - b == table - (a + b)
  {
  }

  /** A chunk of ascending ids: as many as it is long, none of them in what came before. */
  lemma {:induction false} ChunkIsApart(copied: seq<nat>, start: nat, end: nat)
    requires start <= end <= |copied| && Ascends(copied)
    ensures Ids(copied[start..end]) <= Ids(copied) && Ids(copied[start..end]) !! Ids(copied[..start])
    ensures Ids(copied[..end]) == Ids(copied[..start]) + Ids(copied[start..end])
    ensures |Ids(copied[start..end])| == end - start
  {
    forall id | id in copied[start..end] ensures id in copied && id !in copied[..start] {
      NotYetGone(copied, start, end, id);
    }
    assert copied[..end] == copied[..start] + copied[start..end];
    JoinedIds(copied[..start], copied[start..end]);
    SliceCount(copied, start, end);
  }

  lemma {:induction false} SliceCount(copied: seq<nat>, start: nat, end: nat)
    requires start <= end <= |copied| && Ascends(copied)
    ensures |Ids(copied[start..end])| == end - start
  {
    var chunk := copied[start..end];
    assert chunk[..end - start] == chunk;
    IdsCount(chunk, end - start);
  }

  lemma {:induction false} NotYetGone(copied: seq<nat>, start: nat, end: nat, id: nat)
    requires start <= end <= |copied| && id in copied[start..end] && Ascends(copied)
    ensures id in copied && id !in copied[..start]
  {
    var i :| 0 <= i < end - start && copied[start..end][i] == id;
    assert copied[start + i] == id;
  }

  lemma {:induction false} JoinedIds(a: seq<nat>, b: seq<nat>)
    ensures Ids(a + b) == Ids(a) + Ids(b)
  {
  }

  lemma {:induction false} ListedIsOffered(table: Table, top: nat, source: Agent, target: Agent, after: nat)
    requires Numbered(table, top) && after <= top
    ensures |Listing(IdsOf(table, source), after)| <= |MergeOffers(table, top, source, target)|
    ensures |Listing(IdsOf(table, source), top)| == |MergeOffers(table, top, source, target)|
  {
    SourceIsListed(table, top, source);
    ListingPrefix(IdsOf(table, source), after, top);
  }
}
