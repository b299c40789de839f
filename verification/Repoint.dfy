/** Two writers of the graph beside declaring and carrying: pointing a record's declarations at
    its survivor (cpersona/associations.py, `repoint`), and dropping an agent's graph
    (cpersona/admin_handlers.py, `_delete_agent_rows`). */
module Repoint {
  import opened Common
  import opened Graph

  // ---- an equal record takes over -----------------------------------------------------------

  function EndMoved(end: End, before: Ref, after: Ref): End {
    if end == Item(before) then Item(after) else end
  }

  function Moved(r: Relation, before: Ref, after: Ref): Relation {
    r.(subject := EndMoved(r.subject, before, after), target := EndMoved(r.target, before, after),
       anchor := if r.anchor == Some(before) then Some(after) else r.anchor)
  }

  /** One end stands where another did: the survivor's for the record's, the same otherwise. */
  predicate StandsIn(was: End, now: End, before: Ref, after: Ref) {
    now == (if was == Item(before) then Item(after) else was)
  }

  /** A relation says of the survivor what another said of the record. */
  predicate SaysOf(was: Relation, now: Relation, before: Ref, after: Ref) {
    && now.scope == was.scope && now.verb == was.verb
    && StandsIn(was.subject, now.subject, before, after) && StandsIn(was.target, now.target, before, after)
    && now.anchor == (if was.anchor == Some(before) then Some(after) else was.anchor)
  }

  lemma {:induction false} MovedSays(r: Relation, q: Relation, before: Ref, after: Ref)
    ensures q == Moved(r, before, after) <==> SaysOf(r, q, before, after)
  {
  }

  /** The agent's relations that name the record, as an end or as their anchor. */
  predicate Names(r: Relation, agent: Agent, before: Ref) {
    r.scope.agent == agent && (Touches(r, Item(before)) || r.anchor == Some(before))
  }

  predicate MentionedFor(s: Store, e: nat, agent: Agent, ref: Ref) {
    (e, ref) in s.mentions && e in s.names.entities && s.names.entities[e].scope.agent == agent
  }

  /** INSERT OR IGNORE of the survivor's mentions. */
  function MentionsMoved(s: Store, agent: Agent, before: Ref, after: Ref): map<(nat, Ref), Note> {
    var added := set k | k in s.mentions && k.1 == before && MentionedFor(s, k.0, agent, before) :: (k.0, after);
    map k | k in s.mentions.Keys + added :: if k in s.mentions then s.mentions[k] else s.mentions[(k.0, before)]
  }

  /** UPDATE OR IGNORE of one relation: it stays where the survivor has its like. */
  function RelationMoved(relations: map<Relation, Note>, r: Relation, before: Ref, after: Ref): map<Relation, Note> {
    var q := Moved(r, before, after);
    if r !in relations || q in relations then relations else (relations - {r})[q := relations[r]]
  }

  /** What a repoint leaves: the names as they were; the mentions of `before` that are the
      agent's also of `after`; and each of its relations that named `before` moved, or left
      where `after` already has its like. */
  ghost predicate Repoints(s: Store, t: Store, agent: Agent, before: Ref, after: Ref) {
    && t.names == s.names && t.records == s.records
    && (forall e: nat, ref :: (e, ref) in t.mentions <==> (e, ref) in s.mentions || (ref == after && MentionedFor(s, e, agent, before)))
    && (forall r | r in s.relations && !Names(r, agent, before) :: r in t.relations)
    && (forall r | r in s.relations && Names(r, agent, before) :: Moved(r, before, after) in t.relations)
    && (forall r | r in t.relations && r !in s.relations :: ComesFrom(s.relations, t.relations, r, agent, before, after))
    && (forall r | r in t.relations && r in s.relations :: t.relations[r] == s.relations[r])
    && (forall k | k in t.mentions && k in s.mentions :: t.mentions[k] == s.mentions[k])
    && (forall e: nat | (e, after) in t.mentions && (e, after) !in s.mentions && (e, before) in s.mentions ::
          t.mentions[(e, after)] == s.mentions[(e, before)])
    && |t.relations.Keys| == |s.relations.Keys|
  }

  /** A relation is one of the old ones moved, with what is noted of it. */
  ghost predicate ComesFrom(was: map<Relation, Note>, now: map<Relation, Note>, r: Relation, agent: Agent, before: Ref, after: Ref)
    requires r in now
  {
    exists q :: q in was && Names(q, agent, before) && r == Moved(q, before, after) && now[r] == was[q]
  }

  /** The rows come in some order, each once. */
  ghost predicate ListsNaming(rows: seq<Relation>, relations: map<Relation, Note>, agent: Agent, before: Ref) {
    forall r :: r in rows <==> r in relations && Names(r, agent, before)
  }

  /** How far the rows have been moved. */
  ghost predicate MovedSoFar(was: map<Relation, Note>, now: map<Relation, Note>, rows: seq<Relation>, n: nat,
                             agent: Agent, before: Ref, after: Ref)
    requires n <= |rows|
  {
    && (forall r | r in was && !Names(r, agent, before) :: r in now)
    && (forall r | r in was && Names(r, agent, before) :: r in now || Moved(r, before, after) in now)
    && (forall i | 0 <= i < n :: Moved(rows[i], before, after) in now)
    && (forall r | r in now && r !in was :: ComesFrom(was, now, r, agent, before, after))
    && (forall r | r in now && r in was :: now[r] == was[r])
    && |now.Keys| == |was.Keys|
  }

  lemma {:induction false} MovedIsFree(r: Relation, agent: Agent, before: Ref, after: Ref)
    requires before != after
    ensures !Names(Moved(r, before, after), agent, before)
  {
  }

  lemma {:induction false} OneMoreMoved(was: map<Relation, Note>, now: map<Relation, Note>, next: map<Relation, Note>,
                                        rows: seq<Relation>, n: nat, agent: Agent, before: Ref, after: Ref)
    requires before != after && n < |rows| && ListsNaming(rows, was, agent, before)
    requires MovedSoFar(was, now, rows, n, agent, before, after) && next == RelationMoved(now, rows[n], before, after)
    ensures MovedSoFar(was, next, rows, n + 1, agent, before, after)
  {
    var r := rows[n];
    var q := Moved(r, before, after);
    assert r in was && Names(r, agent, before);
    MovedIsFree(r, agent, before, after);
    if r in now && q !in now {
      assert next.Keys == (now.Keys - {r}) + {q};
    }
    forall i | 0 <= i < n + 1 ensures Moved(rows[i], before, after) in next {
      MovedIsFree(rows[i], agent, before, after);
    }
    forall a | a in was && Names(a, agent, before) ensures a in next || Moved(a, before, after) in next {
      MovedIsFree(a, agent, before, after);
    }
  }

  lemma {:induction false} RepointedStand(s: Store, t: Store, agent: Agent, before: Ref, after: Ref, r: Relation)
    requires Valid(s) && Repoints(s, t, agent, before, after) && IsRecordOf(s, after, agent) && r in t.relations
    ensures RelationStands(t, r)
  {
    if r in s.relations {
      assert RelationStands(s, r);
    } else {
      assert ComesFrom(s.relations, t.relations, r, agent, before, after);
      var q :| q in s.relations && Names(q, agent, before) && r == Moved(q, before, after);
      assert RelationStands(s, q);
    }
  }

  /** Pointed at a record of the same agent, declarations stay about records that exist. */
  lemma {:induction false} RepointKeepsValid(s: Store, t: Store, agent: Agent, before: Ref, after: Ref)
    requires Valid(s) && Repoints(s, t, agent, before, after) && IsRecordOf(s, after, agent)
    ensures Valid(t)
  {
    forall e, ref | (e, ref) in t.mentions ensures MentionStands(t, e, ref) {
      assert (e, ref) in s.mentions ==> MentionStands(s, e, ref);
    }
    forall r | r in t.relations ensures RelationStands(t, r) {
      RepointedStand(s, t, agent, before, after, r);
    }
  }

  /** Each mention of the record is of its survivor, and what else there is was there. */
  ghost predicate MentionsRepaired(s: Store, u: Store, before: Ref, after: Ref) {
    && (forall e, ref | (e, ref) in s.mentions :: (e, if ref == before then after else ref) in u.mentions)
    && (forall e: nat, ref | (e, ref) in u.mentions ::
          ((e, ref) in s.mentions && u.mentions[(e, ref)] == s.mentions[(e, ref)])
          || (ref == after && (e, before) in s.mentions && u.mentions[(e, ref)] == s.mentions[(e, before)]))
  }

  /** Each relation says of the survivor what one said of the record, and what else there is
      was there. */
  ghost predicate RelationsRepaired(s: Store, u: Store, before: Ref, after: Ref) {
    && (forall r | r in s.relations :: exists q :: q in u.relations && SaysOf(r, q, before, after))
    && (forall r | r in u.relations ::
          exists q :: q in s.relations && (r == q || SaysOf(q, r, before, after)) && u.relations[r] == s.relations[q])
  }

  lemma {:induction false} MentionsAreRepaired(s: Store, t: Store, agent: Agent, before: Ref, after: Ref)
    requires Valid(s) && Repoints(s, t, agent, before, after) && before != after && IsRecordOf(s, before, agent)
    ensures MentionsRepaired(s, WithoutRecord(t, before), before, after)
  {
    forall e, ref | (e, ref) in s.mentions ensures (e, if ref == before then after else ref) in WithoutRecord(t, before).mentions {
      assert MentionStands(s, e, ref);
    }
  }

  lemma {:induction false} RelationsAreRepaired(s: Store, t: Store, agent: Agent, before: Ref, after: Ref)
    requires Valid(s) && Repoints(s, t, agent, before, after) && before != after && IsRecordOf(s, before, agent)
    ensures RelationsRepaired(s, WithoutRecord(t, before), before, after)
  {
    var u := WithoutRecord(t, before);
    forall r | r in s.relations ensures exists q :: q in u.relations && SaysOf(r, q, before, after) {
      assert RelationStands(s, r);
      MovedIsFree(r, agent, before, after);
      MovedSays(r, Moved(r, before, after), before, after);
      assert !Names(r, agent, before) ==> Moved(r, before, after) == r;
      assert Moved(r, before, after) in u.relations;
    }
    forall r | r in u.relations && r !in s.relations
      ensures exists q :: q in s.relations && SaysOf(q, r, before, after) && u.relations[r] == s.relations[q]
    {
      assert ComesFrom(s.relations, t.relations, r, agent, before, after);
      var q :| q in s.relations && Names(q, agent, before) && r == Moved(q, before, after) && t.relations[r] == s.relations[q];
      MovedSays(q, r, before, after);
    }
  }

  /** A dedup repair loses no declaration: once the record is deleted, each mention of it is of
      its survivor, each relation that named it names its survivor, and the rest is as it was. */
  lemma {:induction false} RepairLosesNothing(s: Store, t: Store, agent: Agent, before: Ref, after: Ref)
    requires Valid(s) && Repoints(s, t, agent, before, after) && before != after && IsRecordOf(s, before, agent)
    ensures var u := WithoutRecord(t, before);
      u.names == s.names && MentionsRepaired(s, u, before, after) && RelationsRepaired(s, u, before, after)
  {
    MentionsAreRepaired(s, t, agent, before, after);
    RelationsAreRepaired(s, t, agent, before, after);
  }

  method ListNaming(relations: map<Relation, Note>, agent: Agent, before: Ref) returns (rows: seq<Relation>)
    ensures ListsNaming(rows, relations, agent, before)
  {
    rows := [];
    var todo := set r | r in relations && Names(r, agent, before);
    while todo != {}
      invariant forall r :: r in rows || r in todo <==> r in relations && Names(r, agent, before)
      decreases todo
    {
      var r :| r in todo;
      rows, todo := rows + [r], todo - {r};
    }
  }

  /** UPDATE OR IGNORE of every row listed. */
  method MoveRows(relations: map<Relation, Note>, rows: seq<Relation>, agent: Agent, before: Ref, after: Ref)
      returns (now: map<Relation, Note>)
    requires before != after && ListsNaming(rows, relations, agent, before)
    ensures MovedSoFar(relations, now, rows, |rows|, agent, before, after)
  {
    now := relations;
    var n := 0;
    while n < |rows|
      invariant 0 <= n <= |rows| && MovedSoFar(relations, now, rows, n, agent, before, after)
    {
      var next := RelationMoved(now, rows[n], before, after);
      OneMoreMoved(relations, now, next, rows, n, agent, before, after);
      now, n := next, n + 1;
    }
  }

  /** Point the declarations that name one record at another, in place. */
  method RepointOne(db: GraphDb, agent: Agent, before: Ref, after: Ref)
    requires before != after
    modifies db
    ensures Repoints(old(db.Now()), db.Now(), agent, before, after)
  {
    ghost var s := db.Now();
    var rows := ListNaming(db.relations, agent, before);
    var relations := MoveRows(db.relations, rows, agent, before, after);
    RowsAreAll(db.relations, relations, rows, agent, before, after);
    db.mentions := MentionsMoved(db.Now(), agent, before, after);
    db.relations := relations;
    MentionsAre(s, agent, before, after);
  }

  lemma {:induction false} MentionsAre(s: Store, agent: Agent, before: Ref, after: Ref)
    ensures var moved := MentionsMoved(s, agent, before, after);
      forall e: nat, ref :: (e, ref) in moved <==> (e, ref) in s.mentions || (ref == after && MentionedFor(s, e, agent, before))
  {
    forall e: nat | MentionedFor(s, e, agent, before) ensures (e, after) in MentionsMoved(s, agent, before, after) {
      assert (e, before) in s.mentions;
    }
  }

  lemma {:induction false} RowsAreAll(was: map<Relation, Note>, now: map<Relation, Note>, rows: seq<Relation>,
                                      agent: Agent, before: Ref, after: Ref)
    requires ListsNaming(rows, was, agent, before) && MovedSoFar(was, now, rows, |rows|, agent, before, after)
    ensures forall r | r in was && Names(r, agent, before) :: Moved(r, before, after) in now
  {
    forall r | r in was && Names(r, agent, before) ensures Moved(r, before, after) in now {
      var i :| 0 <= i < |rows| && rows[i] == r;
    }
  }

  /** A ref of a map entry, or what is no ref; only refs of one kind, and two different ones, are
      taken. */
  predicate Taken(before: Option<Ref>, after: Option<Ref>) {
    && before.Some? && after.Some? && before.value.Mem? == after.value.Mem? && before != after
  }

  /** Point the declarations naming each old record at its new one. */
  method RepointAll(db: GraphDb, agent: Agent, refs: seq<(Option<Ref>, Option<Ref>)>) returns (ghost run: seq<Store>)
    requires Valid(db.Now())
    requires forall i | 0 <= i < |refs| && refs[i].1.Some? :: IsRecordOf(db.Now(), refs[i].1.value, agent)
    modifies db
    ensures |run| == |refs| + 1 && run[0] == old(db.Now()) && run[|refs|] == db.Now() && Valid(db.Now())
    ensures forall i | 0 <= i < |refs| ::
      if Taken(refs[i].0, refs[i].1) then Repoints(run[i], run[i+1], agent, refs[i].0.value, refs[i].1.value)
      else run[i+1] == run[i]
  {
    run := [db.Now()];
    var i := 0;
    while i < |refs|
      invariant 0 <= i <= |refs| && |run| == i + 1 && run[0] == old(db.Now()) && run[i] == db.Now()
      invariant Valid(db.Now()) && db.records == old(db.records)
      invariant forall j | 0 <= j < i ::
        if Taken(refs[j].0, refs[j].1) then Repoints(run[j], run[j+1], agent, refs[j].0.value, refs[j].1.value)
        else run[j+1] == run[j]
    {
      if Taken(refs[i].0, refs[i].1) {
        RepointOne(db, agent, refs[i].0.value, refs[i].1.value);
        RepointKeepsValid(run[i], db.Now(), agent, refs[i].0.value, refs[i].1.value);
      }
      run := run + [db.Now()];
      i := i + 1;
    }
  }

  // ---- an agent's graph is dropped --------------------------------------------------------------

  /** DELETE of the agent's entities below `n`, each with its trigger. */
  function EntitiesDropped(s: Store, agent: Agent, n: nat): Store {
    if n == 0 then s
    else
      var t := EntitiesDropped(s, agent, n - 1);
      if n - 1 in t.names.entities && t.names.entities[n-1].scope.agent == agent then WithoutEntity(t, n - 1) else t
  }

  /** And of what relations it has left. */
  function WithoutAgent(s: Store, agent: Agent): Store {
    var t := EntitiesDropped(s, agent, s.names.last + 1);
    t.(relations := map r | r in t.relations && r.scope.agent != agent :: t.relations[r])
  }

  /** The agent's entities below `n` are gone, and no other. */
  ghost predicate DroppedTo(s: Store, t: Store, agent: Agent, n: nat) {
    && Valid(t) && t.names.last == s.names.last
    && (forall e | e in t.names.entities :: e in s.names.entities && t.names.entities[e] == s.names.entities[e])
    && (forall e | e in t.names.entities && t.names.entities[e].scope.agent == agent :: e >= n)
    && (forall e | e in s.names.entities && s.names.entities[e].scope.agent != agent :: e in t.names.entities)
  }

  /** What is said of the entities that stay stays, and nothing else does. */
  ghost predicate RestStays(s: Store, t: Store) {
    && (forall e: nat, n :: (e, n) in t.names.aliases <==> (e, n) in s.names.aliases && e in t.names.entities)
    && (forall e: nat, ref :: (e, ref) in t.mentions <==> (e, ref) in s.mentions && e in t.names.entities)
    && (forall r :: r in t.relations <==> r in s.relations && EndStays(t, r.subject) && EndStays(t, r.target))
  }

  predicate EndStays(t: Store, end: End) {
    end.Thing? ==> end.entity in t.names.entities
  }

  lemma {:induction false} RestAtFirst(s: Store)
    requires Valid(s)
    ensures RestStays(s, s)
  {
    forall r | r in s.relations ensures EndStays(s, r.subject) && EndStays(s, r.target) {
      assert RelationStands(s, r);
    }
    forall e: nat, ref | (e, ref) in s.mentions ensures e in s.names.entities {
      assert MentionStands(s, e, ref);
    }
  }

  lemma {:induction false} DropOne(s: Store, t: Store, agent: Agent, n: nat)
    requires DroppedTo(s, t, agent, n) && n in t.names.entities && t.names.entities[n].scope.agent == agent
    ensures DroppedTo(s, WithoutEntity(t, n), agent, n + 1)
  {
    DeletingKeepsValid(t, n);
  }

  lemma {:induction false} DroppingKeeps(s: Store, agent: Agent, n: nat)
    requires Valid(s)
    ensures DroppedTo(s, EntitiesDropped(s, agent, n), agent, n)
  {
    if n > 0 {
      DroppingKeeps(s, agent, n - 1);
      var t := EntitiesDropped(s, agent, n - 1);
      if n - 1 in t.names.entities && t.names.entities[n-1].scope.agent == agent {
        DropOne(s, t, agent, n - 1);
      }
    }
  }

  lemma {:induction false} RestOne(s: Store, t: Store, e: nat)
    requires RestStays(s, t)
    ensures RestStays(s, WithoutEntity(t, e))
  {
    var u := WithoutEntity(t, e);
    forall r ensures r in u.relations <==> r in s.relations && EndStays(u, r.subject) && EndStays(u, r.target) {
      assert Touches(r, Thing(e)) ==> !(EndStays(u, r.subject) && EndStays(u, r.target));
    }
  }

  lemma {:induction false} NextRest(s: Store, t: Store, u: Store, agent: Agent, e: nat)
    requires RestStays(s, t)
    requires u == if e in t.names.entities && t.names.entities[e].scope.agent == agent then WithoutEntity(t, e) else t
    ensures RestStays(s, u)
  {
    RestOne(s, t, e);
  }

  lemma {:induction false} RestIs(s: Store, agent: Agent, n: nat)
    requires Valid(s)
    ensures RestStays(s, EntitiesDropped(s, agent, n))
  {
    if n == 0 {
      RestAtFirst(s);
    } else {
      var m := n - 1;
      RestIs(s, agent, m);
      NextRest(s, EntitiesDropped(s, agent, m), EntitiesDropped(s, agent, n), agent, m);
    }
  }

  lemma {:induction false} DroppingKeepsValid(s: Store, agent: Agent)
    requires Valid(s)
    ensures Valid(WithoutAgent(s, agent))
  {
    DroppingKeeps(s, agent, s.names.last + 1);
    var dropped, t := EntitiesDropped(s, agent, s.names.last + 1), WithoutAgent(s, agent);
    forall r | r in t.relations ensures RelationStands(t, r) {
      assert RelationStands(dropped, r);
    }
    forall e, ref | (e, ref) in t.mentions ensures MentionStands(t, e, ref) {
      assert MentionStands(dropped, e, ref);
    }
  }

  /** Nothing of the agent is left, and every other agent's entities are as they were, with
      their aliases and mentions; of the other agents' relations exactly those between entities
      that stay are there. */
  ghost predicate AgentGone(s: Store, t: Store, agent: Agent) {
    && (forall e :: e in t.names.entities <==> e in s.names.entities && s.names.entities[e].scope.agent != agent)
    && (forall e | e in t.names.entities :: t.names.entities[e] == s.names.entities[e])
    && (forall e: nat, n :: (e, n) in t.names.aliases <==> (e, n) in s.names.aliases && e in t.names.entities)
    && (forall e: nat, ref :: (e, ref) in t.mentions <==> (e, ref) in s.mentions && e in t.names.entities)
    && (forall r :: r in t.relations <==>
          r in s.relations && r.scope.agent != agent && EndStays(t, r.subject) && EndStays(t, r.target))
  }

  lemma {:induction false} GoneWhenDropped(s: Store, dropped: Store, t: Store, agent: Agent)
    requires Valid(s) && DroppedTo(s, dropped, agent, s.names.last + 1) && RestStays(s, dropped)
    requires t == dropped.(relations := map r | r in dropped.relations && r.scope.agent != agent :: dropped.relations[r])
    ensures AgentGone(s, t, agent)
  {
  }

  /** Dropping an agent's graph leaves that. */
  lemma {:induction false} DroppingTakesTheAgent(s: Store, agent: Agent)
    requires Valid(s)
    ensures Valid(WithoutAgent(s, agent)) && AgentGone(s, WithoutAgent(s, agent), agent)
  {
    DroppingKeeps(s, agent, s.names.last + 1);
    RestIs(s, agent, s.names.last + 1);
    DroppingKeepsValid(s, agent);
    GoneWhenDropped(s, EntitiesDropped(s, agent, s.names.last + 1), WithoutAgent(s, agent), agent);
  }

  method DropEntities(db: GraphDb, agent: Agent)
    modifies db
    ensures db.Now() == EntitiesDropped(old(db.Now()), agent, old(db.last) + 1)
  {
    ghost var s := db.Now();
    var n, end := 0, db.last + 1;
    while n < end
      invariant 0 <= n <= end && db.Now() == EntitiesDropped(s, agent, n)
    {
      var next := n + 1;
      DroppedNext(s, agent, n, next);
      if n in db.entities && db.entities[n].scope.agent == agent {
        db.DeleteEntity(n);
      }
      n := next;
    }
  }

  lemma {:induction false} DroppedNext(s: Store, agent: Agent, n: nat, next: nat)
    requires next == n + 1
    ensures var t := EntitiesDropped(s, agent, n);
      EntitiesDropped(s, agent, next) ==
        if n in t.names.entities && t.names.entities[n].scope.agent == agent then WithoutEntity(t, n) else t
  {
  }

  /** What `_delete_agent_rows` does to the graph. */
  method DropAgent(db: GraphDb, agent: Agent)
    requires Valid(db.Now())
    modifies db
    ensures db.Now() == WithoutAgent(old(db.Now()), agent) && Valid(db.Now()) && AgentGone(old(db.Now()), db.Now(), agent)
  {
    DroppingTakesTheAgent(db.Now(), agent);
    DropEntities(db, agent);
    db.relations := map r | r in db.relations && r.scope.agent != agent :: db.relations[r];
  }
}
