/** Carrying a parcel of `follow_rechannelled` drops nothing, from a valid store, for any agent
    that has a name, and writes nothing for the one that has none
    (cpersona/associations.py:785-806): the branch that keeps every original is the nameless
    agent's alone. */
module Undropped {
  import opened Common
  import opened Graph
  import opened Carry
  import opened Rechannel
  import opened Follow

  // ---- a carry of what can be written -----------------------------------------------------

  lemma {:induction false} AllUsable(l: Landed, es: seq<EntityRecord>, n: nat, way: Way)
    requires n <= |es| && forall i | 0 <= i < n :: Usable(way, es[i])
    ensures LandAll(l, es, n, way).dropped == l.dropped
  {
    if n > 0 {
      AllUsable(l, es, n - 1, way);
    }
  }

  lemma {:induction false} MentionsWritten(t: Tally, l: Landed, way: Way, ms: seq<MentionRecord>, n: nat)
    requires n <= |ms| && forall i | 0 <= i < n :: MentionHere(l, t.store.records, way, ms[i]).Some?
    ensures var r := MentionsCarried(t, l, way, ms, n); r.dropped == t.dropped && r.store.records == t.store.records
  {
    if n > 0 {
      MentionsWritten(t, l, way, ms, n - 1);
    }
  }

  lemma {:induction false} RelationsWritten(t: Tally, l: Landed, way: Way, rs: seq<RelationRecord>, n: nat)
    requires n <= |rs| && forall i | 0 <= i < n :: RelationHere(l, t.store.records, way, rs[i]).Some?
    ensures var r := RelationsCarried(t, l, way, rs, n); r.dropped == t.dropped && r.store.records == t.store.records
  {
    if n > 0 {
      RelationsWritten(t, l, way, rs, n - 1);
    }
  }

  // ---- a parcel can be written ----------------------------------------------------------------

  /** Where a parcel's entities land, whatever is dropped. */
  function LandedOf(t: Store, s: Store, g: Reading, c: Channel, p: Parcel, now: int): Landed
    requires ParcelOf(s, g, p)
  {
    LandAll(Start(t, InPlace(p)), BundleOf(s, g, c, p).entities, |p.entities|, AsIs(now))
  }

  lemma {:induction false} ParcelUsable(s: Store, g: Reading, c: Channel, p: Parcel, now: int, agent: Agent, from: Channel, i: nat)
    requires ParcelOf(s, g, p) && Reads(s, agent, from, g) && agent != NoAgent && i < |p.entities|
    ensures Usable(AsIs(now), BundleOf(s, g, c, p).entities[i])
    ensures BundleOf(s, g, c, p).entities[i].scope.agent == agent
  {
    assert Describes(s.names, p.entities[i], g.entities[p.entities[i]]);
  }

  lemma {:induction false} EntityLands(t: Store, s: Store, g: Reading, c: Channel, p: Parcel, now: int, agent: Agent, from: Channel, e: nat)
    requires ParcelOf(s, g, p) && Reads(s, agent, from, g) && agent != NoAgent && e in p.entities && ValidNames(t.names)
    ensures var l := LandedOf(t, s, g, c, p, now);
      e in l.at && e in l.owners && l.owners[e] == agent && l.at[e] in l.names.entities
  {
    var es := BundleOf(s, g, c, p).entities;
    var i :| 0 <= i < |p.entities| && p.entities[i] == e;
    BundleIsKeyed(s, g, c, p);
    ParcelUsable(s, g, c, p, now, agent, from, i);
    AllLanded(Start(t, InPlace(p)), es, |es|, AsIs(now), i);
  }

  lemma {:induction false} SeedLands(t: Store, s: Store, g: Reading, c: Channel, p: Parcel, now: int, e: nat)
    requires ParcelOf(s, g, p) && e in EndsOf(p) && e !in p.entities
    ensures var l := LandedOf(t, s, g, c, p, now); e in l.at && l.at[e] == e
  {
    ParcelSeeds(t, s, g, c, p, now, e);
  }

  lemma {:induction false} MentionCanBeWritten(t: Store, s: Store, g: Reading, c: Channel, p: Parcel, now: int, agent: Agent, from: Channel, i: nat)
    requires ParcelOf(s, g, p) && Reads(s, agent, from, g) && agent != NoAgent && i < |p.mentions|
    requires Valid(s) && ValidNames(t.names) && t.records == s.records
    ensures MentionHere(LandedOf(t, s, g, c, p, now), t.records, AsIs(now), BundleOf(s, g, c, p).mentions[i]).Some?
  {
    var m := p.mentions[i];
    assert MentionPacked(p, g, m) && (m.0, m.1) == m;
    assert MentionStands(s, m.0, m.1);
    EntityLands(t, s, g, c, p, now, agent, from, m.0);
  }

  lemma {:induction false} EndCanBeWritten(t: Store, s: Store, g: Reading, c: Channel, p: Parcel, now: int, agent: Agent, from: Channel, end: End)
    requires ParcelOf(s, g, p) && Reads(s, agent, from, g) && agent != NoAgent
    requires ValidNames(t.names) && t.records == s.records
    requires EndStands(s, end, agent) && (end.Thing? ==> end.entity in EndsOf(p))
    ensures EndHere(LandedOf(t, s, g, c, p, now), t.records, AsIs(now), agent, Some(end)).Some?
  {
    if end.Thing? {
      if end.entity in p.entities {
        EntityLands(t, s, g, c, p, now, agent, from, end.entity);
      } else {
        SeedLands(t, s, g, c, p, now, end.entity);
      }
    }
  }

  lemma {:induction false} RowCanBeWritten(l: Landed, records: map<Ref, Agent>, s: Store, r: Relation, c: Channel, now: int, agent: Agent)
    requires r in s.relations && r.scope.agent == agent != NoAgent
    requires EndHere(l, records, AsIs(now), agent, Some(r.subject)).Some? && EndHere(l, records, AsIs(now), agent, Some(r.target)).Some?
    requires r.anchor.Some? ==> r.anchor.value in records && records[r.anchor.value] == agent
    ensures RelationHere(l, records, AsIs(now), RelationRow(s, r, c)).Some?
  {
  }

  lemma {:induction false} RelationCanBeWritten(t: Store, s: Store, g: Reading, c: Channel, p: Parcel, now: int, agent: Agent, from: Channel, i: nat)
    requires ParcelOf(s, g, p) && Reads(s, agent, from, g) && agent != NoAgent && i < |p.relations|
    requires Valid(s) && ValidNames(t.names) && t.records == s.records
    ensures RelationHere(LandedOf(t, s, g, c, p, now), t.records, AsIs(now), BundleOf(s, g, c, p).relations[i]).Some?
  {
    var r := p.relations[i];
    assert RelationPacked(p, g, r) && Filed(r.scope, agent, from);
    assert RelationStands(s, r);
    EndCanBeWritten(t, s, g, c, p, now, agent, from, r.subject);
    EndCanBeWritten(t, s, g, c, p, now, agent, from, r.target);
    RowCanBeWritten(LandedOf(t, s, g, c, p, now), t.records, s, r, c, now, agent);
  }

  /** Everything of a parcel can be written. */
  lemma {:induction false} ParcelUndropped(t: Store, s: Store, g: Reading, c: Channel, p: Parcel, now: int, agent: Agent, from: Channel)
    requires ParcelOf(s, g, p) && Reads(s, agent, from, g) && agent != NoAgent
    requires Valid(s) && ValidNames(t.names) && t.records == s.records
    ensures CarryParcel(t, s, g, c, p, now).dropped == 0
  {
    var b, way, l := BundleOf(s, g, c, p), AsIs(now), LandedOf(t, s, g, c, p, now);
    forall i: nat | i < |b.entities| ensures Usable(way, b.entities[i]) {
      ParcelUsable(s, g, c, p, now, agent, from, i);
    }
    AllUsable(Start(t, InPlace(p)), b.entities, |b.entities|, way);
    forall i: nat | i < |b.mentions| ensures MentionHere(l, t.records, way, b.mentions[i]).Some? {
      MentionCanBeWritten(t, s, g, c, p, now, agent, from, i);
    }
    MentionsWritten(Tally(t.(names := l.names), 0, 0), l, way, b.mentions, |b.mentions|);
    var m := MentionsCarried(Tally(t.(names := l.names), 0, 0), l, way, b.mentions, |b.mentions|);
    forall i: nat | i < |b.relations| ensures RelationHere(l, t.records, way, b.relations[i]).Some? {
      RelationCanBeWritten(t, s, g, c, p, now, agent, from, i);
    }
    RelationsWritten(Tally(m.store, 0, 0), l, way, b.relations, |b.relations|);
  }

  /** So no pass of a named agent ever has to keep its originals. */
  lemma {:induction false} NeverLost(run: seq<Following>, s: Store, g: Reading, ps: map<Channel, Parcel>,
                                     order: seq<Channel>, now: int, n: nat, agent: Agent, from: Channel)
    requires Parcels(s, g, ps) && CarriesAll(run, s, g, ps, order, now) && n <= |order|
    requires Valid(s) && Reads(s, agent, from, g) && agent != NoAgent
    ensures !run[n].lost
  {
    if n > 0 {
      var i := n - 1;
      NeverLost(run, s, g, ps, order, now, i, agent, from);
      CarryAllKeeps(run, s, g, ps, order, now, i);
      var f, h, c, p := StepAt(run, s, g, ps, order, now, i, n);
      ParcelUndropped(f.store, s, g, c, p, now, agent, from);
    }
  }

  // ---- the agent without a name ---------------------------------------------------------------

  lemma {:induction false} NoneUsable(l: Landed, es: seq<EntityRecord>, n: nat, way: Way)
    requires n <= |es| && forall i | 0 <= i < n :: !Usable(way, es[i])
    ensures LandAll(l, es, n, way) == l.(dropped := l.dropped + n)
  {
    if n > 0 {
      NoneUsable(l, es, n - 1, way);
    }
  }

  lemma {:induction false} NoMentionWritten(t: Tally, l: Landed, way: Way, ms: seq<MentionRecord>, n: nat)
    requires n <= |ms| && forall i | 0 <= i < n :: MentionHere(l, t.store.records, way, ms[i]).None?
    ensures MentionsCarried(t, l, way, ms, n) == t.(dropped := t.dropped + n)
  {
    if n > 0 {
      NoMentionWritten(t, l, way, ms, n - 1);
    }
  }

  lemma {:induction false} NoRelationWritten(t: Tally, l: Landed, way: Way, rs: seq<RelationRecord>, n: nat)
    requires n <= |rs| && forall i | 0 <= i < n :: RelationHere(l, t.store.records, way, rs[i]).None?
    ensures RelationsCarried(t, l, way, rs, n) == t.(dropped := t.dropped + n)
  {
    if n > 0 {
      NoRelationWritten(t, l, way, rs, n - 1);
    }
  }

  lemma {:induction false} NamelessParcel(s: Store, g: Reading, c: Channel, p: Parcel, now: int, from: Channel)
    requires ParcelOf(s, g, p) && Reads(s, NoAgent, from, g)
    ensures var b := BundleOf(s, g, c, p);
      && (forall i | 0 <= i < |b.entities| :: !Usable(AsIs(now), b.entities[i]))
      && (forall i | 0 <= i < |b.relations| :: b.relations[i].scope.agent == NoAgent)
  {
    var b := BundleOf(s, g, c, p);
    forall i | 0 <= i < |b.entities| ensures !Usable(AsIs(now), b.entities[i]) {
      assert Describes(s.names, p.entities[i], g.entities[p.entities[i]]);
    }
    forall i | 0 <= i < |b.relations| ensures b.relations[i].scope.agent == NoAgent {
      assert RelationPacked(p, g, p.relations[i]);
    }
  }

  /** A graph of nobody's is dropped whole. */
  lemma {:induction false} NobodysDropped(t: Store, b: Bundle, now: int, seeds: map<nat, nat>)
    requires forall i | 0 <= i < |b.entities| :: !Usable(AsIs(now), b.entities[i])
    requires forall i | 0 <= i < |b.relations| :: b.relations[i].scope.agent == NoAgent
    ensures var done := CarriedGraph(t, b, AsIs(now), seeds);
      done.store == t && done.dropped == |b.entities| + |b.mentions| + |b.relations|
  {
    var way := AsIs(now);
    NoneUsable(Start(t, seeds), b.entities, |b.entities|, way);
    var l := LandAll(Start(t, seeds), b.entities, |b.entities|, way);
    assert t.(names := l.names) == t;
    NoMentionWritten(Tally(t, 0, l.dropped), l, way, b.mentions, |b.mentions|);
    NoRelationWritten(Tally(t, 0, l.dropped + |b.mentions|), l, way, b.relations, |b.relations|);
  }

  /** A parcel of the nameless agent is dropped whole. */
  lemma {:induction false} NamelessDropped(t: Store, s: Store, g: Reading, c: Channel, p: Parcel, now: int, from: Channel)
    requires ParcelOf(s, g, p) && Reads(s, NoAgent, from, g)
    ensures var done := CarryParcel(t, s, g, c, p, now);
      done.store == t && done.dropped == |p.entities| + |p.mentions| + |p.relations|
  {
    NamelessParcel(s, g, c, p, now, from);
    NobodysDropped(t, BundleOf(s, g, c, p), now, InPlace(p));
  }

  /** Carrying for it writes nothing, and it is told of once a parcel holds anything. */
  lemma {:induction false} NamelessStays(run: seq<Following>, s: Store, g: Reading, ps: map<Channel, Parcel>,
                                         order: seq<Channel>, now: int, n: nat, from: Channel)
    requires Parcels(s, g, ps) && CarriesAll(run, s, g, ps, order, now) && n <= |order| && Reads(s, NoAgent, from, g)
    ensures run[n].store == s
    ensures !run[n].lost ==> forall i | 0 <= i < n :: ps[order[i]] == Parcel([], [], [])
    ensures run[n].lost ==> g.entities.Keys <= run[n].incomplete
  {
    if n > 0 {
      var i := n - 1;
      NamelessStays(run, s, g, ps, order, now, i, from);
      var f, h, c, p := StepAt(run, s, g, ps, order, now, i, n);
      NamelessDropped(f.store, s, g, c, p, now, from);
    }
  }

  /** So its declarations stay where they are. */
  lemma {:induction false} NamelessKeepsAll(s: Store, t: Store, g: Reading, landing: map<Ref, Channel>, now: int,
                                            run: seq<Following>, order: seq<Channel>, from: Channel)
    requires Valid(s) && Reads(s, NoAgent, from, g) && Passes(s, t, g, landing, now, run, order)
    ensures t == s
  {
    var ps := Planned(g, landing).value;
    var f := run[|order|];
    PlannedHolds(s, g, landing, NoAgent, from);
    NamelessStays(run, s, g, ps, order, now, |order|, from);
    OnlyWhatWasRead(s, g, ps, landing, NoAgent, from);
    if !f.lost {
      NothingToTake(g, landing, ps, order);
    }
    var cleared := Cleared(s, if f.lost then {} else GoneMentions(g, landing), if f.lost then {} else GoneRelations(g, landing));
    assert cleared == s;
    assert CarriedEntities(ps) - f.incomplete == {};
    NothingPruned(s, s.names.last + 1, CopiedRelations(ps, g, landing));
  }

  lemma {:induction false} NothingToTake(g: Reading, landing: map<Ref, Channel>, ps: map<Channel, Parcel>, order: seq<Channel>)
    requires Plans(ps, g, landing) && (forall c | c in ps :: c in order) && (forall c | c in order :: c in ps)
    requires forall i | 0 <= i < |order| :: ps[order[i]] == Parcel([], [], [])
    ensures GoneMentions(g, landing) == {} && GoneRelations(g, landing) == {} && CarriedEntities(ps) == {}
  {
    forall c | c in ps ensures ps[c] == Parcel([], [], []) {
      var i :| 0 <= i < |order| && order[i] == c;
    }
    forall m ensures m !in GoneMentions(g, landing) {
      assert m in g.mentions ==> MentionTaken(ps, landing, m);
    }
    forall r ensures r !in GoneRelations(g, landing) {
      assert r in g.relations ==> RelationTaken(ps, landing, r);
    }
  }

  lemma {:induction false} NothingPruned(s: Store, n: nat, copied: set<Relation>)
    ensures Pruned(s, n, {}, copied) == s
  {
    if n > 0 {
      NothingPruned(s, n - 1, copied);
    }
  }
}
