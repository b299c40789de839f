/** What a pass of `follow_rechannelled` adds is its agent's and filed outside the old channel
    (cpersona/associations.py:785-825), so one agent's pass leaves what every other agent has
    as it was. */
module Elsewhere {
  import opened Common
  import opened Graph
  import opened Carry
  import opened Rechannel
  import opened Follow

  // ---- names ------------------------------------------------------------------------------

  /** The agent's, and filed outside `from`. */
  predicate Beside(scope: Scope, agent: Agent, from: Channel) {
    scope.agent == agent && scope.channel != from
  }

  /** So are new entities, and the entities of new aliases. */
  ghost predicate NamesElsewhere(x: Names, y: Names, agent: Agent, from: Channel) {
    && (forall e | e in y.entities && e !in x.entities :: Beside(y.entities[e].scope, agent, from))
    && (forall e, n | (e, n) in y.aliases && (e, n) !in x.aliases ::
          e in y.entities && Beside(y.entities[e].scope, agent, from))
  }

  lemma {:induction false} NamesTwice(x: Names, y: Names, z: Names, agent: Agent, from: Channel)
    requires Extends(x, y) && Extends(y, z) && NamesElsewhere(x, y, agent, from) && NamesElsewhere(y, z, agent, from)
    ensures NamesElsewhere(x, z, agent, from)
  {
  }

  /** The only aliases added are the entity's own. */
  lemma {:induction false} AliasesOfOne(x: Names, e: nat, aliases: seq<Option<Term>>, n: nat, maxAliases: nat)
    requires n <= |aliases| && e in x.entities
    ensures forall a, m | (a, m) in AliasesAttached(x, e, aliases, n, maxAliases).names.aliases && (a, m) !in x.aliases :: a == e
  {
    if n > 0 {
      AliasesOfOne(x, e, aliases, n - 1, maxAliases);
    }
  }

  lemma {:induction false} LandAdds(l: Landed, e: EntityRecord, way: Way, agent: Agent, from: Channel)
    requires ValidNames(l.names) && Beside(ScopeHere(way, e), agent, from)
    ensures NamesElsewhere(l.names, Land(l, e, way).names, agent, from)
    ensures var r := Land(l, e, way);
      Usable(way, e) ==>
        e.id in r.at && r.at[e.id] in r.names.entities && r.names.entities[r.at[e.id]].scope == ScopeHere(way, e)
  {
    if Usable(way, e) {
      var p := EntityPlaced(l.names, e, way);
      RegisterExtends(l.names, ScopeHere(way, e), e.name.value, Stamped(e.declaredBy.value, e.at, way.now), true);
      AliasesOfOne(p.names, p.entity, e.aliases, |e.aliases|, |e.aliases|);
    }
  }

  /** Whichever of these ids have landed did so beside the old channel. */
  ghost predicate LandedBeside(l: Landed, ids: seq<nat>, agent: Agent, from: Channel) {
    forall id | id in ids && id in l.at :: l.at[id] in l.names.entities && Beside(l.names.entities[l.at[id]].scope, agent, from)
  }

  lemma {:induction false} LandOneAdds(x: Names, l: Landed, e: EntityRecord, way: Way, ids: seq<nat>, agent: Agent, from: Channel)
    requires ValidNames(l.names) && Extends(x, l.names) && NamesElsewhere(x, l.names, agent, from)
    requires LandedBeside(l, ids, agent, from) && Beside(ScopeHere(way, e), agent, from)
    ensures var r := Land(l, e, way);
      Extends(x, r.names) && NamesElsewhere(x, r.names, agent, from) && LandedBeside(r, ids, agent, from)
  {
    LandKeeps(l, e, way);
    LandAdds(l, e, way, agent, from);
    NamesTwice(x, l.names, Land(l, e, way).names, agent, from);
  }

  lemma {:induction false} LandAllAdds(l: Landed, es: seq<EntityRecord>, n: nat, way: Way, ids: seq<nat>, agent: Agent, from: Channel)
    requires n <= |es| && ValidNames(l.names) && LandedBeside(l, ids, agent, from)
    requires forall i | 0 <= i < |es| :: Beside(ScopeHere(way, es[i]), agent, from)
    ensures var r := LandAll(l, es, n, way);
      Extends(l.names, r.names) && NamesElsewhere(l.names, r.names, agent, from) && LandedBeside(r, ids, agent, from)
  {
    if n > 0 {
      LandAllKeeps(l, es, n - 1, way);
      LandAllAdds(l, es, n - 1, way, ids, agent, from);
      LandOneAdds(l.names, LandAll(l, es, n - 1, way), es[n-1], way, ids, agent, from);
    }
  }

  // ---- a whole store -----------------------------------------------------------------------

  ghost predicate AddsElsewhere(s: Store, t: Store, agent: Agent, from: Channel) {
    && NamesElsewhere(s.names, t.names, agent, from)
    && (forall e, ref | (e, ref) in t.mentions && (e, ref) !in s.mentions ::
          e in t.names.entities && Beside(t.names.entities[e].scope, agent, from))
    && (forall r | r in t.relations && r !in s.relations :: Beside(r.scope, agent, from))
  }

  lemma {:induction false} AddsTwice(s: Store, t: Store, u: Store, agent: Agent, from: Channel)
    requires Grows(s, t) && Grows(t, u) && AddsElsewhere(s, t, agent, from) && AddsElsewhere(t, u, agent, from)
    ensures AddsElsewhere(s, u, agent, from)
  {
    NamesTwice(s.names, t.names, u.names, agent, from);
  }

  lemma {:induction false} MentionsAdd(t: Tally, l: Landed, way: Way, ms: seq<MentionRecord>, n: nat, ids: seq<nat>, agent: Agent, from: Channel)
    requires n <= |ms| && LandedBeside(l, ids, agent, from)
    requires forall i | 0 <= i < |ms| :: ms[i].entity.Some? ==> ms[i].entity.value in ids
    ensures var r := MentionsCarried(t, l, way, ms, n).store;
      && r == t.store.(mentions := r.mentions)
      && forall e, ref | (e, ref) in r.mentions && (e, ref) !in t.store.mentions ::
           e in l.names.entities && Beside(l.names.entities[e].scope, agent, from)
  {
    if n > 0 {
      MentionsAdd(t, l, way, ms, n - 1, ids, agent, from);
    }
  }

  lemma {:induction false} RelationsAdd(t: Tally, l: Landed, way: Way, rs: seq<RelationRecord>, n: nat, agent: Agent, from: Channel)
    requires n <= |rs| && forall i | 0 <= i < |rs| :: Owner(way, rs[i].scope.agent) == agent && rs[i].scope.channel != from
    ensures var r := RelationsCarried(t, l, way, rs, n).store;
      && r == t.store.(relations := r.relations)
      && forall a | a in r.relations && a !in t.store.relations :: Beside(a.scope, agent, from)
  {
    if n > 0 {
      RelationsAdd(t, l, way, rs, n - 1, agent, from);
    }
  }

  /** A parcel's entities and relations, re-filed, are the agent's and beside the old channel. */
  lemma {:induction false} ParcelIsBeside(s: Store, g: Reading, c: Channel, p: Parcel, now: int, agent: Agent, from: Channel)
    requires ParcelOf(s, g, p) && Reads(s, agent, from, g) && c != from
    ensures var b := BundleOf(s, g, c, p);
      && (forall i | 0 <= i < |b.entities| :: Beside(ScopeHere(AsIs(now), b.entities[i]), agent, from))
      && (forall i | 0 <= i < |b.relations| :: Beside(b.relations[i].scope, agent, from))
      && (forall i | 0 <= i < |b.mentions| :: b.mentions[i].entity.Some? ==> b.mentions[i].entity.value in p.entities)
  {
    forall i | 0 <= i < |p.entities| ensures g.entities[p.entities[i]].scope.agent == agent {
      assert Describes(s.names, p.entities[i], g.entities[p.entities[i]]);
    }
    assert forall i | 0 <= i < |p.relations| :: RelationPacked(p, g, p.relations[i]);
    assert forall i | 0 <= i < |p.mentions| :: MentionPacked(p, g, p.mentions[i]);
  }

  lemma {:induction false} JoinAdds(t: Store, x: Names, m: Store, r: Store, agent: Agent, from: Channel)
    requires NamesElsewhere(t.names, x, agent, from)
    requires m == t.(names := x, mentions := m.mentions) && r == m.(relations := r.relations)
    requires forall e, ref | (e, ref) in m.mentions && (e, ref) !in t.mentions ::
      e in x.entities && Beside(x.entities[e].scope, agent, from)
    requires forall a | a in r.relations && a !in t.relations :: Beside(a.scope, agent, from)
    ensures AddsElsewhere(t, r, agent, from)
  {
  }

  /** A parcel carried to another channel adds only there, and only for its agent. */
  lemma {:induction false} ParcelAdds(t: Store, s: Store, g: Reading, c: Channel, p: Parcel, now: int, agent: Agent, from: Channel)
    requires ParcelOf(s, g, p) && Reads(s, agent, from, g) && ValidNames(t.names) && c != from
    ensures AddsElsewhere(t, CarryParcel(t, s, g, c, p, now).store, agent, from)
  {
    var b, way := BundleOf(s, g, c, p), AsIs(now);
    var start := Start(t, InPlace(p));
    var l := LandAll(start, b.entities, |b.entities|, way);
    ParcelIsBeside(s, g, c, p, now, agent, from);
    LandAllAdds(start, b.entities, |b.entities|, way, p.entities, agent, from);
    var named := Tally(t.(names := l.names), 0, l.dropped);
    MentionsAdd(named, l, way, b.mentions, |b.mentions|, p.entities, agent, from);
    var m := MentionsCarried(named, l, way, b.mentions, |b.mentions|);
    var more := Tally(m.store, 0, m.dropped);
    RelationsAdd(more, l, way, b.relations, |b.relations|, agent, from);
    JoinAdds(t, l.names, m.store, RelationsCarried(more, l, way, b.relations, |b.relations|).store, agent, from);
  }

  lemma {:induction false} AllAdd(run: seq<Following>, s: Store, g: Reading, ps: map<Channel, Parcel>,
                                  order: seq<Channel>, now: int, n: nat, agent: Agent, from: Channel)
    requires Parcels(s, g, ps) && CarriesAll(run, s, g, ps, order, now) && n <= |order|
    requires Valid(s) && Reads(s, agent, from, g) && from !in order
    ensures AddsElsewhere(s, run[n].store, agent, from)
  {
    if n > 0 {
      var i := n - 1;
      AllAdd(run, s, g, ps, order, now, i, agent, from);
      CarryAllKeeps(run, s, g, ps, order, now, i);
      var f, h, c, p := StepAt(run, s, g, ps, order, now, i, n);
      NextAdds(f, h, s, g, c, p, now, agent, from);
    }
  }

  lemma {:induction false} NextAdds(f: Following, h: Following, s: Store, g: Reading, c: Channel, p: Parcel, now: int, agent: Agent, from: Channel)
    requires ParcelOf(s, g, p) && h == CarryNext(f, s, g, c, p, now) && c != from && Reads(s, agent, from, g)
    requires Valid(s) && Valid(f.store) && Grows(s, f.store) && AddsElsewhere(s, f.store, agent, from)
    ensures AddsElsewhere(s, h.store, agent, from)
  {
    CarryNextKeeps(f, h, s, g, c, p, now);
    ParcelAdds(f.store, s, g, c, p, now, agent, from);
    AddsTwice(s, f.store, h.store, agent, from);
  }

  // ---- a whole pass --------------------------------------------------------------------------

  /** Everything in the second store is in the first, with what it says. */
  ghost predicate PartOf(t: Store, s: Store) {
    && t.names.last == s.names.last && t.records == s.records
    && (forall e | e in t.names.entities :: e in s.names.entities && t.names.entities[e] == s.names.entities[e])
    && (forall k | k in t.names.aliases :: k in s.names.aliases && t.names.aliases[k] == s.names.aliases[k])
    && (forall k | k in t.mentions :: k in s.mentions && t.mentions[k] == s.mentions[k])
    && (forall r | r in t.relations :: r in s.relations && t.relations[r] == s.relations[r])
  }

  lemma {:induction false} PrunedIsPart(s: Store, n: nat, candidates: set<nat>, copied: set<Relation>)
    ensures PartOf(Pruned(s, n, candidates, copied), s)
  {
    if n > 0 {
      PrunedIsPart(s, n - 1, candidates, copied);
    }
  }

  lemma {:induction false} SettledIsPart(f: Following, g: Reading, landing: map<Ref, Channel>, ps: map<Channel, Parcel>, last: nat)
    ensures PartOf(Settle(f, g, landing, ps, last), f.store)
  {
    var cleared := Cleared(f.store, if f.lost then {} else GoneMentions(g, landing),
                           if f.lost then {} else GoneRelations(g, landing));
    PrunedIsPart(cleared, last + 1, CarriedEntities(ps) - f.incomplete, CopiedRelations(ps, g, landing));
  }

  /** An id given before still means what it did, or nothing. */
  ghost predicate Survive(s: Store, t: Store) {
    && s.names.last <= t.names.last && t.records == s.records
    && (forall e | e in t.names.entities && e <= s.names.last ::
          e in s.names.entities && t.names.entities[e] == s.names.entities[e])
  }

  /** What is still there says what it said. */
  ghost predicate SaysAlike(s: Store, t: Store) {
    && (forall k | k in t.names.aliases && k in s.names.aliases :: t.names.aliases[k] == s.names.aliases[k])
    && (forall k | k in t.mentions && k in s.mentions :: t.mentions[k] == s.mentions[k])
    && (forall r | r in t.relations && r in s.relations :: t.relations[r] == s.relations[r])
  }

  /** A pass adds for its agent alone and nothing to the old channel, and gives no id, alias or
      declaration another meaning. */
  lemma {:induction false} PassAdds(s: Store, t: Store, g: Reading, landing: map<Ref, Channel>, now: int,
                                    run: seq<Following>, order: seq<Channel>, agent: Agent, from: Channel)
    requires Valid(s) && Reads(s, agent, from, g) && from !in landing.Values
    requires Passes(s, t, g, landing, now, run, order)
    ensures Valid(t) && AddsElsewhere(s, t, agent, from) && Survive(s, t) && SaysAlike(s, t)
  {
    var ps, f := Planned(g, landing).value, run[|order|];
    PlannedHolds(s, g, landing, agent, from);
    CarryAllKeeps(run, s, g, ps, order, now, |order|);
    AllAdd(run, s, g, ps, order, now, |order|, agent, from);
    SettledIsPart(f, g, landing, ps, s.names.last);
    SettleSettles(f, s, g, landing, ps, s.names.last, agent, from);
    PartAdds(s, f.store, t, agent, from);
  }

  lemma {:induction false} PartAdds(s: Store, f: Store, t: Store, agent: Agent, from: Channel)
    requires Valid(s) && Valid(t) && Grows(s, f) && AddsElsewhere(s, f, agent, from) && PartOf(t, f)
    ensures AddsElsewhere(s, t, agent, from) && Survive(s, t) && SaysAlike(s, t)
  {
    forall e, ref | (e, ref) in t.mentions && (e, ref) !in s.mentions
      ensures e in t.names.entities && Beside(t.names.entities[e].scope, agent, from)
    {
      assert MentionStands(t, e, ref);
    }
  }

  // ---- what another agent has ----------------------------------------------------------------

  /** What is an agent's is the same in both stores: its entities with their aliases and
      mentions, and its relations. */
  ghost predicate SamePart(s: Store, t: Store, a: Agent) {
    && SameEntities(s, t, a) && SameAliases(s, t, a) && SameMentions(s, t, a)
    && (forall r: Relation | r.scope.agent == a ::
          (r in s.relations <==> r in t.relations) && (r in s.relations && r in t.relations ==> s.relations[r] == t.relations[r]))
  }

  predicate OwnIn(s: Store, e: nat, a: Agent) {
    e in s.names.entities && s.names.entities[e].scope.agent == a
  }

  ghost predicate SameEntities(s: Store, t: Store, a: Agent) {
    && (forall e | OwnIn(s, e, a) :: EntityKept(s, t, e))
    && (forall e | OwnIn(t, e, a) :: EntityKept(t, s, e))
  }

  ghost predicate SameAliases(s: Store, t: Store, a: Agent) {
    forall e: nat, n | OwnIn(s, e, a) ::
      ((e, n) in s.names.aliases <==> (e, n) in t.names.aliases)
      && ((e, n) in s.names.aliases && (e, n) in t.names.aliases ==> s.names.aliases[(e, n)] == t.names.aliases[(e, n)])
  }

  ghost predicate SameMentions(s: Store, t: Store, a: Agent) {
    forall e: nat, ref | OwnIn(s, e, a) ::
      ((e, ref) in s.mentions <==> (e, ref) in t.mentions)
      && ((e, ref) in s.mentions && (e, ref) in t.mentions ==> s.mentions[(e, ref)] == t.mentions[(e, ref)])
  }

  lemma {:induction false} SamePartSelf(s: Store, a: Agent)
    ensures SamePart(s, s, a)
  {
  }

  /** So the same entities are filed in a channel. */
  lemma {:induction false} FilesTheSame(s: Store, t: Store, agent: Agent, from: Channel, id: nat)
    requires SameEntities(s, t, agent)
    ensures id in s.names.entities && Filed(s.names.entities[id].scope, agent, from)
      <==> id in t.names.entities && Filed(t.names.entities[id].scope, agent, from)
    ensures OwnIn(s, id, agent) ==> id in t.names.entities && s.names.entities[id] == t.names.entities[id]
  {
    if OwnIn(s, id, agent) {
      assert EntityKept(s, t, id);
    }
    if OwnIn(t, id, agent) {
      assert EntityKept(t, s, id);
    }
  }

  /** And what they read as. */
  lemma {:induction false} ReadsTheSame(s: Store, t: Store, agent: Agent, from: Channel, g: Reading)
    requires SamePart(s, t, agent) && Reads(t, agent, from, g)
    ensures Reads(s, agent, from, g)
  {
    forall id: nat ensures id in g.entities <==> id in s.names.entities && Filed(s.names.entities[id].scope, agent, from)
      ensures id in g.entities ==> OwnIn(s, id, agent) && s.names.entities[id] == t.names.entities[id]
    {
      FilesTheSame(s, t, agent, from, id);
    }
    forall id | id in g.entities ensures Describes(s.names, id, g.entities[id]) {
      assert Describes(t.names, id, g.entities[id]);
    }
  }

  lemma {:induction false} PartTwice(s: Store, t: Store, u: Store, a: Agent)
    requires SamePart(s, t, a) && SamePart(t, u, a)
    ensures SamePart(s, u, a)
  {
    forall e | OwnIn(s, e, a) ensures EntityKept(s, u, e) && OwnIn(t, e, a) {
      assert EntityKept(s, t, e);
      assert OwnIn(t, e, a) && EntityKept(t, u, e);
    }
    forall e | OwnIn(u, e, a) ensures EntityKept(u, s, e) {
      assert EntityKept(u, t, e);
      assert OwnIn(t, e, a) && EntityKept(t, s, e);
    }
    forall e: nat, n | OwnIn(s, e, a)
      ensures ((e, n) in s.names.aliases <==> (e, n) in u.names.aliases)
        && ((e, n) in s.names.aliases && (e, n) in u.names.aliases ==> s.names.aliases[(e, n)] == u.names.aliases[(e, n)])
    {
      assert OwnIn(t, e, a);
    }
    forall e: nat, ref | OwnIn(s, e, a)
      ensures ((e, ref) in s.mentions <==> (e, ref) in u.mentions)
        && ((e, ref) in s.mentions && (e, ref) in u.mentions ==> s.mentions[(e, ref)] == u.mentions[(e, ref)])
    {
      assert OwnIn(t, e, a);
    }
  }

  /** One agent's pass leaves what every other has as it was. */
  lemma {:induction false} OthersUntouched(s: Store, t: Store, agent: Agent, other: Agent, from: Channel)
    requires Valid(s) && AddsElsewhere(s, t, agent, from) && Survive(s, t) && SaysAlike(s, t)
    requires KeepsOthers(s, t, agent, from) && other != agent
    ensures SamePart(s, t, other)
  {
    forall e | OwnIn(t, e, other) ensures EntityKept(t, s, e) {
      assert e in s.names.entities;
    }
    forall e | OwnIn(s, e, other) ensures EntityKept(s, t, e) {
    }
    OthersSay(s, t, agent, other, from);
  }

  lemma {:induction false} OthersSay(s: Store, t: Store, agent: Agent, other: Agent, from: Channel)
    requires AddsElsewhere(s, t, agent, from) && SaysAlike(s, t) && KeepsOthers(s, t, agent, from) && other != agent
    requires forall e | OwnIn(s, e, other) :: EntityKept(s, t, e)
    ensures SameAliases(s, t, other) && SameMentions(s, t, other)
    ensures forall r: Relation | r.scope.agent == other ::
      (r in s.relations <==> r in t.relations) && (r in s.relations && r in t.relations ==> s.relations[r] == t.relations[r])
  {
    forall e: nat, n | OwnIn(s, e, other) ensures (e, n) in s.names.aliases <==> (e, n) in t.names.aliases {
      assert EntityKept(s, t, e);
    }
    forall e: nat, ref | OwnIn(s, e, other) ensures (e, ref) in s.mentions <==> (e, ref) in t.mentions {
      assert EntityKept(s, t, e);
    }
  }
}
